# Two-stage sounding rocket: flight physics and sizing, in Dafny

This project models the computational core of a student two-stage sounding-rocket
design tool and proves properties of it. The tool is written in Python with numpy and
numba. All arithmetic is exact `real` arithmetic. The parts modelled are:

- **Atmosphere and drag** (`aerodynamics.dfy`):
  - `isa` walks a nine-row table of layer ceilings and lapse rates. The table is the
    temperature-gradient profile of ISO 2533:1975 up to 86 km, held isothermal up to
    400 km. The walk accumulates temperature linearly and pressure by an isothermal or
    a polytropic factor per layer. It breaks off in the layer that holds the height and
    returns (0, 0, 0) above 400 km.
  - The component drag functions are skin friction, nosecone, shoulder, fin leading
    edge and base. They are piecewise in Mach number, and a stage flag selects which
    components add up.
- **Gravity** (`gravity.dfy`): Newton's inverse-square weight.
- **The advanced trajectory integrator** (`advanced_dynamics.dfy`):
  - A forward-Euler loop over the `np.linspace` sample times fills the flight buffer
    in place. The buffer is a class whose arrays the loop writes.
  - It runs while the vertical velocity is not negative.
  - Thrust and fuel follow a coast / pre-ignition / burning / burned-out schedule. The
    burning phase reads the engine curves through the running index `delay_i`.
- **The simple trajectory integrator** (`simple_dynamics.dfy`): the earlier loop. It
  runs while the altitude is not negative, reads thrust and fuel per step, and pushes
  the thrust along the velocity.
- **The simple solid motor** (`engines.dfy`): a class whose `burn(dt)` call reduces the
  stored fuel while any is left.
- **Stability sizing** (`stability.dfy`):
  - The rocket is a class with two stage records. The sizing pass lays the subsystems
    out from the nose tip with a running station `datum`.
  - It writes CG and CP stations, flow and wetted areas, mean aerodynamic chords, fin
    spans and shell masses.
  - It forms mass-weighted stage CGs and area-weighted stage CPs, and from those the
    rocket's totals.
- **Motor sizing formulas** (`engine_sizing.dfy`): closed-form relations between thrust,
  impulse, mass flow, casing, chamber, nozzle throat and grain burn area.

The elementary functions are not defined in Dafny's logic: sqrt, exp, power with a
real exponent, ln, sin, cos, arcsin, arccos, arctan and pi. They are the fields of a
value `RealMath.Elementary` that each operation needing them takes as a parameter.
`RealMath.Lawful` and `RealMath.TrigAtZero` list the only facts the proofs use about
them, such as pow(1, k) = 1, pow(0, k) = 0 for k > 0, exp(0) = 1, that exp rises
strictly, that pow(x, k) rises strictly in x > 0 for k > 0 and falls for k < 0, and
cos²(30°) = 3/4.

Where the advanced integrator would fail, it ends with a named stop reason instead:
an empty fuel curve, a zero `dt`, a negative sample count, or a burning step that
reads past a curve. The simple integrator stops the same way on a zero `dt`, a
negative sample count or a division by a zero speed. Its per-step curves are read
without a bounds check, so the model requires them to cover every sample (see
"Left out"). Conditions the source leaves to its callers are preconditions: nonzero
divisors in the sizing formulas, nonzero masses, and a buffer large enough for the
samples.

Some behaviour shown by the proofs, stated as the code has it:

- The shoulder station `datum + 2/3·L·(d1 + 2·d2)/(d1 + d2)` always lies between 2/3
  and 4/3 of the shoulder length behind its start. It lies inside the shoulder only
  when the booster is wider than the upper stage (`Stability.ShoulderPointPlacement`).
- The fin-span rules divide the missing CP moment among all the fins of a set: by
  `amount` on the upper stage and by `2·amount` on the booster. `calculate_flow_area`
  then gives the fin set the area of one fin, ½·span·(cr + ct). If the passes are run
  again until the totals settle, the fins supply only 1/amount (booster: 1/(2·amount))
  of the moment the rule asked for. The upper stage's CP reaches its needed station
  only with a single fin, and falls short of it with more
  (`Stability.SettledUpperSpan`).
- The booster rule also leaves the upper fins' moment out of what it subtracts
  (`Stability.SettledLowerSpan`).
- `initialize` forms the CG totals from the masses the rocket arrives with, before
  `update_masses` rewrites the shell masses. Neither pass recomputes stage or rocket
  masses.
- In `run` the fin masses use the wetted area from before the new span.
- The advanced loop overwrites `angles[i]` after using it and never writes
  `angles[i + 1]`. Every step therefore steers by the angle column as it was before
  the run (`AdvancedDynamics.VerticalFlightStaysVertical`).
- The loop's `time += dt` has no effect: the next linspace sample replaces it.

## Model

| member | source | states |
|---|---|---|
| RealMath.Trunc | engineering/simulators/advanced/dynamics.py:13 | Python's `int()` on a float truncates toward zero: r ≤ x < r + 1 for x ≥ 0, and r − 1 < x ≤ r below 0 |
| RealMath.Min | engineering/sizing/stability.py:18 | `min` of two values is at most both and equal to one of them |
| RealMath.Max | engineering/sizing/stability.py:19 | `max` of two values is at least both and equal to one of them |
| Kinematics.EulerStepBalance | engineering/simulators/advanced/dynamics.py:50-52 | the Euler step moves the location by dt times the old velocity, and velocity times mass grows by force times dt |
| Kinematics.LinspaceTime | engineering/simulators/advanced/dynamics.py:13 | sample 0 of np.linspace is the start time; the last of n ≥ 2 samples is the end time |
| Kinematics.LinspaceIncreasing | engineering/simulators/advanced/dynamics.py:13 | the sample times rise strictly with the index when end > start |
| Kinematics.LinspaceSpacing | engineering/simulators/advanced/dynamics.py:13 | consecutive samples lie (end − start)/(n − 1) apart, whatever dt is |
| Gravity.Weight | engineering/simulators/advanced/gravity.py:7-11 | the force times (R + h)² is G·M·m with R = 6.371e6, M = 5.972e24, G = 6.6743e-11; it is 0 for m = 0 and positive for m > 0 above the Earth's centre |
| Gravity.WeightLinearInMass | engineering/simulators/advanced/gravity.py:11 | gravity(h, k·m) = k·gravity(h, m) |
| Gravity.WeightDecreasesWithHeight | engineering/simulators/advanced/gravity.py:11 | for m > 0 the weight strictly decreases with height above the surface |
| Aerodynamics.StopLayer | engineering/simulators/advanced/aerodynamics.py:32-48 | the walk breaks off at the first row whose ceiling is not below h; every earlier row lies wholly below h |
| Aerodynamics.StopFrom | engineering/simulators/advanced/aerodynamics.py:32-48 | searching from row i finds a row at or after i whose ceiling is not below h, with all rows between below h |
| Aerodynamics.BaseTemperatureTable | engineering/simulators/advanced/aerodynamics.py:5-14 | each row's top temperature is the one below it plus lapse × full thickness, and none is below 184.65 K |
| Aerodynamics.TempAfterCrossed | engineering/simulators/advanced/aerodynamics.py:32-48 | every row crossed in full leaves the temperature at that row's top value |
| Aerodynamics.TempAtStop | engineering/simulators/advanced/aerodynamics.py:36-41 | in the row that holds h the temperature is the row's base value plus lapse × (h − floor) |
| Aerodynamics.TempAfterPositive | engineering/simulators/advanced/aerodynamics.py:32-48 | the walk's temperature never drops below 184.65 K up to 400 km |
| Aerodynamics.PressureFactorPositive | engineering/simulators/advanced/aerodynamics.py:42-45 | the isothermal and polytropic pressure factors are positive |
| Aerodynamics.CrossRow | engineering/simulators/advanced/aerodynamics.py:40-45 | one loop pass: T grows by lapse × Δh, p is multiplied by the layer's factor, and both temperatures are positive |
| Aerodynamics.StopsAt | engineering/simulators/advanced/aerodynamics.py:47-48 | the first row reached whose ceiling is at least h is where the walk stops |
| Aerodynamics.WalkLayers | engineering/simulators/advanced/aerodynamics.py:30-48 | the loop returns the temperature and pressure of the walk at h, and the temperature is at least 184.65 K |
| Aerodynamics.Isa | engineering/simulators/advanced/aerodynamics.py:18-54 | isa returns the atmosphere IsaSpec describes |
| Aerodynamics.IsaSpec | engineering/simulators/advanced/aerodynamics.py:27-54 | (0, 0, 0) above 400 km; otherwise the walk's temperature (≥ 184.65 K) and pressure, with density p/(287·T) |
| Aerodynamics.GasLaw | engineering/simulators/advanced/aerodynamics.py:52 | the returned density satisfies ρ·287·T = p |
| Aerodynamics.TemperatureProfile | engineering/simulators/advanced/aerodynamics.py:5-14 | T = 288.15 − 0.0065·h up to 11 km; 216.65 K over 11–20 km; 228.65 K at 32 km; 270.65 K over 47–51 km; 184.65 K from 86 km; between 184.65 and 288.15 K for h ≥ 0 |
| Aerodynamics.IsaAtSeaLevel | engineering/simulators/advanced/aerodynamics.py:22-54 | isa(0) = (288.15, 101325, 101325/(287·288.15)), using only pow(1, k) = 1 |
| Aerodynamics.PressAfterPositive | engineering/simulators/advanced/aerodynamics.py:40-45 | the pressure stays positive through the walk |
| Aerodynamics.IsaPositive | engineering/simulators/advanced/aerodynamics.py:18-54 | up to 400 km temperature, pressure and density are all positive |
| Aerodynamics.FactorDecreases | engineering/simulators/advanced/aerodynamics.py:40-45 | a layer's pressure factor, isothermal or polytropic, falls strictly as the crossed thickness grows, for either sign of the lapse rate |
| Aerodynamics.FactorAtZero | engineering/simulators/advanced/aerodynamics.py:40-45 | a layer crossed over zero thickness keeps the temperature and has factor 1 |
| Aerodynamics.PressureDecreases | engineering/simulators/advanced/aerodynamics.py:18-54 | for h1 < h2 ≤ 400 km, isa's pressure at h2 is strictly below that at h1 |
| Aerodynamics.CorrectedFrictionBounds | engineering/simulators/advanced/aerodynamics.py:186-202 | the compressibility-corrected coefficient is the larger of the regime correction and the laminar-limit correction: at least each, and equal to one |
| Aerodynamics.SkinFrictionDrag | engineering/simulators/advanced/aerodynamics.py:205-218 | the reference area cancels: the force is the corrected coefficient × the form-weighted wetted areas of the selected parts × q, and 0 when no stage is selected |
| Aerodynamics.FrictionOfBothStages | engineering/simulators/advanced/aerodynamics.py:205-214 | friction over both stages is the two single-stage frictions less the body term both count |
| Aerodynamics.StagnationFactor | engineering/simulators/advanced/aerodynamics.py:226-231 | the stagnation factor is at least 1 at every Mach number, so the blunt coefficient the nosecone formula divides by is never 0 |
| Aerodynamics.NoseconeCoefficient | engineering/simulators/advanced/aerodynamics.py:226-238 | at Mach ≤ 1 the coefficient is 0 when the exponent ln 6/ln 4 is positive and pow(0, k) = 0 |
| Aerodynamics.SubsonicNoseconeHasNoDrag | engineering/simulators/advanced/aerodynamics.py:226-238 | for lawful elementary functions the nosecone coefficient is exactly 0 at Mach ≤ 1 |
| Aerodynamics.NoseconePressureDrag | engineering/simulators/advanced/aerodynamics.py:240-244 | returns the nosecone coefficient second, and zero force whenever that coefficient is 0 |
| Aerodynamics.ShoulderPressureDrag | engineering/simulators/advanced/aerodynamics.py:248-253 | the force is cd·q·π/4·(d1 − d2)(d1 + d2), so it is 0 for equal stage diameters, a zero coefficient or zero q |
| Aerodynamics.CrossFlowIsThreeQuarters | engineering/simulators/advanced/aerodynamics.py:265-266 | the slanted-fin correction cos²(30°) is 3/4 |
| Aerodynamics.FinPressureDrag | engineering/simulators/advanced/aerodynamics.py:257-281 | 0 for an unselected fin set; otherwise the raw leading-edge coefficient × cos 30° × q × thickness × span |
| Aerodynamics.SupersonicLeadingEdgeBounds | engineering/simulators/advanced/aerodynamics.py:262-263 | above Mach 1 the supersonic leading-edge coefficient lies strictly between 0.8215 and 1.214 |
| Aerodynamics.LeadingEdgeCoefficient | engineering/simulators/advanced/aerodynamics.py:258-263 | above Mach 0.9 the leading-edge coefficient lies in [0.8215, 1.214); at rest it is 0 when pow(1, −0.417) = 1 |
| Aerodynamics.BaseCoefficient | engineering/simulators/advanced/aerodynamics.py:286-289 | for M ≥ 0 the base coefficient lies in (0, 0.25] and is 0.25 only at M = 1; it is at least 0.12 up to Mach 1 |
| Aerodynamics.BaseDrag | engineering/simulators/advanced/aerodynamics.py:285-296 | with q, M and the base ring π·d2·0.003 non-negative the base drag lies in [0, ¼·q·ring]; it is positive once q and the ring are |
| Aerodynamics.BranchesMeetAtMachOne | engineering/simulators/advanced/aerodynamics.py:258-289 | at Mach 1 both base-drag branches give 0.25, and the transonic and supersonic leading-edge branches both give 0.8215 |
| Aerodynamics.Drag | engineering/simulators/advanced/aerodynamics.py:300-333 | drag is exactly 0 for a velocity that is not positive |
| Aerodynamics.SubsonicDragHasNoPressureTerms | engineering/simulators/advanced/aerodynamics.py:312-327 | below Mach 1 every stage selection's drag is friction + fin drag + base drag, with no nosecone or shoulder term |
| Aerodynamics.CombinedDragDecomposition | engineering/simulators/advanced/aerodynamics.py:312-327 | whole-rocket drag = stage-1 drag + stage-2 drag − base drag − the body's friction, which both single-stage sums count |
| SimpleEngines.Engine.constructor | engineering/simulators/simple/engines.py:25-30 | a fresh motor has 100 kg of fuel, 10 s burn time, burn rate 100/10 = 10 kg/s and 10000 N of thrust |
| SimpleEngines.Engine.Burn | engineering/simulators/simple/engines.py:32-40 | while fuel is left a call removes rate × dt and returns full thrust; once the store is empty the call returns (0, stored fuel) and changes nothing; no other field changes |
| SimpleEngines.BurnOutput | engineering/simulators/simple/engines.py:33-40 | a call that finds fuel returns full thrust and the remaining fuel clamped at 0, which is never negative; an empty store returns (0, stored fuel) |
| SimpleEngines.FuelBeforeCall | engineering/simulators/simple/engines.py:33-34 | after k calls the store holds fuel0 − k·step, until call ⌈fuel0/step⌉ empties it, after which it stays put |
| SimpleEngines.ThrustingCallsOfFreshEngine | engineering/simulators/simple/engines.py:33-38 | for dt > 0 a fresh motor gives exactly ⌈100/(10·dt)⌉ thrusting calls: call k thrusts iff k < ⌈100/(10·dt)⌉ |
| EngineSizing.InitialAcceleration | engineering/sizing/engine.py:44-46 | the tower acceleration a satisfies a·2L = v² |
| EngineSizing.TowerAccelerationExample | engineering/sizing/engine.py:44-46 | initial_acc(12.5, 5) = 1 |
| EngineSizing.ThrustForce | engineering/sizing/engine.py:51-53 | the thrust divided by the vehicle mass is the acceleration |
| EngineSizing.ScriptThrust | engineering/sizing/engine.py:9-55 | the script's 140 kg vehicle on a 14 m tower at 40 m/s needs 8000 N |
| EngineSizing.EffectiveExhaustVelocity | engineering/sizing/engine.py:58-60 | the effective exhaust velocity is 19/20 of Isp·g: strictly between 0 and Isp·g when that is positive, 0 when it is 0 |
| EngineSizing.PropellantMass | engineering/sizing/engine.py:63-65 | propellant mass × Isp·g = total impulse |
| EngineSizing.MassFlow | engineering/sizing/engine.py:70-73 | mass flow × Isp·g = thrust |
| EngineSizing.PropellantMassIsFlowTimesBurnTime | engineering/sizing/engine.py:63-73 | propellant_mass = mass_flow × (I/F), the flow sustained for the burn time |
| EngineSizing.ExhaustVelocityTimesMassFlow | engineering/sizing/engine.py:58-73 | effective exhaust velocity × mass flow = 0.95 × thrust |
| EngineSizing.CasingThickness | engineering/sizing/engine.py:86-88 | for positive strength, pressure and diameter the thickness lies strictly between the 3 mm liner and D/2 + 3 mm |
| EngineSizing.WallBetweenZeroAndRadius | engineering/sizing/engine.py:87 | the hoop-stress wall P·D/(2σ + 2P) lies strictly between 0 and D/2 |
| EngineSizing.ChamberVolume | engineering/sizing/engine.py:93-95 | chamber volume × 0.8·ρ = propellant mass |
| EngineSizing.PropellantOuterDiameter | engineering/sizing/engine.py:99-101 | grain diameter + 2·wall = stage diameter, and the grain diameter is positive iff the wall is under half the stage diameter |
| EngineSizing.ChamberLength | engineering/sizing/engine.py:106-108 | chamber length × π·d²/4 = chamber volume |
| EngineSizing.NozzleThroatArea | engineering/sizing/engine.py:113-115 | throat area × chamber pressure = mass flow × c* |
| EngineSizing.TotalLength | engineering/sizing/engine.py:129-130 | the motor length less either part is the other part |
| EngineSizing.RegressionRate | engineering/sizing/engine.py:143-145 | a zero pressure coefficient gives a zero burning rate |
| EngineSizing.RegressionRateAtUnitPressure | engineering/sizing/engine.py:143-145 | at unit pressure the rate a·Pⁿ is the coefficient a |
| EngineSizing.BurnArea | engineering/sizing/engine.py:148-150 | burn area × regression rate × ρ = mass flow |
| EngineSizing.BurnAreaRegressesTheMassFlow | engineering/sizing/engine.py:143-150 | the burn area computed from de Saint Robert's rate regresses exactly the mass flow |
| SimpleDynamics.SimpleForce | engineering/simulators/simple/dynamics.py:24-27 | once drag and weight are put back, the force is parallel to the velocity, so thrust acts along the direction of flight; with no thrust only −drag and −weight remain |
| SimpleDynamics.SimpleNext | engineering/simulators/simple/dynamics.py:17-32 | the new location is the old one plus dt times the old velocity; a row with no horizontal velocity and no horizontal drag keeps horizontal velocity 0 and its x |
| SimpleDynamics.RecordedUpdate | engineering/simulators/simple/dynamics.py:14-32 | writing the atmosphere at row i and the successor at row i + 1 extends the recorded run by one step |
| SimpleDynamics.RecordedStep | engineering/simulators/simple/dynamics.py:7-37 | every step of a recorded run read a row at or above the ground, wrote isa of its altitude at its own index and at the next the successor SimpleNext gives, with gravity at 50 + 100 kg on step 0 and at 50 kg plus the previous step's fuel row after that |
| SimpleDynamics.Integrate | engineering/simulators/simple/dynamics.py:11-37 | the loop over n samples: stops at the first row below ground, at zero speed, or after n steps; the rows it wrote record the run (each step's successor as SimpleNext gives it); rows it did not reach are unchanged |
| SimpleDynamics.Run | engineering/simulators/simple/dynamics.py:6-37 | stops with ZeroTimeStep exactly when dt = 0 and with NoSamples exactly when int((end − start)/dt) is negative, both with nothing written; otherwise stops below ground, at zero speed or after all samples, with the written rows recording the run and unreached rows unchanged |
| AdvancedDynamics.CoastHasNoThrust | engineering/simulators/advanced/dynamics.py:23-25 | with coast set every step has thrust 0 and fuel 0, and delay_i stays 0 |
| AdvancedDynamics.BurnsBeforeBound | engineering/simulators/advanced/dynamics.py:30-31 | delay_i never exceeds the number of steps taken |
| AdvancedDynamics.CurvesLongEnough | engineering/simulators/advanced/dynamics.py:30-33 | curves longer than the sample count are never read past their end |
| AdvancedDynamics.PhasesInTimeOrder | engineering/simulators/advanced/dynamics.py:27-36 | a later time never falls in an earlier phase: pre-ignition, then burning, then burned out |
| AdvancedDynamics.StepPhasesInOrder | engineering/simulators/advanced/dynamics.py:13-36 | over the rising linspace times the steps pass through the phases in that order |
| AdvancedDynamics.NoBurnsBeforeIgnition | engineering/simulators/advanced/dynamics.py:27-29 | no step up to one before ignition burns, so delay_i is still 0 there |
| AdvancedDynamics.BurningRowsConsecutive | engineering/simulators/advanced/dynamics.py:30-33 | between two burning steps delay_i rises by exactly one per step, so the burn reads consecutive curve rows |
| AdvancedDynamics.FirstBurnReadsRowOne | engineering/simulators/advanced/dynamics.py:30-33 | the first burning step reads row 1: row 0 of the thrust curve is never used |
| AdvancedDynamics.Schedule | engineering/simulators/advanced/dynamics.py:23-36 | the thrust branch gives the scheduled throttle of step i (or the overrun) and the delay_i of step i + 1 |
| AdvancedDynamics.VerticalStep | engineering/simulators/advanced/dynamics.py:41-52 | at angle 0, a row with no horizontal velocity gains none and keeps its x |
| AdvancedDynamics.VerticalFlightStaysVertical | engineering/simulators/advanced/dynamics.py:41-59 | a run that starts with no horizontal velocity and all angles 0 keeps every row on the launch vertical |
| AdvancedDynamics.NetForce | engineering/simulators/advanced/dynamics.py:41-42 | net of gravity, the force points along the heading angle: x·cos(angle) = (y + gravity)·sin(angle); at angle 0 it is (0, thrust − drag − gravity) |
| AdvancedDynamics.Heading | engineering/simulators/advanced/dynamics.py:54-59 | the heading written back is 0 at zero speed, and 0 for any velocity with no horizontal part |
| AdvancedDynamics.VerticalHeadings | engineering/simulators/advanced/dynamics.py:54-59 | on the launch vertical every heading written back into angles[i] is 0 |
| AdvancedDynamics.RecordedStep | engineering/simulators/advanced/dynamics.py:7-61 | every step of a recorded run read a row with non-negative vertical velocity and wrote its air row, forces and heading at its own index and its Euler successor, speed and time at the next; its gravity saw mass[0] + fuel_mass_curve[0] on step 0 and mass[0] plus the previous step's fuel after that |
| AdvancedDynamics.Step | engineering/simulators/advanced/dynamics.py:14-61 | the loop body writes only index i and i + 1: a descending row stops with nothing written; a curve overrun leaves only the air row written; otherwise the step is recorded and hands on mass_total and delay_i |
| AdvancedDynamics.Integrate | engineering/simulators/advanced/dynamics.py:13-65 | the loop stops at the first negative vertical velocity, at a curve overrun, or after all samples; the rows it wrote record the run, step by step as RecordedStep spells out; rows it did not reach are unchanged |
| AdvancedDynamics.Run | engineering/simulators/advanced/dynamics.py:6-65 | an empty fuel curve (read first, at line 8), a zero dt and a negative sample count each stop the run with nothing written, exactly in those cases; otherwise the run is Integrate's over the linspace times |
| Stability.BodyCg | engineering/sizing/stability.py:5-28 | recovery CG at the bay's middle; motor CG range from the empty to the loaded motor, with min ≤ max; fin CG half a root chord ahead of the body end; returns the body end |
| Stability.MotorCgRange | engineering/sizing/stability.py:13-19 | with non-negative propellant behind the nose tip, the empty motor's CG is the minimum and the loaded motor's the maximum |
| Stability.BodyCp | engineering/sizing/stability.py:125-137 | recovery and motor CPs at their sections' middles, fin CP half a root chord ahead of the body end; returns the body end |
| Stability.BodyStations | engineering/sizing/stability.py:125-137 | recovery and fins get the same CG and CP stations, and for sensible lengths the stations run in order from the body's start to its end |
| Stability.BodyFlow | engineering/sizing/stability.py:159-167 | flow areas: length × diameter for recovery bay and motor, ½·span·(cr + ct) for a fin |
| Stability.BodyWetted | engineering/sizing/stability.py:82-90 | wetted areas: mantle π·L·d for recovery bay and motor, 2·amount·span·(cr + ct) for the fins |
| Stability.WettedOverFlow | engineering/sizing/stability.py:82-90 | wetted area is π × flow area for recovery bay and motor, and 4·amount × flow area for the fins |
| Stability.LawfulShellDivisors | engineering/sizing/stability.py:96-104 | for lawful elementary functions the shell formulas' divisors √π and cos(arctan x) are nonzero |
| Stability.StageCg | engineering/sizing/stability.py:58-68 | cg_stage's loop returns the CG moments of the listed subsystems divided by the stage mass |
| Stability.StageCgOrdered | engineering/sizing/stability.py:58-68 | with non-negative masses and positive stage mass, subsystem ranges with min ≤ max give a stage range with min ≤ max |
| Stability.MomentMonotone | engineering/sizing/stability.py:58-68 | with non-negative weights the weighted sum grows with the locations |
| Stability.StageCp | engineering/sizing/stability.py:188-196 | cp_stage: the flow area is the sum of the listed areas and the CP is the area-weighted mean of the listed CPs |
| Stability.MomentBounds | engineering/sizing/stability.py:188-196 | with non-negative weights the moment of locations in [lo, hi] lies between lo and hi times the total weight |
| Stability.WeightedMeanBetween | engineering/sizing/stability.py:188-196 | a mean weighted by non-negative weights of positive total lies between the lowest and highest station, so a stage CP lies among its subsystems' CPs |
| Stability.TwoStageMeanBetween | engineering/sizing/stability.py:205-206 | the rocket CP, a weighted mean of the stage CPs with non-negative areas of positive sum, lies between them |
| Stability.ShoulderPointPlacement | engineering/sizing/stability.py:148-155 | the shoulder station lies between 2/3 and 4/3 of the shoulder length behind its start; it lies inside the shoulder iff the booster is wider, and at its end iff both are equally wide |
| Stability.ChordFactorBounds | engineering/sizing/stability.py:116-118 | for a taper ratio l in [0, 1], (1 + l + l²)/(1 + l) lies in [1, 3/2], is at least 3l/2, and is 3/2 only at l = 1 |
| Stability.MacBounds | engineering/sizing/stability.py:116-118 | for 0 ≤ ct ≤ cr the MAC lies between max(ct, 2/3·cr) and cr, and equals cr exactly when ct = cr |
| Stability.Rocket.CgLocations | engineering/sizing/stability.py:4-54 | nosecone length 5·d and CG 25/8·d; upper body from the nose end; shoulder CG at the shoulder station; booster body behind the shoulder; only CG stations and the nosecone length change |
| Stability.Rocket.TotalCg | engineering/sizing/stability.py:57-78 | stage CG ranges are the listed subsystems' mass moments over the stage mass, the rocket's the stage ranges weighted with the stage masses; nothing else changes |
| Stability.Rocket.WettedArea | engineering/sizing/stability.py:81-112 | nosecone length 5·d and its wetted area; shoulder frustum mantle; both bodies' wetted areas; electronics and payload wetted areas 0; nothing else changes |
| Stability.Rocket.Mac | engineering/sizing/stability.py:115-121 | each fin set's MAC is cr·2/3·(1 + l + l²)/(1 + l) with l = ct/cr; nothing else changes |
| Stability.Rocket.CpLocations | engineering/sizing/stability.py:124-155 | nosecone CP 2.5·d and length 5·d; body CPs laid out front to back; shoulder CP at the shoulder station; only CP stations and the nosecone length change |
| Stability.Rocket.FlowArea | engineering/sizing/stability.py:158-184 | nosecone 10/3·d², shoulder ½·L·(d1 + d2), body and fin areas, electronics and payload 0; the listed areas are the outline's side areas |
| Stability.Rocket.TotalCp | engineering/sizing/stability.py:187-206 | stage flow areas are the sums of the listed areas, stage CPs their area-weighted means, the rocket's area the sum and its CP the weighted mean of the stages' |
| Stability.Rocket.FinSpan | engineering/sizing/stability.py:209-234 | only the spans change: the upper fins' area at their CP supplies the moment the nosecone, recovery and motor leave short of the needed CP; the booster fins' does the same against the rocket totals |
| Stability.SettledUpperSpan | engineering/sizing/stability.py:209-225 | when the upper-stage totals rest on the one-fin flow area (line 167) of the new span, the fins' moment times amount is the moment the rule asked for; the stage CP reaches the needed station with one fin and falls short of it with more |
| Stability.SettledLowerSpan | engineering/sizing/stability.py:227-234 | when the rocket totals rest on the one-fin flow area (line 167) of the new booster span, the booster fins' moment times 2·amount is what the rule asked for, with the upper fins' moment not subtracted |
| Stability.Rocket.UpdateMasses | engineering/sizing/stability.py:258-269 | the stages become WeighUpper and WeighLower of the old ones: nosecone and shoulder mass = wetted area × thickness × density, fin mass = half the wetted area × thickness × density; nothing else changes |
| Stability.MomentsKeepSpan | engineering/sizing/stability.py:308-313 | the span balances read only stations, areas and stage values, so setting fin thickness and masses after the span keeps them |
| Stability.BodyLaidOut | engineering/sizing/stability.py:4-184 | the CG, wetted-area, MAC, CP and flow-area passes over one body compose to LaidBody |
| Stability.Rocket.Survey | engineering/sizing/stability.py:272-284 | the shared passes in their order: each stage is LaidUpper / LaidLower of the old stage (every CG and CP station, the 5·d nosecone, wetted and flow areas, MACs) with its totals; stage min and max CGs from the arriving masses and the rocket's range as their mass-weighted mean, flow areas of the outline, stage CPs and the rocket CP as area-weighted means; rocket mass, diameter and stability margin unchanged |
| Stability.Rocket.Initialize | engineering/sizing/stability.py:272-287 | the shared passes and then the masses: each stage is WeighUpper / WeighLower of its laid-out stage with its totals; stage and rocket CG ranges rest on the old masses, flow areas and CPs as in Survey, nosecone and shoulder shell masses = wetted area × thickness × density, fin masses from the new wetted areas; no stage or rocket mass changes |
| Stability.Rocket.SizeFins | engineering/sizing/stability.py:308-313 | each stage is the old one with only the fin span and thickness set and then weighed; the spans satisfy both span balances, the fin and shell masses use the unchanged wetted areas; the rocket totals are unchanged |
| Stability.Rocket.Run | engineering/sizing/stability.py:290-315 | each stage is its laid-out stage with the new span and thickness, weighed; the CG, flow-area and CP totals are those of Survey, on the masses from before the pass; both span balances hold, the fins have the given thicknesses, and the fin masses rest on the wetted area of the span from before the pass |

## Left out

- Floating point: numba's `njit`/`jitclass`, the motor's float32 fields and IEEE rounding are not modelled. All arithmetic is exact `real`.
- Elementary functions: sqrt, exp, real powers, ln, sin, cos, arcsin, arccos, arctan and pi have no values here. Only the facts in `Lawful` and `TrigAtZero` are assumed of them, so the nosecone and shoulder wetted areas stay symbolic.
- Divisions by zero: where the source would raise or produce inf/nan, the model requires the divisor nonzero. This covers the motor sizing formulas, `Weight` at the Earth's centre, `DragDefined`/`FrictionDefined` in the drag model, `Sizable`/`Spannable`/`SpanDivisible`/`Tapered` in the sizing pass, and nonzero masses in both integrators.
- Buffer capacity: both integrators require the flight buffer to hold every row the samples can reach. In the advanced loop, which runs uncompiled (the `@njit` decorator is commented out), writing past the end would be an IndexError. The simple loop is compiled by numba's `@njit`, which does not check bounds, so there such a write goes out of range unchecked.
- SimpleDynamics.Integrate: the per-step thrust and fuel curves are required to cover all samples. Under numba a short curve is read without a bounds check, which has no defined result to model.
- AdvancedDynamics.Run: a curve read past its end is an IndexError in the source. It is modelled as the stop `CurveOverrun`, after the air row the step had already written.
- SimpleDynamics.Run: a step at zero speed divides by zero in the source. It is modelled as the stop `ZeroSpeed`, after the atmosphere row.
- A negative sample count, which np.linspace refuses, is modelled as the stop `NoSamples` in both integrators, and a zero `dt`, which the sample count divides by, as the stop `ZeroTimeStep`.
- AdvancedDynamics.Run: an empty fuel curve makes the first read, `fuel_mass_curve[0]`, an IndexError. It is modelled as the stop `EmptyFuelCurve`, before anything is written.
- Buffer layout: columns one step writes at the same index are kept as one record per row: atmosphere and speed of sound, the three forces, the angle; velocity, location, total velocity and time. The order of writes inside a step is not visible except on the overrun path.
- Callables: the `isa`, `gravity` and `drag` arguments of both integrators are function parameters, and nothing is assumed about them. The source's `drag` also receives the flight record; here it cannot read the buffer.
- `calculate_fin_thickness` (engineering/sizing/stability.py:237-255) is not modelled. It takes a cube root and reads simulator results, so `Stability.Rocket.Run` takes the two thicknesses as parameters.
- `length_nozzle` (engineering/sizing/engine.py:122-124) is not modelled: it is a square root of the throat area, with nothing to state beyond its formula. The module-level script of engine.py appears only through `TowerAccelerationExample` and `ScriptThrust`.
- Aerodynamics.Drag: its contract states only the zero-velocity case. The stage-selector sums are its body and are related by `CombinedDragDecomposition` and `SubsonicDragHasNoPressureTerms`.
- The other simulator and sizing files are not part of this model: the older drag modules with undefined names, the broken draft integrator, the electronics and yo-yo despin scripts that fail at import, constant-only scripts, data holders, the `Simulator` dictionary wrapper, the GUI, plotting, file I/O and the project-management scripts.
- Unit tests whose expected values disagree with the current code (fin drag at a 45° edge, an old shoulder-drag signature, the supersonic nosecone range) are not used as properties.
