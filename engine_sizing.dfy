/** The closed-form solid-motor sizing relations (engineering/sizing/engine.py). Each
    is one expression of its arguments; the module-level script that chains them for
    the booster is represented by the worked lemmas at the end. */
module EngineSizing {
  import opened RealMath

  const IspCorrection: real := 0.95   // cc: correction of the specific impulse
  const LinerThickness: real := 0.003 // [m]
  const VolumetricLoading: real := 0.8

  /** initial_acc: the constant acceleration that reaches the exit velocity at the end
      of the launch tower, v^2 / (2 L). */
  function InitialAcceleration(length: real, velocity: real): (a: real)
    requires length != 0.0
    ensures a * (2.0 * length) == velocity * velocity
  {
    velocity * velocity / (2.0 * length)
  }

  /** thrust_force: the thrust that gives the vehicle mass the acceleration. */
  function ThrustForce(vehicleMass: real, acceleration: real): (f: real)
    ensures vehicleMass != 0.0 ==> f / vehicleMass == acceleration
  {
    vehicleMass * acceleration
  }

  /** eff_exhaust_velocity: the corrected specific impulse times g, a fixed 95 % of the
      ideal exhaust velocity Isp * g. */
  function EffectiveExhaustVelocity(specificImpulse: real, g: real): (c: real)
    ensures specificImpulse * g > 0.0 ==> 0.0 < c < specificImpulse * g
    ensures specificImpulse * g == 0.0 ==> c == 0.0
    ensures c * 20.0 == specificImpulse * g * 19.0
  {
    IspCorrection * specificImpulse * g
  }

  /** propellant_mass: the propellant that delivers the total impulse at the given
      specific impulse. */
  function PropellantMass(specificImpulse: real, totalImpulse: real, g: real): (m: real)
    requires specificImpulse * g != 0.0
    ensures m * (specificImpulse * g) == totalImpulse
  {
    totalImpulse / (specificImpulse * g)
  }

  /** mass_flow: the propellant flow that delivers the thrust. */
  function MassFlow(specificImpulse: real, g: real, thrust: real): (mdot: real)
    requires specificImpulse * g != 0.0
    ensures mdot * (specificImpulse * g) == thrust
  {
    thrust / (specificImpulse * g)
  }

  /** casing_thickness: the thin-wall hoop-stress thickness P D / (2 sigma + 2 P) plus the
      liner. */
  function CasingThickness(strength: real, outerDiameter: real, pressure: real): (w: real)
    requires 2.0 * strength + 2.0 * pressure != 0.0
    ensures strength > 0.0 && pressure > 0.0 && outerDiameter > 0.0 ==>
      LinerThickness < w < outerDiameter / 2.0 + LinerThickness
  {
    var wall := pressure * outerDiameter / (2.0 * strength + 2.0 * pressure);
    if strength > 0.0 && pressure > 0.0 && outerDiameter > 0.0 then
      WallBetweenZeroAndRadius(strength, outerDiameter, pressure);
      wall + LinerThickness
    else
      wall + LinerThickness
  }

  lemma WallBetweenZeroAndRadius(strength: real, outerDiameter: real, pressure: real)
    requires strength > 0.0 && pressure > 0.0 && outerDiameter > 0.0
    ensures 0.0 < pressure * outerDiameter / (2.0 * strength + 2.0 * pressure) < outerDiameter / 2.0
  {
    var den := 2.0 * strength + 2.0 * pressure;
    ProductPositive(pressure, outerDiameter);
    Quotient(pressure * outerDiameter, den);
    // P D < (sigma + P) D, so P D / (2 sigma + 2 P) < D / 2
    ProductPositive(strength, outerDiameter);
    assert pressure * outerDiameter < (strength + pressure) * outerDiameter;
    DivideKeepsOrder(pressure * outerDiameter, (strength + pressure) * outerDiameter, den);
    assert (strength + pressure) * outerDiameter / den == outerDiameter / 2.0;
  }

  /** chamber_volume: propellant volume over the volumetric loading. */
  function ChamberVolume(propellantMass: real, density: real): (v: real)
    requires density != 0.0
    ensures v * (density * VolumetricLoading) == propellantMass
  {
    propellantMass / (density * VolumetricLoading)
  }

  /** propellant_outer_diameter: the stage diameter less two walls. */
  function PropellantOuterDiameter(stageDiameter: real, wallThickness: real): (d: real)
    ensures d + 2.0 * wallThickness == stageDiameter
    ensures d > 0.0 <==> wallThickness < stageDiameter / 2.0
  {
    stageDiameter - 2.0 * wallThickness
  }

  /** chamber_length: the length of a cylinder of the grain diameter holding the chamber
      volume. */
  function ChamberLength(e: Elementary, volume: real, grainDiameter: real): (l: real)
    requires e.pi * (grainDiameter * grainDiameter) != 0.0
    ensures l * (e.pi * (grainDiameter * grainDiameter)) / 4.0 == volume
  {
    4.0 * volume / (e.pi * (grainDiameter * grainDiameter))
  }

  /** nozzle_throat_area: mass flow times the characteristic velocity over the chamber
      pressure. */
  function NozzleThroatArea(massFlow: real, cStar: real, chamberPressure: real): (a: real)
    requires chamberPressure != 0.0
    ensures a * chamberPressure == massFlow * cStar
  {
    massFlow * cStar / chamberPressure
  }

  /** total_length: nozzle and chamber end to end. */
  function TotalLength(nozzleLength: real, chamberLength: real): (l: real)
    ensures l - chamberLength == nozzleLength && l - nozzleLength == chamberLength
  {
    nozzleLength + chamberLength
  }

  /** regression_rate: de Saint Robert's burning-rate law a P^n. */
  function RegressionRate(e: Elementary, chamberPressure: real, coefficient: real, exponent: real): (r: real)
    ensures coefficient == 0.0 ==> r == 0.0
  {
    coefficient * e.pow(chamberPressure, exponent)
  }

  /** burn_area: the grain surface that burns at the regression rate to give the mass
      flow. */
  function BurnArea(regressionRate: real, massFlow: real, density: real): (a: real)
    requires regressionRate * density != 0.0
    ensures a * (regressionRate * density) == massFlow
  {
    massFlow / (regressionRate * density)
  }

  // ---------------------------------------------------------------------------
  // Relations between the formulas
  // ---------------------------------------------------------------------------

  /** The propellant mass is the mass flow sustained for the burn time I / F. */
  lemma PropellantMassIsFlowTimesBurnTime(specificImpulse: real, g: real, totalImpulse: real, thrust: real)
    requires specificImpulse * g != 0.0 && thrust != 0.0
    ensures PropellantMass(specificImpulse, totalImpulse, g)
      == MassFlow(specificImpulse, g, thrust) * (totalImpulse / thrust)
  {
    var k := specificImpulse * g;
    var mdot := MassFlow(specificImpulse, g, thrust);
    assert mdot == thrust / k;
    calc {
      mdot * (totalImpulse / thrust);
      thrust / k * (totalImpulse / thrust);
      { QuotientProduct(thrust, k, totalImpulse); }
      totalImpulse / k;
    }
  }

  lemma QuotientProduct(f: real, k: real, i: real)
    requires f != 0.0 && k != 0.0
    ensures f / k * (i / f) == i / k
  {
  }

  /** The exhaust velocity times the mass flow is the corrected thrust: the thrust the
      mass flow gives at the corrected specific impulse. */
  lemma ExhaustVelocityTimesMassFlow(specificImpulse: real, g: real, thrust: real)
    requires specificImpulse * g != 0.0
    ensures EffectiveExhaustVelocity(specificImpulse, g) * MassFlow(specificImpulse, g, thrust)
      == IspCorrection * thrust
  {
    var k := specificImpulse * g;
    assert MassFlow(specificImpulse, g, thrust) * k == thrust;
    assert IspCorrection * k * MassFlow(specificImpulse, g, thrust)
      == IspCorrection * (MassFlow(specificImpulse, g, thrust) * k);
  }

  /** The grain's burning surface regresses at exactly the rate that produces the mass
      flow, whatever the burning-rate law gives. */
  lemma BurnAreaRegressesTheMassFlow(e: Elementary, chamberPressure: real, coefficient: real,
                                     exponent: real, massFlow: real, density: real)
    requires RegressionRate(e, chamberPressure, coefficient, exponent) * density != 0.0
    ensures var r := RegressionRate(e, chamberPressure, coefficient, exponent);
      BurnArea(r, massFlow, density) * r * density == massFlow
  {
    var r := RegressionRate(e, chamberPressure, coefficient, exponent);
    assert BurnArea(r, massFlow, density) * (r * density) == massFlow;
  }

  /** The regression rate at unit pressure is the coefficient itself. */
  lemma RegressionRateAtUnitPressure(e: Elementary, coefficient: real, exponent: real)
    requires Lawful(e)
    ensures RegressionRate(e, 1.0, coefficient, exponent) == coefficient
  {
  }

  /** The launch-tower sizing: 5 m/s at the end of a 12.5 m tower is 1 m/s^2. */
  lemma TowerAccelerationExample()
    ensures InitialAcceleration(12.5, 5.0) == 1.0
  {
  }

  /** The script's tower (14 m, 40 m/s) and vehicle (140 kg) ask for 8000 N of thrust. */
  lemma ScriptThrust()
    ensures ThrustForce(140.0, InitialAcceleration(14.0, 40.0)) == 8000.0
  {
  }
}
