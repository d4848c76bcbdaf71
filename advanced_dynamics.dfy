/** The trajectory integrator of the advanced simulator
    (engineering/simulators/advanced/dynamics.py): a forward-Euler loop over the
    np.linspace samples that fills the flight buffer in place for as long as the vertical
    velocity is not negative. Thrust and fuel come from a coast / pre-ignition / burning /
    burned-out schedule that reads the engine curves through the running index delay_i. */
module AdvancedDynamics {
  import opened RealMath
  import opened Kinematics
  import opened Aerodynamics

  /** The models run receives as arguments: gravity(height, mass), drag(total velocity,
      temperature, density, stage) for the flight record at hand, and isa(height). */
  datatype Models = Models(
    gravity: (real, real) -> real,
    drag: (real, real, real, int) -> real,
    isa: real -> Atmosphere)

  /** What a step depends on besides the buffer rows: the arguments of run, the
      read-only parts of the flight record (mass[0], burn_time and the two curves) and
      the np.linspace times the loop enumerates, int((end_time - start_time) / dt) of
      them. */
  datatype Setup = Setup(
    e: Elementary, models: Models, stage: int,
    dt: real, startTime: real, endTime: real, coast: bool, delay: real,
    dryMass: real, burnTime: real, thrustCurve: seq<real>, fuelCurve: seq<real>,
    times: seq<real>)

  /** The atmosphere row (temperature, pressure, density) and the speed of sound that a
      step writes at its own index. */
  datatype Air = Air(atmosphere: Atmosphere, speedOfSound: real)

  /** force_drag, force_thrust and force_gravity, written by a step at its own index. */
  datatype Forces = Forces(drag: real, thrust: real, gravity: real)

  /** Row i of the columns step i writes at its own index: the air row, the forces, and
      angles[i][0], which the step reads as its heading before overwriting it. */
  datatype Sample = Sample(air: Air, forces: Forces, angle: real)

  /** Velocity and location, total_velocities and time, written by step i at index i + 1. */
  datatype TrackPoint = TrackPoint(motion: Motion, totalVelocity: real, time: real)

  /** The flight buffer run fills in place. Columns written at the same index by the same
      step are grouped into one array of records: samples for index i, track for
      index i + 1. */
  class Flight {
    const dryMass: real             // mass[0]
    const burnTime: real
    const thrustCurve: seq<real>
    const fuelCurve: seq<real>      // fuel_mass_curve
    const samples: array<Sample>
    const track: array<TrackPoint>

    constructor(dryMass: real, burnTime: real, thrustCurve: seq<real>, fuelCurve: seq<real>,
                samples: array<Sample>, track: array<TrackPoint>)
      ensures this.dryMass == dryMass && this.burnTime == burnTime
      ensures this.thrustCurve == thrustCurve && this.fuelCurve == fuelCurve
      ensures this.samples == samples && this.track == track
    {
      this.dryMass := dryMass;
      this.burnTime := burnTime;
      this.thrustCurve := thrustCurve;
      this.fuelCurve := fuelCurve;
      this.samples := samples;
      this.track := track;
    }
  }

  /** The setup of a call run(flight, stage, gravity, drag, isa, dt, start_time, end_time,
      coast, delay). */
  function SetupOf(e: Elementary, flight: Flight, stage: int, models: Models, dt: real,
                   startTime: real, endTime: real, coast: bool, delay: real): Setup
    requires dt != 0.0 && SampleCount(startTime, endTime, dt) >= 0
  {
    Setup(e, models, stage, dt, startTime, endTime, coast, delay,
          flight.dryMass, flight.burnTime, flight.thrustCurve, flight.fuelCurve,
          Linspace(startTime, endTime, SampleCount(startTime, endTime, dt)))
  }

  /** The times of the setup are the np.linspace samples between its start and end. */
  predicate Sampled(u: Setup)
  {
    u.times == Linspace(u.startTime, u.endTime, |u.times|)
  }

  /** The linspace time of step k. */
  function StepTime(u: Setup, k: nat): real
    requires k < |u.times|
  {
    u.times[k]
  }

  // ---------------------------------------------------------------------------
  // The thrust schedule
  // ---------------------------------------------------------------------------

  datatype Phase = Coast | PreIgnition | Burning | BurnedOut

  /** Which branch of the thrust schedule a step at this time takes. */
  function PhaseAt(u: Setup, time: real): Phase
  {
    if u.coast then Coast
    else if u.startTime + u.delay > time then PreIgnition
    else if u.startTime + u.delay <= time < u.burnTime + u.startTime + u.delay - u.dt then Burning
    else BurnedOut
  }

  /** The order in which a powered flight goes through the phases. */
  function Rank(p: Phase): nat
  {
    match p
    case Coast => 0
    case PreIgnition => 0
    case Burning => 1
    case BurnedOut => 2
  }

  /** delay_i before step k: the number of burning steps among steps 0 .. k - 1. */
  function BurnsBefore(u: Setup, k: nat): nat
    requires k <= |u.times|
  {
    if k == 0 then 0
    else BurnsBefore(u, k - 1) + (if PhaseAt(u, StepTime(u, k - 1)) == Burning then 1 else 0)
  }

  /** The thrust and fuel mass of a step, or Overrun when a burning step's index runs
      past the end of a curve (an IndexError in the source, which ends the run). */
  datatype Throttle = Throttle(thrust: real, fuel: real) | Overrun

  /** What the schedule gives at step k: nothing while coasting; no thrust and the first
      fuel row before ignition; row delay_i + 1 of both curves while burning; nothing
      once burned out. */
  function ThrottleAt(u: Setup, k: nat): Throttle
    requires k < |u.times| && |u.fuelCurve| > 0
  {
    match PhaseAt(u, StepTime(u, k))
    case Coast => Throttle(0.0, 0.0)
    case PreIgnition => Throttle(0.0, u.fuelCurve[0])
    case Burning =>
      var j := BurnsBefore(u, k) + 1;
      if j < |u.thrustCurve| && j < |u.fuelCurve| then Throttle(u.thrustCurve[j], u.fuelCurve[j])
      else Overrun
    case BurnedOut => Throttle(0.0, 0.0)
  }

  /** The throttles of steps 0 .. n - 1, in step order. */
  ghost function Plan(u: Setup, n: nat): (p: seq<Throttle>)
    requires n <= |u.times| && |u.fuelCurve| > 0
    ensures |p| == n
    decreases n
  {
    if n == 0 then [] else Plan(u, n - 1) + [ThrottleAt(u, n - 1)]
  }

  /** Entry k of a plan is the throttle the schedule gives step k. */
  lemma {:induction false} PlanAt(u: Setup, n: nat, k: nat)
    requires k < n <= |u.times| && |u.fuelCurve| > 0
    ensures Plan(u, n)[k] == ThrottleAt(u, k)
    decreases n
  {
    if k < n - 1 {
      PlanAt(u, n - 1, k);
    }
  }

  /** The mass_total that step k hands to gravity when the steps before it ran with the
      throttles of plan: the dry mass plus the fuel of the previous step, or plus the
      first fuel row at step 0. */
  function MassBefore(u: Setup, plan: seq<Throttle>, k: nat): (m: real)
    requires k <= |plan| && |u.fuelCurve| > 0
    requires k > 0 ==> plan[k - 1].Throttle?
    ensures k == 0 ==> m == u.dryMass + u.fuelCurve[0]
    ensures k > 0 ==> m == u.dryMass + plan[k - 1].fuel
  {
    if k == 0 then u.dryMass + u.fuelCurve[0] else u.dryMass + plan[k - 1].fuel
  }

  /** With coast set, no step thrusts or carries fuel and delay_i stays 0. */
  lemma {:induction false} CoastHasNoThrust(u: Setup, k: nat)
    requires u.coast && k < |u.times| && |u.fuelCurve| > 0
    ensures ThrottleAt(u, k) == Throttle(0.0, 0.0)
    ensures BurnsBefore(u, k + 1) == 0
  {
    if k > 0 {
      CoastHasNoThrust(u, k - 1);
    }
  }

  /** delay_i never exceeds the number of steps taken. */
  lemma {:induction false} BurnsBeforeBound(u: Setup, k: nat)
    requires k <= |u.times|
    ensures BurnsBefore(u, k) <= k
  {
    if k > 0 {
      BurnsBeforeBound(u, k - 1);
    }
  }

  /** Curves longer than the number of samples are never overrun. */
  lemma CurvesLongEnough(u: Setup, k: nat)
    requires k < |u.times| && |u.fuelCurve| > 0
    requires |u.thrustCurve| > |u.times| && |u.fuelCurve| > |u.times|
    ensures ThrottleAt(u, k).Throttle?
  {
    BurnsBeforeBound(u, k);
  }

  /** Later times never fall in an earlier phase: pre-ignition, then burning, then
      burned out. */
  lemma PhasesInTimeOrder(u: Setup, t1: real, t2: real)
    requires t1 <= t2
    ensures Rank(PhaseAt(u, t1)) <= Rank(PhaseAt(u, t2))
  {
  }

  /** Over rising sample times the steps go through the phases in order. */
  lemma StepPhasesInOrder(u: Setup, j: nat, k: nat)
    requires Sampled(u) && j <= k < |u.times| && u.startTime < u.endTime
    ensures Rank(PhaseAt(u, StepTime(u, j))) <= Rank(PhaseAt(u, StepTime(u, k)))
  {
    if j < k {
      LinspaceIncreasing(u.startTime, u.endTime, |u.times|, j, k);
    }
    PhasesInTimeOrder(u, StepTime(u, j), StepTime(u, k));
  }

  /** Between two burning steps every step burns, so delay_i rises by exactly one per
      step and the burn reads consecutive curve rows. */
  lemma {:induction false} BurningRowsConsecutive(u: Setup, j: nat, k: nat)
    requires Sampled(u) && j <= k < |u.times| && u.startTime < u.endTime
    requires PhaseAt(u, StepTime(u, j)) == Burning && PhaseAt(u, StepTime(u, k)) == Burning
    ensures BurnsBefore(u, k) == BurnsBefore(u, j) + (k - j)
  {
    if j < k {
      StepPhasesInOrder(u, j, k - 1);
      StepPhasesInOrder(u, k - 1, k);
      BurningRowsConsecutive(u, j, k - 1);
    }
  }

  /** No step before k burns when step k is not past ignition. */
  lemma {:induction false} NoBurnsBeforeIgnition(u: Setup, k: nat)
    requires Sampled(u) && k < |u.times| && u.startTime < u.endTime
    requires Rank(PhaseAt(u, StepTime(u, k))) == 0
    ensures BurnsBefore(u, k + 1) == 0
  {
    if k > 0 {
      StepPhasesInOrder(u, k - 1, k);
      NoBurnsBeforeIgnition(u, k - 1);
    }
  }

  /** The first burning step reads row 1 of the curves: row 0 of the thrust curve is
      never used. */
  lemma FirstBurnReadsRowOne(u: Setup, k: nat)
    requires Sampled(u) && k < |u.times| && u.startTime < u.endTime
    requires PhaseAt(u, StepTime(u, k)) == Burning
    requires k == 0 || PhaseAt(u, StepTime(u, k - 1)) != Burning
    ensures BurnsBefore(u, k) == 0
  {
    if k > 0 {
      StepPhasesInOrder(u, k - 1, k);
      NoBurnsBeforeIgnition(u, k - 1);
    }
  }

  // ---------------------------------------------------------------------------
  // One step
  // ---------------------------------------------------------------------------

  /** The atmosphere row and speed of sound at a height. */
  function AirAt(u: Setup, height: real): (a: Air)
    ensures a.atmosphere == u.models.isa(height)
    ensures a.speedOfSound == SpeedOfSound(u.e, a.atmosphere.temperature)
  {
    var atmosphere := u.models.isa(height);
    Air(atmosphere, SpeedOfSound(u.e, atmosphere.temperature))
  }

  /** The three forces of a step: drag from the total velocity and the new atmosphere
      row, the scheduled thrust, and gravity for the mass before the step. */
  function StepForces(u: Setup, row: TrackPoint, air: Air, massBefore: real, thrust: real): Forces
  {
    Forces(u.models.drag(row.totalVelocity, air.atmosphere.temperature, air.atmosphere.density, u.stage),
           thrust, u.models.gravity(row.motion.location.y, massBefore))
  }

  /** The net force: thrust less drag along the heading angle (measured from the
      vertical), less gravity on y. */
  function NetForce(e: Elementary, f: Forces, angle: real): (v: Vec2)
    ensures v.x * e.cos(angle) == (v.y + f.gravity) * e.sin(angle)
    ensures TrigAtZero(e) && angle == 0.0 ==> v == Vec2(0.0, f.thrust - f.drag - f.gravity)
  {
    var along := f.thrust - f.drag;
    assert along * e.sin(angle) * e.cos(angle) == along * e.cos(angle) * e.sin(angle);
    Vec2(along * e.sin(angle), along * e.cos(angle) - f.gravity)
  }

  /** The heading written back into angles[i]: arcsin(vx / |v|), or 0 at zero speed. A
      velocity with no horizontal part, at zero speed included, has heading 0. */
  function Heading(e: Elementary, v: Vec2): (h: real)
    ensures Norm(e, v) == 0.0 ==> h == 0.0
    ensures TrigAtZero(e) && v.x == 0.0 ==> h == 0.0
  {
    var speed := Norm(e, v);
    if speed == 0.0 then 0.0
    else
      assert v.x == 0.0 ==> v.x / speed == 0.0;
      e.arcsin(v.x / speed)
  }

  /** The row step i writes at index i + 1: the Euler successor of the row it read, the
      speed of the old velocity, and the step's own linspace time. */
  function NextPoint(e: Elementary, row: TrackPoint, f: Forces, angle: real, mass: real,
                     dt: real, time: real): TrackPoint
    requires mass != 0.0
  {
    TrackPoint(EulerStep(row.motion, NetForce(e, f, angle), mass, dt), Norm(e, row.motion.velocity), time)
  }

  /** One step as recorded in the buffer: it found a row whose vertical velocity is not
      negative and a scheduled throttle, and wrote the air row, the forces and the
      heading at its own index (over the angle it used) and the successor row at the
      next index. */
  ghost predicate StepRecorded(u: Setup, row: TrackPoint, angle: real, massBefore: real, th: Throttle,
                               time: real, sample: Sample, next: TrackPoint)
  {
    && row.motion.velocity.y >= 0.0
    && th.Throttle?
    && u.dryMass + th.fuel != 0.0
    && sample.air == AirAt(u, row.motion.location.y)
    && sample.forces == StepForces(u, row, sample.air, massBefore, th.thrust)
    && sample.angle == Heading(u.e, row.motion.velocity)
    && next == NextPoint(u.e, row, sample.forces, angle, u.dryMass + th.fuel, u.dt, time)
  }

  /** The angle column of the sample rows. */
  function Angles(samples: seq<Sample>): (a: seq<real>)
    ensures |a| == |samples|
    ensures forall k :: 0 <= k < |samples| ==> a[k] == samples[k].angle
  {
    seq(|samples|, k requires 0 <= k < |samples| => samples[k].angle)
  }

  /** Steps 0 .. |samples| - 1 as recorded: angles0 is the angle column before the run,
      plan the throttles of the steps, samples the rows the steps wrote at their own
      index, and track the rows they read and wrote, one more than there are steps. */
  ghost predicate Recorded(u: Setup, angles0: seq<real>, plan: seq<Throttle>, samples: seq<Sample>,
                           track: seq<TrackPoint>)
    decreases |samples|, 1
  {
    && |track| == |samples| + 1 && |samples| <= |angles0| && |samples| <= |plan|
    && |samples| <= |u.times| && |u.fuelCurve| > 0
    && (|samples| > 0 ==> LastRecorded(u, angles0, plan, samples, track))
  }

  /** The steps before the last one are recorded, and the last one is too. */
  ghost predicate LastRecorded(u: Setup, angles0: seq<real>, plan: seq<Throttle>, samples: seq<Sample>,
                               track: seq<TrackPoint>)
    requires 0 < |samples| <= |angles0| && |samples| <= |plan| && |track| == |samples| + 1
    requires |samples| <= |u.times| && |u.fuelCurve| > 0
    decreases |samples|, 0
  {
    var k := |samples| - 1;
    && Recorded(u, angles0, plan, samples[..k], track[..k + 1])
    && (k > 0 ==> plan[k - 1].Throttle?)
    && StepRecorded(u, track[k], angles0[k], MassBefore(u, plan, k), plan[k], StepTime(u, k),
                    samples[k], track[k + 1])
  }

  /** A step is recorded for the same values wherever they are read from. */
  lemma RecordedAgain(u: Setup, row: TrackPoint, angle: real, massBefore: real, th: Throttle, time: real,
                      sample: Sample, next: TrackPoint, row': TrackPoint, sample': Sample, next': TrackPoint)
    requires StepRecorded(u, row, angle, massBefore, th, time, sample, next)
    requires row' == row && sample' == sample && next' == next
    ensures StepRecorded(u, row', angle, massBefore, th, time, sample', next')
  {
  }

  /** Recording the step that follows the last recorded row extends both columns. */
  lemma RecordedExtend(u: Setup, angles0: seq<real>, plan: seq<Throttle>, samples: seq<Sample>,
                       track: seq<TrackPoint>, sample: Sample, next: TrackPoint)
    requires Recorded(u, angles0, plan, samples, track)
    requires |samples| < |u.times| && |samples| < |angles0| && |samples| < |plan|
    requires |samples| > 0 ==> plan[|samples| - 1].Throttle?
    requires StepRecorded(u, track[|samples|], angles0[|samples|], MassBefore(u, plan, |samples|),
                          plan[|samples|], StepTime(u, |samples|), sample, next)
    ensures Recorded(u, angles0, plan, samples + [sample], track + [next])
  {
    var k := |samples|;
    var samples', track' := samples + [sample], track + [next];
    assert samples'[..k] == samples;
    assert track'[..k + 1] == track;
    RecordedAgain(u, track[k], angles0[k], MassBefore(u, plan, k), plan[k], StepTime(u, k), sample, next,
                  track'[k], samples'[k], track'[k + 1]);
  }

  /** Every step of a recorded run satisfies StepRecorded at its own rows. */
  lemma {:induction false} RecordedStep(u: Setup, angles0: seq<real>, plan: seq<Throttle>,
                                        samples: seq<Sample>, track: seq<TrackPoint>, k: nat)
    requires Recorded(u, angles0, plan, samples, track) && k < |samples|
    ensures k < |u.times| && k + 1 < |track| && k < |angles0| && k < |plan|
    ensures k > 0 ==> plan[k - 1].Throttle?
    ensures StepRecorded(u, track[k], angles0[k], MassBefore(u, plan, k), plan[k], StepTime(u, k),
                         samples[k], track[k + 1])
    decreases |samples|
  {
    var n := |samples| - 1;
    if k < n {
      var samples', track' := samples[..n], track[..n + 1];
      RecordedStep(u, angles0, plan, samples', track', k);
      RecordedAgain(u, track'[k], angles0[k], MassBefore(u, plan, k), plan[k], StepTime(u, k),
                    samples'[k], track'[k + 1], track[k], samples[k], track[k + 1]);
    }
  }

  /** A rocket that starts with no horizontal velocity and whose angles are all 0 before
      the run stays on its launch vertical: every recorded row has no horizontal
      velocity and the launch x. (The angle a step uses is the one found in the buffer,
      never the heading an earlier step wrote, since angles[i + 1] is not written.) */
  lemma {:induction false} VerticalFlightStaysVertical(u: Setup, angles0: seq<real>, plan: seq<Throttle>,
                                                       samples: seq<Sample>, track: seq<TrackPoint>, k: nat)
    requires TrigAtZero(u.e) && Recorded(u, angles0, plan, samples, track)
    requires track[0].motion.velocity.x == 0.0
    requires forall j :: 0 <= j < |samples| ==> angles0[j] == 0.0
    requires k < |track|
    ensures track[k].motion.velocity.x == 0.0
    ensures track[k].motion.location.x == track[0].motion.location.x
  {
    if k > 0 {
      VerticalFlightStaysVertical(u, angles0, plan, samples, track, k - 1);
      RecordedStep(u, angles0, plan, samples, track, k - 1);
      VerticalStep(u.e, track[k - 1], samples[k - 1].forces, angles0[k - 1], u.dryMass + plan[k - 1].fuel,
                   u.dt, StepTime(u, k - 1));
    }
  }

  /** A step from a row with no horizontal velocity at angle 0 adds none and keeps x. */
  lemma VerticalStep(e: Elementary, row: TrackPoint, f: Forces, angle: real, mass: real, dt: real, time: real)
    requires TrigAtZero(e) && mass != 0.0 && row.motion.velocity.x == 0.0 && angle == 0.0
    ensures var next := NextPoint(e, row, f, angle, mass, dt, time);
      next.motion.velocity.x == 0.0 && next.motion.location.x == row.motion.location.x
  {
    var next := NextPoint(e, row, f, angle, mass, dt, time);
    EulerStepBalance(row.motion, NetForce(e, f, angle), mass, dt);
    ZeroProduct(next.motion.velocity.x, mass);
  }

  /** On the launch vertical every heading written back is 0. */
  lemma VerticalHeadings(u: Setup, angles0: seq<real>, plan: seq<Throttle>, samples: seq<Sample>,
                         track: seq<TrackPoint>, k: nat)
    requires TrigAtZero(u.e) && Recorded(u, angles0, plan, samples, track)
    requires track[0].motion.velocity.x == 0.0
    requires forall j :: 0 <= j < |samples| ==> angles0[j] == 0.0
    requires k < |samples|
    ensures samples[k].angle == 0.0
  {
    VerticalFlightStaysVertical(u, angles0, plan, samples, track, k);
    RecordedStep(u, angles0, plan, samples, track, k);
  }

  // ---------------------------------------------------------------------------
  // The loop
  // ---------------------------------------------------------------------------

  /** Why the loop ended. */
  datatype Stop =
    | Descending     // the row reached had a negative vertical velocity
    | Exhausted      // every linspace sample was used
    | CurveOverrun   // a burning step's curve index ran past a curve (IndexError)
    | NoSamples      // int((end - start) / dt) was negative, which np.linspace refuses
    | EmptyFuelCurve // fuel_mass_curve[0] was read from an empty curve (IndexError)
    | ZeroTimeStep   // dt was 0, and (end - start) / dt divides by it

  /** The thrust branch of step i: the coast / pre-ignition / burning / burned-out
      choice on the step's time, moving delay_i on while burning. */
  method Schedule(u: Setup, i: nat, time: real, delayI: nat) returns (th: Throttle, delayI': nat)
    requires i < |u.times| && |u.fuelCurve| > 0
    requires time == StepTime(u, i) && delayI == BurnsBefore(u, i)
    ensures th == ThrottleAt(u, i)
    ensures delayI' == BurnsBefore(u, i + 1)
  {
    delayI' := delayI;
    if u.coast {
      th := Throttle(0.0, 0.0);
    } else if u.startTime + u.delay > time {
      th := Throttle(0.0, u.fuelCurve[0]);
    } else if u.startTime + u.delay <= time < u.burnTime + u.startTime + u.delay - u.dt {
      delayI' := delayI + 1;
      if delayI' >= |u.thrustCurve| || delayI' >= |u.fuelCurve| {
        return Overrun, delayI';
      }
      th := Throttle(u.thrustCurve[delayI'], u.fuelCurve[delayI']);
    } else {
      th := Throttle(0.0, 0.0);
    }
  }

  /** What a step that ran to the end hands to the next one (mass_total and delay_i), or
      why the loop stops at it. */
  datatype Outcome = Continue(massTotal: real, delayI: nat) | Halt(stop: Stop)

  /** The state in which run's loop reaches step i: the ghost columns hold what steps
      0 .. i - 1 recorded and agree with the buffer up to there, and mass_total and
      delay_i are what the schedule hands to step i. */
  ghost predicate Ready(u: Setup, flight: Flight, angles0: seq<real>, plan: seq<Throttle>, samples: seq<Sample>,
                        track: seq<TrackPoint>, i: nat, massTotal: real, delayI: nat)
    reads flight.samples, flight.track
  {
    ReadyIn(u, flight.samples[..], flight.track[..], angles0, plan, samples, track, i, massTotal, delayI)
  }

  /** Ready, for given contents of the sample and track buffers. */
  ghost predicate ReadyIn(u: Setup, buffer: seq<Sample>, rows: seq<TrackPoint>, angles0: seq<real>,
                          plan: seq<Throttle>, samples: seq<Sample>, track: seq<TrackPoint>,
                          i: nat, massTotal: real, delayI: nat)
  {
    && i <= |u.times| && |u.fuelCurve| > 0 && plan == Plan(u, |u.times|)
    && i < |rows| && i <= |buffer|
    && |samples| == i && |track| == i + 1
    && Recorded(u, angles0, plan, samples, track)
    && (forall k :: 0 <= k < i ==> buffer[k] == samples[k])
    && (forall k :: 0 <= k <= i ==> rows[k] == track[k])
    && (i > 0 ==> plan[i - 1].Throttle?)
    && massTotal == MassBefore(u, plan, i) && delayI == BurnsBefore(u, i)
  }

  /** A step that writes sample i and track row i + 1 as StepRecorded says, and nothing
      else, takes a Ready state for step i to one for step i + 1. */
  lemma ReadyExtended(u: Setup, buffer: seq<Sample>, rows: seq<TrackPoint>, buffer': seq<Sample>,
                      rows': seq<TrackPoint>, angles0: seq<real>, plan: seq<Throttle>,
                      samples: seq<Sample>, track: seq<TrackPoint>, i: nat, massTotal: real, delayI: nat,
                      massTotal': real, delayI': nat)
    requires ReadyIn(u, buffer, rows, angles0, plan, samples, track, i, massTotal, delayI)
    requires i < |u.times| && i + 1 < |rows| && i < |buffer| && i < |angles0| && angles0[i] == buffer[i].angle
    requires |buffer'| == |buffer| && |rows'| == |rows|
    requires forall k :: 0 <= k < |buffer| && k != i ==> buffer'[k] == buffer[k]
    requires forall k :: 0 <= k < |rows| && k != i + 1 ==> rows'[k] == rows[k]
    requires plan[i].Throttle?
    requires massTotal' == MassBefore(u, plan, i + 1) && delayI' == BurnsBefore(u, i + 1)
    requires StepRecorded(u, rows[i], buffer[i].angle, massTotal, plan[i], StepTime(u, i), buffer'[i], rows'[i + 1])
    ensures ReadyIn(u, buffer', rows', angles0, plan, samples + [buffer'[i]], track + [rows'[i + 1]],
                    i + 1, massTotal', delayI')
  {
    RecordedExtend(u, angles0, plan, samples, track, buffer'[i], rows'[i + 1]);
  }

  /** The body of run's loop for step i: the vertical-velocity guard, the atmosphere,
      gravity and drag, the thrust branch, and the writes of the forces, the heading and
      the successor row. */
  method Step(u: Setup, flight: Flight, i: nat, massTotal: real, delayI: nat)
    returns (outcome: Outcome)
    requires i < |u.times| && |u.fuelCurve| > 0
    requires u.fuelCurve == flight.fuelCurve && u.dryMass == flight.dryMass
    requires u.dryMass != 0.0 && forall j :: 0 <= j < |u.fuelCurve| ==> u.dryMass + u.fuelCurve[j] != 0.0
    requires i + 1 < flight.track.Length && i < flight.samples.Length
    requires i > 0 ==> Plan(u, |u.times|)[i - 1].Throttle?
    requires massTotal == MassBefore(u, Plan(u, |u.times|), i) && delayI == BurnsBefore(u, i)
    modifies flight.samples, flight.track
    ensures forall k :: 0 <= k < flight.samples.Length && k != i ==> flight.samples[k] == old(flight.samples[k])
    ensures forall k :: 0 <= k < flight.track.Length && k != i + 1 ==> flight.track[k] == old(flight.track[k])
    ensures outcome == Halt(Descending) ==>
      && old(flight.track[i]).motion.velocity.y < 0.0
      && flight.samples[i] == old(flight.samples[i]) && flight.track[i + 1] == old(flight.track[i + 1])
    ensures outcome == Halt(CurveOverrun) ==>
      && old(flight.track[i]).motion.velocity.y >= 0.0
      && Plan(u, |u.times|)[i] == Overrun
      && flight.samples[i] == old(flight.samples[i]).(air := AirAt(u, old(flight.track[i]).motion.location.y))
      && flight.track[i + 1] == old(flight.track[i + 1])
    ensures outcome.Halt? ==> outcome.stop == Descending || outcome.stop == CurveOverrun
    ensures outcome.Continue? ==>
      && Plan(u, |u.times|)[i].Throttle?
      && outcome.massTotal == MassBefore(u, Plan(u, |u.times|), i + 1) && outcome.delayI == BurnsBefore(u, i + 1)
      && StepRecorded(u, old(flight.track[i]), old(flight.samples[i]).angle, massTotal, Plan(u, |u.times|)[i],
                      StepTime(u, i), flight.samples[i], flight.track[i + 1])
  {
    var time := u.times[i];
    var row := flight.track[i];
    if row.motion.velocity.y < 0.0 {
      outcome := Halt(Descending);
    } else {
      var atmosphere := u.models.isa(row.motion.location.y);
      var air := Air(atmosphere, SpeedOfSound(u.e, atmosphere.temperature));
      var forceGravity := u.models.gravity(row.motion.location.y, massTotal);
      var forceDrag := u.models.drag(row.totalVelocity, atmosphere.temperature, atmosphere.density, u.stage);
      var th, delayI' := Schedule(u, i, time, delayI);
      PlanAt(u, |u.times|, i);
      if th.Overrun? {
        // the atmosphere columns were written before the curve index failed
        flight.samples[i] := flight.samples[i].(air := air);
        outcome := Halt(CurveOverrun);
      } else {
        var massTotal' := flight.dryMass + th.fuel;
        var forces := Forces(forceDrag, th.thrust, forceGravity);
        var angle := flight.samples[i].angle;
        flight.samples[i] := Sample(air, forces, Heading(u.e, row.motion.velocity));
        flight.track[i + 1] := NextPoint(u.e, row, forces, angle, massTotal', u.dt, time);
        outcome := Continue(massTotal', delayI');
      }
    }
  }

  /** Step i taken from a Ready state: a step that runs to the end leaves the state Ready
      for step i + 1, with its own rows appended to the ghost columns. */
  method RecordStep(u: Setup, flight: Flight, ghost angles0: seq<real>, ghost plan: seq<Throttle>,
                    ghost samples: seq<Sample>, ghost track: seq<TrackPoint>, i: nat,
                    massTotal: real, delayI: nat)
    returns (outcome: Outcome, ghost samples': seq<Sample>, ghost track': seq<TrackPoint>)
    requires i < |u.times|
    requires u.fuelCurve == flight.fuelCurve && u.dryMass == flight.dryMass
    requires u.dryMass != 0.0 && forall j :: 0 <= j < |u.fuelCurve| ==> u.dryMass + u.fuelCurve[j] != 0.0
    requires i + 1 < flight.track.Length && i < flight.samples.Length && i < |angles0|
    requires Ready(u, flight, angles0, plan, samples, track, i, massTotal, delayI)
    requires angles0[i] == flight.samples[i].angle
    modifies flight.samples, flight.track
    ensures forall k :: 0 <= k < flight.samples.Length && k != i ==> flight.samples[k] == old(flight.samples[k])
    ensures forall k :: 0 <= k < flight.track.Length && k != i + 1 ==> flight.track[k] == old(flight.track[k])
    ensures outcome == Halt(Descending) ==>
      && old(flight.track[i]).motion.velocity.y < 0.0
      && flight.samples[i] == old(flight.samples[i]) && flight.track[i + 1] == old(flight.track[i + 1])
    ensures outcome == Halt(CurveOverrun) ==>
      && old(flight.track[i]).motion.velocity.y >= 0.0
      && plan[i] == Overrun
      && flight.samples[i] == old(flight.samples[i]).(air := AirAt(u, old(flight.track[i]).motion.location.y))
      && flight.track[i + 1] == old(flight.track[i + 1])
    ensures outcome.Halt? ==> outcome.stop == Descending || outcome.stop == CurveOverrun
    ensures outcome.Halt? ==> samples' == samples && track' == track
    ensures outcome.Continue? ==> Ready(u, flight, angles0, plan, samples', track', i + 1, outcome.massTotal, outcome.delayI)
  {
    ghost var buffer, rows := flight.samples[..], flight.track[..];
    outcome := Step(u, flight, i, massTotal, delayI);
    samples', track' := samples, track;
    if outcome.Continue? {
      ReadyExtended(u, buffer, rows, flight.samples[..], flight.track[..], angles0, plan, samples, track,
                    i, massTotal, delayI, outcome.massTotal, outcome.delayI);
      samples', track' := samples + [flight.samples[i]], track + [flight.track[i + 1]];
    }
  }

  /** The loop of run over the times of the setup, from mass_total = mass[0] plus the
      first fuel row and delay_i = 0. Returns how many steps were recorded and why the
      loop stopped. */
  method Integrate(u: Setup, flight: Flight) returns (steps: nat, stop: Stop)
    requires |u.fuelCurve| > 0 && u.fuelCurve == flight.fuelCurve && u.dryMass == flight.dryMass
    requires u.dryMass != 0.0 && forall j :: 0 <= j < |u.fuelCurve| ==> u.dryMass + u.fuelCurve[j] != 0.0
    requires flight.track.Length > |u.times| && flight.samples.Length >= |u.times|
    modifies flight.samples, flight.track
    ensures steps <= |u.times| && (stop == Descending || stop == Exhausted || stop == CurveOverrun)
    ensures stop == Exhausted ==> steps == |u.times|
    ensures stop == Descending ==> steps < |u.times| && flight.track[steps].motion.velocity.y < 0.0
    ensures stop == CurveOverrun ==>
      && steps < |u.times| && flight.track[steps].motion.velocity.y >= 0.0
      && Plan(u, |u.times|)[steps] == Overrun
      && flight.samples[steps] == old(flight.samples[steps]).(air := AirAt(u, flight.track[steps].motion.location.y))
    ensures Recorded(u, Angles(old(flight.samples[..])), Plan(u, |u.times|), flight.samples[..steps],
                     flight.track[..steps + 1])
    ensures forall k :: 0 <= k < flight.track.Length && (k == 0 || k > steps) ==>
      flight.track[k] == old(flight.track[k])
    ensures forall k :: steps <= k < flight.samples.Length ==>
      (stop == CurveOverrun && k == steps) || flight.samples[k] == old(flight.samples[k])
  {
    var massTotal := flight.dryMass + flight.fuelCurve[0];
    var delayI := 0;
    ghost var angles0 := Angles(old(flight.samples[..]));
    ghost var plan := Plan(u, |u.times|);
    steps, stop := 0, Exhausted;
    ghost var samples: seq<Sample>, track: seq<TrackPoint> := [], [flight.track[0]];
    while steps < |u.times|
      invariant 0 <= steps <= |u.times|
      invariant Ready(u, flight, angles0, plan, samples, track, steps, massTotal, delayI)
      invariant forall k :: 0 <= k < flight.track.Length && (k == 0 || k > steps) ==>
        flight.track[k] == old(flight.track[k])
      invariant forall k :: steps <= k < flight.samples.Length ==> flight.samples[k] == old(flight.samples[k])
    {
      var outcome;
      outcome, samples, track := RecordStep(u, flight, angles0, plan, samples, track, steps, massTotal, delayI);
      if outcome.Halt? {
        stop := outcome.stop;
        break;
      }
      massTotal, delayI := outcome.massTotal, outcome.delayI;
      steps := steps + 1;
    }
    assert flight.samples[..steps] == samples;
    assert flight.track[..steps + 1] == track;
  }

  /** run(flight, stage, gravity, drag, isa, dt, start_time, end_time, coast, delay):
      the first fuel row is read before anything else, so an empty fuel curve stops
      the run with nothing written; so do a zero dt, which the sample count divides by,
      and a negative sample count, which np.linspace refuses. Otherwise the loop runs
      over the samples. */
  method Run(e: Elementary, flight: Flight, stage: int, models: Models, dt: real,
             startTime: real, endTime: real, coast: bool, delay: real)
    returns (steps: nat, stop: Stop)
    requires flight.dryMass != 0.0
    requires forall j :: 0 <= j < |flight.fuelCurve| ==> flight.dryMass + flight.fuelCurve[j] != 0.0
    requires dt != 0.0 ==> var n := SampleCount(startTime, endTime, dt);
      n >= 0 ==> flight.track.Length > n && flight.samples.Length >= n
    modifies flight.samples, flight.track
    ensures |flight.fuelCurve| == 0 <==> stop == EmptyFuelCurve
    ensures |flight.fuelCurve| > 0 && dt == 0.0 <==> stop == ZeroTimeStep
    ensures |flight.fuelCurve| > 0 && dt != 0.0 ==> (SampleCount(startTime, endTime, dt) < 0 <==> stop == NoSamples)
    ensures stop == EmptyFuelCurve || stop == ZeroTimeStep || stop == NoSamples ==>
      steps == 0 && unchanged(flight.samples, flight.track)
    ensures |flight.fuelCurve| > 0 && dt != 0.0 && SampleCount(startTime, endTime, dt) >= 0 ==>
      var u := SetupOf(e, flight, stage, models, dt, startTime, endTime, coast, delay);
      && steps <= |u.times|
      && (stop == Exhausted ==> steps == |u.times|)
      && (stop == Descending ==> steps < |u.times| && flight.track[steps].motion.velocity.y < 0.0)
      && (stop == CurveOverrun ==>
            && steps < |u.times| && flight.track[steps].motion.velocity.y >= 0.0
            && Plan(u, |u.times|)[steps] == Overrun
            && flight.samples[steps] == old(flight.samples[steps]).(air := AirAt(u, flight.track[steps].motion.location.y)))
      && Recorded(u, Angles(old(flight.samples[..])), Plan(u, |u.times|), flight.samples[..steps],
                  flight.track[..steps + 1])
    ensures forall k :: 0 <= k < flight.track.Length && (k == 0 || k > steps) ==>
      flight.track[k] == old(flight.track[k])
    ensures forall k :: steps <= k < flight.samples.Length ==>
      (stop == CurveOverrun && k == steps) || flight.samples[k] == old(flight.samples[k])
  {
    if |flight.fuelCurve| == 0 {
      return 0, EmptyFuelCurve;
    }
    if dt == 0.0 {
      return 0, ZeroTimeStep;
    }
    var n := SampleCount(startTime, endTime, dt);
    if n < 0 {
      steps, stop := 0, NoSamples;
    } else {
      var u := SetupOf(e, flight, stage, models, dt, startTime, endTime, coast, delay);
      steps, stop := Integrate(u, flight);
    }
  }
}
