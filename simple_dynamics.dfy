/** The earlier trajectory integrator (engineering/simulators/simple/dynamics.py): a
    forward-Euler loop over the linspace samples that runs while the rocket is at or
    above the ground, with thrust and fuel read from per-step curves and thrust acting
    along the velocity. */
module SimpleDynamics {
  import opened RealMath
  import opened Kinematics
  import opened Aerodynamics

  const DryMass: real := 50.0       // mass_rocket [kg]
  const InitialFuel: real := 100.0  // mass_fuel before the first step [kg]

  /** The flight record the simple loop fills: the atmosphere row written at index i
      (temperature, pressure, density), the motion rows written at index i + 1, and the
      per-step thrust and fuel-mass curves it only reads. */
  class SimpleFlight {
    const atmosphere: array<Atmosphere>
    const track: array<Motion>
    const thrustCurve: seq<real>
    const fuelMass: seq<real>

    constructor(atmosphere: array<Atmosphere>, track: array<Motion>,
                thrustCurve: seq<real>, fuelMass: seq<real>)
      ensures this.atmosphere == atmosphere && this.track == track
      ensures this.thrustCurve == thrustCurve && this.fuelMass == fuelMass
    {
      this.atmosphere := atmosphere;
      this.track := track;
      this.thrustCurve := thrustCurve;
      this.fuelMass := fuelMass;
    }
  }

  /** Why the loop ended. */
  datatype SimpleStop =
    | BelowGround   // the row reached had a negative altitude
    | Exhausted     // every linspace sample was used
    | ZeroSpeed     // the speed was 0, and the thrust direction divides by it
    | NoSamples     // int((end - start) / dt) was negative, which np.linspace refuses
    | ZeroTimeStep  // dt was 0, and (end - start) / dt divides by it

  /** The mass the gravity of step k sees: the total mass left by the previous step, or
      the dry mass plus the initial fuel at step 0. */
  function MassBefore(fuelMass: seq<real>, k: nat): real
    requires k <= |fuelMass|
  {
    if k == 0 then DryMass + InitialFuel else DryMass + fuelMass[k - 1]
  }

  /** The net force of one step: the thrust along the unit vector of the velocity, less
      the drag vector, less the weight on y. What is left once drag and weight are put
      back is parallel to the velocity (the thrust acts along the direction of flight),
      and without thrust only drag and weight remain. */
  function SimpleForce(e: Elementary, v: Vec2, drag: Vec2, thrust: real, weight: real): (f: Vec2)
    requires Norm(e, v) != 0.0
    ensures (f.x + drag.x) * v.y == (f.y + drag.y + weight) * v.x
    ensures thrust == 0.0 ==> f == Vec2(-drag.x, -drag.y - weight)
  {
    var speed := Norm(e, v);
    var k := thrust / speed;
    assert thrust * v.x / speed == k * v.x;
    assert thrust * v.y / speed == k * v.y;
    Vec2(-drag.x + thrust * v.x / speed, -drag.y + thrust * v.y / speed - weight)
  }

  /** The motion step k writes at index k + 1, from the row at index k: weight at the
      mass the step starts with, drag at the row's density, thrust along the velocity,
      and the Euler step at the mass after the step's fuel row. The location moves by
      the velocity the step started with, and a row with no horizontal velocity and no
      horizontal drag keeps both its horizontal velocity (0) and its x. */
  function SimpleNext(e: Elementary, gravity: (real, real) -> real, drag: (Vec2, real) -> Vec2,
                      m: Motion, atm: Atmosphere, massBefore: real, thrust: real, fuel: real,
                      dt: real): (r: Motion)
    requires Norm(e, m.velocity) != 0.0 && DryMass + fuel != 0.0
    ensures r.location == m.location.Plus(m.velocity.Times(dt))
    ensures m.velocity.x == 0.0 && drag(m.velocity, atm.density).x == 0.0 ==>
      r.velocity.x == 0.0 && r.location.x == m.location.x
  {
    var weight := gravity(m.location.y, massBefore);
    var force := SimpleForce(e, m.velocity, drag(m.velocity, atm.density), thrust, weight);
    EulerStepBalance(m, force, DryMass + fuel, dt);
    if m.velocity.x == 0.0 && drag(m.velocity, atm.density).x == 0.0 then
      assert force.x == 0.0;
      ZeroProduct(EulerStep(m, force, DryMass + fuel, dt).velocity.x, DryMass + fuel);
      EulerStep(m, force, DryMass + fuel, dt)
    else
      EulerStep(m, force, DryMass + fuel, dt)
  }

  /** One step as recorded in the buffer: it found row m at or above the ground, wrote
      the atmosphere at that altitude into the same index and the Euler successor of m
      into the next index. */
  ghost predicate StepRecorded(e: Elementary, gravity: (real, real) -> real, drag: (Vec2, real) -> Vec2,
                               isa: real -> Atmosphere, dt: real, m: Motion, atm: Atmosphere,
                               next: Motion, massBefore: real, thrust: real, fuel: real)
  {
    && m.location.y >= 0.0
    && atm == isa(m.location.y)
    && Norm(e, m.velocity) != 0.0
    && DryMass + fuel != 0.0
    && next == SimpleNext(e, gravity, drag, m, atm, massBefore, thrust, fuel, dt)
  }

  /** Steps 0 .. |atm| - 1 as recorded: atm holds the atmosphere rows they wrote and
      track the motion rows they read and wrote, one more than there are steps. */
  ghost predicate Recorded(e: Elementary, gravity: (real, real) -> real, drag: (Vec2, real) -> Vec2,
                           isa: real -> Atmosphere, dt: real, atm: seq<Atmosphere>, track: seq<Motion>,
                           thrustCurve: seq<real>, fuelMass: seq<real>)
    decreases |atm|
  {
    && |track| == |atm| + 1 && |atm| <= |thrustCurve| && |atm| <= |fuelMass|
    && (|atm| > 0 ==>
          var k := |atm| - 1;
          && Recorded(e, gravity, drag, isa, dt, atm[..k], track[..k + 1], thrustCurve, fuelMass)
          && StepRecorded(e, gravity, drag, isa, dt, track[k], atm[k], track[k + 1],
                          MassBefore(fuelMass, k), thrustCurve[k], fuelMass[k]))
  }

  /** A step is recorded for the same values wherever they are read from. */
  lemma RecordedAgain(e: Elementary, gravity: (real, real) -> real, drag: (Vec2, real) -> Vec2,
                      isa: real -> Atmosphere, dt: real, m: Motion, atm: Atmosphere, next: Motion,
                      m': Motion, atm': Atmosphere, next': Motion, massBefore: real, thrust: real, fuel: real)
    requires StepRecorded(e, gravity, drag, isa, dt, m, atm, next, massBefore, thrust, fuel)
    requires m' == m && atm' == atm && next' == next
    ensures StepRecorded(e, gravity, drag, isa, dt, m', atm', next', massBefore, thrust, fuel)
  {
  }

  /** Recording the step that follows the last recorded row extends the record by that
      step's atmosphere row and motion row. */
  lemma RecordedExtend(e: Elementary, gravity: (real, real) -> real, drag: (Vec2, real) -> Vec2,
                       isa: real -> Atmosphere, dt: real, atm: seq<Atmosphere>, track: seq<Motion>,
                       row: Atmosphere, next: Motion, thrustCurve: seq<real>, fuelMass: seq<real>)
    requires Recorded(e, gravity, drag, isa, dt, atm, track, thrustCurve, fuelMass)
    requires |atm| < |thrustCurve| && |atm| < |fuelMass|
    requires StepRecorded(e, gravity, drag, isa, dt, track[|atm|], row, next,
                          MassBefore(fuelMass, |atm|), thrustCurve[|atm|], fuelMass[|atm|])
    ensures Recorded(e, gravity, drag, isa, dt, atm + [row], track + [next], thrustCurve, fuelMass)
  {
    assert (atm + [row])[..|atm|] == atm;
    assert (track + [next])[..|atm| + 1] == track;
  }

  /** The same for the buffers the loop writes: after row i of the atmosphere buffer
      and row i + 1 of the track buffer are written, their prefixes record one more step. */
  lemma RecordedUpdate(e: Elementary, gravity: (real, real) -> real, drag: (Vec2, real) -> Vec2,
                       isa: real -> Atmosphere, dt: real, atmBuffer: seq<Atmosphere>, trackBuffer: seq<Motion>,
                       i: nat, row: Atmosphere, next: Motion, thrustCurve: seq<real>, fuelMass: seq<real>)
    requires i < |atmBuffer| && i + 1 < |trackBuffer|
    requires Recorded(e, gravity, drag, isa, dt, atmBuffer[..i], trackBuffer[..i + 1], thrustCurve, fuelMass)
    requires i < |thrustCurve| && i < |fuelMass|
    requires StepRecorded(e, gravity, drag, isa, dt, trackBuffer[i], row, next,
                          MassBefore(fuelMass, i), thrustCurve[i], fuelMass[i])
    ensures Recorded(e, gravity, drag, isa, dt, atmBuffer[i := row][..i + 1], trackBuffer[i + 1 := next][..i + 2],
                     thrustCurve, fuelMass)
  {
    RecordedExtend(e, gravity, drag, isa, dt, atmBuffer[..i], trackBuffer[..i + 1], row, next, thrustCurve, fuelMass);
    assert atmBuffer[i := row][..i + 1] == atmBuffer[..i] + [row];
    assert trackBuffer[i + 1 := next][..i + 2] == trackBuffer[..i + 1] + [next];
  }

  /** Every step of a recorded run satisfies StepRecorded at its own rows. */
  lemma {:induction false} RecordedStep(e: Elementary, gravity: (real, real) -> real, drag: (Vec2, real) -> Vec2,
                                        isa: real -> Atmosphere, dt: real, atm: seq<Atmosphere>, track: seq<Motion>,
                                        thrustCurve: seq<real>, fuelMass: seq<real>, k: nat)
    requires Recorded(e, gravity, drag, isa, dt, atm, track, thrustCurve, fuelMass)
    requires k < |atm|
    ensures k + 1 < |track| && k < |thrustCurve| && k < |fuelMass|
    ensures StepRecorded(e, gravity, drag, isa, dt, track[k], atm[k], track[k + 1],
                         MassBefore(fuelMass, k), thrustCurve[k], fuelMass[k])
    decreases |atm|
  {
    var n := |atm| - 1;
    if k < n {
      var atm', track' := atm[..n], track[..n + 1];
      RecordedStep(e, gravity, drag, isa, dt, atm', track', thrustCurve, fuelMass, k);
      RecordedAgain(e, gravity, drag, isa, dt, track'[k], atm'[k], track'[k + 1], track[k], atm[k], track[k + 1],
                    MassBefore(fuelMass, k), thrustCurve[k], fuelMass[k]);
    }
  }

  /** run(flight, gravity, drag, isa, dt, start_time, end_time). Returns how many steps
      were taken and why the loop stopped; a zero dt, which the sample count divides
      by, and a negative sample count stop it before anything is written. Every step taken is recorded as above; rows
      the loop did not reach are left as they were. */
  method Run(e: Elementary, flight: SimpleFlight, gravity: (real, real) -> real,
             drag: (Vec2, real) -> Vec2, isa: real -> Atmosphere,
             dt: real, startTime: real, endTime: real) returns (steps: nat, stop: SimpleStop)
    requires dt != 0.0 ==> var n := SampleCount(startTime, endTime, dt);
      n >= 0 ==>
        && flight.atmosphere.Length >= n && flight.track.Length > n
        && |flight.thrustCurve| >= n && |flight.fuelMass| >= n
        && (forall k :: 0 <= k < n ==> DryMass + flight.fuelMass[k] != 0.0)
    modifies flight.atmosphere, flight.track
    ensures dt == 0.0 <==> stop == ZeroTimeStep
    ensures stop == ZeroTimeStep || stop == NoSamples ==> steps == 0 && unchanged(flight.atmosphere, flight.track)
    ensures dt != 0.0 ==> var n := SampleCount(startTime, endTime, dt);
      && (n < 0 <==> stop == NoSamples)
      && (n >= 0 ==> steps <= n)
      && (stop == Exhausted ==> steps == n)
      && (stop == BelowGround ==> steps < n && flight.track[steps].location.y < 0.0)
      && (stop == ZeroSpeed ==>
            && steps < n && flight.track[steps].location.y >= 0.0
            && Norm(e, flight.track[steps].velocity) == 0.0
            && flight.atmosphere[steps] == isa(flight.track[steps].location.y))
    ensures dt != 0.0 && SampleCount(startTime, endTime, dt) >= 0 ==>
      Recorded(e, gravity, drag, isa, dt, flight.atmosphere[..steps], flight.track[..steps + 1],
               flight.thrustCurve, flight.fuelMass)
    ensures forall k :: 0 <= k < flight.track.Length && (k == 0 || k > steps) ==>
      flight.track[k] == old(flight.track[k])
    ensures forall k :: 0 <= k < flight.atmosphere.Length && k >= steps ==>
      (stop == ZeroSpeed && k == steps) || flight.atmosphere[k] == old(flight.atmosphere[k])
  {
    if dt == 0.0 {
      return 0, ZeroTimeStep;
    }
    var n := SampleCount(startTime, endTime, dt);
    if n < 0 {
      return 0, NoSamples;
    }
    steps, stop := Integrate(e, flight, gravity, drag, isa, dt, n);
  }

  /** The loop of run over n samples. */
  method Integrate(e: Elementary, flight: SimpleFlight, gravity: (real, real) -> real,
                   drag: (Vec2, real) -> Vec2, isa: real -> Atmosphere, dt: real, n: nat)
    returns (steps: nat, stop: SimpleStop)
    requires flight.atmosphere.Length >= n && flight.track.Length > n
    requires |flight.thrustCurve| >= n && |flight.fuelMass| >= n
    requires forall k :: 0 <= k < n ==> DryMass + flight.fuelMass[k] != 0.0
    modifies flight.atmosphere, flight.track
    ensures steps <= n && (stop == BelowGround || stop == Exhausted || stop == ZeroSpeed)
    ensures stop == Exhausted ==> steps == n
    ensures stop == BelowGround ==> steps < n && flight.track[steps].location.y < 0.0
    ensures stop == ZeroSpeed ==>
      && steps < n && flight.track[steps].location.y >= 0.0
      && Norm(e, flight.track[steps].velocity) == 0.0
      && flight.atmosphere[steps] == isa(flight.track[steps].location.y)
    ensures Recorded(e, gravity, drag, isa, dt, flight.atmosphere[..steps], flight.track[..steps + 1],
                     flight.thrustCurve, flight.fuelMass)
    ensures forall k :: 0 <= k < flight.track.Length && (k == 0 || k > steps) ==>
      flight.track[k] == old(flight.track[k])
    ensures forall k :: 0 <= k < flight.atmosphere.Length && k >= steps ==>
      (stop == ZeroSpeed && k == steps) || flight.atmosphere[k] == old(flight.atmosphere[k])
  {
    var massTotal := DryMass + InitialFuel;
    var i := 0;
    while i < n
      invariant 0 <= i <= n
      invariant massTotal == MassBefore(flight.fuelMass, i)
      invariant Recorded(e, gravity, drag, isa, dt, flight.atmosphere[..i], flight.track[..i + 1],
                         flight.thrustCurve, flight.fuelMass)
      invariant forall k :: 0 <= k < flight.track.Length && (k == 0 || k > i) ==>
        flight.track[k] == old(flight.track[k])
      invariant forall k :: 0 <= k < flight.atmosphere.Length && k >= i ==>
        flight.atmosphere[k] == old(flight.atmosphere[k])
    {
      ghost var atm0, track0 := flight.atmosphere[..], flight.track[..];
      var m := flight.track[i];
      if m.location.y < 0.0 {
        return i, BelowGround;
      }
      var row := isa(m.location.y);
      flight.atmosphere[i] := row;
      var massBefore := massTotal;
      var thrust := flight.thrustCurve[i];
      var fuel := flight.fuelMass[i];
      massTotal := DryMass + fuel;
      var speed := Norm(e, m.velocity);
      if speed == 0.0 {
        return i, ZeroSpeed;
      }
      var next := SimpleNext(e, gravity, drag, m, row, massBefore, thrust, fuel, dt);
      flight.track[i + 1] := next;
      RecordedUpdate(e, gravity, drag, isa, dt, atm0, track0, i, row, next, flight.thrustCurve, flight.fuelMass);
      i := i + 1;
    }
    return n, Exhausted;
  }
}
