/** Planar vectors and the sampling of the time axis shared by both trajectory
    integrators. */
module Kinematics {
  import opened RealMath

  /** A 2-vector (x horizontal, y vertical), a row of the flight buffer. */
  datatype Vec2 = Vec2(x: real, y: real)
  {
    function Plus(w: Vec2): Vec2 { Vec2(x + w.x, y + w.y) }
    function Times(k: real): Vec2 { Vec2(x * k, y * k) }
  }

  /** np.linalg.norm of a 2-vector. */
  function Norm(e: Elementary, v: Vec2): real
  {
    e.sqrt(v.x * v.x + v.y * v.y)
  }

  /** Velocity and location at one index of the buffer; the Euler step of both integrators
      reads it at index i and writes it at index i + 1. */
  datatype Motion = Motion(velocity: Vec2, location: Vec2)

  /** One Euler step: the velocity gains dt times the acceleration, and the location
      advances by dt times the velocity the step started with. */
  function EulerStep(m: Motion, force: Vec2, mass: real, dt: real): Motion
    requires mass != 0.0
  {
    var acceleration := Vec2(force.x / mass, force.y / mass);
    Motion(acceleration.Times(dt).Plus(m.velocity), m.velocity.Times(dt).Plus(m.location))
  }

  /** The Euler step moves by the velocity it started with, and the momentum it adds is
      the impulse force * dt. */
  lemma EulerStepBalance(m: Motion, force: Vec2, mass: real, dt: real)
    requires mass != 0.0
    ensures var next := EulerStep(m, force, mass, dt);
      && next.location == m.location.Plus(m.velocity.Times(dt))
      && next.velocity.x * mass == m.velocity.x * mass + force.x * dt
      && next.velocity.y * mass == m.velocity.y * mass + force.y * dt
  {
  }

  /** The number of samples both integrators ask np.linspace for: int((end - start) / dt). */
  function SampleCount(start: real, end: real, dt: real): int
    requires dt != 0.0
  {
    Trunc((end - start) / dt)
  }

  /** Sample k of np.linspace(start, end, n): n evenly spaced times from start to end
      inclusive (just start when n is 1). */
  function LinspaceTime(start: real, end: real, n: nat, k: nat): (t: real)
    requires k < n
    ensures k == 0 ==> t == start
    ensures n >= 2 && k == n - 1 ==> t == end
  {
    if n == 1 then start
    else start + (k as real) * (end - start) / ((n - 1) as real)
  }

  /** np.linspace(start, end, n) as a whole: the times the integration loop enumerates. */
  function Linspace(start: real, end: real, n: nat): (ts: seq<real>)
    ensures |ts| == n
    ensures forall k :: 0 <= k < n ==> ts[k] == LinspaceTime(start, end, n, k)
  {
    seq(n, k requires 0 <= k < n => LinspaceTime(start, end, n, k))
  }

  /** The samples rise with k when end lies above start: the integrators see time
      increase step by step. */
  lemma LinspaceIncreasing(start: real, end: real, n: nat, j: nat, k: nat)
    requires j < k < n && start < end
    ensures LinspaceTime(start, end, n, j) < LinspaceTime(start, end, n, k)
  {
    var span := (end - start) / ((n - 1) as real);
    Quotient(end - start, (n - 1) as real);
    assert (j as real) * (end - start) / ((n - 1) as real) == (j as real) * span;
    assert (k as real) * (end - start) / ((n - 1) as real) == (k as real) * span;
    MultiplyMonotone(j as real, k as real, span);
    ProductPositive((k - j) as real, span);
    assert (k as real) * span - (j as real) * span == ((k - j) as real) * span;
  }

  /** Consecutive samples lie (end - start)/(n - 1) apart, whatever dt is: the loop's own
      time += dt is overwritten by the next sample. */
  lemma LinspaceSpacing(start: real, end: real, n: nat, k: nat)
    requires k + 1 < n
    ensures LinspaceTime(start, end, n, k + 1) - LinspaceTime(start, end, n, k)
      == (end - start) / ((n - 1) as real)
  {
    var m := (n - 1) as real;
    assert ((k + 1) as real) * (end - start) / m == (k as real) * (end - start) / m + (end - start) / m;
  }
}
