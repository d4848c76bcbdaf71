/** The solid motor of the simple simulator (engineering/simulators/simple/engines.py):
    a fixed load of fuel that every burn(dt) call while fuel remains reduces by the burn
    rate times dt, at full thrust. */
module SimpleEngines {
  import opened RealMath

  /** What burn returns: the thrust delivered and the fuel mass reported. */
  datatype Burned = Burned(thrust: real, fuel: real)

  /** The fuel left after one burn call that starts with the given fuel. */
  function FuelAfterBurn(fuel: real, burnRate: real, dt: real): real
  {
    if fuel > 0.0 then fuel - burnRate * dt else fuel
  }

  /** What one burn call that starts with the given fuel returns: full thrust and the
      remaining fuel, clamped at 0, while there was fuel; otherwise no thrust and the
      stored fuel as it is. */
  function BurnOutput(fuel: real, burnRate: real, thrust: real, dt: real): (b: Burned)
    ensures fuel > 0.0 ==> b.thrust == thrust && b.fuel >= 0.0
    ensures fuel > 0.0 ==> b.fuel == Max(FuelAfterBurn(fuel, burnRate, dt), 0.0)
    ensures fuel <= 0.0 ==> b == Burned(0.0, fuel)
  {
    if fuel > 0.0 then
      var left := fuel - burnRate * dt;
      if left > 0.0 then Burned(thrust, left) else Burned(thrust, 0.0)
    else Burned(0.0, fuel)
  }

  class Engine {
    var massFuel: real   // [kg]
    var burnTime: real   // [s]
    var burnRate: real   // [kg/s]
    var thrust: real     // [N]

    /** A fresh motor: 100 kg of fuel burnt in 10 s, so 10 kg/s, at 10000 N. */
    constructor()
      ensures massFuel == 100.0 && burnTime == 10.0 && thrust == 10000.0
      ensures burnRate == massFuel / burnTime == 10.0
    {
      massFuel := 100.0;
      burnTime := 10.0;
      burnRate := 100.0 / 10.0;
      thrust := 10000.0;
    }

    /** burn(dt): one time step of the motor. Only the fuel changes, and only while
        there is fuel; once it is used up the call is idempotent. */
    method Burn(dt: real) returns (b: Burned)
      modifies this
      ensures massFuel == FuelAfterBurn(old(massFuel), burnRate, dt)
      ensures b == BurnOutput(old(massFuel), burnRate, thrust, dt)
      ensures burnTime == old(burnTime) && burnRate == old(burnRate) && thrust == old(thrust)
      ensures old(massFuel) <= 0.0 ==> massFuel == old(massFuel) && b == Burned(0.0, massFuel)
    {
      if massFuel > 0.0 {
        massFuel := massFuel - burnRate * dt;
        if massFuel > 0.0 {
          return Burned(thrust, massFuel);
        } else {
          return Burned(thrust, 0.0);
        }
      } else {
        return Burned(0.0, massFuel);
      }
    }
  }

  /** The fuel in store after n burn calls of a motor that started with fuel0. */
  function FuelAfterCalls(fuel0: real, burnRate: real, dt: real, n: nat): real
  {
    if n == 0 then fuel0 else FuelAfterBurn(FuelAfterCalls(fuel0, burnRate, dt, n - 1), burnRate, dt)
  }

  /** Call k (counting from 0) delivers thrust exactly when fuel is left before it. */
  predicate ThrustingCall(fuel0: real, burnRate: real, dt: real, k: nat)
  {
    BurnOutput(FuelAfterCalls(fuel0, burnRate, dt, k), burnRate, 10000.0, dt).thrust != 0.0
  }

  /** While fuel remains, each call removes one step rate * dt; the call that empties the
      store is call Ceil(fuel0 / step) - 1, and from then on the store stays as it is. */
  lemma {:induction false} FuelBeforeCall(fuel0: real, step: real, dt: real, burnRate: real, k: nat)
    requires fuel0 > 0.0 && step > 0.0 && burnRate * dt == step
    ensures var c := Ceil(fuel0 / step);
      c >= 1
      && (k <= c ==> FuelAfterCalls(fuel0, burnRate, dt, k) == fuel0 - (k as real) * step)
      && (k >= c ==> FuelAfterCalls(fuel0, burnRate, dt, k) == fuel0 - (c as real) * step)
  {
    var c := Ceil(fuel0 / step);
    Quotient(fuel0, step);
    if k > 0 {
      FuelBeforeCall(fuel0, step, dt, burnRate, k - 1);
      var before := FuelAfterCalls(fuel0, burnRate, dt, k - 1);
      if k <= c {
        // call k - 1 still found fuel: (k - 1) step < fuel0
        BelowQuotient((k - 1) as real, fuel0, step);
        assert before == fuel0 - ((k - 1) as real) * step;
        assert before > 0.0;
      } else {
        // the store was already empty: c step >= fuel0
        BelowQuotient(c as real, fuel0, step);
        assert before <= 0.0;
      }
    }
  }

  /** A fresh motor stepped with dt > 0 gives exactly Ceil(100 / (10 dt)) thrusting
      calls: calls 0 .. Ceil(100 / (10 dt)) - 1 and none after. */
  lemma ThrustingCallsOfFreshEngine(dt: real, k: nat)
    requires dt > 0.0
    ensures ThrustingCall(100.0, 10.0, dt, k) <==> k < Ceil(100.0 / (10.0 * dt))
  {
    var step := 10.0 * dt;
    var c := Ceil(100.0 / step);
    FuelBeforeCall(100.0, step, dt, 10.0, k);
    if k < c {
      BelowQuotient(k as real, 100.0, step);
    } else {
      BelowQuotient(c as real, 100.0, step);
      assert FuelAfterCalls(100.0, 10.0, dt, k) <= 0.0;
    }
  }
}
