/** Newtonian gravity on the rocket (engineering/simulators/advanced/gravity.py). */
module Gravity {
  import opened RealMath

  const EarthRadius: real := 6371000.0                  // [m]
  const EarthMass: real := 5972000000000000000000000.0  // 5.972e24 [kg]
  const GravitationalConstant: real := 0.000000000066743 // 6.6743e-11 [m^3 kg^-1 s^-2]

  /** The distance from the centre of the Earth at the given height. */
  function Distance(height: real): real
  {
    EarthRadius + height
  }

  /** The weight of a rocket of the given mass at the given height above the surface:
      G M m divided by the square of the distance from the centre of the Earth (written
      as two divisions by the distance, which is the same quotient). The source fails at
      the centre of the Earth, where the distance is 0. */
  function Weight(height: real, mass: real): (f: real)
    requires Distance(height) != 0.0
    ensures f * Distance(height) * Distance(height) == GravitationalConstant * EarthMass * mass
    ensures mass == 0.0 ==> f == 0.0
    ensures Distance(height) > 0.0 && mass > 0.0 ==> f > 0.0
  {
    var d := Distance(height);
    var gmm := GravitationalConstant * EarthMass * mass;
    if d > 0.0 then
      Quotient(gmm, d);
      Quotient(gmm / d, d);
      gmm / d / d
    else
      gmm / d / d
  }

  /** The weight scales linearly with the mass. */
  lemma WeightLinearInMass(height: real, k: real, mass: real)
    requires Distance(height) != 0.0
    ensures Weight(height, k * mass) == k * Weight(height, mass)
  {
    var d := Distance(height);
    var gm := GravitationalConstant * EarthMass;
    assert gm * (k * mass) == k * (gm * mass);
    ScaleQuotient(k, gm * mass, d);
    ScaleQuotient(k, gm * mass / d, d);
  }

  /** Above the surface the weight of a positive mass strictly decreases with height. */
  lemma WeightDecreasesWithHeight(lower: real, higher: real, mass: real)
    requires 0.0 <= lower < higher && mass > 0.0
    ensures Weight(higher, mass) < Weight(lower, mass)
  {
    var a, b := Distance(lower), Distance(higher);
    var gmm := GravitationalConstant * EarthMass * mass;
    assert 0.0 < a < b && gmm > 0.0;
    Quotient(gmm, a);
    DivideByLarger(gmm, a, b);
    DivideKeepsOrder(gmm / b, gmm / a, b);
    DivideByLarger(gmm / a, a, b);
  }
}
