/** The International Standard Atmosphere walk and the component drag model of the
    advanced simulator (engineering/simulators/advanced/aerodynamics.py). */
module Aerodynamics {
  import opened RealMath

  // ---------------------------------------------------------------------------
  // Atmosphere
  // ---------------------------------------------------------------------------

  /** One row of the layer table: the layer's ceiling [m] and its temperature lapse
      rate [K/m]. */
  datatype Layer = Layer(ceiling: real, lapse: real)

  /** The temperature-gradient profile of ISO 2533:1975 up to 86 km, held constant
      from there to 400 km. Row 0 is the ground; the walk starts at row 1. */
  const Layers: seq<Layer> := [
    Layer(0.0, -0.0065),
    Layer(11000.0, -0.0065),
    Layer(20000.0, 0.0),
    Layer(32000.0, 0.001),
    Layer(47000.0, 0.0028),
    Layer(51000.0, 0.0),
    Layer(71000.0, -0.0028),
    Layer(86000.0, -0.0020),
    Layer(400000.0, 0.0)
  ]

  const Ceiling: real := 400000.0   // top of the table
  const G0: real := 9.80665         // standard gravity [m/s^2]
  const GasConstant: real := 287.0  // specific gas constant of air [J/(kg K)]
  const SeaLevelTemperature: real := 288.15
  const SeaLevelPressure: real := 101325.0

  /** The temperature at the top of each row of the table, as the walk produces it
      when it crosses the whole row. */
  const BaseTemperature: seq<real> :=
    [288.15, 216.65, 216.65, 228.65, 270.65, 270.65, 214.65, 184.65, 184.65]

  /** What isa returns: temperature [K], pressure [Pa], density [kg/m^3]. */
  datatype Atmosphere = Atmosphere(temperature: real, pressure: real, density: real)

  /** The part of row i that lies below h: the whole row, or up to h in the row that
      holds h (for row 1 this is h itself, even below the ground). */
  function Thickness(h: real, i: nat): real
    requires 1 <= i < |Layers|
  {
    if h <= Layers[i].ceiling then h - Layers[i - 1].ceiling
    else Layers[i].ceiling - Layers[i - 1].ceiling
  }

  /** Temperature after the walk has crossed rows 1..i. */
  function TempAfter(h: real, i: nat): real
    requires i < |Layers|
  {
    if i == 0 then SeaLevelTemperature
    else Lapsed(TempAfter(h, i - 1), Layers[i].lapse, Thickness(h, i))
  }

  /** The temperature at the top of a part of thickness dh with lapse rate alpha that
      starts at temperature t. */
  function Lapsed(t: real, alpha: real, dh: real): real
  {
    t + alpha * dh
  }

  /** The first row at or after row i whose ceiling is not below h. */
  function StopFrom(h: real, i: nat): (r: nat)
    requires 1 <= i < |Layers| && h <= Ceiling
    ensures i <= r < |Layers| && h <= Layers[r].ceiling
    ensures forall j :: i <= j < r ==> Layers[j].ceiling < h
    decreases |Layers| - i
  {
    if h <= Layers[i].ceiling || i == |Layers| - 1 then i else StopFrom(h, i + 1)
  }

  /** The row at which the walk breaks off. */
  function StopLayer(h: real): (r: nat)
    requires h <= Ceiling
    ensures 1 <= r < |Layers| && h <= Layers[r].ceiling
    ensures r >= 2 ==> Layers[r - 1].ceiling < h
  {
    StopFrom(h, 1)
  }

  lemma BaseTemperatureTable(i: nat)
    requires 1 <= i < |Layers|
    ensures BaseTemperature[i] == BaseTemperature[i - 1] + Layers[i].lapse * (Layers[i].ceiling - Layers[i - 1].ceiling)
    ensures BaseTemperature[i] >= 184.65
  {
    if i == 1 {} else if i == 2 {} else if i == 3 {} else if i == 4 {}
    else if i == 5 {} else if i == 6 {} else if i == 7 {} else {}
  }

  /** Every row the walk crosses in full leaves the temperature at the row's base value. */
  lemma {:induction false} TempAfterCrossed(h: real, i: nat)
    requires h <= Ceiling && i < StopLayer(h)
    ensures TempAfter(h, i) == BaseTemperature[i]
  {
    if i > 0 {
      TempAfterCrossed(h, i - 1);
      BaseTemperatureTable(i);
      assert Layers[i].ceiling < h by {
        assert StopLayer(h) == StopFrom(h, 1);
      }
    }
  }

  /** In the row that holds h, the temperature moves linearly from the row's base value. */
  lemma TempAtStop(h: real)
    requires h <= Ceiling
    ensures var s := StopLayer(h);
      TempAfter(h, s) == BaseTemperature[s - 1] + Layers[s].lapse * (h - Layers[s - 1].ceiling)
  {
    var s := StopLayer(h);
    TempAfterCrossed(h, s - 1);
  }

  /** The temperature of the walk never falls below 184.65 K anywhere up to 400 km. */
  lemma {:induction false} TempAfterPositive(h: real, i: nat)
    requires h <= Ceiling && i <= StopLayer(h)
    ensures TempAfter(h, i) >= 184.65
  {
    var s := StopLayer(h);
    if i < s {
      TempAfterCrossed(h, i);
      if i > 0 { BaseTemperatureTable(i); }
    } else {
      TempAtStop(h);
      var t := h - Layers[s - 1].ceiling;
      if s == 1 {
      } else {
        BaseTemperatureTable(s);
        BaseTemperatureTable(s - 1);
        var lapse := Layers[s].lapse;
        var full := Layers[s].ceiling - Layers[s - 1].ceiling;
        assert 0.0 < t <= full;
        if lapse < 0.0 {
          assert lapse * t >= lapse * full;
        } else {
          assert lapse * t >= 0.0;
        }
      }
    }
  }

  /** The factor by which one row multiplies the pressure: isothermal when the lapse
      rate is zero, polytropic otherwise. lastT and t are the temperatures at the
      bottom and top of the crossed part, dh its thickness. */
  function PressureFactor(e: Elementary, alpha: real, lastT: real, t: real, dh: real): real
    requires lastT > 0.0 && t > 0.0
  {
    if alpha == 0.0 then e.exp(-G0 / (GasConstant * t) * dh)
    else e.pow(t / lastT, -G0 / (alpha * GasConstant))
  }

  lemma PressureFactorPositive(e: Elementary, alpha: real, lastT: real, t: real, dh: real)
    requires Lawful(e) && lastT > 0.0 && t > 0.0
    ensures PressureFactor(e, alpha, lastT, t, dh) > 0.0
  {
    if alpha != 0.0 {
      assert t / lastT > 0.0;
    }
  }

  /** Pressure after the walk has crossed rows 1..i. */
  function PressAfter(e: Elementary, h: real, i: nat): real
    requires h <= Ceiling && i <= StopLayer(h)
  {
    if i == 0 then SeaLevelPressure
    else
      TempAfterPositive(h, i - 1);
      TempAfterPositive(h, i);
      Scaled(PressAfter(e, h, i - 1), PressureFactor(e, Layers[i].lapse, TempAfter(h, i - 1), TempAfter(h, i), Thickness(h, i)))
  }

  /** A pressure multiplied by the factor of one row. */
  function Scaled(p: real, factor: real): real
  {
    p * factor
  }

  lemma ScaledPositive(p: real, factor: real)
    requires p > 0.0 && factor > 0.0
    ensures Scaled(p, factor) > 0.0
  {
    ProductPositive(p, factor);
  }

  /** Temperature at altitude h (up to 400 km). */
  function Temperature(h: real): real
    requires h <= Ceiling
  {
    TempAfter(h, StopLayer(h))
  }

  /** Pressure at altitude h (up to 400 km). */
  function Pressure(e: Elementary, h: real): real
    requires h <= Ceiling
  {
    PressAfter(e, h, StopLayer(h))
  }

  /** One pass of the walk's loop body over row i, in terms of TempAfter and PressAfter. */
  lemma CrossRow(e: Elementary, h: real, i: nat)
    requires h <= Ceiling && 1 <= i <= StopLayer(h)
    ensures TempAfter(h, i - 1) > 0.0 && TempAfter(h, i) > 0.0
    ensures TempAfter(h, i) == TempAfter(h, i - 1) + Layers[i].lapse * Thickness(h, i)
    ensures PressAfter(e, h, i) == PressAfter(e, h, i - 1)
      * PressureFactor(e, Layers[i].lapse, TempAfter(h, i - 1), TempAfter(h, i), Thickness(h, i))
  {
    TempAfterPositive(h, i - 1);
    TempAfterPositive(h, i);
  }

  /** The first row reached whose ceiling is not below h is the one the walk stops at. */
  lemma StopsAt(h: real, i: nat)
    requires h <= Ceiling && 1 <= i <= StopLayer(h) && h <= Layers[i].ceiling
    ensures i == StopLayer(h)
  {
    assert StopLayer(h) == StopFrom(h, 1);
  }

  /** The loop of isa: walks the table row by row from sea level, crossing each row in
      full until it reaches the row that holds h, and returns the temperature and
      pressure reached there. */
  method WalkLayers(e: Elementary, h: real) returns (t: real, p: real)
    requires h <= Ceiling
    ensures t == Temperature(h) && p == Pressure(e, h)
    ensures t >= 184.65
  {
    t, p := SeaLevelTemperature, SeaLevelPressure;
    var i := 1;
    while true
      invariant 1 <= i <= StopLayer(h)
      invariant t == TempAfter(h, i - 1) && p == PressAfter(e, h, i - 1)
      decreases |Layers| - i
    {
      var alpha := Layers[i].lapse;
      var deltaH := Layers[i].ceiling - Layers[i - 1].ceiling;
      if h <= Layers[i].ceiling {
        deltaH := h - Layers[i - 1].ceiling;
      }
      CrossRow(e, h, i);
      assert deltaH == Thickness(h, i);
      var lastT := t;
      t := Lapsed(t, alpha, deltaH);
      p := p * PressureFactor(e, alpha, lastT, t, deltaH);
      if h <= Layers[i].ceiling {
        StopsAt(h, i);
        TempAfterPositive(h, i);
        return;
      }
      i := i + 1;
    }
  }

  /** isa(height): (T, p, p / (R T)) from the layer walk up to 400 km, (0, 0, 0) above. */
  method Isa(e: Elementary, height: real) returns (a: Atmosphere)
    ensures a == IsaSpec(e, height)
  {
    if height > Layers[|Layers| - 1].ceiling {
      return Atmosphere(0.0, 0.0, 0.0);
    }
    var h := Min(height, Layers[|Layers| - 1].ceiling);
    var t, p := WalkLayers(e, h);
    a := Atmosphere(t, p, Density(p, t));
  }

  /** The functional reading of isa, used where a function is needed. */
  function IsaSpec(e: Elementary, height: real): (a: Atmosphere)
    ensures height > Ceiling ==> a == Atmosphere(0.0, 0.0, 0.0)
    ensures height <= Ceiling ==>
      && a.temperature == Temperature(height) >= 184.65
      && a.pressure == Pressure(e, height)
      && a.density == Density(a.pressure, a.temperature)
  {
    if height > Ceiling then Atmosphere(0.0, 0.0, 0.0)
    else
      TempAfterPositive(height, StopLayer(height));
      var t := Temperature(height);
      var p := Pressure(e, height);
      Atmosphere(t, p, Density(p, t))
  }

  /** Air density from pressure and temperature, p / (R T). */
  function Density(p: real, t: real): real
    requires t > 0.0
  {
    p / (GasConstant * t)
  }

  /** The density of air at pressure p and temperature t satisfies p = rho R T. */
  lemma GasLaw(p: real, t: real)
    requires t > 0.0
    ensures Density(p, t) * (GasConstant * t) == p
  {
    Quotient(p, GasConstant * t);
  }


  /** The temperature is 288.15 K plus the lapse rate times the part of each row below
      h; it reaches the profile's reference values at 11, 20, 32, 47-51 and 86-400 km. */
  lemma TemperatureProfile(h: real)
    requires h <= Ceiling
    ensures h <= 11000.0 ==> Temperature(h) == 288.15 - 0.0065 * h
    ensures h == 11000.0 ==> Temperature(h) == 216.65
    ensures 11000.0 <= h <= 20000.0 ==> Temperature(h) == 216.65
    ensures h == 32000.0 ==> Temperature(h) == 228.65
    ensures 47000.0 <= h <= 51000.0 ==> Temperature(h) == 270.65
    ensures 86000.0 <= h ==> Temperature(h) == 184.65
    ensures 0.0 <= h ==> 184.65 <= Temperature(h) <= 288.15
  {
    var s := StopLayer(h);
    TempAtStop(h);
    TempAfterPositive(h, s);
    if s == 1 {} else if s == 2 {} else if s == 3 {} else if s == 4 {}
    else if s == 5 {} else if s == 6 {} else if s == 7 {} else {}
  }

  /** At sea level the first row has zero thickness, so isa(0) is exactly the
      reference state. */
  lemma IsaAtSeaLevel(e: Elementary)
    requires Lawful(e)
    ensures IsaSpec(e, 0.0) == Atmosphere(288.15, 101325.0, 101325.0 / (287.0 * 288.15))
  {
    assert StopLayer(0.0) == 1;
    assert TempAfter(0.0, 1) == 288.15;
    assert PressAfter(e, 0.0, 1) == 101325.0 * e.pow(288.15 / 288.15, -G0 / (-0.0065 * GasConstant));
  }

  /** Pressure stays positive through the walk. */
  lemma {:induction false} PressAfterPositive(e: Elementary, h: real, i: nat)
    requires Lawful(e) && h <= Ceiling && i <= StopLayer(h)
    ensures PressAfter(e, h, i) > 0.0
  {
    if i > 0 {
      PressAfterPositive(e, h, i - 1);
      TempAfterPositive(h, i - 1);
      TempAfterPositive(h, i);
      PressureFactorPositive(e, Layers[i].lapse, TempAfter(h, i - 1), TempAfter(h, i), Thickness(h, i));
      ScaledPositive(PressAfter(e, h, i - 1),
                     PressureFactor(e, Layers[i].lapse, TempAfter(h, i - 1), TempAfter(h, i), Thickness(h, i)));
    }
  }

  /** The temperature at the top of a thicker part lies further along the lapse. */
  lemma LapseOrder(t0: real, alpha: real, d1: real, d2: real)
    requires d1 < d2
    ensures alpha == 0.0 ==> Lapsed(t0, alpha, d1) == t0 == Lapsed(t0, alpha, d2)
    ensures alpha > 0.0 ==> Lapsed(t0, alpha, d1) < Lapsed(t0, alpha, d2)
    ensures alpha < 0.0 ==> Lapsed(t0, alpha, d2) < Lapsed(t0, alpha, d1)
  {
    Distribute(alpha, d2, -d1);
    assert alpha * (d2 - d1) == alpha * d2 - alpha * d1;
    if alpha > 0.0 {
      ProductPositive(alpha, d2 - d1);
    } else if alpha < 0.0 {
      ProductPositive(-alpha, d2 - d1);
      assert -alpha * (d2 - d1) == -(alpha * (d2 - d1));
    }
  }

  /** The isothermal factor falls with the thickness. */
  lemma IsothermalFalls(e: Elementary, t0: real, d1: real, d2: real)
    requires Lawful(e) && t0 > 0.0 && d1 < d2
    ensures e.exp(-G0 / (GasConstant * t0) * d2) < e.exp(-G0 / (GasConstant * t0) * d1)
  {
    var c := -G0 / (GasConstant * t0);
    Quotient(-G0, GasConstant * t0);
    ProductPositive(-c, d2 - d1);
    assert c * d2 < c * d1;
  }

  /** The polytropic factor falls as the top temperature moves along the lapse: the
      base rises against a negative exponent, or falls under a positive one. */
  lemma PolytropicFalls(e: Elementary, alpha: real, t0: real, t1: real, t2: real)
    requires Lawful(e) && t0 > 0.0 && t1 > 0.0 && t2 > 0.0 && alpha != 0.0
    requires alpha > 0.0 ==> t1 < t2
    requires alpha < 0.0 ==> t2 < t1
    ensures e.pow(t2 / t0, -G0 / (alpha * GasConstant)) < e.pow(t1 / t0, -G0 / (alpha * GasConstant))
  {
    var k := -G0 / (alpha * GasConstant);
    Quotient(t1, t0);
    Quotient(t2, t0);
    if alpha > 0.0 {
      DivideKeepsOrder(t1, t2, t0);
      Quotient(-G0, alpha * GasConstant);
    } else {
      DivideKeepsOrder(t2, t1, t0);
      Quotient(G0, -alpha * GasConstant);
      assert k == G0 / (-alpha * GasConstant);
    }
  }

  /** The factor of a row falls as the crossed part of the row grows: the exponential
      of the isothermal case and the power of the polytropic case both shrink with
      the thickness, whatever the sign of the lapse rate. */
  lemma FactorDecreases(e: Elementary, alpha: real, t0: real, d1: real, d2: real)
    requires Lawful(e) && t0 > 0.0 && d1 < d2
    requires Lapsed(t0, alpha, d1) > 0.0 && Lapsed(t0, alpha, d2) > 0.0
    ensures PressureFactor(e, alpha, t0, Lapsed(t0, alpha, d2), d2)
      < PressureFactor(e, alpha, t0, Lapsed(t0, alpha, d1), d1)
  {
    LapseOrder(t0, alpha, d1, d2);
    if alpha == 0.0 {
      IsothermalFalls(e, t0, d1, d2);
    } else {
      PolytropicFalls(e, alpha, t0, Lapsed(t0, alpha, d1), Lapsed(t0, alpha, d2));
    }
  }

  /** A row crossed over zero thickness leaves the pressure as it was. */
  lemma FactorAtZero(e: Elementary, alpha: real, t0: real)
    requires Lawful(e) && t0 > 0.0
    ensures Lapsed(t0, alpha, 0.0) == t0
    ensures PressureFactor(e, alpha, t0, t0, 0.0) == 1.0
  {
    assert t0 / t0 == 1.0;
  }

  /** A row crossed over a positive thickness lowers the pressure. */
  lemma FactorBelowOne(e: Elementary, alpha: real, t0: real, dh: real)
    requires Lawful(e) && t0 > 0.0 && dh > 0.0 && Lapsed(t0, alpha, dh) > 0.0
    ensures PressureFactor(e, alpha, t0, Lapsed(t0, alpha, dh), dh) < 1.0
  {
    FactorAtZero(e, alpha, t0);
    FactorDecreases(e, alpha, t0, 0.0, dh);
  }

  /** A smaller factor leaves a positive pressure smaller. */
  lemma ScaledOrder(p: real, f1: real, f2: real)
    requires p > 0.0 && f1 < f2
    ensures Scaled(p, f1) < Scaled(p, f2)
  {
    MultiplyMonotone(f1, f2, p);
  }

  /** Every row after the first that the walk for h enters, it enters over a positive
      thickness. */
  lemma EnteredRowThick(h: real, j: nat)
    requires h <= Ceiling && 2 <= j <= StopLayer(h)
    ensures Thickness(h, j) > 0.0
  {
    if j < StopLayer(h) {
      assert StopLayer(h) == StopFrom(h, 1);
      assert Layers[j - 1].ceiling < Layers[j].ceiling;
    }
  }

  /** So every such row lowers the walk's pressure. */
  lemma PressureDrops(e: Elementary, h: real, j: nat)
    requires Lawful(e) && h <= Ceiling && 2 <= j <= StopLayer(h)
    ensures PressAfter(e, h, j) < PressAfter(e, h, j - 1)
  {
    CrossRow(e, h, j);
    PressAfterPositive(e, h, j - 1);
    EnteredRowThick(h, j);
    var t0, alpha, dh := TempAfter(h, j - 1), Layers[j].lapse, Thickness(h, j);
    FactorBelowOne(e, alpha, t0, dh);
    ScaledOrder(PressAfter(e, h, j - 1), PressureFactor(e, alpha, t0, Lapsed(t0, alpha, dh), dh), 1.0);
  }

  /** Across the rows i+1..j the pressure of one walk falls strictly. */
  lemma {:induction false} PressureFalls(e: Elementary, h: real, i: nat, j: nat)
    requires Lawful(e) && h <= Ceiling && 1 <= i < j <= StopLayer(h)
    ensures PressAfter(e, h, j) < PressAfter(e, h, i)
    decreases j - i
  {
    PressureDrops(e, h, j);
    if i < j - 1 {
      PressureFalls(e, h, i, j - 1);
    }
  }

  /** Two walks agree on every row the lower altitude crosses in full. */
  lemma {:induction false} WalksAgree(h1: real, h2: real, i: nat)
    requires h1 < h2 <= Ceiling && i < StopLayer(h1)
    ensures i <= StopLayer(h2)
    ensures TempAfter(h1, i) == TempAfter(h2, i)
    ensures forall e :: PressAfter(e, h1, i) == PressAfter(e, h2, i)
  {
    StopLayerMonotone(h1, h2);
    if i > 0 {
      WalksAgree(h1, h2, i - 1);
      assert Layers[i].ceiling < h1 by {
        assert StopLayer(h1) == StopFrom(h1, 1);
      }
      assert Thickness(h1, i) == Thickness(h2, i);
      TempAfterPositive(h1, i - 1);
      TempAfterPositive(h1, i);
    }
  }

  /** The walk for a higher altitude stops at the same row or a later one. */
  lemma StopLayerMonotone(h1: real, h2: real)
    requires h1 < h2 <= Ceiling
    ensures StopLayer(h1) <= StopLayer(h2)
    ensures StopLayer(h1) < StopLayer(h2) ==> Layers[StopLayer(h1)].ceiling < h2
  {
    var s1, s2 := StopLayer(h1), StopLayer(h2);
    if s1 < s2 {
      assert Layers[s1].ceiling <= Layers[s2 - 1].ceiling;
    }
  }

  /** From the same pressure and temperature, crossing more of a row leaves less
      pressure. */
  lemma RowCompare(e: Elementary, alpha: real, t0: real, p0: real, d1: real, d2: real)
    requires Lawful(e) && t0 > 0.0 && p0 > 0.0 && d1 <= d2
    requires Lapsed(t0, alpha, d1) > 0.0 && Lapsed(t0, alpha, d2) > 0.0
    ensures Scaled(p0, PressureFactor(e, alpha, t0, Lapsed(t0, alpha, d2), d2))
      <= Scaled(p0, PressureFactor(e, alpha, t0, Lapsed(t0, alpha, d1), d1))
    ensures d1 < d2 ==>
      (Scaled(p0, PressureFactor(e, alpha, t0, Lapsed(t0, alpha, d2), d2))
       < Scaled(p0, PressureFactor(e, alpha, t0, Lapsed(t0, alpha, d1), d1)))
  {
    if d1 < d2 {
      FactorDecreases(e, alpha, t0, d1, d2);
      ScaledOrder(p0, PressureFactor(e, alpha, t0, Lapsed(t0, alpha, d2), d2),
                  PressureFactor(e, alpha, t0, Lapsed(t0, alpha, d1), d1));
    }
  }

  /** The higher walk crosses at least as much of the lower walk's last row, and
      strictly more when it stops in that row too. */
  lemma StopRowThickness(h1: real, h2: real)
    requires h1 < h2 <= Ceiling
    ensures StopLayer(h1) <= StopLayer(h2)
    ensures Thickness(h1, StopLayer(h1)) <= Thickness(h2, StopLayer(h1))
    ensures StopLayer(h1) == StopLayer(h2) ==> Thickness(h1, StopLayer(h1)) < Thickness(h2, StopLayer(h1))
  {
    StopLayerMonotone(h1, h2);
  }

  /** In the row where the lower walk stops, the higher walk crosses at least as
      much, and strictly more when it stops there too. */
  lemma StopRowPressure(e: Elementary, h1: real, h2: real)
    requires Lawful(e) && h1 < h2 <= Ceiling
    ensures StopLayer(h1) <= StopLayer(h2)
    ensures PressAfter(e, h2, StopLayer(h1)) <= PressAfter(e, h1, StopLayer(h1))
    ensures StopLayer(h1) == StopLayer(h2) ==> PressAfter(e, h2, StopLayer(h1)) < PressAfter(e, h1, StopLayer(h1))
  {
    var s1 := StopLayer(h1);
    StopRowThickness(h1, h2);
    WalksAgree(h1, h2, s1 - 1);
    CrossRow(e, h1, s1);
    CrossRow(e, h2, s1);
    PressAfterPositive(e, h1, s1 - 1);
    RowCompare(e, Layers[s1].lapse, TempAfter(h1, s1 - 1), PressAfter(e, h1, s1 - 1),
               Thickness(h1, s1), Thickness(h2, s1));
  }

  /** Pressure strictly decreases with altitude all the way up to 400 km. */
  lemma PressureDecreases(e: Elementary, h1: real, h2: real)
    requires Lawful(e) && h1 < h2 <= Ceiling
    ensures IsaSpec(e, h2).pressure < IsaSpec(e, h1).pressure
  {
    StopRowPressure(e, h1, h2);
    if StopLayer(h1) < StopLayer(h2) {
      PressureFalls(e, h2, StopLayer(h1), StopLayer(h2));
    }
  }

  /** Up to 400 km isa gives a positive temperature, pressure and density. */
  lemma IsaPositive(e: Elementary, height: real)
    requires Lawful(e) && height <= Ceiling
    ensures IsaSpec(e, height).temperature > 0.0
    ensures IsaSpec(e, height).pressure > 0.0
    ensures IsaSpec(e, height).density > 0.0
  {
    PressAfterPositive(e, height, StopLayer(height));
    TempAfterPositive(height, StopLayer(height));
  }

  // ---------------------------------------------------------------------------
  // Drag
  // ---------------------------------------------------------------------------

  /** The geometry the drag functions read from the rocket record. Index 1 is the
      lower stage (first to burn), index 2 the upper stage that carries the nosecone. */
  datatype Airframe = Airframe(
    finenessRatio: real,
    wettedAreaBody: real,
    referenceArea: real,
    diameter1: real,
    diameter2: real,
    finThickness1: real, finMac1: real, finSpan1: real, wettedAreaFins1: real,
    finThickness2: real, finMac2: real, finSpan2: real, wettedAreaFins2: real)

  /** The divisions in skin_friction_drag's selected branch are defined. */
  predicate FrictionDefined(r: Airframe, stage1: bool, stage2: bool)
  {
    && (stage1 || stage2 ==> r.finenessRatio != 0.0 && r.referenceArea != 0.0)
    && (stage1 ==> r.finMac1 != 0.0)
    && (stage2 ==> r.finMac2 != 0.0)
  }

  /** Barrowman's fully turbulent skin-friction coefficient for a 50 micrometre surface
      roughness, with transition at a Reynolds number of 500000. */
  function FrictionCoefficient(e: Elementary, velocity: real): real
    requires velocity != 0.0
  {
    var roughness := 50.0 / 1000000.0;
    var transition := 0.000015 * 500000.0 / velocity;
    0.032 * e.pow(roughness / transition, 0.2)
  }

  /** The compressibility-corrected friction coefficient: the larger of the regime's
      correction and the laminar-limit correction c / (1 + 0.18 M^2). */
  function CorrectedFriction(e: Elementary, c: real, mach: real): real
  {
    var limit := c / (1.0 + 0.18 * mach * mach);
    var regime := if mach < 1.0 then c * (1.0 - 0.1 * mach * mach)
                  else c * e.pow(1.0 + 0.15 * mach * mach, -0.58);
    if limit > regime then limit else regime
  }

  /** The corrected coefficient is one of the two corrections, and at least each. */
  lemma CorrectedFrictionBounds(e: Elementary, c: real, mach: real)
    ensures var r := CorrectedFriction(e, c, mach);
      && r >= c / (1.0 + 0.18 * mach * mach)
      && (mach < 1.0 ==> r >= c * (1.0 - 0.1 * mach * mach))
      && (mach >= 1.0 ==> r >= c * e.pow(1.0 + 0.15 * mach * mach, -0.58))
      && (r == c / (1.0 + 0.18 * mach * mach)
          || (mach < 1.0 && r == c * (1.0 - 0.1 * mach * mach))
          || (mach >= 1.0 && r == c * e.pow(1.0 + 0.15 * mach * mach, -0.58)))
  {
  }

  /** The form-factor-weighted wetted areas of the body and of the selected fin sets:
      the sum skin_friction_drag takes in the branch its stage flags select. */
  function WettedFormArea(r: Airframe, stage1: bool, stage2: bool): real
    requires FrictionDefined(r, stage1, stage2)
  {
    (if stage1 || stage2 then (1.0 + 1.0 / (2.0 * r.finenessRatio)) * r.wettedAreaBody else 0.0)
    + (if stage1 then (1.0 + 2.0 * r.finThickness1 / r.finMac1) * r.wettedAreaFins1 else 0.0)
    + (if stage2 then (1.0 + 2.0 * r.finThickness2 / r.finMac2) * r.wettedAreaFins2 else 0.0)
  }

  /** skin_friction_drag: the coefficient is taken per reference area and multiplied back
      by it, so the force is the corrected coefficient times q times the weighted wetted
      area, and 0 when neither stage is selected. */
  function SkinFrictionDrag(e: Elementary, r: Airframe, stage1: bool, stage2: bool,
                            velocity: real, q: real, mach: real): (d: real)
    requires velocity != 0.0 && FrictionDefined(r, stage1, stage2)
    ensures !stage1 && !stage2 ==> d == 0.0
    ensures d == CorrectedFriction(e, FrictionCoefficient(e, velocity), mach)
                 * WettedFormArea(r, stage1, stage2) * q
  {
    var cfc := CorrectedFriction(e, FrictionCoefficient(e, velocity), mach);
    if stage1 || stage2 then
      var coefficient := cfc * WettedFormArea(r, stage1, stage2) / r.referenceArea;
      PerReferenceArea(cfc * WettedFormArea(r, stage1, stage2), r.referenceArea, q);
      coefficient * r.referenceArea * q
    else
      var coefficient := 0.0;
      coefficient * r.referenceArea * q
  }

  /** A coefficient taken per reference area and multiplied back by the area. */
  lemma PerReferenceArea(x: real, area: real, q: real)
    requires area != 0.0
    ensures x / area * area * q == x * q
  {
  }

  /** The stagnation-pressure factor of the blunt-cylinder estimate; at least 1 at every
      Mach number, so the blunt coefficient is never zero. */
  function StagnationFactor(mach: real): (f: real)
    ensures f >= 1.0
  {
    if mach <= 1.0 then 1.0 + mach * mach / 4.0 + mach * mach * mach * mach / 40.0
    else
      var m2 := mach * mach;
      assert m2 > 1.0;
      1.84 - 0.76 / m2 + 0.166 / (m2 * m2) + 0.035 / (m2 * m2 * m2)
  }

  /** The drag coefficient of the 5:1 Haack nosecone, interpolated from the blunt
      cylinder towards the reference value 0 (subsonic) or 0.1 (supersonic) by the
      exponent ln 6 / ln 4. */
  function NoseconeCoefficient(e: Elementary, mach: real): (cd: real)
    requires e.ln(4.0) != 0.0
    ensures mach <= 1.0 && e.ln(6.0) / e.ln(4.0) > 0.0 && e.pow(0.0, e.ln(6.0) / e.ln(4.0)) == 0.0
      ==> cd == 0.0
  {
    var reference := if mach <= 1.0 then 0.0 else 0.1;
    var blunt := 0.85 * StagnationFactor(mach);
    blunt * e.pow(reference / blunt, e.ln(5.0 + 1.0) / e.ln(4.0))
  }

  /** nosecone_pressure_drag: (coefficient times q times the frontal area of the upper
      stage, coefficient). */
  function NoseconePressureDrag(e: Elementary, r: Airframe, q: real, mach: real): (d: (real, real))
    requires e.ln(4.0) != 0.0
    ensures d.1 == NoseconeCoefficient(e, mach)
    ensures d.1 == 0.0 ==> d.0 == 0.0
  {
    var cd := NoseconeCoefficient(e, mach);
    (cd * q * (e.pi * (r.diameter2 / 2.0) * (r.diameter2 / 2.0)), cd)
  }

  /** shoulder_pressure_drag: the nosecone's coefficient applied to the annulus between
      the two stage diameters. */
  function ShoulderPressureDrag(e: Elementary, r: Airframe, cdNose: real, q: real): (d: real)
    ensures r.diameter1 == r.diameter2 || r.diameter1 == -r.diameter2 || cdNose == 0.0 || q == 0.0 ==> d == 0.0
    ensures d == cdNose * q * (e.pi / 4.0) * (r.diameter1 - r.diameter2) * (r.diameter1 + r.diameter2)
  {
    cdNose * q * (e.pi / 4.0 * (r.diameter1 * r.diameter1 - r.diameter2 * r.diameter2))
  }

  /** The leading-edge drag coefficient of a fin in each Mach regime. */
  function SubsonicLeadingEdge(e: Elementary, mach: real): real
  {
    -1.0 + e.pow(1.0 - mach * mach, -0.417)
  }

  function TransonicLeadingEdge(mach: real): real
  {
    1.0 - 1.785 * (mach - 0.9)
  }

  function SupersonicLeadingEdge(mach: real): real
    requires mach != 0.0
  {
    1.214 - 0.502 / (mach * mach) + 0.1095 / (mach * mach * mach * mach)
  }

  /** Above Mach 1 the supersonic coefficient stays between its value at Mach 1 and its
      limit 1.214: with x = 1/M^2 in (0, 1) it is 0.8215 + (1 - x)(0.3925 - 0.1095 x)
      and also 1.214 - x (0.502 - 0.1095 x). */
  lemma SupersonicLeadingEdgeBounds(mach: real)
    requires mach > 1.0
    ensures 0.8215 < SupersonicLeadingEdge(mach) < 1.214
  {
    var m2 := mach * mach;
    MultiplyMonotone(1.0, mach, mach);
    assert m2 > 1.0;
    var x := 1.0 / m2;
    DivideByLarger(1.0, 1.0, m2);
    assert 0.0 < x < 1.0;
    assert SupersonicLeadingEdge(mach) == SupersonicPolynomial(x) by {
      assert 0.502 / m2 == 0.502 * x;
      assert m2 * m2 == mach * mach * mach * mach;
      assert 0.1095 / (m2 * m2) == 0.1095 * (x * x);
    }
    SupersonicQuadratic(x);
  }

  /** The supersonic coefficient as a polynomial in x = 1/M^2. */
  function SupersonicPolynomial(x: real): real
  {
    1.214 - 0.502 * x + 0.1095 * (x * x)
  }

  /** On (0, 1) the polynomial less 0.8215 factors as (1 - x)(0.3925 - 0.1095 x), and
      1.214 less it as x (0.502 - 0.1095 x); both are positive there. */
  lemma SupersonicQuadratic(x: real)
    requires 0.0 < x < 1.0
    ensures 0.8215 < SupersonicPolynomial(x) < 1.214
  {
    var a, b := 1.0 - x, 0.3925 - 0.1095 * x;
    ProductPositive(a, b);
    assert a * b == SupersonicPolynomial(x) - 0.8215;
    var d := 0.502 - 0.1095 * x;
    ProductPositive(x, d);
    assert x * d == 1.214 - SupersonicPolynomial(x);
  }

  /** The leading-edge coefficient of fin_pressure_drag, chosen by Mach regime. Above
      Mach 0.9 it lies between 0.8215 (its value at Mach 1, where the transonic and
      supersonic branches meet) and 1.214; at rest the subsonic branch gives 0. */
  function LeadingEdgeCoefficient(e: Elementary, mach: real): (c: real)
    ensures 0.9 < mach ==> 0.8215 <= c < 1.214
    ensures mach == 0.0 && e.pow(1.0, -0.417) == 1.0 ==> c == 0.0
  {
    if mach <= 0.9 then SubsonicLeadingEdge(e, mach)
    else if mach <= 1.0 then TransonicLeadingEdge(mach)
    else
      SupersonicLeadingEdgeBounds(mach);
      SupersonicLeadingEdge(mach)
  }

  /** The leading-edge angle of the fins, 30 degrees, in radians. */
  function LeadingEdgeAngle(e: Elementary): real
  {
    30.0 * e.pi / 180.0
  }

  /** The leading-edge coefficient of a fin slanted by the leading-edge angle, by the
      cross-flow principle. */
  function CrossFlowCoefficient(e: Elementary, mach: real): real
  {
    LeadingEdgeCoefficient(e, mach) * (e.cos(LeadingEdgeAngle(e)) * e.cos(LeadingEdgeAngle(e)))
  }

  /** fin_pressure_drag: for each selected fin set, the cross-flow-corrected coefficient
      times q times the fin surface the flow sees; 0 for a set not selected. Since the
      correction is cos^2 and the surface divides by cos, each force is the raw
      coefficient times cos(30 deg) times q times thickness times span. */
  function FinPressureDrag(e: Elementary, r: Airframe, stage1: bool, stage2: bool,
                           q: real, mach: real): (d: (real, real))
    requires e.cos(LeadingEdgeAngle(e)) != 0.0
    ensures !stage1 ==> d.0 == 0.0
    ensures !stage2 ==> d.1 == 0.0
    ensures stage1 ==> d.0 == LeadingEdgeCoefficient(e, mach) * e.cos(LeadingEdgeAngle(e)) * q
                              * r.finThickness1 * r.finSpan1
    ensures stage2 ==> d.1 == LeadingEdgeCoefficient(e, mach) * e.cos(LeadingEdgeAngle(e)) * q
                              * r.finThickness2 * r.finSpan2
  {
    var cosine := e.cos(LeadingEdgeAngle(e));
    var c := CrossFlowCoefficient(e, mach);
    var fin1 := if stage1 then c * q * (r.finThickness1 * r.finSpan1 / cosine) else 0.0;
    var fin2 := if stage2 then c * q * (r.finThickness2 * r.finSpan2 / cosine) else 0.0;
    (fin1, fin2)
  }

  /** The base drag coefficient: 0.12 + 0.13 M^2 up to Mach 1, 0.25 / M above. */
  function BaseCoefficient(mach: real): (c: real)
    ensures mach >= 0.0 ==> 0.0 < c <= 0.25 && (c == 0.25 <==> mach == 1.0)
    ensures mach <= 1.0 ==> c >= 0.12
  {
    if mach <= 1.0 then
      assert 0.0 <= mach ==> mach * mach <= mach && (mach * mach == 1.0 ==> mach == 1.0);
      0.12 + 0.13 * (mach * mach)
    else 0.25 / mach
  }

  /** A coefficient in (0, 0.25] times the load q * area, both nonnegative: at most
      a quarter of the load, and positive when the load is. */
  lemma CoefficientTimesLoad(c: real, q: real, area: real)
    requires 0.0 < c <= 0.25 && q >= 0.0 && area >= 0.0
    ensures 0.0 <= c * q * area <= 0.25 * (q * area)
    ensures q > 0.0 && area > 0.0 ==> c * q * area > 0.0
  {
    assert c * q * area == c * (q * area);
    if q > 0.0 && area > 0.0 {
      ProductPositive(q, area);
      ProductPositive(c, q * area);
      MultiplyMonotone(c, 0.25, q * area);
    } else {
      assert q * area == 0.0;
    }
  }

  /** The base ring that base_drag loads: pi * diameter2 times the 3 mm skin.
      Index 2 is the upper stage in Airframe, although the source's comment on this
      line calls diameter2 the lower stage. */
  function BaseArea(e: Elementary, r: Airframe): real
  {
    e.pi * r.diameter2 * 0.003
  }

  /** base_drag: the base coefficient times q times the base ring. With q, the Mach
      number and the ring nonnegative it is at most a quarter of q times the ring (the
      coefficient's peak, at Mach 1), and it is positive once q and the ring are. */
  function BaseDrag(e: Elementary, r: Airframe, q: real, mach: real): (d: real)
    ensures q >= 0.0 && mach >= 0.0 && BaseArea(e, r) >= 0.0 ==> 0.0 <= d <= 0.25 * (q * BaseArea(e, r))
    ensures q > 0.0 && mach >= 0.0 && BaseArea(e, r) > 0.0 ==> d > 0.0
  {
    var c := BaseCoefficient(mach);
    if q >= 0.0 && mach >= 0.0 && BaseArea(e, r) >= 0.0 then
      CoefficientTimesLoad(c, q, BaseArea(e, r));
      c * q * BaseArea(e, r)
    else
      c * q * BaseArea(e, r)
  }

  /** The speed of sound of air at temperature t. */
  function SpeedOfSound(e: Elementary, t: real): real
  {
    e.sqrt(1.4 * 287.0 * t)
  }

  function MachNumber(e: Elementary, velocity: real, temperature: real): real
    requires SpeedOfSound(e, temperature) != 0.0
  {
    velocity / SpeedOfSound(e, temperature)
  }

  function DynamicPressure(density: real, velocity: real): real
  {
    0.5 * density * (velocity * velocity)
  }

  /** The divisions drag performs for a positive velocity are defined. */
  predicate DragDefined(e: Elementary, r: Airframe, velocity: real, temperature: real, stage: int)
  {
    velocity > 0.0 ==>
      && SpeedOfSound(e, temperature) != 0.0
      && e.ln(4.0) != 0.0
      && e.cos(LeadingEdgeAngle(e)) != 0.0
      && FrictionDefined(r, stage == 0 || stage == 1, stage != 1)
  }

  /** drag: 0 for a velocity that is not positive; otherwise the sum of the components
      that the stage flag selects (0: whole rocket, 1: lower stage, any other value:
      upper stage), at the Mach number and dynamic pressure of the flow. */
  function Drag(e: Elementary, r: Airframe, velocity: real, temperature: real, density: real,
                stage: int): (d: real)
    requires DragDefined(e, r, velocity, temperature, stage)
    ensures velocity <= 0.0 ==> d == 0.0
  {
    if velocity > 0.0 then
      var mach := MachNumber(e, velocity, temperature);
      var q := DynamicPressure(density, velocity);
      var (nose, cdNose) := NoseconePressureDrag(e, r, q, mach);
      var base := BaseDrag(e, r, q, mach);
      if stage == 0 then
        var shoulder := ShoulderPressureDrag(e, r, cdNose, q);
        var friction := SkinFrictionDrag(e, r, true, true, velocity, q, mach);
        var (fin1, fin2) := FinPressureDrag(e, r, true, true, q, mach);
        friction + nose + shoulder + fin1 + fin2 + base
      else if stage == 1 then
        var shoulder := ShoulderPressureDrag(e, r, cdNose, q);
        var friction := SkinFrictionDrag(e, r, true, false, velocity, q, mach);
        var (fin1, _) := FinPressureDrag(e, r, true, false, q, mach);
        friction + shoulder + fin1 + base
      else
        var friction := SkinFrictionDrag(e, r, false, true, velocity, q, mach);
        var (_, fin2) := FinPressureDrag(e, r, false, true, q, mach);
        friction + nose + fin2 + base
    else 0.0
  }

  /** The flow around the nosecone is subsonic up to Mach 1, where the reference
      coefficient is 0 and the interpolation exponent ln 6 / ln 4 is positive, so the
      nosecone (and with it the shoulder) has no pressure drag. */
  lemma SubsonicNoseconeHasNoDrag(e: Elementary, mach: real)
    requires Lawful(e) && mach <= 1.0
    ensures e.ln(4.0) != 0.0 && NoseconeCoefficient(e, mach) == 0.0
  {
    var k := e.ln(6.0) / e.ln(4.0);
    assert e.ln(6.0) > 0.0 && e.ln(4.0) > 0.0;
    assert k > 0.0;
  }

  /** Below Mach 1 the drag of each stage configuration is friction, fins and base
      only: the nosecone and shoulder terms vanish. */
  lemma SubsonicDragHasNoPressureTerms(e: Elementary, r: Airframe, velocity: real,
                                       temperature: real, density: real, stage: int)
    requires Lawful(e) && velocity > 0.0 && DragDefined(e, r, velocity, temperature, stage)
    requires MachNumber(e, velocity, temperature) <= 1.0
    ensures var mach, q := MachNumber(e, velocity, temperature), DynamicPressure(density, velocity);
      var fins := FinPressureDrag(e, r, stage == 0 || stage == 1, stage != 1, q, mach);
      Drag(e, r, velocity, temperature, density, stage)
        == SkinFrictionDrag(e, r, stage == 0 || stage == 1, stage != 1, velocity, q, mach)
           + fins.0 + fins.1 + BaseDrag(e, r, q, mach)
  {
    SubsonicNoseconeHasNoDrag(e, MachNumber(e, velocity, temperature));
  }

  /** The whole-rocket drag is the sum of the two single-stage drags less what they
      count twice: the base drag and the skin friction of the body. */
  lemma CombinedDragDecomposition(e: Elementary, r: Airframe, velocity: real,
                                  temperature: real, density: real)
    requires velocity > 0.0 && DragDefined(e, r, velocity, temperature, 0)
    ensures var mach, q := MachNumber(e, velocity, temperature), DynamicPressure(density, velocity);
      var cfc := CorrectedFriction(e, FrictionCoefficient(e, velocity), mach);
      Drag(e, r, velocity, temperature, density, 0)
        == Drag(e, r, velocity, temperature, density, 1) + Drag(e, r, velocity, temperature, density, 2)
           - BaseDrag(e, r, q, mach)
           - cfc * ((1.0 + 1.0 / (2.0 * r.finenessRatio)) * r.wettedAreaBody) * q
  {
    var mach, q := MachNumber(e, velocity, temperature), DynamicPressure(density, velocity);
    var cfc := CorrectedFriction(e, FrictionCoefficient(e, velocity), mach);
    var body := (1.0 + 1.0 / (2.0 * r.finenessRatio)) * r.wettedAreaBody;
    var fins1 := (1.0 + 2.0 * r.finThickness1 / r.finMac1) * r.wettedAreaFins1;
    var fins2 := (1.0 + 2.0 * r.finThickness2 / r.finMac2) * r.wettedAreaFins2;
    var nose := NoseconePressureDrag(e, r, q, mach);
    var shoulder := ShoulderPressureDrag(e, r, nose.1, q);
    var base := BaseDrag(e, r, q, mach);
    var fins := FinPressureDrag(e, r, true, true, q, mach);
    var f0 := SkinFrictionDrag(e, r, true, true, velocity, q, mach);
    var f1 := SkinFrictionDrag(e, r, true, false, velocity, q, mach);
    var f2 := SkinFrictionDrag(e, r, false, true, velocity, q, mach);
    var d0 := Drag(e, r, velocity, temperature, density, 0);
    var d1 := Drag(e, r, velocity, temperature, density, 1);
    var d2 := Drag(e, r, velocity, temperature, density, 2);
    assert d0 == f0 + nose.0 + shoulder + fins.0 + fins.1 + base;
    assert d1 == f1 + shoulder + fins.0 + base;
    assert d2 == f2 + nose.0 + fins.1 + base;
    FrictionOfBothStages(e, r, velocity, q, mach);
  }

  /** Friction over the body and both fin sets is the two one-stage frictions less the
      body term they both count. */
  lemma FrictionOfBothStages(e: Elementary, r: Airframe, velocity: real, q: real, mach: real)
    requires velocity != 0.0 && FrictionDefined(r, true, true)
    ensures var cfc := CorrectedFriction(e, FrictionCoefficient(e, velocity), mach);
      SkinFrictionDrag(e, r, true, true, velocity, q, mach)
        == SkinFrictionDrag(e, r, true, false, velocity, q, mach)
           + SkinFrictionDrag(e, r, false, true, velocity, q, mach)
           - cfc * ((1.0 + 1.0 / (2.0 * r.finenessRatio)) * r.wettedAreaBody) * q
  {
    var cfc := CorrectedFriction(e, FrictionCoefficient(e, velocity), mach);
    var body := (1.0 + 1.0 / (2.0 * r.finenessRatio)) * r.wettedAreaBody;
    var both, lower, upper := WettedFormArea(r, true, true), WettedFormArea(r, true, false), WettedFormArea(r, false, true);
    assert both == lower + upper - body;
    FrictionSplits(cfc, q, both, lower, upper, body);
  }

  /** Splitting a product over the friction areas. */
  lemma FrictionSplits(c: real, q: real, both: real, lower: real, upper: real, body: real)
    requires both == lower + upper - body
    ensures c * both * q == c * lower * q + c * upper * q - c * body * q
  {
  }

  /** The slanted-fin correction is cos^2(30 deg) = 3/4. */
  lemma CrossFlowIsThreeQuarters(e: Elementary, mach: real)
    requires Lawful(e)
    ensures CrossFlowCoefficient(e, mach) == 0.75 * LeadingEdgeCoefficient(e, mach)
  {
    assert LeadingEdgeAngle(e) == e.pi / 6.0;
  }

  /** The piecewise coefficients meet at Mach 1: base drag 0.25 from both sides, and the
      transonic and supersonic leading-edge formulas both 0.8215. */
  lemma BranchesMeetAtMachOne()
    ensures BaseCoefficient(1.0) == 0.25 / 1.0 == 0.25
    ensures TransonicLeadingEdge(1.0) == SupersonicLeadingEdge(1.0) == 0.8215
  {
  }
}
