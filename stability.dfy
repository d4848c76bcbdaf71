/** Stability sizing of the two-stage rocket (engineering/sizing/stability.py).

    The sizing pass lays the subsystems out from the nose tip backwards with a running
    station `datum` (nosecone, upper-stage body, shoulder, booster body), writes centre
    of gravity (CG) and centre of pressure (CP) stations, side ("flow") and wetted areas,
    mean aerodynamic chords and shell masses into the rocket record, and forms the mass-
    and area-weighted stage and rocket totals.  The rocket is a class whose two stages
    are records that every operation reassigns; each stage keeps exactly the fields the
    sizing pass reads or writes. */
module Stability {
  import opened RealMath

  datatype Nosecone = Nosecone(
    diameter: real, length: real, axialDistance: real, baseRadius: real,
    thickness: real, density: real, mass: real,
    minCg: real, maxCg: real, cp: real, wettedArea: real, flowArea: real)

  /** The conical transition between the upper stage and the wider booster. */
  datatype Shoulder = Shoulder(
    length: real, thickness: real, density: real, mass: real,
    minCg: real, maxCg: real, cp: real, wettedArea: real, flowArea: real)

  datatype Recovery = Recovery(
    length: real, diameter: real, mass: real,
    minCg: real, maxCg: real, cp: real, wettedArea: real, flowArea: real)

  /** The motor section; its CG range spans the empty and the loaded motor. */
  datatype Motor = Motor(
    length: real, diameter: real, chamberLength: real, nozzleLength: real,
    casingMass: real, nozzleMass: real, propellantMass: real, mass: real,
    minCg: real, maxCg: real, cp: real, wettedArea: real, flowArea: real)

  datatype Fins = Fins(
    amount: nat, chordRoot: real, chordTip: real, span: real, mac: real,
    thickness: real, density: real, mass: real,
    minCg: real, maxCg: real, cp: real, wettedArea: real, flowArea: real)

  /** Electronics and payload: inside the airframe, only their areas are written. */
  datatype Enclosed = Enclosed(wettedArea: real, flowArea: real)

  /** The recovery bay, motor and fins that every stage carries, front to back. */
  datatype Body = Body(recovery: Recovery, engine: Motor, fins: Fins)

  /** Stage 1: shoulder in front of its body. */
  datatype Booster = Booster(
    diameter: real, mass: real, minCg: real, maxCg: real, cp: real, flowArea: real,
    shoulder: Shoulder, body: Body, electronics: Enclosed)

  /** Stage 2: nosecone in front of its body, and the payload. */
  datatype Sustainer = Sustainer(
    diameter: real, stabilityMargin: real, mass: real,
    minCg: real, maxCg: real, cp: real, flowArea: real,
    nosecone: Nosecone, body: Body, electronics: Enclosed, payload: Enclosed)

  /** The rocket-level quantities the sizing pass reads or writes. */
  datatype Totals = Totals(
    mass: real, diameter: real, stabilityMargin: real,
    minCg: real, maxCg: real, cp: real, flowArea: real)

  // ---------------------------------------------------------------------------
  // Stations along the airframe, measured from the nose tip

  /** A 5:1 Haack nosecone is five diameters long. */
  function NoseconeLength(diameter: real): real
  {
    5.0 * diameter
  }

  /** Where a body that starts at `start` ends: after its recovery bay and motor. */
  function BodyEnd(start: real, b: Body): real
  {
    start + b.recovery.length + b.engine.length
  }

  function TaperRatio(d1: real, d2: real): real
    requires d1 + d2 != 0.0
  {
    (d1 + 2.0 * d2) / (d1 + d2)
  }

  /** The station written as both CG and CP of a shoulder of the given length that
      starts at `datum` and joins the stage diameters d1 (booster) and d2 (upper). */
  function ShoulderPoint(datum: real, length: real, d1: real, d2: real): real
    requires d1 + d2 != 0.0
  {
    datum + 2.0 / 3.0 * length * TaperRatio(d1, d2)
  }

  /** Where the shoulder starts: behind the nosecone and the upper-stage body. */
  function ShoulderStart(s2: Sustainer): real
  {
    BodyEnd(NoseconeLength(s2.nosecone.diameter), s2.body)
  }

  /** Where the booster body starts: behind the shoulder. */
  function LowerBodyStart(s1: Booster, s2: Sustainer): real
  {
    ShoulderStart(s2) + s1.shoulder.length
  }

  // ---------------------------------------------------------------------------
  // Centres of gravity

  /** A part's term in a CG: its station weighted by its share of the total mass. */
  function MassShare(station: real, part: real, total: real): real
    requires total != 0.0
  {
    station * part / total
  }

  /** CG moment per unit motor mass of the empty motor (casing and nozzle) whose
      chamber starts at `at`. */
  function DryMotorCg(at: real, m: Motor): real
    requires m.mass != 0.0
  {
    MassShare(at + 0.5 * m.chamberLength, m.casingMass, m.mass)
      + MassShare(at + 0.5 * (m.chamberLength + m.nozzleLength), m.nozzleMass, m.mass)
  }

  /** The propellant's share of the loaded motor's CG. */
  function PropellantCg(at: real, m: Motor): real
    requires m.mass != 0.0
  {
    MassShare(at + 0.5 * m.chamberLength, m.propellantMass, m.mass)
  }

  /** b' is b with the CG stations of a body that starts at `start`: the middle of
      the recovery bay, the empty and the loaded motor as the CG range of the motor,
      and half a root chord ahead of the body's end for the fins. */
  ghost predicate CgPlaced(start: real, b: Body, b': Body)
    requires b.engine.mass != 0.0
  {
    var mid := start + 0.5 * b.recovery.length;
    var at := start + b.recovery.length;
    var dry := DryMotorCg(at, b.engine);
    var loaded := dry + PropellantCg(at, b.engine);
    var fin := BodyEnd(start, b) - 0.5 * b.fins.chordRoot;
    && b'.recovery == b.recovery.(minCg := mid, maxCg := mid)
    && b'.engine == b.engine.(minCg := Min(dry, loaded), maxCg := Max(dry, loaded))
    && b'.fins == b.fins.(minCg := fin, maxCg := fin)
  }

  /** The inner body(length_before, stage) of calculate_cg_locations: writes the CG
      stations of one body and returns the station behind its motor. */
  method BodyCg(start: real, b: Body) returns (b': Body, end: real)
    requires b.engine.mass != 0.0
    ensures CgPlaced(start, b, b')
    ensures end == BodyEnd(start, b)
    ensures b'.engine.minCg <= b'.engine.maxCg
  {
    var lengthBefore := start;
    var recoveryCg := lengthBefore + 0.5 * b.recovery.length;
    var recovery := b.recovery.(minCg := recoveryCg, maxCg := recoveryCg);
    lengthBefore := lengthBefore + b.recovery.length;

    var m := b.engine;
    var casingCg := MassShare(lengthBefore + 0.5 * m.chamberLength, m.casingMass, m.mass);
    var nozzleCg := MassShare(lengthBefore + 0.5 * (m.chamberLength + m.nozzleLength), m.nozzleMass, m.mass);
    var propellantCg := MassShare(lengthBefore + 0.5 * m.chamberLength, m.propellantMass, m.mass);
    var locations := [casingCg + nozzleCg, casingCg + nozzleCg + propellantCg];
    var engine := m.(minCg := Min(locations[0], locations[1]), maxCg := Max(locations[0], locations[1]));
    lengthBefore := lengthBefore + m.length;

    var finsCg := lengthBefore - 0.5 * b.fins.chordRoot;
    var fins := b.fins.(minCg := finsCg, maxCg := finsCg);
    b', end := Body(recovery, engine, fins), lengthBefore;
  }

  // ---------------------------------------------------------------------------
  // Centres of pressure

  /** b' is b with the CP stations of a body that starts at `start`: the middle of the
      recovery bay and of the motor section, and half a root chord ahead of the
      body's end for the fins. */
  ghost predicate CpPlaced(start: real, b: Body, b': Body)
  {
    var at := start + b.recovery.length;
    && b'.recovery == b.recovery.(cp := start + 0.5 * b.recovery.length)
    && b'.engine == b.engine.(cp := at + 0.5 * b.engine.length)
    && b'.fins == b.fins.(cp := BodyEnd(start, b) - 0.5 * b.fins.chordRoot)
  }

  /** The inner body(length_before, stage) of calculate_cp_locations. */
  method BodyCp(start: real, b: Body) returns (b': Body, end: real)
    ensures CpPlaced(start, b, b')
    ensures end == BodyEnd(start, b)
  {
    var lengthBefore := start;
    var recovery := b.recovery.(cp := lengthBefore + 0.5 * b.recovery.length);
    lengthBefore := lengthBefore + b.recovery.length;
    var engine := b.engine.(cp := lengthBefore + 0.5 * b.engine.length);
    lengthBefore := lengthBefore + b.engine.length;
    var fins := b.fins.(cp := lengthBefore - 0.5 * b.fins.chordRoot);
    b', end := Body(recovery, engine, fins), lengthBefore;
  }

  // ---------------------------------------------------------------------------
  // Areas

  /** Side (flow) area of a cylindrical section. */
  function SectionArea(length: real, diameter: real): real
  {
    length * diameter
  }

  /** Planform area of one trapezoidal fin. */
  function FinArea(f: Fins): real
  {
    0.5 * f.span * (f.chordRoot + f.chordTip)
  }

  function NoseconeArea(diameter: real): real
  {
    10.0 / 3.0 * (diameter * diameter)
  }

  /** Side area of the shoulder: a trapezoid of the given length between the two stage
      diameters. */
  function ShoulderArea(length: real, d1: real, d2: real): real
  {
    0.5 * length * (d1 + d2)
  }

  /** Wetted area of all fins of a set, both faces. */
  function FinWettedArea(f: Fins): real
  {
    2.0 * (f.amount as real) * f.span * (f.chordRoot + f.chordTip)
  }

  /** b' is b with the flow areas of calculate_flow_area's inner body(stage). */
  ghost predicate FlowPlaced(b: Body, b': Body)
  {
    && b'.recovery == b.recovery.(flowArea := SectionArea(b.recovery.length, b.recovery.diameter))
    && b'.engine == b.engine.(flowArea := SectionArea(b.engine.length, b.engine.diameter))
    && b'.fins == b.fins.(flowArea := FinArea(b.fins))
  }

  /** b' is b with the wetted areas of calculate_wetted_area's inner body(stage):
      the cylinder mantles of recovery bay and motor, and both faces of all fins. */
  ghost predicate WettedPlaced(pi: real, b: Body, b': Body)
  {
    && b'.recovery == b.recovery.(wettedArea := b.recovery.length * b.recovery.diameter * pi)
    && b'.engine == b.engine.(wettedArea := b.engine.length * b.engine.diameter * pi)
    && b'.fins == b.fins.(wettedArea := FinWettedArea(b.fins))
  }

  method BodyFlow(b: Body) returns (b': Body)
    ensures FlowPlaced(b, b')
  {
    var recovery := b.recovery.(flowArea := b.recovery.length * b.recovery.diameter);
    var engine := b.engine.(flowArea := b.engine.length * b.engine.diameter);
    var fins := b.fins.(flowArea := 0.5 * b.fins.span * (b.fins.chordRoot + b.fins.chordTip));
    b' := Body(recovery, engine, fins);
  }

  method BodyWetted(pi: real, b: Body) returns (b': Body)
    ensures WettedPlaced(pi, b, b')
  {
    var recovery := b.recovery.(wettedArea := b.recovery.length * b.recovery.diameter * pi);
    var engine := b.engine.(wettedArea := b.engine.length * b.engine.diameter * pi);
    var fins := b.fins.(wettedArea := 2.0 * (b.fins.amount as real) * b.fins.span * (b.fins.chordRoot + b.fins.chordTip));
    b' := Body(recovery, engine, fins);
  }

  /** Wetted area of the 5:1 Haack nosecone, through the elementary functions. */
  function NoseconeWettedArea(e: Elementary, n: Nosecone): real
    requires ShellDivisors(e) && n.diameter != 0.0
  {
    var length := NoseconeLength(n.diameter);
    var phi := e.arccos(1.0 - 2.0 * (n.axialDistance / length));
    var localRadius := n.baseRadius / e.sqrt(e.pi) * e.sqrt(phi - 0.5 * e.sin(2.0 * phi));
    e.pi * n.diameter * localRadius
  }

  /** The nosecone's wetted area depends on its diameter, base radius and axial
      distance alone, not on the stations and areas written beside it. */
  lemma NoseconeWettedAgrees(e: Elementary, n: Nosecone, m: Nosecone)
    requires ShellDivisors(e) && n.diameter != 0.0
    requires m.diameter == n.diameter && m.baseRadius == n.baseRadius && m.axialDistance == n.axialDistance
    ensures NoseconeWettedArea(e, m) == NoseconeWettedArea(e, n)
  {
  }

  /** Wetted area of the shoulder: the mantle of the cone frustum of the given length
      between the stage diameters d1 and d2. */
  function ShoulderWettedArea(e: Elementary, length: real, d1: real, d2: real): real
    requires ShellDivisors(e) && length != 0.0
  {
    var theta := e.arctan((d1 - d2) / (2.0 * length));
    e.pi * d1 * length / e.cos(theta)
  }

  /** The divisors of the two shell formulas are nonzero: sqrt(pi), and the cosine of
      any arctangent. */
  ghost predicate ShellDivisors(e: Elementary)
  {
    e.sqrt(e.pi) != 0.0 && forall x :: e.cos(e.arctan(x)) != 0.0
  }

  lemma LawfulShellDivisors(e: Elementary)
    requires Lawful(e)
    ensures ShellDivisors(e)
  {
  }

  // ---------------------------------------------------------------------------
  // Mean aerodynamic chord

  /** calc(stage) of calculate_mac, with taper ratio ct / cr. */
  function MeanAerodynamicChord(cr: real, ct: real): real
    requires cr != 0.0 && 1.0 + ct / cr != 0.0
  {
    var taper := ct / cr;
    cr * (2.0 / 3.0) * ((1.0 + taper + taper * taper) / (1.0 + taper))
  }

  /** The fins' chords admit the MAC formula's divisions. */
  predicate Tapered(f: Fins)
  {
    f.chordRoot != 0.0 && 1.0 + f.chordTip / f.chordRoot != 0.0
  }

  // ---------------------------------------------------------------------------
  // Weighted totals

  /** The sum of the weights, added left to right. */
  function Total(ws: seq<real>): real
  {
    if |ws| == 0 then 0.0 else Total(ws[..|ws| - 1]) + ws[|ws| - 1]
  }

  /** The first moment: the sum of location times weight. */
  function Moment(xs: seq<real>, ws: seq<real>): real
    requires |xs| == |ws|
  {
    if |xs| == 0 then 0.0
    else Moment(xs[..|xs| - 1], ws[..|ws| - 1]) + Weighted(xs[|xs| - 1], ws[|ws| - 1])
  }

  /** One location times its weight. */
  function Weighted(x: real, w: real): real
  {
    x * w
  }

  /** A rocket total from the two stages' values and weights (masses or flow areas). */
  function StagesMean(x1: real, w1: real, x2: real, w2: real, total: real): real
    requires total != 0.0
  {
    (x1 * w1 + x2 * w2) / total
  }

  /** Weighting distributes over a sum of weights. */
  lemma WeightedDistributes(x: real, a: real, b: real)
    ensures Weighted(x, a + b) == Weighted(x, a) + Weighted(x, b)
  {
    Distribute(x, a, b);
  }

  lemma AddQuotients(a: real, b: real, d: real)
    requires d != 0.0
    ensures a / d + b / d == (a + b) / d
  {
  }

  /** cg_stage's loop: the stage's CG range as the subsystems' CGs weighted with their
      masses and divided by the stage mass. */
  method StageCg(minCgs: seq<real>, maxCgs: seq<real>, masses: seq<real>, stageMass: real)
    returns (minCg: real, maxCg: real)
    requires |minCgs| == |masses| && |maxCgs| == |masses| && stageMass != 0.0
    ensures minCg == Moment(minCgs, masses) / stageMass
    ensures maxCg == Moment(maxCgs, masses) / stageMass
  {
    minCg, maxCg := 0.0, 0.0;
    var i := 0;
    while i < |masses|
      invariant 0 <= i <= |masses|
      invariant minCg == Moment(minCgs[..i], masses[..i]) / stageMass
      invariant maxCg == Moment(maxCgs[..i], masses[..i]) / stageMass
    {
      assert minCgs[..i + 1][..i] == minCgs[..i] && maxCgs[..i + 1][..i] == maxCgs[..i];
      assert masses[..i + 1][..i] == masses[..i];
      AddQuotients(Moment(minCgs[..i], masses[..i]), minCgs[i] * masses[i], stageMass);
      AddQuotients(Moment(maxCgs[..i], masses[..i]), maxCgs[i] * masses[i], stageMass);
      minCg := minCg + minCgs[i] * masses[i] / stageMass;
      maxCg := maxCg + maxCgs[i] * masses[i] / stageMass;
      i := i + 1;
    }
    assert minCgs[..i] == minCgs && maxCgs[..i] == maxCgs && masses[..i] == masses;
  }

  /** cp_stage: the stage's flow area is the sum of its subsystems' flow areas, and its
      CP their CPs weighted with those areas. */
  method StageCp(cps: seq<real>, areas: seq<real>) returns (flowArea: real, cp: real)
    requires |cps| == |areas| && Total(areas) != 0.0
    ensures flowArea == Total(areas)
    ensures cp == Moment(cps, areas) / flowArea
  {
    flowArea := Total(areas);
    cp := 0.0;
    var i := 0;
    while i < |areas|
      invariant 0 <= i <= |areas|
      invariant cp == Moment(cps[..i], areas[..i]) / flowArea
    {
      assert cps[..i + 1][..i] == cps[..i] && areas[..i + 1][..i] == areas[..i];
      AddQuotients(Moment(cps[..i], areas[..i]), cps[i] * areas[i], flowArea);
      cp := cp + cps[i] * areas[i] / flowArea;
      i := i + 1;
    }
    assert cps[..i] == cps && areas[..i] == areas;
  }

  // The subsystem lists of calculate_total_cg and calculate_total_cp, in their order.

  function BoosterMinCgs(s: Booster): seq<real>
  {
    [s.shoulder.minCg, s.body.recovery.minCg, s.body.engine.minCg, s.body.fins.minCg]
  }

  function BoosterMaxCgs(s: Booster): seq<real>
  {
    [s.shoulder.maxCg, s.body.recovery.maxCg, s.body.engine.maxCg, s.body.fins.maxCg]
  }

  function BoosterMasses(s: Booster): seq<real>
  {
    [s.shoulder.mass, s.body.recovery.mass, s.body.engine.mass, s.body.fins.mass]
  }

  function BoosterCps(s: Booster): seq<real>
  {
    [s.shoulder.cp, s.body.recovery.cp, s.body.engine.cp, s.body.fins.cp]
  }

  function BoosterAreas(s: Booster): seq<real>
  {
    [s.shoulder.flowArea, s.body.recovery.flowArea, s.body.engine.flowArea, s.body.fins.flowArea]
  }

  function SustainerMinCgs(s: Sustainer): seq<real>
  {
    [s.nosecone.minCg, s.body.recovery.minCg, s.body.engine.minCg, s.body.fins.minCg]
  }

  function SustainerMaxCgs(s: Sustainer): seq<real>
  {
    [s.nosecone.maxCg, s.body.recovery.maxCg, s.body.engine.maxCg, s.body.fins.maxCg]
  }

  function SustainerMasses(s: Sustainer): seq<real>
  {
    [s.nosecone.mass, s.body.recovery.mass, s.body.engine.mass, s.body.fins.mass]
  }

  function SustainerCps(s: Sustainer): seq<real>
  {
    [s.nosecone.cp, s.body.recovery.cp, s.body.engine.cp, s.body.fins.cp]
  }

  function SustainerAreas(s: Sustainer): seq<real>
  {
    [s.nosecone.flowArea, s.body.recovery.flowArea, s.body.engine.flowArea, s.body.fins.flowArea]
  }

  /** The dimensions the side areas are formed from agree. */
  ghost predicate SameOutline(s1: Booster, s2: Sustainer, t1: Booster, t2: Sustainer)
  {
    && s1.diameter == t1.diameter && s2.diameter == t2.diameter
    && s1.shoulder.length == t1.shoulder.length && s2.nosecone.diameter == t2.nosecone.diameter
    && s1.body.recovery.length == t1.body.recovery.length && s1.body.recovery.diameter == t1.body.recovery.diameter
    && s1.body.engine.length == t1.body.engine.length && s1.body.engine.diameter == t1.body.engine.diameter
    && s1.body.fins.amount == t1.body.fins.amount && s2.body.fins.amount == t2.body.fins.amount
    && s1.body.fins.span == t1.body.fins.span && s1.body.fins.chordRoot == t1.body.fins.chordRoot && s1.body.fins.chordTip == t1.body.fins.chordTip
    && s2.body.recovery.length == t2.body.recovery.length && s2.body.recovery.diameter == t2.body.recovery.diameter
    && s2.body.engine.length == t2.body.engine.length && s2.body.engine.diameter == t2.body.engine.diameter
    && s2.body.fins.span == t2.body.fins.span && s2.body.fins.chordRoot == t2.body.fins.chordRoot && s2.body.fins.chordTip == t2.body.fins.chordTip
  }

  /** The side areas, the fins' wetted areas and the fin stations depend on the outline alone. */
  lemma OutlineAgrees(s1: Booster, s2: Sustainer, t1: Booster, t2: Sustainer)
    requires SameOutline(s1, s2, t1, t2)
    ensures BoosterSideAreas(s1, s2.diameter) == BoosterSideAreas(t1, t2.diameter)
    ensures SustainerSideAreas(s2) == SustainerSideAreas(t2)
    ensures FinWettedArea(s1.body.fins) == FinWettedArea(t1.body.fins)
    ensures FinWettedArea(s2.body.fins) == FinWettedArea(t2.body.fins)
    ensures BodyEnd(LowerBodyStart(s1, s2), s1.body) == BodyEnd(LowerBodyStart(t1, t2), t1.body)
    ensures BodyEnd(NoseconeLength(s2.nosecone.diameter), s2.body) == BodyEnd(NoseconeLength(t2.nosecone.diameter), t2.body)
    ensures ShoulderStart(s2) == ShoulderStart(t2) && LowerBodyStart(s1, s2) == LowerBodyStart(t1, t2)
  {
    assert FinArea(s1.body.fins) == FinArea(t1.body.fins);
    assert FinArea(s2.body.fins) == FinArea(t2.body.fins);
    assert ShoulderArea(s1.shoulder.length, s1.diameter, s2.diameter) == ShoulderArea(t1.shoulder.length, t1.diameter, t2.diameter);
  }

  /** The flow areas calculate_flow_area gives the booster's listed subsystems. */
  function BoosterSideAreas(s1: Booster, d2: real): seq<real>
  {
    [ShoulderArea(s1.shoulder.length, s1.diameter, d2),
     SectionArea(s1.body.recovery.length, s1.body.recovery.diameter),
     SectionArea(s1.body.engine.length, s1.body.engine.diameter),
     FinArea(s1.body.fins)]
  }

  /** The flow areas calculate_flow_area gives the upper stage's listed subsystems. */
  function SustainerSideAreas(s2: Sustainer): seq<real>
  {
    [NoseconeArea(s2.nosecone.diameter),
     SectionArea(s2.body.recovery.length, s2.body.recovery.diameter),
     SectionArea(s2.body.engine.length, s2.body.engine.diameter),
     FinArea(s2.body.fins)]
  }

  // ---------------------------------------------------------------------------
  // Fin span

  /** The CP station that keeps the required stability margin (in calibres) behind
      the most rearward CG. */
  function NeededCp(diameter: real, margin: real, maxCg: real): real
  {
    diameter * margin + maxCg
  }

  /** The CP-times-flow-area moments of the upper stage's nosecone, recovery and motor. */
  function UpperMoments(s2: Sustainer): real
  {
    s2.nosecone.cp * s2.nosecone.flowArea
      + s2.body.recovery.cp * s2.body.recovery.flowArea
      + s2.body.engine.cp * s2.body.engine.flowArea
  }

  /** The same for the booster's shoulder, recovery and motor. */
  function LowerMoments(s1: Booster): real
  {
    s1.shoulder.cp * s1.shoulder.flowArea
      + s1.body.recovery.cp * s1.body.recovery.flowArea
      + s1.body.engine.cp * s1.body.engine.flowArea
  }

  /** The mass of a shell of the given wetted area, wall thickness and density. */
  function ShellMass(area: real, thickness: real, density: real): real
  {
    area * thickness * density
  }

  /** The mass of a fin set: one face per fin, half the wetted area of both faces. */
  function FinMass(wettedArea: real, thickness: real, density: real): real
  {
    wettedArea / 2.0 * thickness * density
  }

  /** The fin span divisions of calculate_fin_span can be carried out. */
  predicate SpanDivisible(f: Fins)
  {
    f.cp != 0.0 && f.chordRoot + f.chordTip != 0.0 && f.amount != 0
  }

  /** The upper fins supply the CP moment calculate_fin_span asks of them: their area
      at their CP makes up what the nosecone, recovery and motor leave short of the
      stage's flow area at the needed CP. */
  ghost predicate UpperSpanSet(s2: Sustainer)
  {
    var f := s2.body.fins;
    f.cp * (FinArea(f) * (f.amount as real))
      == NeededCp(s2.diameter, s2.stabilityMargin, s2.maxCg) * s2.flowArea - UpperMoments(s2)
  }

  /** The same for the booster fins, against the rocket's needed CP and flow area and
      the moments of both stages' nosecone, shoulder, recovery and motor. */
  ghost predicate LowerSpanSet(t: Totals, s1: Booster, s2: Sustainer)
  {
    var f := s1.body.fins;
    f.cp * (FinArea(f) * (f.amount as real) * 2.0)
      == NeededCp(t.diameter, t.stabilityMargin, t.maxCg) * t.flowArea - UpperMoments(s2) - LowerMoments(s1)
  }

  /** The stations, areas and stage values the span rule reads agree. */
  ghost predicate SameMoments(s1: Booster, s2: Sustainer, t1: Booster, t2: Sustainer)
  {
    && s2.diameter == t2.diameter && s2.stabilityMargin == t2.stabilityMargin
    && s2.maxCg == t2.maxCg && s2.flowArea == t2.flowArea
    && s2.nosecone.cp == t2.nosecone.cp && s2.nosecone.flowArea == t2.nosecone.flowArea
    && s1.shoulder.cp == t1.shoulder.cp && s1.shoulder.flowArea == t1.shoulder.flowArea
    && s1.body.recovery == t1.body.recovery && s1.body.engine == t1.body.engine
    && s2.body.recovery == t2.body.recovery && s2.body.engine == t2.body.engine
    && s1.body.fins.(thickness := 0.0, mass := 0.0) == t1.body.fins.(thickness := 0.0, mass := 0.0)
    && s2.body.fins.(thickness := 0.0, mass := 0.0) == t2.body.fins.(thickness := 0.0, mass := 0.0)
  }

  /** The span rule's balance holds on any stages that agree in what it reads. */
  lemma MomentsKeepSpan(t: Totals, s1: Booster, s2: Sustainer, t1: Booster, t2: Sustainer)
    requires SameMoments(s1, s2, t1, t2)
    requires UpperSpanSet(s2) && LowerSpanSet(t, s1, s2)
    ensures UpperSpanSet(t2) && LowerSpanSet(t, t1, t2)
  {
    assert FinArea(s1.body.fins) == FinArea(t1.body.fins);
    assert FinArea(s2.body.fins) == FinArea(t2.body.fins);
  }

  // ---------------------------------------------------------------------------
  // The state the passes of initialize and run leave

  /** A body after the shared passes, laid out from `start`: the CG stations of
      CgPlaced, the CP stations of CpPlaced, the wetted areas of WettedPlaced, the
      flow areas of FlowPlaced and the fins' mean aerodynamic chord. */
  ghost function LaidBody(pi: real, start: real, b: Body): Body
    requires b.engine.mass != 0.0 && Tapered(b.fins)
  {
    var mid := start + 0.5 * b.recovery.length;
    var at := start + b.recovery.length;
    var dry := DryMotorCg(at, b.engine);
    var loaded := dry + PropellantCg(at, b.engine);
    var fin := BodyEnd(start, b) - 0.5 * b.fins.chordRoot;
    Body(b.recovery.(minCg := mid, maxCg := mid, cp := mid,
                     wettedArea := b.recovery.length * b.recovery.diameter * pi,
                     flowArea := SectionArea(b.recovery.length, b.recovery.diameter)),
         b.engine.(minCg := Min(dry, loaded), maxCg := Max(dry, loaded), cp := at + 0.5 * b.engine.length,
                   wettedArea := b.engine.length * b.engine.diameter * pi,
                   flowArea := SectionArea(b.engine.length, b.engine.diameter)),
         b.fins.(minCg := fin, maxCg := fin, cp := fin,
                 mac := MeanAerodynamicChord(b.fins.chordRoot, b.fins.chordTip),
                 wettedArea := FinWettedArea(b.fins), flowArea := FinArea(b.fins)))
  }

  /** The five passes over one body, in the order of initialize, compose to LaidBody. */
  lemma BodyLaidOut(pi: real, start: real, b: Body, b1: Body, b2: Body, b3: Body, b4: Body, b5: Body)
    requires b.engine.mass != 0.0 && Tapered(b.fins)
    requires CgPlaced(start, b, b1) && WettedPlaced(pi, b1, b2)
    requires b3 == b2.(fins := b2.fins.(mac := MeanAerodynamicChord(b2.fins.chordRoot, b2.fins.chordTip)))
    requires CpPlaced(start, b3, b4) && FlowPlaced(b4, b5)
    ensures b5 == LaidBody(pi, start, b)
  {
  }

  /** The upper stage after the shared passes, apart from its totals: a 5:1 nosecone
      with CG at 25/8 and CP at 5/2 diameters, its wetted and flow areas, the body laid
      out behind it, and zero areas for the electronics and payload. */
  ghost function LaidUpper(e: Elementary, s2: Sustainer): Sustainer
    requires ShellDivisors(e) && s2.nosecone.diameter != 0.0
    requires s2.body.engine.mass != 0.0 && Tapered(s2.body.fins)
  {
    var d := s2.nosecone.diameter;
    var n := s2.nosecone.(length := NoseconeLength(d));
    s2.(nosecone := n.(minCg := 25.0 / 8.0 * d, maxCg := 25.0 / 8.0 * d, cp := 2.5 * d,
                       wettedArea := NoseconeWettedArea(e, n), flowArea := NoseconeArea(d)),
        body := LaidBody(e.pi, NoseconeLength(d), s2.body),
        electronics := Enclosed(0.0, 0.0), payload := Enclosed(0.0, 0.0))
  }

  /** The booster after the shared passes, apart from its totals: the shoulder with CG
      and CP at the shoulder station and its frustum and side areas, the body laid out
      behind the shoulder, and zero areas for the electronics. */
  ghost function LaidLower(e: Elementary, s1: Booster, s2: Sustainer): Booster
    requires ShellDivisors(e) && s1.shoulder.length != 0.0 && s1.diameter + s2.diameter != 0.0
    requires s1.body.engine.mass != 0.0 && Tapered(s1.body.fins)
  {
    var p := ShoulderPoint(ShoulderStart(s2), s1.shoulder.length, s1.diameter, s2.diameter);
    s1.(shoulder := s1.shoulder.(minCg := p, maxCg := p, cp := p,
                                 wettedArea := ShoulderWettedArea(e, s1.shoulder.length, s1.diameter, s2.diameter),
                                 flowArea := ShoulderArea(s1.shoulder.length, s1.diameter, s2.diameter)),
        body := LaidBody(e.pi, LowerBodyStart(s1, s2), s1.body),
        electronics := Enclosed(0.0, 0.0))
  }

  /** The upper stage with the masses update_masses writes: the nosecone shell and
      the fins. */
  function WeighUpper(s2: Sustainer): Sustainer
  {
    var n, f := s2.nosecone, s2.body.fins;
    s2.(nosecone := n.(mass := ShellMass(n.wettedArea, n.thickness, n.density)),
        body := s2.body.(fins := f.(mass := FinMass(f.wettedArea, f.thickness, f.density))))
  }

  /** The booster with the masses update_masses writes: the shoulder shell and the fins. */
  function WeighLower(s1: Booster): Booster
  {
    var s, f := s1.shoulder, s1.body.fins;
    s1.(shoulder := s.(mass := ShellMass(s.wettedArea, s.thickness, s.density)),
        body := s1.body.(fins := f.(mass := FinMass(f.wettedArea, f.thickness, f.density))))
  }

  /** A stage's fins with a new span and thickness. */
  function RefinnedUpper(s2: Sustainer, span: real, thickness: real): Sustainer
  {
    s2.(body := s2.body.(fins := s2.body.fins.(span := span, thickness := thickness)))
  }

  function RefinnedLower(s1: Booster, span: real, thickness: real): Booster
  {
    s1.(body := s1.body.(fins := s1.body.fins.(span := span, thickness := thickness)))
  }

  // ---------------------------------------------------------------------------
  // The rocket record

  class Rocket {
    var mass: real
    var diameter: real
    var stabilityMargin: real
    var minCg: real
    var maxCg: real
    var cp: real
    var flowArea: real
    var stage1: Booster
    var stage2: Sustainer

    ghost function Overall(): Totals
      reads this
    {
      Totals(mass, diameter, stabilityMargin, minCg, maxCg, cp, flowArea)
    }

    /** calculate_cg_locations: nosecone, upper body, shoulder and booster body, front
        to back; only CG stations and the nosecone length change. */
    method CgLocations()
      requires stage1.body.engine.mass != 0.0 && stage2.body.engine.mass != 0.0
      requires stage1.diameter + stage2.diameter != 0.0
      modifies this
      ensures var d := old(stage2.nosecone.diameter);
        stage2.nosecone == old(stage2.nosecone).(length := NoseconeLength(d), minCg := 25.0 / 8.0 * d, maxCg := 25.0 / 8.0 * d)
      ensures CgPlaced(NoseconeLength(old(stage2.nosecone.diameter)), old(stage2.body), stage2.body)
      ensures stage2 == old(stage2).(nosecone := stage2.nosecone, body := stage2.body)
      ensures var p := ShoulderPoint(ShoulderStart(old(stage2)), old(stage1.shoulder.length), old(stage1.diameter), old(stage2.diameter));
        stage1.shoulder == old(stage1.shoulder).(minCg := p, maxCg := p)
      ensures CgPlaced(LowerBodyStart(old(stage1), old(stage2)), old(stage1.body), stage1.body)
      ensures stage1 == old(stage1).(shoulder := stage1.shoulder, body := stage1.body)
      ensures Overall() == old(Overall())
    {
      var datum := 0.0;

      // Nosecone (5:1 Haack)
      var d := stage2.nosecone.diameter;
      var noseconeCg := 25.0 / 8.0 * d;
      stage2 := stage2.(nosecone := stage2.nosecone.(minCg := noseconeCg, maxCg := noseconeCg, length := 5.0 * d));
      datum := datum + stage2.nosecone.length;

      // Stage 2 body and fins
      var upper;
      upper, datum := BodyCg(datum, stage2.body);
      stage2 := stage2.(body := upper);

      // Shoulder
      var taperRatio := (stage1.diameter + 2.0 * stage2.diameter) / (stage1.diameter + stage2.diameter);
      var shoulderCg := datum + 2.0 / 3.0 * stage1.shoulder.length * taperRatio;
      stage1 := stage1.(shoulder := stage1.shoulder.(minCg := shoulderCg, maxCg := shoulderCg));
      datum := datum + stage1.shoulder.length;

      // Stage 1 body and fins
      var lower, _ := BodyCg(datum, stage1.body);
      stage1 := stage1.(body := lower);
    }

    /** calculate_total_cg: each stage's CG range from its four listed subsystems, then
        the rocket's as the stage ranges weighted with the stage masses. */
    method TotalCg()
      requires stage1.mass != 0.0 && stage2.mass != 0.0 && mass != 0.0
      modifies this
      ensures Overall() == old(Overall()).(minCg := minCg, maxCg := maxCg)
      ensures stage1 == old(stage1).(minCg := stage1.minCg, maxCg := stage1.maxCg)
      ensures stage2 == old(stage2).(minCg := stage2.minCg, maxCg := stage2.maxCg)
      ensures stage1.minCg == Moment(BoosterMinCgs(stage1), BoosterMasses(stage1)) / stage1.mass
      ensures stage1.maxCg == Moment(BoosterMaxCgs(stage1), BoosterMasses(stage1)) / stage1.mass
      ensures stage2.minCg == Moment(SustainerMinCgs(stage2), SustainerMasses(stage2)) / stage2.mass
      ensures stage2.maxCg == Moment(SustainerMaxCgs(stage2), SustainerMasses(stage2)) / stage2.mass
      ensures minCg == StagesMean(stage1.minCg, stage1.mass, stage2.minCg, stage2.mass, mass)
      ensures maxCg == StagesMean(stage1.maxCg, stage1.mass, stage2.maxCg, stage2.mass, mass)
    {
      var min1, max1 := StageCg(BoosterMinCgs(stage1), BoosterMaxCgs(stage1), BoosterMasses(stage1), stage1.mass);
      stage1 := stage1.(minCg := min1, maxCg := max1);
      var mass1 := stage1.mass;
      var min2, max2 := StageCg(SustainerMinCgs(stage2), SustainerMaxCgs(stage2), SustainerMasses(stage2), stage2.mass);
      stage2 := stage2.(minCg := min2, maxCg := max2);
      var mass2 := stage2.mass;

      minCg := (min1 * mass1 + min2 * mass2) / mass;
      maxCg := (max1 * mass1 + max2 * mass2) / mass;
    }

    /** calculate_wetted_area: sets the nosecone length again, the wetted areas of
        nosecone, shoulder and both bodies, and zero for the enclosed subsystems. */
    method WettedArea(e: Elementary)
      requires ShellDivisors(e)
      requires stage2.nosecone.diameter != 0.0 && stage1.shoulder.length != 0.0
      modifies this
      ensures var n := old(stage2.nosecone).(length := NoseconeLength(old(stage2.nosecone.diameter)));
        stage2.nosecone == n.(wettedArea := NoseconeWettedArea(e, n))
      ensures WettedPlaced(e.pi, old(stage2.body), stage2.body)
      ensures stage2 == old(stage2).(nosecone := stage2.nosecone, body := stage2.body,
        electronics := Enclosed(0.0, old(stage2.electronics.flowArea)),
        payload := Enclosed(0.0, old(stage2.payload.flowArea)))
      ensures stage1.shoulder == old(stage1.shoulder).(wettedArea :=
        ShoulderWettedArea(e, old(stage1.shoulder.length), old(stage1.diameter), old(stage2.diameter)))
      ensures WettedPlaced(e.pi, old(stage1.body), stage1.body)
      ensures stage1 == old(stage1).(shoulder := stage1.shoulder, body := stage1.body,
        electronics := Enclosed(0.0, old(stage1.electronics.flowArea)))
      ensures Overall() == old(Overall())
    {
      // Nosecone
      stage2 := stage2.(nosecone := stage2.nosecone.(length := 5.0 * stage2.nosecone.diameter));
      var n := stage2.nosecone;
      stage2 := stage2.(nosecone := n.(wettedArea := NoseconeWettedArea(e, n)));

      // Stage 2 body and fins
      var upper := BodyWetted(e.pi, stage2.body);
      stage2 := stage2.(body := upper);

      // Shoulder
      var shoulderArea := ShoulderWettedArea(e, stage1.shoulder.length, stage1.diameter, stage2.diameter);
      stage1 := stage1.(shoulder := stage1.shoulder.(wettedArea := shoulderArea));

      // Stage 1 body and fins
      var lower := BodyWetted(e.pi, stage1.body);
      stage1 := stage1.(body := lower);

      // Enclosed subsystems
      stage1 := stage1.(electronics := stage1.electronics.(wettedArea := 0.0));
      stage2 := stage2.(electronics := stage2.electronics.(wettedArea := 0.0));
      stage2 := stage2.(payload := stage2.payload.(wettedArea := 0.0));
    }

    /** calculate_mac: the mean aerodynamic chord of both fin sets. */
    method Mac()
      requires Tapered(stage1.body.fins) && Tapered(stage2.body.fins)
      modifies this
      ensures var f := old(stage1.body.fins);
        stage1 == old(stage1).(body := old(stage1.body).(fins := f.(mac := MeanAerodynamicChord(f.chordRoot, f.chordTip))))
      ensures var f := old(stage2.body.fins);
        stage2 == old(stage2).(body := old(stage2.body).(fins := f.(mac := MeanAerodynamicChord(f.chordRoot, f.chordTip))))
      ensures Overall() == old(Overall())
    {
      var f1 := stage1.body.fins;
      var taper1 := f1.chordTip / f1.chordRoot;
      var mac1 := f1.chordRoot * (2.0 / 3.0) * ((1.0 + taper1 + taper1 * taper1) / (1.0 + taper1));
      stage1 := stage1.(body := stage1.body.(fins := f1.(mac := mac1)));

      var f2 := stage2.body.fins;
      var taper2 := f2.chordTip / f2.chordRoot;
      var mac2 := f2.chordRoot * (2.0 / 3.0) * ((1.0 + taper2 + taper2 * taper2) / (1.0 + taper2));
      stage2 := stage2.(body := stage2.body.(fins := f2.(mac := mac2)));
    }

    /** calculate_cp_locations: the CP stations, laid out front to back like the CG
        stations; only CP stations and the nosecone length change. */
    method CpLocations()
      requires stage1.diameter + stage2.diameter != 0.0
      modifies this
      ensures var d := old(stage2.nosecone.diameter);
        stage2.nosecone == old(stage2.nosecone).(length := NoseconeLength(d), cp := 2.5 * d)
      ensures CpPlaced(NoseconeLength(old(stage2.nosecone.diameter)), old(stage2.body), stage2.body)
      ensures stage2 == old(stage2).(nosecone := stage2.nosecone, body := stage2.body)
      ensures stage1.shoulder == old(stage1.shoulder).(cp :=
        ShoulderPoint(ShoulderStart(old(stage2)), old(stage1.shoulder.length), old(stage1.diameter), old(stage2.diameter)))
      ensures CpPlaced(LowerBodyStart(old(stage1), old(stage2)), old(stage1.body), stage1.body)
      ensures stage1 == old(stage1).(shoulder := stage1.shoulder, body := stage1.body)
      ensures Overall() == old(Overall())
    {
      var datum := 0.0;

      // Nosecone (5:1 Haack)
      var d := stage2.nosecone.diameter;
      stage2 := stage2.(nosecone := stage2.nosecone.(cp := 2.5 * d, length := 5.0 * d));
      datum := datum + stage2.nosecone.length;

      // Stage 2 body and fins
      var upper;
      upper, datum := BodyCp(datum, stage2.body);
      stage2 := stage2.(body := upper);

      // Shoulder
      var taperRatio := (stage1.diameter + 2.0 * stage2.diameter) / (stage1.diameter + stage2.diameter);
      stage1 := stage1.(shoulder := stage1.shoulder.(cp := datum + 2.0 / 3.0 * stage1.shoulder.length * taperRatio));
      datum := datum + stage1.shoulder.length;

      // Stage 1 body and fins
      var lower, _ := BodyCp(datum, stage1.body);
      stage1 := stage1.(body := lower);
    }

    /** calculate_flow_area: the side areas of every subsystem, zero for the enclosed
        ones. */
    method FlowArea()
      modifies this
      ensures stage2.nosecone == old(stage2.nosecone).(flowArea := NoseconeArea(old(stage2.nosecone.diameter)))
      ensures FlowPlaced(old(stage2.body), stage2.body)
      ensures stage2 == old(stage2).(nosecone := stage2.nosecone, body := stage2.body,
        electronics := Enclosed(old(stage2.electronics.wettedArea), 0.0),
        payload := Enclosed(old(stage2.payload.wettedArea), 0.0))
      ensures stage1.shoulder == old(stage1.shoulder).(flowArea :=
        ShoulderArea(old(stage1.shoulder.length), old(stage1.diameter), old(stage2.diameter)))
      ensures FlowPlaced(old(stage1.body), stage1.body)
      ensures stage1 == old(stage1).(shoulder := stage1.shoulder, body := stage1.body,
        electronics := Enclosed(old(stage1.electronics.wettedArea), 0.0))
      ensures BoosterAreas(stage1) == BoosterSideAreas(old(stage1), old(stage2.diameter))
      ensures SustainerAreas(stage2) == SustainerSideAreas(old(stage2))
      ensures Overall() == old(Overall())
    {
      // Nosecone
      var d := stage2.nosecone.diameter;
      stage2 := stage2.(nosecone := stage2.nosecone.(flowArea := 10.0 / 3.0 * (d * d)));

      // Stage 2 body and fins
      var upper := BodyFlow(stage2.body);
      stage2 := stage2.(body := upper);

      // Shoulder
      stage1 := stage1.(shoulder := stage1.shoulder.(
        flowArea := 0.5 * stage1.shoulder.length * (stage1.diameter + stage2.diameter)));

      // Stage 1 body and fins
      var lower := BodyFlow(stage1.body);
      stage1 := stage1.(body := lower);

      // Enclosed subsystems
      stage1 := stage1.(electronics := stage1.electronics.(flowArea := 0.0));
      stage2 := stage2.(electronics := stage2.electronics.(flowArea := 0.0));
      stage2 := stage2.(payload := stage2.payload.(flowArea := 0.0));
    }

    /** calculate_total_cp: each stage's flow area and area-weighted CP from its four
        listed subsystems, then the rocket's from the two stages. */
    method TotalCp()
      requires Total(BoosterAreas(stage1)) != 0.0 && Total(SustainerAreas(stage2)) != 0.0
      requires Total(BoosterAreas(stage1)) + Total(SustainerAreas(stage2)) != 0.0
      modifies this
      ensures stage1 == old(stage1).(flowArea := stage1.flowArea, cp := stage1.cp)
      ensures stage2 == old(stage2).(flowArea := stage2.flowArea, cp := stage2.cp)
      ensures stage1.flowArea == Total(BoosterAreas(stage1))
      ensures stage1.cp == Moment(BoosterCps(stage1), BoosterAreas(stage1)) / stage1.flowArea
      ensures stage2.flowArea == Total(SustainerAreas(stage2))
      ensures stage2.cp == Moment(SustainerCps(stage2), SustainerAreas(stage2)) / stage2.flowArea
      ensures flowArea == stage1.flowArea + stage2.flowArea
      ensures cp == StagesMean(stage1.cp, stage1.flowArea, stage2.cp, stage2.flowArea, flowArea)
      ensures Overall() == old(Overall()).(cp := cp, flowArea := flowArea)
    {
      var area1, cp1 := StageCp(BoosterCps(stage1), BoosterAreas(stage1));
      stage1 := stage1.(flowArea := area1, cp := cp1);
      var area2, cp2 := StageCp(SustainerCps(stage2), SustainerAreas(stage2));
      stage2 := stage2.(flowArea := area2, cp := cp2);

      flowArea := area1 + area2;
      cp := (cp1 * area1 + cp2 * area2) / flowArea;
    }

    /** calculate_fin_span: each fin set gets the span whose fin area, placed at the fin
        CP, supplies the area moment missing for the CP to sit at the needed station.
        For the upper stage that is the stage's own CP; for the booster it is the
        rocket's CP, counted without the upper fins' moment. */
    method FinSpan()
      requires SpanDivisible(stage1.body.fins) && SpanDivisible(stage2.body.fins)
      modifies this
      ensures var f := old(stage2.body.fins);
        stage2 == old(stage2).(body := old(stage2.body).(fins := f.(span := stage2.body.fins.span)))
        && f.cp * (FinArea(stage2.body.fins) * (f.amount as real))
           == NeededCp(old(stage2.diameter), old(stage2.stabilityMargin), old(stage2.maxCg)) * old(stage2.flowArea)
              - UpperMoments(old(stage2))
      ensures var f := old(stage1.body.fins);
        stage1 == old(stage1).(body := old(stage1.body).(fins := f.(span := stage1.body.fins.span)))
        && f.cp * (FinArea(stage1.body.fins) * (f.amount as real) * 2.0)
           == NeededCp(diameter, stabilityMargin, maxCg) * flowArea
              - UpperMoments(old(stage2)) - LowerMoments(old(stage1))
      ensures Overall() == old(Overall())
    {
      // Stage 2
      var neededCp := stage2.diameter * stage2.stabilityMargin + stage2.maxCg;
      var shoulder := stage1.shoulder.cp * stage1.shoulder.flowArea;
      var nosecone := stage2.nosecone.cp * stage2.nosecone.flowArea;
      var recovery1 := stage1.body.recovery.cp * stage1.body.recovery.flowArea;
      var recovery2 := stage2.body.recovery.cp * stage2.body.recovery.flowArea;
      var engine1 := stage1.body.engine.cp * stage1.body.engine.flowArea;
      var engine2 := stage2.body.engine.cp * stage2.body.engine.flowArea;

      var f2 := stage2.body.fins;
      var finFlowArea := (neededCp * stage2.flowArea - nosecone - recovery2 - engine2) / f2.cp;
      var chords2 := 0.5 * (f2.chordRoot + f2.chordTip) * (f2.amount as real);
      ChordsNonzero(f2, 1.0);
      SpanArea(finFlowArea, chords2, 1.0, f2);
      stage2 := stage2.(body := stage2.body.(fins := f2.(span := finFlowArea / chords2)));

      // Stage 1
      neededCp := diameter * stabilityMargin + maxCg;
      var f1 := stage1.body.fins;
      finFlowArea := (neededCp * flowArea - nosecone - shoulder - recovery1 - recovery2 - engine1 - engine2) / f1.cp;
      var chords1 := 0.5 * (f1.chordRoot + f1.chordTip) * (f1.amount as real) * 2.0;
      ChordsNonzero(f1, 2.0);
      SpanArea(finFlowArea, chords1, 2.0, f1);
      stage1 := stage1.(body := stage1.body.(fins := f1.(span := finFlowArea / chords1)));
    }

    /** update_masses: the shell masses of nosecone and shoulder, and the fin masses
        (half the fins' wetted area, one face per fin), from thickness and density;
        nothing else changes. */
    method UpdateMasses()
      modifies this
      ensures stage2 == WeighUpper(old(stage2))
      ensures stage1 == WeighLower(old(stage1))
      ensures Overall() == old(Overall())
    {
      var n := stage2.nosecone;
      stage2 := stage2.(nosecone := n.(mass := n.wettedArea * n.thickness * n.density));

      var f2 := stage2.body.fins;
      stage2 := stage2.(body := stage2.body.(fins := f2.(mass := f2.wettedArea / 2.0 * f2.thickness * f2.density)));

      var s := stage1.shoulder;
      stage1 := stage1.(shoulder := s.(mass := s.wettedArea * s.thickness * s.density));

      var f1 := stage1.body.fins;
      stage1 := stage1.(body := stage1.body.(fins := f1.(mass := f1.wettedArea / 2.0 * f1.thickness * f1.density)));
    }

    /** Every division of initialize can be carried out: motor, stage and rocket masses,
        the nosecone diameter, the shoulder's length and diameter sum, the fin chords,
        the flow-area sums the totals divide by, and the divisors of the shell wetted
        areas. */
    ghost predicate Sizable(e: Elementary)
      reads this
    {
      && ShellDivisors(e)
      && stage1.body.engine.mass != 0.0 && stage2.body.engine.mass != 0.0
      && stage1.mass != 0.0 && stage2.mass != 0.0 && mass != 0.0
      && stage2.nosecone.diameter != 0.0 && stage1.shoulder.length != 0.0
      && stage1.diameter + stage2.diameter != 0.0
      && Tapered(stage1.body.fins) && Tapered(stage2.body.fins)
      && Total(BoosterSideAreas(stage1, stage2.diameter)) != 0.0
      && Total(SustainerSideAreas(stage2)) != 0.0
      && Total(BoosterSideAreas(stage1, stage2.diameter)) + Total(SustainerSideAreas(stage2)) != 0.0
    }

    /** The divisions of calculate_fin_span can be carried out on the fin CP stations
        the pass lays out. */
    ghost predicate Spannable()
      reads this
    {
      && SpanDivisible(stage2.body.fins.(cp := BodyEnd(NoseconeLength(stage2.nosecone.diameter), stage2.body) - 0.5 * stage2.body.fins.chordRoot))
      && SpanDivisible(stage1.body.fins.(cp := BodyEnd(LowerBodyStart(stage1, stage2), stage1.body) - 0.5 * stage1.body.fins.chordRoot))
    }

    /** The calculations initialize and run share, in their order: CG stations and
        totals, wetted areas and MAC, CP stations, flow areas and totals. The CG totals
        are formed with the masses the rocket arrives with, the CP totals with the flow
        areas just written; the dimensions, the fin counts and densities and every mass
        are left as they were. */
    method Survey(e: Elementary)
      requires Sizable(e)
      modifies this
      ensures mass == old(mass) && stage1.mass == old(stage1.mass) && stage2.mass == old(stage2.mass)
      ensures SameOutline(stage1, stage2, old(stage1), old(stage2))
      ensures BoosterMasses(stage1) == BoosterMasses(old(stage1)) && SustainerMasses(stage2) == SustainerMasses(old(stage2))
      ensures stage1.minCg == Moment(BoosterMinCgs(stage1), BoosterMasses(stage1)) / stage1.mass
      ensures stage2.minCg == Moment(SustainerMinCgs(stage2), SustainerMasses(stage2)) / stage2.mass
      ensures stage1.maxCg == Moment(BoosterMaxCgs(stage1), BoosterMasses(stage1)) / stage1.mass
      ensures stage2.maxCg == Moment(SustainerMaxCgs(stage2), SustainerMasses(stage2)) / stage2.mass
      ensures minCg == StagesMean(stage1.minCg, stage1.mass, stage2.minCg, stage2.mass, mass)
      ensures maxCg == StagesMean(stage1.maxCg, stage1.mass, stage2.maxCg, stage2.mass, mass)
      ensures stage1.flowArea == Total(BoosterSideAreas(old(stage1), old(stage2.diameter)))
      ensures stage2.flowArea == Total(SustainerSideAreas(old(stage2)))
      ensures stage1.cp == Moment(BoosterCps(stage1), BoosterAreas(stage1)) / stage1.flowArea
      ensures stage2.cp == Moment(SustainerCps(stage2), SustainerAreas(stage2)) / stage2.flowArea
      ensures flowArea == stage1.flowArea + stage2.flowArea
      ensures cp == StagesMean(stage1.cp, stage1.flowArea, stage2.cp, stage2.flowArea, flowArea)
      ensures var f := old(stage1.body.fins);
        stage1.body.fins.wettedArea == FinWettedArea(f)
        && stage1.body.fins.density == f.density && stage1.body.fins.thickness == f.thickness
        && stage1.body.fins.cp == BodyEnd(LowerBodyStart(old(stage1), old(stage2)), old(stage1.body)) - 0.5 * f.chordRoot
      ensures var f := old(stage2.body.fins);
        stage2.body.fins.wettedArea == FinWettedArea(f)
        && stage2.body.fins.density == f.density && stage2.body.fins.thickness == f.thickness
        && stage2.body.fins.cp == BodyEnd(NoseconeLength(old(stage2.nosecone.diameter)), old(stage2.body)) - 0.5 * f.chordRoot
      ensures stage1 == LaidLower(e, old(stage1), old(stage2)).(
        minCg := stage1.minCg, maxCg := stage1.maxCg, cp := stage1.cp, flowArea := stage1.flowArea)
      ensures stage2 == LaidUpper(e, old(stage2)).(
        minCg := stage2.minCg, maxCg := stage2.maxCg, cp := stage2.cp, flowArea := stage2.flowArea)
      ensures Overall() == old(Overall()).(minCg := minCg, maxCg := maxCg, cp := cp, flowArea := flowArea)
    {
      ghost var s1, s2 := stage1, stage2;

      // CG
      CgLocations();
      ghost var cg1, cg2 := stage1.body, stage2.body;
      TotalCg();
      assert SameOutline(stage1, stage2, s1, s2);

      // Wetted area and MAC
      OutlineAgrees(stage1, stage2, s1, s2);
      NoseconeWettedAgrees(e, s2.nosecone.(length := NoseconeLength(s2.nosecone.diameter)),
        stage2.nosecone.(length := NoseconeLength(s2.nosecone.diameter)));
      WettedArea(e);
      ghost var wet1, wet2 := stage1.body, stage2.body;
      Mac();
      ghost var mac1, mac2 := stage1.body, stage2.body;
      assert SameOutline(stage1, stage2, s1, s2);

      // CP and flow area
      OutlineAgrees(stage1, stage2, s1, s2);
      CpLocations();
      ghost var cp1, cp2 := stage1.body, stage2.body;
      assert SameOutline(stage1, stage2, s1, s2);
      OutlineAgrees(stage1, stage2, s1, s2);
      FlowArea();
      BodyLaidOut(e.pi, LowerBodyStart(s1, s2), s1.body, cg1, wet1, mac1, cp1, stage1.body);
      BodyLaidOut(e.pi, NoseconeLength(s2.nosecone.diameter), s2.body, cg2, wet2, mac2, cp2, stage2.body);
      TotalCp();
    }

    /** initialize: the shared calculations, then the shell masses. The stage CG totals
        therefore rest on the masses from before this pass, and the stage and rocket
        masses are not recomputed from the new shell masses. */
    method Initialize(e: Elementary)
      requires Sizable(e)
      modifies this
      ensures mass == old(mass) && stage1.mass == old(stage1.mass) && stage2.mass == old(stage2.mass)
      ensures stage1.minCg == Moment(BoosterMinCgs(stage1), BoosterMasses(old(stage1))) / stage1.mass
      ensures stage2.minCg == Moment(SustainerMinCgs(stage2), SustainerMasses(old(stage2))) / stage2.mass
      ensures stage1.maxCg == Moment(BoosterMaxCgs(stage1), BoosterMasses(old(stage1))) / stage1.mass
      ensures stage2.maxCg == Moment(SustainerMaxCgs(stage2), SustainerMasses(old(stage2))) / stage2.mass
      ensures minCg == StagesMean(stage1.minCg, stage1.mass, stage2.minCg, stage2.mass, mass)
      ensures maxCg == StagesMean(stage1.maxCg, stage1.mass, stage2.maxCg, stage2.mass, mass)
      ensures stage1.flowArea == Total(BoosterSideAreas(old(stage1), old(stage2.diameter)))
      ensures stage2.flowArea == Total(SustainerSideAreas(old(stage2)))
      ensures stage1.cp == Moment(BoosterCps(stage1), BoosterAreas(stage1)) / stage1.flowArea
      ensures stage2.cp == Moment(SustainerCps(stage2), SustainerAreas(stage2)) / stage2.flowArea
      ensures flowArea == stage1.flowArea + stage2.flowArea
      ensures cp == StagesMean(stage1.cp, stage1.flowArea, stage2.cp, stage2.flowArea, flowArea)
      ensures var n := stage2.nosecone; n.mass == ShellMass(n.wettedArea, n.thickness, n.density)
      ensures var s := stage1.shoulder; s.mass == ShellMass(s.wettedArea, s.thickness, s.density)
      ensures stage1.body.fins.wettedArea == FinWettedArea(old(stage1.body.fins))
      ensures stage2.body.fins.wettedArea == FinWettedArea(old(stage2.body.fins))
      ensures var f := stage1.body.fins; f.mass == FinMass(f.wettedArea, f.thickness, f.density)
      ensures var f := stage2.body.fins; f.mass == FinMass(f.wettedArea, f.thickness, f.density)
      ensures stage1 == WeighLower(LaidLower(e, old(stage1), old(stage2))).(
        minCg := stage1.minCg, maxCg := stage1.maxCg, cp := stage1.cp, flowArea := stage1.flowArea)
      ensures stage2 == WeighUpper(LaidUpper(e, old(stage2))).(
        minCg := stage2.minCg, maxCg := stage2.maxCg, cp := stage2.cp, flowArea := stage2.flowArea)
      ensures Overall() == old(Overall()).(minCg := minCg, maxCg := maxCg, cp := cp, flowArea := flowArea)
    {
      Survey(e);

      // Masses
      UpdateMasses();
    }

    /** run: the shared calculations, then the fin span and the fin thickness, then the
        shell masses. The fin thickness (a flutter criterion on flight results) arrives
        as the values thickness1 and thickness2. The fin masses are formed with the
        wetted area of the span the fins had before this pass. */
    method Run(e: Elementary, thickness1: real, thickness2: real)
      requires Sizable(e) && Spannable()
      modifies this
      ensures mass == old(mass) && stage1.mass == old(stage1.mass) && stage2.mass == old(stage2.mass)
      ensures UpperSpanSet(stage2) && LowerSpanSet(Overall(), stage1, stage2)
      ensures stage1.body.fins.thickness == thickness1 && stage2.body.fins.thickness == thickness2
      ensures stage1.body.fins.wettedArea == FinWettedArea(old(stage1.body.fins))
      ensures stage2.body.fins.wettedArea == FinWettedArea(old(stage2.body.fins))
      ensures var f := stage1.body.fins; f.mass == FinMass(f.wettedArea, f.thickness, f.density)
      ensures var f := stage2.body.fins; f.mass == FinMass(f.wettedArea, f.thickness, f.density)
      ensures stage1 == WeighLower(RefinnedLower(LaidLower(e, old(stage1), old(stage2)).(
          minCg := stage1.minCg, maxCg := stage1.maxCg, cp := stage1.cp, flowArea := stage1.flowArea),
        stage1.body.fins.span, thickness1))
      ensures stage2 == WeighUpper(RefinnedUpper(LaidUpper(e, old(stage2)).(
          minCg := stage2.minCg, maxCg := stage2.maxCg, cp := stage2.cp, flowArea := stage2.flowArea),
        stage2.body.fins.span, thickness2))
      ensures stage1.minCg == Moment(BoosterMinCgs(stage1), BoosterMasses(old(stage1))) / stage1.mass
      ensures stage2.minCg == Moment(SustainerMinCgs(stage2), SustainerMasses(old(stage2))) / stage2.mass
      ensures stage1.maxCg == Moment(BoosterMaxCgs(stage1), BoosterMasses(old(stage1))) / stage1.mass
      ensures stage2.maxCg == Moment(SustainerMaxCgs(stage2), SustainerMasses(old(stage2))) / stage2.mass
      ensures minCg == StagesMean(stage1.minCg, stage1.mass, stage2.minCg, stage2.mass, mass)
      ensures maxCg == StagesMean(stage1.maxCg, stage1.mass, stage2.maxCg, stage2.mass, mass)
      ensures stage1.flowArea == Total(BoosterSideAreas(old(stage1), old(stage2.diameter)))
      ensures stage2.flowArea == Total(SustainerSideAreas(old(stage2)))
      ensures stage1.cp == Moment(BoosterCps(stage1), BoosterAreas(stage1)) / stage1.flowArea
      ensures stage2.cp == Moment(SustainerCps(stage2), SustainerAreas(stage2)) / stage2.flowArea
      ensures flowArea == stage1.flowArea + stage2.flowArea
      ensures cp == StagesMean(stage1.cp, stage1.flowArea, stage2.cp, stage2.flowArea, flowArea)
      ensures Overall() == old(Overall()).(minCg := minCg, maxCg := maxCg, cp := cp, flowArea := flowArea)
    {
      Survey(e);
      SizeFins(thickness1, thickness2);
    }

    /** The second half of run: the fin spans, the given thicknesses, then the masses. */
    method SizeFins(thickness1: real, thickness2: real)
      requires SpanDivisible(stage1.body.fins) && SpanDivisible(stage2.body.fins)
      modifies this
      ensures mass == old(mass) && stage1.mass == old(stage1.mass) && stage2.mass == old(stage2.mass)
      ensures UpperSpanSet(stage2) && LowerSpanSet(Overall(), stage1, stage2)
      ensures stage1.body.fins.thickness == thickness1 && stage2.body.fins.thickness == thickness2
      ensures stage1.body.fins.wettedArea == old(stage1.body.fins.wettedArea)
      ensures stage2.body.fins.wettedArea == old(stage2.body.fins.wettedArea)
      ensures var f := stage1.body.fins; f.mass == FinMass(f.wettedArea, f.thickness, f.density)
      ensures var f := stage2.body.fins; f.mass == FinMass(f.wettedArea, f.thickness, f.density)
      ensures stage1 == WeighLower(RefinnedLower(old(stage1), stage1.body.fins.span, thickness1))
      ensures stage2 == WeighUpper(RefinnedUpper(old(stage2), stage2.body.fins.span, thickness2))
      ensures Overall() == old(Overall())
    {
      FinSpan();
      assert UpperSpanSet(stage2) && LowerSpanSet(Overall(), stage1, stage2);
      ghost var spanned1, spanned2 := stage1, stage2;
      stage1 := stage1.(body := stage1.body.(fins := stage1.body.fins.(thickness := thickness1)));
      stage2 := stage2.(body := stage2.body.(fins := stage2.body.fins.(thickness := thickness2)));

      UpdateMasses();
      assert SameMoments(spanned1, spanned2, stage1, stage2);
      MomentsKeepSpan(Overall(), spanned1, spanned2, stage1, stage2);
    }
  }

  /** The mean chord times the number of fins, times k fin sets. */
  function Chords(f: Fins, k: real): real
  {
    0.5 * (f.chordRoot + f.chordTip) * (f.amount as real) * k
  }

  lemma ChordsNonzero(f: Fins, k: real)
    requires SpanDivisible(f) && k != 0.0
    ensures Chords(f, k) != 0.0
  {
    NonzeroProduct(0.5 * (f.chordRoot + f.chordTip), f.amount as real);
    NonzeroProduct(0.5 * (f.chordRoot + f.chordTip) * (f.amount as real), k);
  }

  /** With a nonzero area per unit span c of k fin sets, the span area / c gives the
      k sets together the area asked for. */
  lemma SpanArea(area: real, c: real, k: real, f: Fins)
    requires c == Chords(f, k) && c != 0.0
    ensures FinArea(f.(span := area / c)) * (f.amount as real) * k == area
  {
    var s := area / c;
    assert s * c == area;
    assert FinArea(f.(span := s)) * (f.amount as real) * k == s * c;
  }

  // ---------------------------------------------------------------------------
  // Properties of the weighted totals

  /** A location between lo and hi, times a nonnegative weight. */
  lemma ScaledBetween(x: real, w: real, lo: real, hi: real)
    requires lo <= x <= hi && 0.0 <= w
    ensures Weighted(lo, w) <= Weighted(x, w) <= Weighted(hi, w)
  {
    if w > 0.0 {
      MultiplyMonotone(lo, x, w);
      MultiplyMonotone(x, hi, w);
    }
  }

  /** With nonnegative weights, the moment of locations in [lo, hi] lies between lo and
      hi times the total weight. */
  lemma {:induction false} MomentBounds(xs: seq<real>, ws: seq<real>, lo: real, hi: real)
    requires |xs| == |ws|
    requires forall j :: 0 <= j < |xs| ==> lo <= xs[j] <= hi && 0.0 <= ws[j]
    ensures Weighted(lo, Total(ws)) <= Moment(xs, ws) <= Weighted(hi, Total(ws))
  {
    if |xs| > 0 {
      var k := |xs| - 1;
      MomentBounds(xs[..k], ws[..k], lo, hi);
      ScaledBetween(xs[k], ws[k], lo, hi);
      WeightedDistributes(lo, Total(ws[..k]), ws[k]);
      WeightedDistributes(hi, Total(ws[..k]), ws[k]);
    }
  }

  /** With nonnegative weights, the moment grows with the locations. */
  lemma {:induction false} MomentMonotone(xs: seq<real>, ys: seq<real>, ws: seq<real>)
    requires |xs| == |ws| && |ys| == |ws|
    requires forall j :: 0 <= j < |ws| ==> xs[j] <= ys[j] && 0.0 <= ws[j]
    ensures Moment(xs, ws) <= Moment(ys, ws)
  {
    if |ws| > 0 {
      var k := |ws| - 1;
      MomentMonotone(xs[..k], ys[..k], ws[..k]);
      ScaledBetween(xs[k], ws[k], xs[k], ys[k]);
    }
  }

  /** A weighted mean with nonnegative weights of positive total lies between any
      bounds of the locations: the stage CP of calculate_total_cp, and the stage CG
      of calculate_total_cg when the stage mass is the sum of the listed masses. */
  lemma WeightedMeanBetween(xs: seq<real>, ws: seq<real>, lo: real, hi: real, mean: real)
    requires |xs| == |ws| && Total(ws) > 0.0 && Weighted(mean, Total(ws)) == Moment(xs, ws)
    requires forall j :: 0 <= j < |xs| ==> lo <= xs[j] <= hi && 0.0 <= ws[j]
    ensures lo <= mean <= hi
  {
    MomentBounds(xs, ws, lo, hi);
    MeanBetween(lo, hi, mean, Total(ws), Moment(xs, ws));
  }

  /** A mean whose product with a positive total lies between lo and hi times that
      total lies between lo and hi. */
  lemma MeanBetween(lo: real, hi: real, mean: real, total: real, moment: real)
    requires total > 0.0 && Weighted(mean, total) == moment && Weighted(lo, total) <= moment <= Weighted(hi, total)
    ensures lo <= mean <= hi
  {
    CancelOrder(lo, mean, total, lo * total, moment);
    CancelOrder(mean, hi, total, moment, hi * total);
  }

  /** The rocket totals: a mean of two stage values with nonnegative weights of positive
      sum lies between them. */
  lemma TwoStageMeanBetween(x1: real, w1: real, x2: real, w2: real, mean: real)
    requires 0.0 <= w1 && 0.0 <= w2 && w1 + w2 > 0.0
    requires mean * (w1 + w2) == x1 * w1 + x2 * w2
    ensures Min(x1, x2) <= mean <= Max(x1, x2)
  {
    MomentAppend([], [], x1, w1);
    MomentAppend([x1], [w1], x2, w2);
    TotalAppend([], w1);
    TotalAppend([w1], w2);
    assert [x1] + [x2] == [x1, x2] && [w1] + [w2] == [w1, w2];
    WeightedMeanBetween([x1, x2], [w1, w2], Min(x1, x2), Max(x1, x2), mean);
  }

  /** Appending one weighted location adds its product to the moment. */
  lemma MomentAppend(xs: seq<real>, ws: seq<real>, x: real, w: real)
    requires |xs| == |ws|
    ensures Moment(xs + [x], ws + [w]) == Moment(xs, ws) + x * w
  {
    var xs', ws' := xs + [x], ws + [w];
    assert xs'[..|xs'| - 1] == xs && xs'[|xs'| - 1] == x;
    assert ws'[..|ws'| - 1] == ws && ws'[|ws'| - 1] == w;
  }

  /** Appending one weight adds it to the total. */
  lemma TotalAppend(ws: seq<real>, w: real)
    ensures Total(ws + [w]) == Total(ws) + w
  {
    var ws' := ws + [w];
    assert ws'[..|ws'| - 1] == ws && ws'[|ws'| - 1] == w;
  }

  /** The moment of a four-subsystem list, term by term. */
  lemma MomentOfFour(x0: real, x1: real, x2: real, x3: real, w0: real, w1: real, w2: real, w3: real)
    ensures Moment([x0, x1, x2, x3], [w0, w1, w2, w3]) == x0 * w0 + x1 * w1 + x2 * w2 + x3 * w3
  {
    MomentAppend([], [], x0, w0);
    MomentAppend([x0], [w0], x1, w1);
    assert [x0] + [x1] == [x0, x1] && [w0] + [w1] == [w0, w1];
    MomentAppend([x0, x1], [w0, w1], x2, w2);
    assert [x0, x1] + [x2] == [x0, x1, x2] && [w0, w1] + [w2] == [w0, w1, w2];
    MomentAppend([x0, x1, x2], [w0, w1, w2], x3, w3);
    assert [x0, x1, x2] + [x3] == [x0, x1, x2, x3] && [w0, w1, w2] + [w3] == [w0, w1, w2, w3];
  }

  /** cg_stage keeps the CG ranges ordered: with nonnegative subsystem masses and a
      positive stage mass, subsystem ranges with min <= max give a stage range with
      min <= max. */
  lemma StageCgOrdered(minCgs: seq<real>, maxCgs: seq<real>, masses: seq<real>, stageMass: real, minCg: real, maxCg: real)
    requires |minCgs| == |masses| && |maxCgs| == |masses| && stageMass > 0.0
    requires forall j :: 0 <= j < |masses| ==> minCgs[j] <= maxCgs[j] && 0.0 <= masses[j]
    requires minCg * stageMass == Moment(minCgs, masses) && maxCg * stageMass == Moment(maxCgs, masses)
    ensures minCg <= maxCg
  {
    MomentMonotone(minCgs, maxCgs, masses);
    CancelOrder(minCg, maxCg, stageMass, Moment(minCgs, masses), Moment(maxCgs, masses));
  }

  /** Multiplying by a positive number reflects the order of the factors. */
  lemma CancelOrder(a: real, b: real, d: real, ad: real, bd: real)
    requires d > 0.0 && a * d == ad && b * d == bd && ad <= bd
    ensures a <= b
  {
    if b < a {
      MultiplyMonotone(b, a, d);
      CancelPositive(a, b, d);
    }
  }

  // ---------------------------------------------------------------------------
  // Properties of the layout

  /** The shoulder station lies between two thirds and four thirds of the shoulder's
      length behind its start; it lies inside the shoulder exactly when the booster
      is wider than the upper stage, and at its end when both are equally wide. */
  lemma ShoulderPointPlacement(datum: real, length: real, d1: real, d2: real)
    requires length > 0.0 && d1 > 0.0 && d2 > 0.0
    ensures var p := ShoulderPoint(datum, length, d1, d2);
      && datum + 2.0 / 3.0 * length < p < datum + 4.0 / 3.0 * length
      && (p < datum + length <==> d2 < d1)
      && (p == datum + length <==> d1 == d2)
  {
    var t := TaperRatio(d1, d2);
    Quotient(d1 + 2.0 * d2, d1 + d2);
    assert t * (d1 + d2) == d1 + 2.0 * d2;
    // 1 < t < 2, and t against 3/2 as d2 against d1
    BelowQuotient(1.0, d1 + 2.0 * d2, d1 + d2);
    BelowQuotient(t, 2.0 * (d1 + d2), d1 + d2);
    assert 2.0 * (d1 + d2) / (d1 + d2) == 2.0;
    assert 1.0 < t < 2.0;
    assert (t - 1.5) * (d1 + d2) == 0.5 * (d2 - d1);
    SignOfProduct(t - 1.5, d1 + d2);
    var q := 2.0 / 3.0 * length;
    assert q > 0.0;
    SignOfProduct(t - 1.0, q);
    SignOfProduct(2.0 - t, q);
    SignOfProduct(t - 1.5, q);
    assert datum + q * t - (datum + length) == q * (t - 1.5);
  }

  /** The sign of a product with a positive factor is the sign of the other factor. */
  lemma SignOfProduct(x: real, d: real)
    requires d > 0.0
    ensures x * d > 0.0 <==> x > 0.0
    ensures x * d < 0.0 <==> x < 0.0
    ensures x * d == 0.0 <==> x == 0.0
  {
    if x > 0.0 {
      ProductPositive(x, d);
    } else if x < 0.0 {
      ProductPositive(-x, d);
    }
  }

  /** The motor's CG range runs from the empty motor's CG to the loaded motor's when the
      propellant mass is nonnegative and the chamber's middle lies behind the nose tip. */
  lemma MotorCgRange(at: real, m: Motor)
    requires m.mass > 0.0 && m.propellantMass >= 0.0 && at + 0.5 * m.chamberLength >= 0.0
    ensures var dry := DryMotorCg(at, m);
      Min(dry, dry + PropellantCg(at, m)) == dry && Max(dry, dry + PropellantCg(at, m)) == dry + PropellantCg(at, m)
  {
    var n := (at + 0.5 * m.chamberLength) * m.propellantMass;
    if n != 0.0 {
      ProductPositive(at + 0.5 * m.chamberLength, m.propellantMass);
    }
    Quotient(n, m.mass);
  }

  /** The CG and CP layouts of a body agree: recovery bay and fins get the same CG and CP
      station, the motor's CP is the middle of its section, and with nonnegative lengths
      and a root chord no longer than twice the motor section the stations run in
      order from the body's start to its end. */
  lemma BodyStations(start: real, b: Body, bg: Body, bp: Body)
    requires b.engine.mass != 0.0 && CgPlaced(start, b, bg) && CpPlaced(start, b, bp)
    ensures bg.recovery.minCg == bg.recovery.maxCg == bp.recovery.cp
    ensures bg.fins.minCg == bg.fins.maxCg == bp.fins.cp
    ensures b.recovery.length >= 0.0 && b.engine.length >= 0.0 && 0.0 <= b.fins.chordRoot <= 2.0 * b.engine.length ==>
      start <= bp.recovery.cp <= start + b.recovery.length <= bp.engine.cp <= BodyEnd(start, b)
      && start + b.recovery.length <= bp.fins.cp <= BodyEnd(start, b)
  {
  }

  /** The wetted areas are fixed multiples of the flow areas: pi for the recovery bay and
      the motor (mantle against side area), and four times the fin count for the fins
      (both faces of every fin against one planform). */
  lemma WettedOverFlow(pi: real, b: Body, bw: Body, bf: Body)
    requires WettedPlaced(pi, b, bw) && FlowPlaced(b, bf)
    ensures bw.recovery.wettedArea == pi * bf.recovery.flowArea
    ensures bw.engine.wettedArea == pi * bf.engine.flowArea
    ensures bw.fins.wettedArea == 4.0 * (b.fins.amount as real) * bf.fins.flowArea
  {
  }

  // ---------------------------------------------------------------------------
  // Properties of the mean aerodynamic chord

  /** The MAC over the root chord is 2/3 of (1 + l + l^2) / (1 + l) for the taper ratio
      l; for 0 <= l <= 1 that factor lies in [1, 3/2], is at least 3l/2, and is 3/2
      only for l = 1. */
  lemma ChordFactorBounds(l: real)
    requires 0.0 <= l <= 1.0
    ensures var q := (1.0 + l + l * l) / (1.0 + l);
      1.0 <= q <= 1.5 && 1.5 * l <= q && (q == 1.5 <==> l == 1.0)
  {
    var q := (1.0 + l + l * l) / (1.0 + l);
    Quotient(1.0 + l + l * l, 1.0 + l);
    assert (q - 1.0) * (1.0 + l) == l * l;
    assert (1.5 - q) * (1.0 + l) == 0.5 * ((1.0 - l) * (1.0 + 2.0 * l));
    assert (q - 1.5 * l) * (1.0 + l) == 0.5 * ((1.0 - l) * (2.0 + l));
    ProductNonnegative(l, l);
    ProductNonnegative(1.0 - l, 1.0 + 2.0 * l);
    ProductNonnegative(1.0 - l, 2.0 + l);
    SignOfProduct(q - 1.0, 1.0 + l);
    SignOfProduct(1.5 - q, 1.0 + l);
    SignOfProduct(q - 1.5 * l, 1.0 + l);
    if l < 1.0 {
      ProductPositive(1.0 - l, 1.0 + 2.0 * l);
      assert (1.5 - q) * (1.0 + l) > 0.0;
    }
  }

  /** For a fin whose tip chord is at most its root chord, the MAC lies between
      max(ct, 2/3 cr) and cr, and reaches cr exactly for a rectangular fin. */
  lemma MacBounds(cr: real, ct: real)
    requires cr > 0.0 && 0.0 <= ct <= cr
    ensures var mac := MeanAerodynamicChord(cr, ct);
      && 2.0 / 3.0 * cr <= mac <= cr
      && ct <= mac
      && (mac == cr <==> ct == cr)
  {
    var l := ct / cr;
    Quotient(ct, cr);
    assert 0.0 <= l <= 1.0 by {
      if l > 1.0 {
        ProductPositive(l - 1.0, cr);
      }
    }
    var q := (1.0 + l + l * l) / (1.0 + l);
    ChordFactorBounds(l);
    var mac := cr * (2.0 / 3.0) * q;
    assert mac == MeanAerodynamicChord(cr, ct);
    SignOfProduct(q - 1.0, cr);
    SignOfProduct(1.5 - q, cr);
    SignOfProduct(q - 1.5 * l, cr);
    assert mac - cr == 2.0 / 3.0 * ((q - 1.5) * cr);
    assert mac - 2.0 / 3.0 * cr == 2.0 / 3.0 * ((q - 1.0) * cr);
    assert mac - ct == 2.0 / 3.0 * ((q - 1.5 * l) * cr);
    assert l == 1.0 <==> ct == cr;
  }

  lemma ProductNonnegative(x: real, y: real)
    requires x >= 0.0 && y >= 0.0
    ensures x * y >= 0.0
  {
    if x > 0.0 && y > 0.0 {
      ProductPositive(x, y);
    }
  }

  // ---------------------------------------------------------------------------
  // Properties of the fin span rule

  /** The upper stage's span rule at a fixed point of run, where the stage totals rest
      on the flow area that calculate_flow_area gives the fins of the new span: that
      pass counts one fin, while the rule divides the missing moment among all of them.
      The fins therefore supply 1/amount of the moment the rule asks for: the stage CP
      sits at the needed station with a single fin, and falls short of it with more. */
  lemma SettledUpperSpan(s2: Sustainer)
    requires s2.flowArea == Total(SustainerAreas(s2)) && s2.flowArea != 0.0
    requires s2.cp == Moment(SustainerCps(s2), SustainerAreas(s2)) / s2.flowArea
    requires s2.body.fins.flowArea == FinArea(s2.body.fins)
    requires UpperSpanSet(s2)
    ensures var needed := NeededCp(s2.diameter, s2.stabilityMargin, s2.maxCg);
      (s2.cp * s2.flowArea - UpperMoments(s2)) * (s2.body.fins.amount as real)
        == needed * s2.flowArea - UpperMoments(s2)
    ensures s2.body.fins.amount == 1 ==> s2.cp == NeededCp(s2.diameter, s2.stabilityMargin, s2.maxCg)
    ensures var needed := NeededCp(s2.diameter, s2.stabilityMargin, s2.maxCg);
      (s2.body.fins.amount > 1 && s2.flowArea > 0.0 && needed * s2.flowArea > UpperMoments(s2)) ==> s2.cp < needed
  {
    var xs, ws := SustainerCps(s2), SustainerAreas(s2);
    MomentOfFour(xs[0], xs[1], xs[2], xs[3], ws[0], ws[1], ws[2], ws[3]);
    Quotient2(Moment(xs, ws), s2.flowArea);
    var fins := s2.body.fins.cp * FinArea(s2.body.fins);
    assert s2.cp * s2.flowArea - UpperMoments(s2) == fins;
    var needed := NeededCp(s2.diameter, s2.stabilityMargin, s2.maxCg);
    var missing := needed * s2.flowArea - UpperMoments(s2);
    assert fins * (s2.body.fins.amount as real) == missing;
    if s2.body.fins.amount == 1 {
      assert s2.cp * s2.flowArea == needed * s2.flowArea;
      CancelNonzero(s2.cp, needed, s2.flowArea);
    }
    if s2.body.fins.amount > 1 && s2.flowArea > 0.0 && missing > 0.0 {
      PartBelowWhole(fins, s2.body.fins.amount as real, missing);
      assert s2.cp * s2.flowArea < needed * s2.flowArea;
      CancelOrder(s2.cp, needed, s2.flowArea, s2.cp * s2.flowArea, needed * s2.flowArea);
      assert s2.cp != needed;
    }
  }

  /** The booster's span rule at a fixed point of run: calculate_flow_area counts one
      booster fin, while the rule divides the missing moment among twice their number,
      and it leaves the upper fins' moment out. What the booster fins contribute to
      the rocket's CP moment, times 2 * amount, is what the rule asked for. */
  lemma SettledLowerSpan(s1: Booster, s2: Sustainer, t: Totals)
    requires s1.flowArea == Total(BoosterAreas(s1)) && s1.flowArea != 0.0
    requires s1.cp == Moment(BoosterCps(s1), BoosterAreas(s1)) / s1.flowArea
    requires s2.flowArea == Total(SustainerAreas(s2)) && s2.flowArea != 0.0
    requires s2.cp == Moment(SustainerCps(s2), SustainerAreas(s2)) / s2.flowArea
    requires t.flowArea == s1.flowArea + s2.flowArea && t.flowArea != 0.0
    requires t.cp == StagesMean(s1.cp, s1.flowArea, s2.cp, s2.flowArea, t.flowArea)
    requires s1.body.fins.flowArea == FinArea(s1.body.fins)
    requires LowerSpanSet(t, s1, s2)
    ensures var others := UpperMoments(s2) + LowerMoments(s1);
      (t.cp * t.flowArea - others - s2.body.fins.cp * s2.body.fins.flowArea) * (2.0 * (s1.body.fins.amount as real))
        == NeededCp(t.diameter, t.stabilityMargin, t.maxCg) * t.flowArea - others
  {
    var xs1, ws1 := BoosterCps(s1), BoosterAreas(s1);
    MomentOfFour(xs1[0], xs1[1], xs1[2], xs1[3], ws1[0], ws1[1], ws1[2], ws1[3]);
    var xs2, ws2 := SustainerCps(s2), SustainerAreas(s2);
    MomentOfFour(xs2[0], xs2[1], xs2[2], xs2[3], ws2[0], ws2[1], ws2[2], ws2[3]);
    Quotient2(Moment(xs1, ws1), s1.flowArea);
    Quotient2(Moment(xs2, ws2), s2.flowArea);
    Quotient2(s1.cp * s1.flowArea + s2.cp * s2.flowArea, t.flowArea);
    var fins1 := s1.body.fins.cp * FinArea(s1.body.fins);
    assert t.cp * t.flowArea
      == LowerMoments(s1) + fins1 + UpperMoments(s2) + s2.body.fins.cp * s2.body.fins.flowArea;
    assert fins1 * ((s1.body.fins.amount as real) * 2.0)
      == NeededCp(t.diameter, t.stabilityMargin, t.maxCg) * t.flowArea - UpperMoments(s2) - LowerMoments(s1);
  }

  /** A positive whole split into more than one equal part: each part is smaller. */
  lemma PartBelowWhole(part: real, n: real, whole: real)
    requires n > 1.0 && part * n == whole && whole > 0.0
    ensures part < whole
  {
    if part <= 0.0 {
      MultiplyMonotone(part, 0.0, n);
    } else {
      assert part * n - part == part * (n - 1.0);
      ProductPositive(part, n - 1.0);
    }
  }

  /** Cancelling a nonzero factor on both sides of an equation. */
  lemma CancelNonzero(a: real, b: real, d: real)
    requires d != 0.0 && a * d == b * d
    ensures a == b
  {
    assert (a - b) * d == 0.0;
  }

  /** Multiplying a quotient back by its nonzero divisor. */
  lemma Quotient2(n: real, d: real)
    requires d != 0.0
    ensures n / d * d == n
  {
  }
}
