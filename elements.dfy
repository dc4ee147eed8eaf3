// The node kinds of a scattering tree and what each one computes: the up
// port resistance (calculateUpRes), the scattering coefficients
// (calculateScatterCoeffs), the reflected up wave (calculateUpB) and the
// reflected down waves plus the leaf state (calculateDownB). A node's down
// ports are passed in as the sequence `down`, port i facing child i.

module Elements {

  import opened LinAlg
  import opened Waves
  import opened SwitchTreeRtype

  /** The user-supplied hooks of a terminated R-type adaptor. The only
      R-type adaptor defined is the attenuator's wdfTerminatedRtype_RT1. */
  datatype RtypeRule = RT1

  /** One node of a scattering tree together with the state its class keeps
      besides its ports. */
  datatype Element =
    | Series(yu: real, yl: real, yr: real)
    | Parallel(du: real, dl: real, dr: real)
    | Inverter
    | Rtype(S: Matrix, rule: RtypeRule)
    | Capacitor(C: real, T: real, prevA: real)
    | Inductor(L: real, T: real, prevA: real)
    | Resistor(R: real)
    | ResVSource(Vs: real, RSer: real)

  /** The elements as their constructors leave them: coefficients and
      delayed waves zero, the R-type matrix (n+1) x (n+1). */
  function NewSeries(): Element { Series(0.0, 0.0, 0.0) }
  function NewParallel(): Element { Parallel(0.0, 0.0, 0.0) }
  function NewRtype(n: nat): Element { Rtype(ZeroMatrix(n + 1, n + 1), RT1) }
  function NewCapacitor(C: real, T: real): Element { Capacitor(C, T, 0.0) }
  function NewInductor(L: real, T: real): Element { Inductor(L, T, 0.0) }

  /** How many children each kind takes: two for series, parallel and the
      RT1 R-type adaptor, one for the inverter, none for a leaf. An R-type
      matrix has one row and column per child plus one for the up port. */
  predicate ElementFits(e: Element, n: nat)
  {
    match e
    case Series(_, _, _) => n == 2
    case Parallel(_, _, _) => n == 2
    case Inverter => n == 1
    case Rtype(S, _) => n == 2 && IsMatrix(S, n + 1, n + 1)
    case _ => n == 0
  }

  predicate IsLeaf(e: Element)
  {
    e.Capacitor? || e.Inductor? || e.Resistor? || e.ResVSource?
  }

  /** The incident waves a_1 .. a_n of the down ports. */
  function Incident(down: seq<Port>): (r: Vector)
    ensures |r| == |down| && forall i :: 0 <= i < |down| ==> r[i] == down[i].a
  {
    seq(|down|, i requires 0 <= i < |down| => down[i].a)
  }

  /** The reflected waves b_1 .. b_n of the down ports. */
  function Reflected(down: seq<Port>): (r: Vector)
    ensures |r| == |down| && forall i :: 0 <= i < |down| ==> r[i] == down[i].b
  {
    seq(|down|, i requires 0 <= i < |down| => down[i].b)
  }

  // ---------------------------------------------------------------------
  // Port resistances

  function SeriesUpRes(Rl: real, Rr: real): real
  {
    Rl + Rr
  }

  function ParallelUpRes(Rl: real, Rr: real): real
    requires Rl + Rr != 0.0
  {
    (Rl * Rr) / (Rl + Rr)
  }

  function CapacitorRes(C: real, T: real): real
    requires C != 0.0
  {
    T / (2.0 * C)
  }

  function InductorRes(L: real, T: real): real
    requires T != 0.0
  {
    (2.0 * L) / T
  }

  /** The divisions calculateUpRes performs are by nonzero numbers. */
  predicate UpResDefined(e: Element, down: seq<Port>, T: real)
    requires ElementFits(e, |down|)
  {
    match e
    case Parallel(_, _, _) => down[0].Rp + down[1].Rp != 0.0
    case Capacitor(C, _, _) => C != 0.0
    case Inductor(_, _, _) => T != 0.0
    case _ => true
  }

  /** calculateUpRes: the up port resistance from the down port resistances
      and the sample period T. The capacitor and the inductor use the
      argument T, not the period stored when they were built. */
  function UpRes(e: Element, down: seq<Port>, T: real): real
    requires ElementFits(e, |down|) && UpResDefined(e, down, T)
  {
    match e
    case Series(_, _, _) => SeriesUpRes(down[0].Rp, down[1].Rp)
    case Parallel(_, _, _) => ParallelUpRes(down[0].Rp, down[1].Rp)
    case Inverter => down[0].Rp
    case Rtype(_, _) => RT1UpRes(down[0].Rp, down[1].Rp)
    case Capacitor(C, _, _) => CapacitorRes(C, T)
    case Inductor(L, _, _) => InductorRes(L, T)
    case Resistor(R) => R
    case ResVSource(_, RSer) => RSer
  }

  /** The parameters that make every resistance of a node positive: a
      positive sample period and positive C, L, R and RSer. */
  predicate PositiveElement(e: Element, T: real)
  {
    T > 0.0 &&
    match e
    case Capacitor(C, _, _) => C > 0.0
    case Inductor(L, _, _) => L > 0.0
    case Resistor(R) => R > 0.0
    case ResVSource(_, RSer) => RSer > 0.0
    case _ => true
  }

  /** With positive children and parameters the up port resistance is
      positive; series and RT1 exceed each child, parallel stays below
      each child, the inverter passes its child's through. */
  lemma UpResPositive(e: Element, down: seq<Port>, T: real)
    requires ElementFits(e, |down|) && PositiveElement(e, T)
    requires forall i :: 0 <= i < |down| ==> down[i].Rp > 0.0
    ensures UpResDefined(e, down, T)
    ensures UpRes(e, down, T) > 0.0
  {
    match e
    case Parallel(_, _, _) =>
      ParallelBelowChildren(down[0].Rp, down[1].Rp);
    case Capacitor(C, _, _) =>
      assert T / (2.0 * C) > 0.0;
    case Inductor(L, _, _) =>
      assert (2.0 * L) / T > 0.0;
    case _ =>
  }

  /** The parallel resistance of two positive resistances is positive,
      smaller than each and its conductance is the sum of theirs. */
  lemma ParallelBelowChildren(Rl: real, Rr: real)
    requires Rl > 0.0 && Rr > 0.0
    ensures 0.0 < ParallelUpRes(Rl, Rr) < Rl && ParallelUpRes(Rl, Rr) < Rr
    ensures 1.0 / ParallelUpRes(Rl, Rr) == 1.0 / Rl + 1.0 / Rr
  {
    var P := ParallelUpRes(Rl, Rr);
    assert P * (Rl + Rr) == Rl * Rr;
    assert P < Rl by {
      assert Rl * Rr < Rl * (Rl + Rr);
    }
    assert P < Rr by {
      assert Rr * Rr > 0.0;
      assert P * (Rl + Rr) < Rr * (Rl + Rr);
    }
    calc {
      1.0 / P;
      (Rl + Rr) / (Rl * Rr);
      Rl / (Rl * Rr) + Rr / (Rl * Rr);
      { assert Rl / (Rl * Rr) == 1.0 / Rr; assert Rr / (Rl * Rr) == 1.0 / Rl; }
      1.0 / Rl + 1.0 / Rr;
    }
  }

  // ---------------------------------------------------------------------
  // Scattering coefficients

  /** The divisions calculateScatterCoeffs performs are by nonzero numbers. */
  predicate ScatterDefined(e: Element, Ru: real, down: seq<Port>)
    requires ElementFits(e, |down|)
  {
    match e
    case Series(_, _, _) => Ru + down[0].Rp + down[1].Rp != 0.0
    case Parallel(_, _, _) =>
      Ru != 0.0 && down[0].Rp != 0.0 && down[1].Rp != 0.0 &&
      1.0 / Ru + 1.0 / down[0].Rp + 1.0 / down[1].Rp != 0.0
    case Rtype(_, _) => Ru + down[0].Rp + down[1].Rp != 0.0
    case _ => true
  }

  /** calculateScatterCoeffs of one node (the recursion into the children
      is the tree's business): series and parallel coefficients, the RT1
      matrix; the inverter and the leaves keep their state. */
  function ScatterCoeffs(e: Element, Ru: real, down: seq<Port>): (r: Element)
    requires ElementFits(e, |down|) && ScatterDefined(e, Ru, down)
    ensures ElementFits(r, |down|)
  {
    match e
    case Series(_, _, _) =>
      var yl := 2.0 * down[0].Rp / (Ru + down[0].Rp + down[1].Rp);
      Series(1.0, yl, 1.0 - yl)
    case Parallel(_, _, _) =>
      var Gu := 1.0 / Ru;
      var Gl := 1.0 / down[0].Rp;
      var Gr := 1.0 / down[1].Rp;
      var dl := 2.0 * Gl / (Gu + Gl + Gr);
      Parallel(1.0, dl, 1.0 - dl)
    case Rtype(_, rule) => Rtype(RT1Matrix(Ru, down[0].Rp, down[1].Rp), rule)
    case _ => e
  }

  /** The state of a node is its own coefficients again: computing them
      from the same resistances changes nothing. */
  lemma ScatterCoeffsIdempotent(e: Element, Ru: real, down: seq<Port>)
    requires ElementFits(e, |down|) && ScatterDefined(e, Ru, down)
    ensures ScatterDefined(ScatterCoeffs(e, Ru, down), Ru, down)
    ensures ScatterCoeffs(ScatterCoeffs(e, Ru, down), Ru, down) == ScatterCoeffs(e, Ru, down)
  {
  }

  // ---------------------------------------------------------------------
  // Waves

  /** calculateUpB: the wave the node reflects up, from the incident waves
      of its down ports (and the delayed wave of a capacitor or inductor). */
  function UpB(e: Element, down: seq<Port>): real
    requires ElementFits(e, |down|)
  {
    match e
    case Series(_, _, _) => -(down[0].a + down[1].a)
    case Parallel(_, dl, dr) => dl * down[0].a + dr * down[1].a
    case Inverter => -1.0 * down[0].a
    case Rtype(S, _) => Dot(S[0], [0.0] + Incident(down))
    case Capacitor(_, _, prevA) => prevA
    case Inductor(_, _, prevA) => prevA
    case Resistor(_) => 0.0
    case ResVSource(Vs, _) => Vs
  }

  /** The series calculateDownB divides by yl and yr. */
  predicate DownDefined(e: Element)
  {
    e.Series? ==> e.yl != 0.0 && e.yr != 0.0
  }

  /** The reflected waves of calculateDownB for the descending wave d: only
      the b of each down port changes. */
  function DownWaves(e: Element, down: seq<Port>, d: real): (r: seq<Port>)
    requires ElementFits(e, |down|) && DownDefined(e)
    ensures |r| == |down|
    ensures forall i :: 0 <= i < |down| ==> r[i] == down[i].(b := r[i].b)
  {
    match e
    case Series(_, yl, yr) =>
      [down[0].(b := yl * (down[0].a * ((1.0 / yl) - 1.0) - down[1].a - d)),
       down[1].(b := yr * (down[1].a * ((1.0 / yr) - 1.0) - down[0].a - d))]
    case Parallel(du, dl, dr) =>
      [down[0].(b := (dl - 1.0) * down[0].a + dr * down[1].a + du * d),
       down[1].(b := dl * down[0].a + (dr - 1.0) * down[1].a + du * d)]
    case Inverter => [down[0].(b := -1.0 * d)]
    case Rtype(S, _) =>
      var w := MatVec(S, [d] + Incident(down));
      seq(|down|, i requires 0 <= i < |down| => down[i].(b := w[i + 1]))
    case _ => down
  }

  /** The state calculateDownB leaves in a leaf: a capacitor keeps the
      descending wave, an inductor its negation, for the next sample; every
      other node keeps its state. */
  function NextState(e: Element, d: real): (r: Element)
    ensures IsLeaf(r) == IsLeaf(e) && r.Capacitor? == e.Capacitor? && r.Inductor? == e.Inductor?
    ensures forall n: nat :: ElementFits(r, n) == ElementFits(e, n)
  {
    match e
    case Capacitor(C, T, _) => Capacitor(C, T, d)
    case Inductor(L, T, _) => Inductor(L, T, -1.0 * d)
    case _ => e
  }

  // ---------------------------------------------------------------------
  // Adaptation laws

  /** A series adaptor adapted to positive children: yu = 1, yl + yr = 1,
      yl is the left share Rl / (Rl + Rr) of the up port resistance. */
  lemma SeriesAdapted(e: Element, down: seq<Port>, T: real)
    requires e.Series? && |down| == 2 && down[0].Rp > 0.0 && down[1].Rp > 0.0
    ensures ScatterDefined(e, UpRes(e, down, T), down)
    ensures var c := ScatterCoeffs(e, UpRes(e, down, T), down);
      c.yu == 1.0 && c.yl + c.yr == 1.0 && 0.0 < c.yl < 1.0 &&
      c.yl == down[0].Rp / (down[0].Rp + down[1].Rp) &&
      c.yr == down[1].Rp / (down[0].Rp + down[1].Rp)
  {
    var Rl, Rr := down[0].Rp, down[1].Rp;
    RT1Adapted(Rl, Rr);
    assert RT1Yl(RT1UpRes(Rl, Rr), Rl, Rr) == ScatterCoeffs(e, UpRes(e, down, T), down).yl;
    assert 1.0 - Rl / (Rl + Rr) == Rr / (Rl + Rr);
  }

  /** A parallel adaptor adapted to positive children: du = 1, dl + dr = 1,
      dl is the left share Gl / (Gl + Gr) of the up port conductance. */
  lemma ParallelAdapted(e: Element, down: seq<Port>, T: real)
    requires e.Parallel? && |down| == 2 && down[0].Rp > 0.0 && down[1].Rp > 0.0
    ensures ScatterDefined(e, UpRes(e, down, T), down)
    ensures var c := ScatterCoeffs(e, UpRes(e, down, T), down);
      var Gl, Gr := 1.0 / down[0].Rp, 1.0 / down[1].Rp;
      c.du == 1.0 && c.dl + c.dr == 1.0 && 0.0 < c.dl < 1.0 &&
      c.dl == Gl / (Gl + Gr) && c.dr == Gr / (Gl + Gr)
  {
    var Rl, Rr := down[0].Rp, down[1].Rp;
    var Gl, Gr := 1.0 / Rl, 1.0 / Rr;
    var Ru := UpRes(e, down, T);
    ParallelBelowChildren(Rl, Rr);
    assert 1.0 / Ru == Gl + Gr;
    assert Gl > 0.0 && Gr > 0.0;
    var dl := 2.0 * Gl / (1.0 / Ru + Gl + Gr);
    assert dl == Gl / (Gl + Gr) by {
      calc {
        dl;
        2.0 * Gl / (2.0 * (Gl + Gr));
        Gl / (Gl + Gr);
      }
    }
    assert 1.0 - Gl / (Gl + Gr) == Gr / (Gl + Gr);
    assert Gl / (Gl + Gr) < 1.0 by {
      assert Gl < Gl + Gr;
    }
  }

  // ---------------------------------------------------------------------
  // Scattering laws

  /** What a junction enforces once its up port carries (a, b) = (d,
      calculateUpB) and its down ports carry the waves calculateDownB
      reflected: series - one current, voltages summing to zero; parallel -
      one voltage, currents summing to zero; inverter - the voltage flips,
      the current passes; R-type - the reflected vector is S applied to the
      incident vector; resistor - Ohm's law; resistive source - V = Vs +
      RSer I. A capacitor or inductor relates two samples instead (see
      LeafDelay). */
  predicate JunctionLaws(e: Element, up: Port, down: seq<Port>)
    requires ElementFits(e, |down|)
  {
    match e
    case Series(_, _, _) =>
      up.Rp != 0.0 && down[0].Rp != 0.0 && down[1].Rp != 0.0 &&
      PortCurrent(down[0]) == PortCurrent(up) && PortCurrent(down[1]) == PortCurrent(up) &&
      PortVoltage(down[0]) + PortVoltage(down[1]) + PortVoltage(up) == 0.0
    case Parallel(_, _, _) =>
      up.Rp != 0.0 && down[0].Rp != 0.0 && down[1].Rp != 0.0 &&
      PortVoltage(down[0]) == PortVoltage(up) && PortVoltage(down[1]) == PortVoltage(up) &&
      PortCurrent(down[0]) + PortCurrent(down[1]) + PortCurrent(up) == 0.0
    case Inverter =>
      up.Rp != 0.0 && down[0].Rp == up.Rp &&
      PortVoltage(down[0]) == -PortVoltage(up) && PortCurrent(down[0]) == PortCurrent(up)
    case Rtype(S, _) =>
      [up.b] + Reflected(down) == MatVec(S, [up.a] + Incident(down))
    case Resistor(R) =>
      up.Rp == R && R != 0.0 && PortVoltage(up) == R * PortCurrent(up)
    case ResVSource(Vs, RSer) =>
      up.Rp == RSer && RSer != 0.0 && PortVoltage(up) == Vs + RSer * PortCurrent(up)
    case _ => true
  }

  /** One node adapted and its coefficients computed: every down port has a
      positive resistance, the up port the resistance calculateUpRes gives,
      and the element holds the coefficients calculateScatterCoeffs gives. */
  predicate NodeAdapted(e: Element, up: Port, down: seq<Port>, T: real)
  {
    ElementFits(e, |down|) && PositiveElement(e, T) &&
    (forall i :: 0 <= i < |down| ==> down[i].Rp > 0.0) &&
    UpResDefined(e, down, T) && up.Rp == UpRes(e, down, T) &&
    ScatterDefined(e, up.Rp, down) && e == ScatterCoeffs(e, up.Rp, down)
  }

  /** y (a (1/y - 1)) = a - y a for y != 0: the series down wave without
      its division. */
  lemma TimesReciprocal(y: real, a: real)
    requires y != 0.0
    ensures y * (a * ((1.0 / y) - 1.0)) == a - y * a
  {
    assert y * (1.0 / y) == 1.0;
  }

  /** The share R / Rsum of a wave s, turned into a current at a port of
      resistance R, is the current s / (2 Rsum) of the whole. */
  lemma ShareCurrent(R: real, Rsum: real, s: real)
    requires R > 0.0 && Rsum > 0.0
    ensures ((R / Rsum) * s) / (2.0 * R) == s / (2.0 * Rsum)
  {
    calc {
      ((R / Rsum) * s) / (2.0 * R);
      (R * s / Rsum) / (2.0 * R);
      { assert (R * s / Rsum) == R * (s / Rsum); }
      (R * (s / Rsum)) / (2.0 * R);
      (s / Rsum) / 2.0;
      s / (2.0 * Rsum);
    }
  }

  /** The current at a port is its conductance times half the wave
      difference. */
  lemma CurrentByConductance(p: Port)
    requires p.Rp != 0.0
    ensures PortCurrent(p) == (1.0 / p.Rp) * (p.a - p.b) / 2.0
  {
  }

  /** The series junction in numbers: with yl, yr the shares of Rl and Rr
      in Rl + Rr, the reflected waves of calculateDownB and calculateUpB
      give the same current s / (2 (Rl + Rr)) at all three ports, where s
      is the sum of the incident waves, and voltages that cancel. */
  lemma SeriesWaves(Rl: real, Rr: real, al: real, ar: real, d: real)
    requires Rl > 0.0 && Rr > 0.0
    ensures var yl, yr := Rl / (Rl + Rr), Rr / (Rl + Rr);
      var bl := yl * (al * ((1.0 / yl) - 1.0) - ar - d);
      var br := yr * (ar * ((1.0 / yr) - 1.0) - al - d);
      var bu := -(al + ar);
      var i := (al + ar + d) / (2.0 * (Rl + Rr));
      (al - bl) / (2.0 * Rl) == i && (ar - br) / (2.0 * Rr) == i &&
      (d - bu) / (2.0 * (Rl + Rr)) == i &&
      (al + bl) / 2.0 + (ar + br) / 2.0 + (d + bu) / 2.0 == 0.0
  {
    var yl, yr := Rl / (Rl + Rr), Rr / (Rl + Rr);
    var s := al + ar + d;
    SeriesReflected(yl, al, ar, d);
    SeriesReflected(yr, ar, al, d);
    ShareCurrent(Rl, Rl + Rr, s);
    ShareCurrent(Rr, Rl + Rr, s);
    SharesSumToOne(Rl, Rr);
    assert yl * s + yr * s == (yl + yr) * s;
  }

  /** What a series port of share y absorbs of the wave a it receives is
      its share of the sum of all incident waves. */
  lemma SeriesReflected(y: real, a: real, o: real, d: real)
    requires y != 0.0
    ensures a - y * (a * ((1.0 / y) - 1.0) - o - d) == y * (a + o + d)
  {
    TimesReciprocal(y, a);
    assert y * (a * ((1.0 / y) - 1.0) - o - d) == y * (a * ((1.0 / y) - 1.0)) - y * (o + d);
  }

  lemma SharesSumToOne(Rl: real, Rr: real)
    requires Rl > 0.0 && Rr > 0.0
    ensures Rl / (Rl + Rr) + Rr / (Rl + Rr) == 1.0
  {
    assert Rl / (Rl + Rr) + Rr / (Rl + Rr) == (Rl + Rr) / (Rl + Rr);
  }

  lemma SeriesKirchhoff(e: Element, up: Port, down: seq<Port>, T: real, d: real)
    requires e.Series? && NodeAdapted(e, up, down, T)
    ensures DownDefined(e)
    ensures JunctionLaws(e, up.(a := d, b := UpB(e, down)), DownWaves(e, down, d))
  {
    SeriesAdapted(e, down, T);
    SeriesWaves(down[0].Rp, down[1].Rp, down[0].a, down[1].a, d);
  }

  /** The parallel current balance in conductances: with dl, dr the shares
      of Gl and Gr in Gu = Gl + Gr, the three port currents cancel. */
  lemma ParallelBalance(Gl: real, Gr: real, al: real, ar: real, d: real)
    requires Gl > 0.0 && Gr > 0.0
    ensures var Gu := Gl + Gr;
      var dl, dr := Gl / Gu, Gr / Gu;
      var P := dl * al + dr * ar;
      Gl * (al - ((dl - 1.0) * al + dr * ar + d)) +
      Gr * (ar - (dl * al + (dr - 1.0) * ar + d)) +
      Gu * (d - P) == 0.0
  {
    var Gu := Gl + Gr;
    var dl, dr := Gl / Gu, Gr / Gu;
    assert Gu * dl == Gl;
    assert Gu * dr == Gr;
    assert dl + dr == 1.0;
    var P := dl * al + dr * ar;
    assert Gu * P == Gl * al + Gr * ar;
  }

  lemma ParallelKirchhoff(e: Element, up: Port, down: seq<Port>, T: real, d: real)
    requires e.Parallel? && NodeAdapted(e, up, down, T)
    ensures DownDefined(e)
    ensures JunctionLaws(e, up.(a := d, b := UpB(e, down)), DownWaves(e, down, d))
  {
    var Rl, Rr := down[0].Rp, down[1].Rp;
    var al, ar := down[0].a, down[1].a;
    ParallelAdapted(e, down, T);
    ParallelBelowChildren(Rl, Rr);
    var Gl, Gr := 1.0 / Rl, 1.0 / Rr;
    var nd := DownWaves(e, down, d);
    var nu := up.(a := d, b := UpB(e, down));
    CurrentByConductance(nd[0]);
    CurrentByConductance(nd[1]);
    CurrentByConductance(nu);
    assert 1.0 / nu.Rp == Gl + Gr;
    ParallelBalance(Gl, Gr, al, ar, d);
  }

  lemma InverterLaws(e: Element, up: Port, down: seq<Port>, T: real, d: real)
    requires e.Inverter? && NodeAdapted(e, up, down, T)
    ensures JunctionLaws(e, up.(a := d, b := UpB(e, down)), DownWaves(e, down, d))
  {
  }

  /** Applying the inverter's reflection twice gives back the wave. */
  lemma InverterInvolution(down: seq<Port>, d: real)
    requires |down| == 1
    ensures UpB(Inverter, DownWaves(Inverter, down, d)) == -down[0].a
    ensures UpB(Inverter, [down[0].(a := UpB(Inverter, down))]) == down[0].a
    ensures DownWaves(Inverter, DownWaves(Inverter, down, d), -d)[0].b == d
  {
  }

  /** For an R-type adaptor whose up port is reflection free (S(0,0) = 0,
      as an adapted up port is), calculateUpB and calculateDownB together
      compute b = S a for a = (d, a_1 .. a_n) and b = (upB, b_1 .. b_n). */
  lemma RtypeScattering(e: Element, up: Port, down: seq<Port>, d: real)
    requires e.Rtype? && ElementFits(e, |down|) && e.S[0][0] == 0.0
    ensures JunctionLaws(e, up.(a := d, b := UpB(e, down)), DownWaves(e, down, d))
  {
    var S := e.S;
    var inc := Incident(down);
    var w := MatVec(S, [d] + inc);
    var nd := DownWaves(e, down, d);
    var refl := Reflected(nd);
    assert UpB(e, down) == w[0] by {
      DotHead(S[0], 0.0, inc);
      DotHead(S[0], d, inc);
    }
    forall i | 0 <= i < |refl|
      ensures refl[i] == w[i + 1]
    {
    }
    assert [UpB(e, down)] + refl == w;
    assert Incident(nd) == inc;
  }

  /** The RT1 matrix built for adapted resistances is the series adaptor in
      matrix form: same up wave, same down waves. */
  lemma RT1IsSeries(e: Element, down: seq<Port>, T: real, d: real)
    requires e.Rtype? && |down| == 2 && down[0].Rp > 0.0 && down[1].Rp > 0.0
    ensures var Ru := RT1UpRes(down[0].Rp, down[1].Rp);
      var r := Rtype(RT1Matrix(Ru, down[0].Rp, down[1].Rp), e.rule);
      var s := ScatterCoeffs(NewSeries(), SeriesUpRes(down[0].Rp, down[1].Rp), down);
      ElementFits(r, 2) && ElementFits(s, 2) && DownDefined(s) &&
      r.S[0][0] == 0.0 &&
      UpB(r, down) == UpB(s, down) && DownWaves(r, down, d) == DownWaves(s, down, d)
  {
    var Rl, Rr := down[0].Rp, down[1].Rp;
    var Ru := RT1UpRes(Rl, Rr);
    var S := RT1Matrix(Ru, Rl, Rr);
    var r := Rtype(S, e.rule);
    var s := ScatterCoeffs(NewSeries(), SeriesUpRes(Rl, Rr), down);
    SeriesAdapted(NewSeries(), down, T);
    RT1Adapted(Rl, Rr);
    var yl := RT1Yl(Ru, Rl, Rr);
    assert s.yl == yl && s.yr == 1.0 - yl;
    var al, ar := down[0].a, down[1].a;
    Dot3(S[0], [0.0] + Incident(down));
    var v := [d] + Incident(down);
    Dot3(S[1], v);
    Dot3(S[2], v);
    var rd := DownWaves(r, down, d);
    var sd := DownWaves(s, down, d);
    assert rd[0].b == sd[0].b by {
      assert yl * (al * ((1.0 / yl) - 1.0)) == al - yl * al;
    }
    assert rd[1].b == sd[1].b by {
      assert (1.0 - yl) * (ar * ((1.0 / (1.0 - yl)) - 1.0)) == ar - (1.0 - yl) * ar;
    }
    assert rd == sd;
  }

  /** Every adapted non-storing node obeys its junction law. */
  lemma NodeLaws(e: Element, up: Port, down: seq<Port>, T: real, d: real)
    requires NodeAdapted(e, up, down, T)
    ensures DownDefined(e)
    ensures JunctionLaws(e, up.(a := d, b := UpB(e, down)), DownWaves(e, down, d))
  {
    match e
    case Series(_, _, _) => SeriesKirchhoff(e, up, down, T, d);
    case Parallel(_, _, _) => ParallelKirchhoff(e, up, down, T, d);
    case Inverter => InverterLaws(e, up, down, T, d);
    case Rtype(_, _) =>
      RT1MatrixEntries(up.Rp, down[0].Rp, down[1].Rp);
      RtypeScattering(e, up, down, d);
    case Resistor(R) =>
    case ResVSource(Vs, RSer) =>
      assert PortVoltage(up.(a := d, b := Vs)) == Vs + RSer * PortCurrent(up.(a := d, b := Vs)) by {
        calc {
          Vs + RSer * ((d - Vs) / (2.0 * RSer));
          Vs + (d - Vs) / 2.0;
        }
      }
    case _ =>
  }

  // ---------------------------------------------------------------------
  // Leaves over time

  /** The waves a leaf reflects when it is driven with the descending waves
      ds, one pull and one push per sample, starting from state e. */
  function LeafRun(e: Element, ds: seq<real>): (out: seq<real>)
    requires IsLeaf(e)
    ensures |out| == |ds|
    decreases |ds|
  {
    if |ds| == 0 then []
    else [UpB(e, [])] + LeafRun(NextState(e, ds[0]), ds[1..])
  }

  /** The reference behaviour of a leaf at sample n of a run driven by ds:
      a capacitor gives back the wave of the previous sample, an inductor
      its negation (the initial state at sample 0); a resistor gives 0 and a
      resistive source Vs. */
  function DelayedWave(e: Element, ds: seq<real>, n: nat): real
    requires IsLeaf(e) && n < |ds|
  {
    match e
    case Capacitor(_, _, prevA) => if n == 0 then prevA else ds[n - 1]
    case Inductor(_, _, prevA) => if n == 0 then prevA else -ds[n - 1]
    case Resistor(_) => 0.0
    case ResVSource(Vs, _) => Vs
  }

  /** A capacitor reflects at sample n+1 the wave it received at sample n,
      an inductor its negation; a resistor always reflects 0, a resistive
      source always Vs. */
  lemma {:induction false} LeafDelay(e: Element, ds: seq<real>)
    requires IsLeaf(e)
    ensures forall n :: 0 <= n < |ds| ==> LeafRun(e, ds)[n] == DelayedWave(e, ds, n)
    decreases |ds|
  {
    if |ds| > 0 {
      var e' := NextState(e, ds[0]);
      LeafDelay(e', ds[1..]);
      var out := LeafRun(e, ds);
      forall n | 1 <= n < |ds|
        ensures out[n] == DelayedWave(e, ds, n)
      {
        assert out[n] == LeafRun(e', ds[1..])[n - 1];
      }
    }
  }
}
