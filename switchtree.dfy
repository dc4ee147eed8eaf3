// wdfSwitchTree: the switchable attenuator. Its one subtree is the
// parallel adaptor P1 over the series adaptor S1 (the resistive source Vres
// in series with the resistor Res1) and the resistor Res2; the root is a
// simple root over the switch SW1. The output is the voltage across Res1,
// negated. Parameter 0 opens the switch (attenuator on) or closes it,
// parameter 1 splits R1 + R2 between Res1 and Res2.

module SwitchTrees {

  import opened LinAlg
  import opened Waves
  import opened Types
  import opened Elements
  import opened TreeSpec
  import opened TreeNodes
  import opened RootNodes
  import opened NlModels
  import opened Roots
  import opened Trees

  /** R1 and R2 of the attenuator, 250 kOhm each. */
  const R1: real := 250000.0
  const R2: real := 250000.0
  /** The series resistance of Vres. */
  const RSource: real := 1.0
  /** The rate the constructor sets. */
  const SampleRate: real := 44100.0

  const TreeName: string := "Switchable Attenuator"

  // ---------------------------------------------------------------------
  // The parameters

  /** The resistances setParam(1, p) gives Res1 and Res2. */
  function DividerSplit(p: real): (r: (real, real))
    ensures r.0 + r.1 == R1 + R2
    ensures r.1 == p * (r.0 + r.1)
    ensures 0.0 <= p <= 1.0 ==> r.0 >= 0.0 && r.1 >= 0.0
    ensures 0.0 < p < 1.0 ==> r.0 > 0.0 && r.1 > 0.0
  {
    ((R1 + R2) * (1.0 - p), (R1 + R2) * p)
  }

  /** The cast (bool) of a double, stored back into a double. */
  function BoolValue(x: real): (v: real)
    ensures v == 0.0 || v == 1.0
    ensures v == 0.0 <==> x == 0.0
  {
    if x != 0.0 then 1.0 else 0.0
  }

  /** setSwitch(!value): an attenuator switched on opens the switch
      (position 0), one switched off closes it (position 1). */
  function SwitchFor(value: real): (position: int)
    ensures position == 0 || position == 1
    ensures position == 0 <==> value != 0.0
  {
    if value != 0.0 then 0 else 1
  }

  /** The two parameters the constructor declares. */
  function InitialParams(): (ps: seq<ParamData>)
    ensures |ps| == 2
    ensures ps[0].ID == 0 && ps[0].ptype == BoolParam && ps[1].ID == 1 && ps[1].ptype == DoubleParam
    ensures InRange(ps[0]) && InRange(ps[1])
    ensures BoolValue(ps[0].value) == ps[0].value && SwitchFor(ps[0].value) == 1
    ensures DividerSplit(ps[1].value) == (R1, R2)
  {
    [ParamData("Attenuator", 0, BoolParam, 0.0, "On/off", 0.0, 1.0),
     ParamData("Attenuation", 1, DoubleParam, 0.5, "Ratio", 0.0, 1.0)]
  }

  /** setRootMatrData of the attenuator: nothing to set, success. */
  function SetRootMatrData(m: MatData, Rp: seq<real>): (r: (MatData, int))
    ensures r.0 == m && r.1 == 0
  {
    (m, 0)
  }

  // ---------------------------------------------------------------------
  // The subtree as a value

  /** The shape of the attenuator's subtree: P1 = parallel(S1, Res2) with
      S1 = series(Vres, Res1), Vres a resistive source of series resistance
      RSource. */
  predicate Divider(n: NodeVal)
  {
    n.elem.Parallel? && |n.kids| == 2 &&
    n.kids[0].elem.Series? && |n.kids[0].kids| == 2 &&
    n.kids[0].kids[0].elem.ResVSource? && n.kids[0].kids[0].elem.RSer == RSource &&
    n.kids[0].kids[0].kids == [] &&
    n.kids[0].kids[1].elem.Resistor? && n.kids[0].kids[1].kids == [] &&
    n.kids[1].elem.Resistor? && n.kids[1].kids == []
  }

  /** Vres, Res1 and Res2 in the subtree value. */
  function Source(n: NodeVal): NodeVal
    requires Divider(n)
  {
    n.kids[0].kids[0]
  }

  function Upper(n: NodeVal): NodeVal
    requires Divider(n)
  {
    n.kids[0].kids[1]
  }

  function Lower(n: NodeVal): NodeVal
    requires Divider(n)
  {
    n.kids[1]
  }

  /** r is the divider n with the same components (Vs, Res1, Res2). */
  predicate SameParts(n: NodeVal, r: NodeVal)
  {
    Divider(n) && Divider(r) &&
    Source(r).elem == Source(n).elem && Upper(r).elem == Upper(n).elem && Lower(r).elem == Lower(n).elem
  }

  /** The divider with other resistances for Res1 and Res2. */
  function Resized(n: NodeVal, r1: real, r2: real): (r: NodeVal)
    requires Divider(n)
    ensures Divider(r) && Source(r) == Source(n)
    ensures Upper(r).elem == Resistor(r1) && Lower(r).elem == Resistor(r2)
  {
    var s := n.kids[0];
    n.(kids := [s.(kids := [s.kids[0], s.kids[1].(elem := Resistor(r1))]), n.kids[1].(elem := Resistor(r2))])
  }

  /** The divider with another source voltage. */
  function WithSource(n: NodeVal, Vs: real): (r: NodeVal)
    requires Divider(n)
    ensures Divider(r) && Source(r).elem == ResVSource(Vs, RSource)
    ensures Upper(r) == Upper(n) && Lower(r) == Lower(n)
  {
    var s := n.kids[0];
    n.(kids := [s.(kids := [s.kids[0].(elem := ResVSource(Vs, RSource)), s.kids[1]]), n.kids[1]])
  }

  /** The port resistance the divider presents to the switch once adapted:
      Res2 in parallel with Vres and Res1 in series. */
  function DividerRes(r1: real, r2: real): real
    requires RSource + r1 + r2 != 0.0
  {
    ParallelUpRes(SeriesUpRes(RSource, r1), r2)
  }

  // ---------------------------------------------------------------------
  // What adaptTree and cycleWave do to the divider

  /** adaptTree keeps the divider's shape and components, and gives it the
      port resistance (RSource + Res1) Res2 / (RSource + Res1 + Res2). */
  lemma AdaptDivider(n: NodeVal, T: real)
    requires Divider(n) && Wired(n) && Positive(n, T)
    ensures SameParts(n, AdaptOne(n, T))
    ensures Upper(n).elem.R > 0.0 && Lower(n).elem.R > 0.0
    ensures AdaptOne(n, T).up.Rp == DividerRes(Upper(n).elem.R, Lower(n).elem.R)
  {
    assert Positive(n.kids[0], T) && Positive(n.kids[0].kids[1], T) && Positive(n.kids[1], T);
    AdaptParts(n, T);
    AdaptThenScatter(n, T);
    ScatterParts(Adapt(n, T));
  }

  /** adaptPorts alone: the components stay, the port resistances are the
      divider's. */
  lemma AdaptParts(n: NodeVal, T: real)
    requires Divider(n) && Wired(n) && Positive(n, T)
    requires Upper(n).elem.R > 0.0 && Lower(n).elem.R > 0.0
    ensures SameParts(n, Adapt(n, T))
    ensures Adapt(n, T).up.Rp == DividerRes(Upper(n).elem.R, Lower(n).elem.R)
  {
    var a := Adapt(n, T);
    AdaptOnlyResistances(n, T);
    assert a.kids[0] == Adapt(n.kids[0], T);
    assert a.kids[0].kids[0] == Adapt(n.kids[0].kids[0], T);
    assert a.kids[0].kids[1] == Adapt(n.kids[0].kids[1], T);
    assert a.kids[1] == Adapt(n.kids[1], T);
  }

  /** calculateScatterCoeffs changes no component of the divider. */
  lemma ScatterParts(a: NodeVal)
    requires Divider(a) && Wired(a) && ResPositive(a)
    ensures SameParts(a, Scatter(a))
  {
    var s := Scatter(a);
    assert s.kids[0] == Scatter(a.kids[0]);
    assert s.kids[0].kids[0] == Scatter(a.kids[0].kids[0]);
    assert s.kids[0].kids[1] == Scatter(a.kids[0].kids[1]);
    assert s.kids[1] == Scatter(a.kids[1]);
  }

  /** One sample keeps the divider's shape and components; the top port
      receives the descending wave d and keeps the wave it reflected. */
  lemma CycleDivider(n: NodeVal, d: real)
    requires Divider(n) && Wired(n) && Pushable(n)
    ensures SameParts(n, Push(Pull(n), d))
    ensures Push(Pull(n), d).up == Pull(n).up.(a := d)
  {
    var p := Pull(n);
    assert p.kids[0] == Pull(n.kids[0]);
    assert p.kids[0].kids[0] == Pull(n.kids[0].kids[0]);
    assert p.kids[0].kids[1] == Pull(n.kids[0].kids[1]);
    assert p.kids[1] == Pull(n.kids[1]);
    var q := Push(p, d);
    var dn := DownWaves(p.elem, p.down, d);
    assert q.kids[0] == Push(p.kids[0], dn[0].b);
    assert q.kids[1] == Push(p.kids[1], dn[1].b);
    var dn0 := DownWaves(p.kids[0].elem, p.kids[0].down, dn[0].b);
    assert q.kids[0].kids[0] == Push(p.kids[0].kids[0], dn0[0].b);
    assert q.kids[0].kids[1] == Push(p.kids[0].kids[1], dn0[1].b);
  }
  /** setInputValue writes only the source voltage, so an adapted divider
      stays adapted. */
  lemma SourceKeepsConsistent(n: NodeVal, Vs: real, T: real)
    requires Divider(n) && Consistent(n, T)
    ensures Wired(WithSource(n, Vs)) && Consistent(WithSource(n, Vs), T)
  {
    var r := WithSource(n, Vs);
    assert Consistent(n.kids[0], T);
    SeriesKeepsConsistent(n.kids[0], r.kids[0], T);
    assert r.kids[1] == n.kids[1];
  }

  /** The same for S1: a new Vs in its left leaf. */
  lemma SeriesKeepsConsistent(s: NodeVal, s': NodeVal, T: real)
    requires Consistent(s, T) && |s.kids| == 2 && s.kids[0].kids == [] && s.kids[0].elem.ResVSource?
    requires |s'.kids| == 2 && s'.kids[0].elem.ResVSource? && s'.kids[0].elem.RSer == s.kids[0].elem.RSer
    requires s' == s.(kids := [s.kids[0].(elem := s'.kids[0].elem), s.kids[1]])
    ensures Wired(s') && Consistent(s', T)
  {
    var v, v' := s.kids[0], s'.kids[0];
    LeafKeepsConsistent(v, v'.elem, T);
    assert Consistent(s.kids[1], T);
  }

  /** A resistive source with another Vs and the same series resistance. */
  lemma LeafKeepsConsistent(v: NodeVal, e: Element, T: real)
    requires Consistent(v, T) && v.kids == [] && v.elem.ResVSource? && e.ResVSource? && e.RSer == v.elem.RSer
    ensures Wired(v.(elem := e)) && Consistent(v.(elem := e), T)
  {
  }

  // ---------------------------------------------------------------------
  // The attenuator's output

  /** What getOutputValue reads: the voltage across Res1, negated. */
  function Output(n: NodeVal): real
    requires Divider(n)
  {
    -PortVoltage(Upper(n).up)
  }

  /** The branch S1 after a sample: with I its current, the output is
      Res1 I and the branch voltage is (RSource + Res1) I - Vs. */
  lemma SeriesBranch(s: NodeVal)
    requires s.elem.Series? && |s.kids| == 2 && Wired(s) && Laws(s)
    requires s.kids[0].elem.ResVSource? && s.kids[0].elem.RSer == RSource && s.kids[1].elem.Resistor?
    ensures s.up.Rp != 0.0
    ensures -PortVoltage(s.kids[1].up) == s.kids[1].elem.R * PortCurrent(s.up)
    ensures PortVoltage(s.up) == (RSource + s.kids[1].elem.R) * PortCurrent(s.up) - s.kids[0].elem.Vs
  {
    var v, u := s.kids[0], s.kids[1];
    assert Laws(v) && Laws(u);
    JoinedPortsShareVoltage(s.down[0], v.up);
    JoinedPortsShareVoltage(s.down[1], u.up);
  }

  /** P1 after a sample: one voltage across S1, Res2 and the switch port;
      the switch port carries the currents of S1 and Res2 together. */
  lemma ParallelTop(n: NodeVal)
    requires n.elem.Parallel? && |n.kids| == 2 && Wired(n) && Laws(n)
    requires n.kids[1].elem.Resistor?
    ensures n.up.Rp != 0.0 && n.kids[0].up.Rp != 0.0 && n.kids[1].up.Rp != 0.0
    ensures PortVoltage(n.up) == PortVoltage(n.kids[0].up)
    ensures PortVoltage(n.up) == n.kids[1].elem.R * PortCurrent(n.kids[1].up)
    ensures PortCurrent(n.up) == PortCurrent(n.kids[0].up) + PortCurrent(n.kids[1].up)
  {
    assert Laws(n.kids[1]);
    JoinedPortsShareVoltage(n.down[0], n.kids[0].up);
    JoinedPortsShareVoltage(n.down[1], n.kids[1].up);
  }

  /** The circuit after one sample, by Kirchhoff's laws alone: with the
      switch closed (its port at zero voltage) Res2 is shorted and the output
      is Vs Res1 / (RSource + Res1); with the switch open (no current
      through its port) it is Vs Res1 / (RSource + Res1 + Res2). */
  lemma DividerOutput(n: NodeVal, closed: bool)
    requires Divider(n) && Wired(n) && Laws(n)
    requires if closed then n.up.a == -n.up.b else n.up.a == n.up.b
    ensures var Vs, r1, r2 := Source(n).elem.Vs, Upper(n).elem.R, Lower(n).elem.R;
      if closed then Output(n) * (RSource + r1) == Vs * r1
      else Output(n) * (RSource + r1 + r2) == Vs * r1
  {
    var s := n.kids[0];
    assert Laws(s) && Wired(s);
    SeriesBranch(s);
    ParallelTop(n);
    if closed {
      ClosedOutput(n);
    } else {
      OpenOutput(n);
    }
  }

  /** The closed switch: the branch voltage is zero. */
  lemma ClosedOutput(n: NodeVal)
    requires Divider(n) && n.up.a == -n.up.b
    requires n.kids[0].up.Rp != 0.0 && PortVoltage(n.up) == PortVoltage(n.kids[0].up)
    requires Output(n) == Upper(n).elem.R * PortCurrent(n.kids[0].up)
    requires PortVoltage(n.kids[0].up) == (RSource + Upper(n).elem.R) * PortCurrent(n.kids[0].up) - Source(n).elem.Vs
    ensures Output(n) * (RSource + Upper(n).elem.R) == Source(n).elem.Vs * Upper(n).elem.R
  {
    Divide(Output(n), Source(n).elem.Vs, Upper(n).elem.R, RSource + Upper(n).elem.R, PortCurrent(n.kids[0].up));
  }

  /** The open switch: Res2 carries the branch current back. */
  lemma OpenOutput(n: NodeVal)
    requires Divider(n) && n.up.a == n.up.b
    requires n.up.Rp != 0.0 && n.kids[0].up.Rp != 0.0 && n.kids[1].up.Rp != 0.0
    requires PortVoltage(n.up) == PortVoltage(n.kids[0].up)
    requires PortVoltage(n.up) == Lower(n).elem.R * PortCurrent(n.kids[1].up)
    requires PortCurrent(n.up) == PortCurrent(n.kids[0].up) + PortCurrent(n.kids[1].up)
    requires Output(n) == Upper(n).elem.R * PortCurrent(n.kids[0].up)
    requires PortVoltage(n.kids[0].up) == (RSource + Upper(n).elem.R) * PortCurrent(n.kids[0].up) - Source(n).elem.Vs
    ensures Output(n) * (RSource + Upper(n).elem.R + Lower(n).elem.R) == Source(n).elem.Vs * Upper(n).elem.R
  {
    var I := PortCurrent(n.kids[0].up);
    assert PortCurrent(n.up) == 0.0;
    assert PortCurrent(n.kids[1].up) == -I;
    Divide(Output(n), Source(n).elem.Vs, Upper(n).elem.R, RSource + Upper(n).elem.R + Lower(n).elem.R, I);
  }

  /** out = r I and Vs = R I give out R = Vs r. */
  lemma Divide(out: real, Vs: real, r: real, R: real, I: real)
    requires out == r * I && Vs == R * I
    ensures out * R == Vs * r
  {
  }
  /** A node without children as a value. */
  ghost function LeafVal(x: TreeNode): NodeVal
    reads x
  {
    NodeVal(x.elem, x.upPort, x.downPorts, [])
  }

  /** Every element of the divider has a positive parameter. */
  lemma PositiveDivider(n: NodeVal, T: real)
    requires Divider(n) && T > 0.0 && Upper(n).elem.R > 0.0 && Lower(n).elem.R > 0.0
    ensures Positive(n, T)
  {
    assert Positive(n.kids[0].kids[0], T) && Positive(n.kids[0].kids[1], T);
    assert Positive(n.kids[0], T) && Positive(n.kids[1], T);
  }

  /** The node objects of the constructor: Vres, Res1, Res2, RT1 over
      Vres and Res1, S1 = series(Vres, Res1) and P1 = parallel(S1, Res2),
      each with a fresh up port and no down ports. */
  method BuildDivider() returns (v: TreeNode, q1: TreeNode, q2: TreeNode, rt: TreeNode, s: TreeNode, p: TreeNode)
    ensures fresh(v) && fresh(q1) && fresh(q2) && fresh(rt) && fresh(s) && fresh(p)
    ensures p.Valid() && p.Repr() == {p, s, q2, v, q1}
    ensures p.children == [s, q2] && s.children == [v, q1]
    ensures v.children == [] && q1.children == [] && q2.children == []
    ensures v.elem == ResVSource(0.0, RSource) && q1.elem == Resistor(R1) && q2.elem == Resistor(R2)
    ensures s.elem == NewSeries() && p.elem == NewParallel()
    ensures rt.elem == NewRtype(2) && rt.children == [v, q1]
    ensures v.downPorts == [] && q1.downPorts == [] && q2.downPorts == [] && s.downPorts == [] && p.downPorts == []
    ensures p != s && p != v && p != q1 && p != q2 && s != v && s != q1 && s != q2 && v != q1 && v != q2 && q1 != q2
  {
    v := new TreeNode(ResVSource(0.0, RSource), []);
    q1 := new TreeNode(Resistor(R1), []);
    q2 := new TreeNode(Resistor(R2), []);
    rt := new TreeNode(NewRtype(2), [v, q1]);
    s := new TreeNode(NewSeries(), [v, q1]);
    p := new TreeNode(NewParallel(), [s, q2]);
  }

  /** The wdfTree part: a simple root over the switch, one subtree with
      entry P1, Rp one zero, the two parameters, the sample rate 44100. */
  method BuildTree(p: TreeNode, sw: RootNode) returns (t: WdfTree)
    requires p.Valid()
    ensures fresh(t) && fresh(t.root) && t.Valid()
    ensures t.subtreeEntryNodes == [p] && t.nodes == p.Repr()
    ensures t.root.kind.SimpleRoot? && t.root.rootElement == sw
    ensures t.params == InitialParams() && t.Rp == [0.0] && t.treeSampleRate == SampleRate
    ensures t.ascendingWaves == [] && t.descendingWaves == []
  {
    var r := new Root.Simple(sw);
    label Built:
    t := new WdfTree([p], r, [0.0], InitialParams());
    ReprOfAllocated@Built([p]);
    assert ReprOf([p]) == ReprOf([]) + p.Repr();
    t.SetSamplerate(SampleRate);
  }

  /** Wiring a divider does not depend on its source voltage. */
  lemma SourceKeepsWired(n: NodeVal, Vs: real)
    requires Divider(n) && Wired(n)
    ensures Wired(WithSource(n, Vs))
  {
    var r := WithSource(n, Vs);
    assert Wired(n.kids[0]) && Wired(n.kids[0].kids[0]) && Wired(n.kids[0].kids[1]) && Wired(n.kids[1]);
    assert Wired(r.kids[0].kids[0]);
    assert r.kids[0].kids[1] == n.kids[0].kids[1] && r.kids[1] == n.kids[1];
    assert Wired(r.kids[0]);
  }

  /** setParam(1, ratio) on an adapted divider: Res1 and Res2 resized,
      then the divider adapted again. */
  ghost function Retuned(n: NodeVal, ratio: real, T: real): (r: NodeVal)
    requires Divider(n) && Wired(n) && T > 0.0 && 0.0 < ratio < 1.0
    ensures Consistent(r, T) && Divider(r) && Source(r).elem == Source(n).elem
    ensures Upper(r).elem == Resistor(DividerSplit(ratio).0) && Lower(r).elem == Resistor(DividerSplit(ratio).1)
    ensures r.up.Rp == DividerRes(DividerSplit(ratio).0, DividerSplit(ratio).1)
  {
    var m := Resized(n, DividerSplit(ratio).0, DividerSplit(ratio).1);
    ResizeKeepsWired(n, DividerSplit(ratio).0, DividerSplit(ratio).1);
    PositiveDivider(m, T);
    AdaptDivider(m, T);
    AdaptOne(m, T)
  }

  /** Wiring a divider does not depend on Res1 and Res2. */
  lemma ResizeKeepsWired(n: NodeVal, r1: real, r2: real)
    requires Divider(n) && Wired(n)
    ensures Wired(Resized(n, r1, r2))
  {
    var r := Resized(n, r1, r2);
    assert Wired(n.kids[0]) && Wired(n.kids[0].kids[0]) && Wired(n.kids[0].kids[1]) && Wired(n.kids[1]);
    assert Wired(r.kids[0].kids[1]) && Wired(r.kids[1]);
    assert r.kids[0].kids[0] == n.kids[0].kids[0];
    assert Wired(r.kids[0]);
  }

  /** initTree gives the divider its ports and changes no component. */
  lemma PortsDivider(n: NodeVal)
    requires Divider(n) && Unported(n)
    ensures SameParts(n, WithPorts(n)) && Wired(WithPorts(n))
  {
    var w := WithPorts(n);
    assert Shaped(n.kids[0].kids[0]) && Shaped(n.kids[0].kids[1]) && Shaped(n.kids[1]);
    assert Shaped(n.kids[0]);
    assert w.kids[0] == WithPorts(n.kids[0]) && w.kids[1] == WithPorts(n.kids[1]);
    assert w.kids[0].kids[0] == WithPorts(n.kids[0].kids[0]);
    assert w.kids[0].kids[1] == WithPorts(n.kids[0].kids[1]);
  }

  // ---------------------------------------------------------------------
  // The tree object

  class SwitchTree {
    /** The wdfTree part of the object. */
    const tree: WdfTree
    const vres: TreeNode
    const res1: TreeNode
    const res2: TreeNode
    const s1: TreeNode
    const p1: TreeNode
    /** RT1: an R-type adaptor over Vres and Res1 that the constructor
        builds and never puts into the tree. */
    const rt1: TreeNode
    const sw1: RootNode

    /** The nodes hang together as the constructor joined them. */
    ghost predicate Linked()
    {
      tree.subtreeEntryNodes == [p1] && tree.SubtreesValid() &&
      tree.root.kind.SimpleRoot? && tree.root.rootElement == sw1 &&
      p1.children == [s1, res2] && s1.children == [vres, res1] &&
      vres.children == [] && res1.children == [] && res2.children == [] &&
      p1 != s1 && p1 != vres && p1 != res1 && p1 != res2 && s1 != vres && s1 != res1 && s1 != res2 &&
      vres != res1 && vres != res2 && res1 != res2
    }

    /** The subtree as a value, read off the five nodes. */
    ghost function Assembled(): NodeVal
      reads p1, s1, vres, res1, res2
    {
      NodeVal(p1.elem, p1.upPort, p1.downPorts,
        [NodeVal(s1.elem, s1.upPort, s1.downPorts, [LeafVal(vres), LeafVal(res1)]), LeafVal(res2)])
    }

    /** The attenuator as built: a divider under the switch; the switch
        follows parameter 0, Res1 and Res2 share R1 + R2 as parameter 1
        says. */
    ghost predicate Valid()
      reads tree, tree.root, tree.root.solver, p1, s1, vres, res1, res2, sw1
    {
      Linked() && tree.Valid() &&
      p1.elem.Parallel? && s1.elem.Series? &&
      vres.elem.ResVSource? && vres.elem.RSer == RSource &&
      |tree.params| == 2 && BoolValue(tree.params[0].value) == tree.params[0].value &&
      sw1.elem == Switch(SwitchFor(tree.params[0].value)) &&
      0.0 < tree.params[1].value < 1.0 &&
      res1.elem == Resistor(DividerSplit(tree.params[1].value).0) &&
      res2.elem == Resistor(DividerSplit(tree.params[1].value).1)
    }

    /** After initTree: the ports exist, Rp has its one entry, the period
        is positive. */
    ghost predicate Ready()
      reads tree, tree.root, tree.root.solver, p1, s1, vres, res1, res2, sw1
    {
      Valid() && |tree.Rp| == 1 && tree.T > 0.0 && Wired(Assembled())
    }

    /** After adaptTree: the subtree is adapted and the wave vectors have
        their one entry. */
    ghost predicate Tuned()
      reads tree, tree.root, tree.root.solver, p1, s1, vres, res1, res2, sw1
    {
      Ready() && Consistent(Assembled(), tree.T) &&
      |tree.ascendingWaves| == 1 && |tree.descendingWaves| == 1
    }

    /** The tree's one subtree is the assembled value. */
    lemma Assembly()
      requires Linked()
      ensures tree.Snaps() == [Assembled()]
    {
      assert tree.subtreeEntryNodes[0] == p1 && p1.Valid();
      assert p1.children[0] == s1 && p1.children[1] == res2;
      assert s1.children[0] == vres && s1.children[1] == res1;
      assert p1.KidSnaps(2) == [s1.Snap(), res2.Snap()];
      assert s1.KidSnaps(2) == [vres.Snap(), res1.Snap()];
      assert vres.KidSnaps(0) == [] && res1.KidSnaps(0) == [] && res2.KidSnaps(0) == [];
    }

    /** wdfSwitchTree(): the sample rate 44100; Vres (Vs 0, RSer 1), Res1
        and Res2 at R1 and R2; RT1 over Vres and Res1, left out of the
        tree; S1 = series(Vres, Res1), P1 = parallel(S1, Res2); the switch
        built open and then closed; one subtree with entry P1 under a simple
        root over the switch; Rp one zero; the two parameters. */
    constructor ()
      ensures Valid() && fresh(tree)
      ensures tree.params == InitialParams() && tree.Rp == [0.0] && tree.treeSampleRate == SampleRate
      ensures tree.ascendingWaves == [] && tree.descendingWaves == []
      ensures vres.elem == ResVSource(0.0, RSource) && res1.elem == Resistor(R1) && res2.elem == Resistor(R2)
      ensures s1.elem == NewSeries() && p1.elem == NewParallel() && sw1.elem == Switch(1)
      ensures rt1.elem == NewRtype(2) && rt1.children == [vres, res1]
      ensures Unported(Assembled())
    {
      var v, q1, q2, rt, s, p := BuildDivider();
      var sw := new RootNode.UnterminatedSwitch(0);
      sw.SetSwitch(1);
      var t := BuildTree(p, sw);
      tree, vres, res1, res2, s1, p1, rt1, sw1 := t, v, q1, q2, s, p, rt, sw;
    }

    /** getTreeIdentifier. */
    function GetTreeIdentifier(): string
    {
      TreeName
    }

    /** setInputValue: the new source voltage of Vres. */
    method SetInputValue(signalIn: real)
      requires Valid()
      modifies vres
      ensures Valid() && vres.elem == ResVSource(signalIn, RSource)
      ensures Assembled() == WithSource(old(Assembled()), signalIn)
      ensures old(Ready()) ==> Ready()
      ensures old(Tuned()) ==> Tuned()
    {
      vres.SetVoltage(signalIn);
      if old(Ready()) {
        SourceKeepsWired(old(Assembled()), signalIn);
      }
      if old(Tuned()) {
        SourceKeepsConsistent(old(Assembled()), signalIn, tree.T);
      }
    }

    /** getOutputValue: the voltage across Res1, negated. */
    function GetOutputValue(): (v: real)
      reads tree, tree.root, tree.root.solver, p1, s1, vres, res1, res2, sw1
      ensures Valid() ==> v == Output(Assembled())
    {
      -PortVoltage(res1.upPort)
    }
      /** setParam(paramID, paramValue). Parameter 0 stores paramValue as a
        bool and sets the switch to the negation: open (position 0) when the
        attenuator is on. Parameter 1 stores the ratio, splits R1 + R2
        between Res1 and Res2 and adapts the tree again. Any other ID
        changes nothing. */
    method SetParam(paramID: nat, paramValue: real)
      requires Valid()
      requires paramID == 1 ==> Ready() && 0.0 < paramValue < 1.0
      modifies tree`params, sw1, res1, res2, tree`Rp, tree.Nodes(), tree.root
      ensures Valid()
      ensures paramID == 0 ==>
        tree.params == old(tree.params)[0 := old(tree.params)[0].(value := BoolValue(paramValue))] &&
        sw1.Val() == old(sw1.Val()).(elem := Switch(SwitchFor(BoolValue(paramValue))))
      ensures paramID != 1 ==>
        Assembled() == old(Assembled()) && tree.Rp == old(tree.Rp) &&
        (old(Ready()) ==> Ready()) && (old(Tuned()) ==> Tuned())
      ensures paramID == 1 ==>
        tree.params == old(tree.params)[1 := old(tree.params)[1].(value := paramValue)] &&
        sw1.Val() == old(sw1.Val()) && Ready() && Consistent(Assembled(), tree.T) &&
        Assembled() == Retuned(old(Assembled()), paramValue, tree.T) &&
        tree.Rp == [DividerRes(DividerSplit(paramValue).0, DividerSplit(paramValue).1)]
      ensures paramID == 1 && |tree.ascendingWaves| == 1 && |tree.descendingWaves| == 1 ==> Tuned()
      ensures paramID > 1 ==> tree.params == old(tree.params) && sw1.Val() == old(sw1.Val())
    {
      if paramID == 0 {
        SetSwitchParam(paramValue);
      }
      if paramID == 1 {
        Resize(paramValue);
        Readapt();
      }
    }

    /** The attenuator on or off. */
    method SetSwitchParam(paramValue: real)
      requires Valid()
      modifies tree`params, sw1
      ensures Valid()
      ensures tree.params == old(tree.params)[0 := old(tree.params)[0].(value := BoolValue(paramValue))]
      ensures sw1.Val() == old(sw1.Val()).(elem := Switch(SwitchFor(BoolValue(paramValue))))
      ensures old(Ready()) ==> Ready()
      ensures old(Tuned()) ==> Tuned()
    {
      tree.params := tree.params[0 := tree.params[0].(value := BoolValue(paramValue))];
      sw1.SetSwitch(SwitchFor(tree.params[0].value));
    }

    /** The new ratio and the resistances it gives Res1 and Res2. */
    method Resize(ratio: real)
      requires Ready() && 0.0 < ratio < 1.0
      modifies tree`params, res1, res2
      ensures Ready()
      ensures tree.params == old(tree.params)[1 := old(tree.params)[1].(value := ratio)]
      ensures Assembled() == Resized(old(Assembled()), DividerSplit(ratio).0, DividerSplit(ratio).1)
    {
      tree.params := tree.params[1 := tree.params[1].(value := ratio)];
      res1.SetResistance(DividerSplit(ratio).0);
      res2.SetResistance(DividerSplit(ratio).1);
      ResizeKeepsWired(old(Assembled()), DividerSplit(ratio).0, DividerSplit(ratio).1);
    }

    /** adaptTree over the attenuator: the divider adapted, its port
        resistance in Rp. */
    method Readapt()
      requires Ready()
      modifies tree`Rp, tree.Nodes(), tree.root
      ensures Ready() && Consistent(Assembled(), tree.T)
      ensures Assembled() == AdaptOne(old(Assembled()), tree.T)
      ensures SameParts(old(Assembled()), Assembled())
      ensures tree.Rp == [DividerRes(res1.elem.R, res2.elem.R)]
    {
      Assembly();
      ghost var n0 := Assembled();
      PositiveDivider(n0, tree.T);
      AdaptDivider(n0, tree.T);
      var _ := tree.AdaptTree(SetRootMatrData);
      Assembly();
    }

    /** What the renderer does with a tree it has built: initTree, then
        adaptTree (the sample rate already set). */
    method Prepare()
      requires Valid() && Unported(Assembled()) && |tree.Rp| == 1 && tree.treeSampleRate > 0.0
      modifies tree`ascendingWaves, tree`descendingWaves, tree`Rp, tree.Nodes(), tree.root
      ensures Tuned()
      ensures SameParts(old(Assembled()), Assembled())
      ensures tree.Rp == [DividerRes(res1.elem.R, res2.elem.R)]
    {
      InitPorts();
      Readapt();
    }

    /** initTree over the attenuator: ports everywhere, components kept. */
    method InitPorts()
      requires Valid() && Unported(Assembled()) && |tree.Rp| == 1 && tree.treeSampleRate > 0.0
      modifies tree`ascendingWaves, tree`descendingWaves, tree.Nodes()
      ensures Ready() && SameParts(old(Assembled()), Assembled())
      ensures |tree.ascendingWaves| == 1 && |tree.descendingWaves| == 1
    {
      Assembly();
      ghost var n0 := Assembled();
      tree.InitTree();
      Assembly();
      PortsDivider(n0);
    }

    /** One sample as the renderer computes it: setInputValue, cycleWave,
        getOutputValue. With the switch closed the output is the voltage
        Res1 takes from the source through RSource + Res1; with it open,
        Res2 is in the loop too. */
    method ProcessSample(signalIn: real, num: Numerics) returns (out: real)
      requires Tuned()
      modifies vres, tree`ascendingWaves, tree`descendingWaves, tree.Nodes(), tree.root.Parts()
      ensures Tuned()
      ensures sw1.elem == old(sw1.elem) && res1.elem == old(res1.elem) && res2.elem == old(res2.elem)
      ensures vres.elem == ResVSource(signalIn, RSource)
      ensures Attenuates(out, signalIn)
    {
      SetInputValue(signalIn);
      Cycle(num);
      SampleOutput();
      out := GetOutputValue();
    }

    /** The output once a sample has gone round: the divider's closed
        forms for the two switch positions. */
    lemma SampleOutput()
      requires Valid() && Wired(Assembled()) && Laws(Assembled())
      requires if sw1.elem.position == 0 then Assembled().up.a == Assembled().up.b
        else Assembled().up.a == -Assembled().up.b
      ensures vres.elem.ResVSource? && res1.elem.Resistor? && res2.elem.Resistor?
      ensures Attenuates(GetOutputValue(), vres.elem.Vs)
    {
      DividerOutput(Assembled(), sw1.elem.position != 0);
    }

    /** out is what the attenuator makes of the input voltage Vs: with the
        switch closed, the share of Res1 in RSource + Res1; with it open,
        the share of Res1 in RSource + Res1 + Res2. */
    ghost predicate Attenuates(out: real, Vs: real)
      reads sw1, res1, res2
      requires res1.elem.Resistor? && res2.elem.Resistor?
    {
      var r1, r2 := res1.elem.R, res2.elem.R;
      if sw1.elem == Switch(0) then out * (RSource + r1 + r2) == Vs * r1
      else out * (RSource + r1) == Vs * r1
    }

    /** cycleWave over the attenuator: the components stay, every junction
        obeys its law, and the switch has answered the divider's wave. */
    method Cycle(num: Numerics)
      requires Tuned()
      modifies tree`ascendingWaves, tree`descendingWaves, tree.Nodes(), tree.root.Parts()
      ensures Tuned() && SameParts(old(Assembled()), Assembled()) && sw1.elem == old(sw1.elem)
      ensures vres.elem == old(vres.elem) && res1.elem == old(res1.elem) && res2.elem == old(res2.elem)
      ensures Laws(Assembled())
      ensures if sw1.elem.position == 0 then Assembled().up.a == Assembled().up.b
        else Assembled().up.a == -Assembled().up.b
    {
      Assembly();
      ghost var n0 := Assembled();
      ghost var d0 := tree.descendingWaves;
      ConsistentPushable(n0, tree.T);
      tree.CycleWave(num);
      Assembly();
      CycleAllLaws([n0], tree.descendingWaves, tree.T);
      CycleDivider(n0, tree.descendingWaves[0]);
    }
}
}
