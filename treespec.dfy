// The recursions of wdfTreeNode as functions on tree values: what
// adaptPorts, calculateScatterCoeffs, pullWaveUp, pushWaveDown and
// createPorts do to a whole subtree. The tree node class proves its methods
// against these; the lemmas here say what the passes achieve.

module TreeSpec {

  import opened LinAlg
  import opened Waves
  import opened Elements

  /** A node as a value: its element state, its up port, its down ports and
      its children, down port i facing child i. */
  datatype NodeVal = NodeVal(elem: Element, up: Port, down: seq<Port>, kids: seq<NodeVal>)

  /** Every node has the children its kind takes (what the constructors
      build). */
  predicate Shaped(n: NodeVal)
  {
    ElementFits(n.elem, |n.kids|) &&
    forall i :: 0 <= i < |n.kids| ==> Shaped(n.kids[i])
  }

  /** No node has down ports yet: the tree as its constructors leave it. */
  predicate Unported(n: NodeVal)
  {
    |n.down| == 0 && forall i :: 0 <= i < |n.kids| ==> Unported(n.kids[i])
  }

  /** Every node has one down port per child: the tree after createPorts. */
  predicate Wired(n: NodeVal)
  {
    ElementFits(n.elem, |n.kids|) && |n.down| == |n.kids| &&
    forall i :: 0 <= i < |n.kids| ==> Wired(n.kids[i])
  }

  /** Positive sample period and positive element parameters throughout. */
  predicate Positive(n: NodeVal, T: real)
  {
    PositiveElement(n.elem, T) &&
    forall i :: 0 <= i < |n.kids| ==> Positive(n.kids[i], T)
  }

  /** Every series node can reflect down (yl, yr nonzero). */
  predicate Pushable(n: NodeVal)
  {
    DownDefined(n.elem) &&
    forall i :: 0 <= i < |n.kids| ==> Pushable(n.kids[i])
  }

  /** After adaptPorts: each down port has the (positive) resistance of the
      child's up port and each up port the resistance its calculateUpRes
      gives for the period T. */
  predicate Adapted(n: NodeVal, T: real)
  {
    Wired(n) && PositiveElement(n.elem, T) &&
    (forall i :: 0 <= i < |n.kids| ==> n.down[i].Rp == n.kids[i].up.Rp && n.down[i].Rp > 0.0) &&
    UpResDefined(n.elem, n.down, T) && n.up.Rp == UpRes(n.elem, n.down, T) && n.up.Rp > 0.0 &&
    forall i :: 0 <= i < |n.kids| ==> Adapted(n.kids[i], T)
  }

  /** Every port resistance of the tree is positive. */
  predicate ResPositive(n: NodeVal)
  {
    n.up.Rp > 0.0 && (forall i :: 0 <= i < |n.down| ==> n.down[i].Rp > 0.0) &&
    forall i :: 0 <= i < |n.kids| ==> ResPositive(n.kids[i])
  }

  /** After calculateScatterCoeffs: every element holds the coefficients its
      calculateScatterCoeffs gives for the port resistances around it. */
  predicate Scattered(n: NodeVal)
    requires Wired(n)
  {
    ScatterDefined(n.elem, n.up.Rp, n.down) && n.elem == ScatterCoeffs(n.elem, n.up.Rp, n.down) &&
    forall i :: 0 <= i < |n.kids| ==> Scattered(n.kids[i])
  }

  /** After adaptPorts and calculateScatterCoeffs. */
  predicate Consistent(n: NodeVal, T: real)
  {
    Adapted(n, T) && Scattered(n)
  }

  /** r is n with other port resistances: elements, waves and shape agree. */
  predicate OnlyResistances(n: NodeVal, r: NodeVal)
  {
    r.elem == n.elem && r.up == n.up.(Rp := r.up.Rp) &&
    |r.down| == |n.down| && |r.kids| == |n.kids| &&
    (forall i :: 0 <= i < |n.down| ==> r.down[i] == n.down[i].(Rp := r.down[i].Rp)) &&
    forall i :: 0 <= i < |n.kids| ==> OnlyResistances(n.kids[i], r.kids[i])
  }

  /** r is n with other waves a and b: elements, resistances and shape
      agree. */
  predicate OnlyWaves(n: NodeVal, r: NodeVal)
  {
    r.elem == n.elem && r.up.Rp == n.up.Rp && SameRes(n.down, r.down) &&
    |r.kids| == |n.kids| &&
    forall i :: 0 <= i < |n.kids| ==> OnlyWaves(n.kids[i], r.kids[i])
  }

  /** The same port resistances, port by port. */
  predicate SameRes(d1: seq<Port>, d2: seq<Port>)
  {
    |d1| == |d2| && forall i :: 0 <= i < |d1| ==> d1[i].Rp == d2[i].Rp
  }

  // ---------------------------------------------------------------------
  // The passes

  /** createPorts: every node gets one fresh down port per child, appended
      to the ports it already has. */
  function WithPorts(n: NodeVal): (r: NodeVal)
    ensures r.elem == n.elem && r.up == n.up && |r.kids| == |n.kids|
    ensures r.down == n.down + seq(|n.kids|, i => NewPort)
    ensures Shaped(n) && Unported(n) ==> Wired(r)
  {
    NodeVal(n.elem, n.up, n.down + seq(|n.kids|, i => NewPort),
      seq(|n.kids|, i requires 0 <= i < |n.kids| => WithPorts(n.kids[i])))
  }

  /** adaptPorts: post-order; each down port takes its child's up port
      resistance, then the node computes its own. */
  function Adapt(n: NodeVal, T: real): (r: NodeVal)
    requires Wired(n) && Positive(n, T)
    ensures Adapted(r, T) && Positive(r, T)
  {
    var kids := seq(|n.kids|, i requires 0 <= i < |n.kids| => Adapt(n.kids[i], T));
    var down := seq(|n.down|, i requires 0 <= i < |n.down| => n.down[i].(Rp := kids[i].up.Rp));
    UpResPositive(n.elem, down, T);
    NodeVal(n.elem, n.up.(Rp := UpRes(n.elem, down, T)), down, kids)
  }

  /** calculateScatterCoeffs: pre-order; each node recomputes its
      coefficients from its port resistances, then its children do. */
  function Scatter(n: NodeVal): (r: NodeVal)
    requires Wired(n) && ResPositive(n)
    ensures Wired(r) && ResPositive(r) && Scattered(r)
  {
    ScatterDefinedWhenPositive(n.elem, n.up.Rp, n.down);
    ScatterCoeffsIdempotent(n.elem, n.up.Rp, n.down);
    NodeVal(ScatterCoeffs(n.elem, n.up.Rp, n.down), n.up, n.down,
      seq(|n.kids|, i requires 0 <= i < |n.kids| => Scatter(n.kids[i])))
  }

  /** pullWaveUp: post-order; each down port receives its child's reflected
      wave, then the node reflects its own up wave. */
  function Pull(n: NodeVal): (r: NodeVal)
    requires Wired(n)
    ensures Wired(r) && r.elem == n.elem && (Pushable(n) ==> Pushable(r))
  {
    var kids := seq(|n.kids|, i requires 0 <= i < |n.kids| => Pull(n.kids[i]));
    var down := seq(|n.down|, i requires 0 <= i < |n.down| => n.down[i].(a := kids[i].up.b));
    NodeVal(n.elem, n.up.(b := UpB(n.elem, down)), down, kids)
  }

  /** pushWaveDown: pre-order; the node takes the descending wave d on its
      up port, reflects its down waves and updates its state, then each
      child is pushed, in order, the wave its down port reflected. */
  function Push(n: NodeVal, d: real): (r: NodeVal)
    requires Wired(n) && Pushable(n)
    ensures Wired(r) && Pushable(r)
  {
    var down := DownWaves(n.elem, n.down, d);
    var kids := seq(|n.kids|, i requires 0 <= i < |n.kids| => Push(n.kids[i], down[i].b));
    NodeVal(NextState(n.elem, d), n.up.(a := d), down, kids)
  }

  // ---------------------------------------------------------------------
  // Node-level helpers

  /** Positive resistances leave no division by zero in
      calculateScatterCoeffs. */
  lemma ScatterDefinedWhenPositive(e: Element, Ru: real, down: seq<Port>)
    requires ElementFits(e, |down|) && Ru > 0.0
    requires forall i :: 0 <= i < |down| ==> down[i].Rp > 0.0
    ensures ScatterDefined(e, Ru, down)
  {
    if e.Parallel? {
      assert 1.0 / Ru > 0.0 && 1.0 / down[0].Rp > 0.0 && 1.0 / down[1].Rp > 0.0;
    }
  }

  /** New coefficients leave the node's kind, parameters and up port
      resistance as they were. */
  lemma ScatterKeepsResistances(e: Element, Ru: real, down: seq<Port>, T: real)
    requires ElementFits(e, |down|) && ScatterDefined(e, Ru, down)
    requires UpResDefined(e, down, T)
    ensures var c := ScatterCoeffs(e, Ru, down);
      UpResDefined(c, down, T) && UpRes(c, down, T) == UpRes(e, down, T) &&
      (PositiveElement(e, T) ==> PositiveElement(c, T))
  {
  }

  /** Node formulas read the down ports' resistances only, not their waves. */
  lemma ResistancesOnly(e: Element, Ru: real, d1: seq<Port>, d2: seq<Port>, T: real)
    requires ElementFits(e, |d1|) && SameRes(d1, d2)
    ensures UpResDefined(e, d1, T) == UpResDefined(e, d2, T)
    ensures UpResDefined(e, d1, T) ==> UpRes(e, d1, T) == UpRes(e, d2, T)
    ensures ScatterDefined(e, Ru, d1) == ScatterDefined(e, Ru, d2)
    ensures ScatterDefined(e, Ru, d1) ==> ScatterCoeffs(e, Ru, d1) == ScatterCoeffs(e, Ru, d2)
  {
  }

  /** A leaf's new delayed wave changes none of its node formulas. */
  lemma NextStateKeepsNode(e: Element, Ru: real, down: seq<Port>, T: real, d: real)
    requires ElementFits(e, |down|)
    ensures var e' := NextState(e, d);
      ElementFits(e', |down|) &&
      UpResDefined(e', down, T) == UpResDefined(e, down, T) &&
      (UpResDefined(e, down, T) ==> UpRes(e', down, T) == UpRes(e, down, T)) &&
      PositiveElement(e', T) == PositiveElement(e, T) &&
      ScatterDefined(e', Ru, down) == ScatterDefined(e, Ru, down) &&
      (ScatterDefined(e, Ru, down) && e == ScatterCoeffs(e, Ru, down) ==> e' == ScatterCoeffs(e', Ru, down)) &&
      DownDefined(e') == DownDefined(e)
  {
  }

  // ---------------------------------------------------------------------
  // What the passes achieve

  /** The law every junction of a tree obeys after one sample: its own
      junction law, and across every connection the down port and the
      child's up port form a joined pair (what leaves one enters the other,
      at the same resistance). */
  predicate Laws(q: NodeVal)
    requires Wired(q)
  {
    JunctionLaws(q.elem, q.up, q.down) &&
    (forall i :: 0 <= i < |q.kids| ==> Joined(q.down[i], q.kids[i].up)) &&
    forall i :: 0 <= i < |q.kids| ==> Laws(q.kids[i])
  }

  /** adaptPorts changes port resistances only. */
  lemma {:induction false} AdaptOnlyResistances(n: NodeVal, T: real)
    requires Wired(n) && Positive(n, T)
    ensures OnlyResistances(n, Adapt(n, T))
  {
    forall i | 0 <= i < |n.kids|
      ensures OnlyResistances(n.kids[i], Adapt(n, T).kids[i])
    {
      AdaptOnlyResistances(n.kids[i], T);
    }
  }

  /** pullWaveUp changes waves only. */
  lemma {:induction false} PullOnlyWaves(n: NodeVal)
    requires Wired(n)
    ensures OnlyWaves(n, Pull(n))
  {
    forall i | 0 <= i < |n.kids|
      ensures OnlyWaves(n.kids[i], Pull(n).kids[i])
    {
      PullOnlyWaves(n.kids[i]);
    }
  }

  /** adaptTree's two passes: adapting a tree of positive elements and then
      computing its coefficients leaves it consistent - every port
      resistance matched across each connection and every coefficient
      computed from the resistances it now has. */
  lemma {:induction false} AdaptThenScatter(n: NodeVal, T: real)
    requires Wired(n) && Positive(n, T)
    ensures ResPositive(Adapt(n, T))
    ensures Consistent(Scatter(Adapt(n, T)), T)
  {
    AdaptedResPositive(Adapt(n, T), T);
    ScatterKeepsAdapted(Adapt(n, T), T);
  }

  lemma {:induction false} AdaptedResPositive(n: NodeVal, T: real)
    requires Adapted(n, T)
    ensures ResPositive(n)
  {
    forall i | 0 <= i < |n.kids|
      ensures ResPositive(n.kids[i])
    {
      AdaptedResPositive(n.kids[i], T);
    }
  }

  /** New coefficients do not disturb adaptation. */
  lemma {:induction false} ScatterKeepsAdapted(n: NodeVal, T: real)
    requires Adapted(n, T) && ResPositive(n)
    ensures Adapted(Scatter(n), T)
  {
    var r := Scatter(n);
    ScatterDefinedWhenPositive(n.elem, n.up.Rp, n.down);
    ScatterKeepsResistances(n.elem, n.up.Rp, n.down, T);
    forall i | 0 <= i < |n.kids|
      ensures Adapted(r.kids[i], T) && r.kids[i].up == n.kids[i].up
    {
      ScatterKeepsAdapted(n.kids[i], T);
    }
  }

  /** An adapted tree has nonzero series coefficients, so it can be pushed. */
  lemma {:induction false} ConsistentPushable(n: NodeVal, T: real)
    requires Consistent(n, T)
    ensures Pushable(n)
  {
    if n.elem.Series? {
      SeriesAdapted(n.elem, n.down, T);
    }
    forall i | 0 <= i < |n.kids|
      ensures Pushable(n.kids[i])
    {
      ConsistentPushable(n.kids[i], T);
    }
  }

  /** pullWaveUp changes only waves, so an adapted tree stays adapted. */
  lemma {:induction false} PullKeepsConsistent(n: NodeVal, T: real)
    requires Consistent(n, T)
    ensures Consistent(Pull(n), T)
  {
    var p := Pull(n);
    PullOnlyWaves(n);
    ResistancesOnly(n.elem, n.up.Rp, n.down, p.down, T);
    forall i | 0 <= i < |n.kids|
      ensures Consistent(p.kids[i], T) && p.down[i].Rp == p.kids[i].up.Rp
    {
      PullKeepsConsistent(n.kids[i], T);
    }
  }

  /** pushWaveDown changes only waves and delayed waves, so an adapted
      tree stays adapted. */
  lemma {:induction false} PushKeepsConsistent(n: NodeVal, T: real, d: real)
    requires Consistent(n, T)
    ensures Pushable(n)
    ensures Consistent(Push(n, d), T)
  {
    ConsistentPushable(n, T);
    var q := Push(n, d);
    NextStateKeepsNode(n.elem, n.up.Rp, n.down, T, d);
    assert SameRes(n.down, q.down);
    ResistancesOnly(q.elem, n.up.Rp, n.down, q.down, T);
    forall i | 0 <= i < |n.kids|
      ensures Consistent(q.kids[i], T) && q.down[i].Rp == q.kids[i].up.Rp
    {
      PushKeepsConsistent(n.kids[i], T, q.down[i].b);
    }
  }

  /** One sample through an adapted tree: pull every wave up, take any
      descending wave d at the top, push everything down. Afterwards every
      junction obeys its law (series: one current, voltages summing to
      zero; parallel: one voltage, currents summing to zero; ...) and every
      connection is a joined pair. */
  lemma {:induction false} CycleLaws(n: NodeVal, T: real, d: real)
    requires Consistent(n, T)
    ensures Pushable(Pull(n))
    ensures Laws(Push(Pull(n), d))
  {
    var p := Pull(n);
    PullKeepsConsistent(n, T);
    ConsistentPushable(p, T);
    var q := Push(p, d);
    NodeLaws(p.elem, p.up, p.down, T, d);
    assert JunctionLaws(q.elem, q.up, q.down);
    forall i | 0 <= i < |q.kids|
      ensures Joined(q.down[i], q.kids[i].up) && Laws(q.kids[i])
    {
      CycleLaws(n.kids[i], T, q.down[i].b);
    }
  }
}
