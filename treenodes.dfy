// wdfTreeNode: one node object of a scattering tree. Its element state and
// its ports change in place; its children are fixed when it is built. Every
// recursive method is proved against the function on tree values that
// specifies it: the method's loop over the children is a method of its own,
// one pass of that loop another, so that each proof stays small.

module TreeNodes {

  import opened Waves
  import opened Elements
  import opened TreeSpec

  class TreeNode {
    /** The kind of node with the state its class keeps (yu/yl/yr,
        du/dl/dr, S, prevA, R, Vs, ...). */
    var elem: Element
    var upPort: Port
    /** One port per child once createPorts has run; port i faces child i. */
    var downPorts: seq<Port>
    /** childrenNodes, fixed by the constructor. */
    const children: seq<TreeNode>
    /** parentNode, set by the parent's setParentInChildren. */
    var parentNode: TreeNode?
    /** The node on the other side of the up port (the connectedNode of the
        up port), set by the parent's createPorts. */
    var upConnected: TreeNode?
    /** Every node object strictly below this one. */
    ghost const Below: set<TreeNode>

    /** The children form a tree: each child is below this node, and the
        subtrees of different children share no object. */
    ghost predicate Valid()
      decreases Below
    {
      this !in Below &&
      (forall i :: 0 <= i < |children| ==> children[i] in Below && children[i].Below < Below) &&
      (forall i :: 0 <= i < |children| ==> children[i].Valid()) &&
      (forall i, j :: 0 <= i < j < |children| ==> children[i].Repr() !! children[j].Repr())
    }

    ghost function Repr(): set<TreeNode>
    {
      {this} + Below
    }

    /** The subtree as a value: elements, ports and shape, not the links
        back up. */
    ghost function Snap(): NodeVal
      reads Repr()`elem, Repr()`upPort, Repr()`downPorts
      requires Valid()
      decreases Below, 1
    {
      NodeVal(elem, upPort, downPorts, KidSnaps(|children|))
    }

    ghost function KidSnaps(k: nat): (r: seq<NodeVal>)
      reads Below`elem, Below`upPort, Below`downPorts
      requires Valid() && k <= |children|
      ensures |r| == k && forall j :: 0 <= j < k ==> r[j] == children[j].Snap()
      decreases Below, 0, k
    {
      if k == 0 then [] else KidSnaps(k - 1) + [children[k - 1].Snap()]
    }

    /** Every child below this node knows its parent. */
    ghost predicate Parented()
      reads Repr()`parentNode
      requires Valid()
      decreases Below
    {
      forall i :: 0 <= i < |children| ==>
        children[i].parentNode == this && children[i].Parented()
    }

    /** Every child below this node has its up port connected to its
        parent. */
    ghost predicate Connected()
      reads Repr()`upConnected
      requires Valid()
      decreases Below
    {
      forall i :: 0 <= i < |children| ==>
        children[i].upConnected == this && children[i].Connected()
    }

    /** The constructors of the node classes: the given children, a fresh
        up port connected to nothing, no down ports yet. */
    constructor (e: Element, kids: seq<TreeNode>)
      requires forall i :: 0 <= i < |kids| ==> kids[i].Valid()
      requires forall i, j :: 0 <= i < j < |kids| ==> kids[i].Repr() !! kids[j].Repr()
      ensures Valid() && Below == ReprOf(kids)
      ensures elem == e && children == kids && upPort == NewPort && downPorts == []
      ensures upConnected == null
    {
      elem := e;
      children := kids;
      upPort := NewPort;
      downPorts := [];
      upConnected := null;
      Below := ReprOf(kids);
      new;
      ReprOfAllocated(kids);
    }

    // -------------------------------------------------------------------
    // setParentInChildren

    /** setParentInChildren: every node below learns its parent; the tree
        value is untouched. */
    method SetParentInChildren()
      requires Valid()
      modifies Below
      ensures Snap() == old(Snap()) && Parented()
      decreases Below, 2
    {
      ghost var s0 := Snap();
      SetParents(s0);
      assert KidSnaps(|children|) == s0.kids;
    }

    /** The loop of setParentInChildren after i children. */
    ghost predicate ParentsUpTo(i: nat, s0: NodeVal)
      reads Repr()`elem, Repr()`upPort, Repr()`downPorts, Repr()`parentNode
      requires Valid()
    {
      i <= |children| && |s0.kids| == |children| &&
      (forall j :: 0 <= j < i ==>
         children[j].Snap() == s0.kids[j] && children[j].parentNode == this && children[j].Parented()) &&
      (forall j :: i <= j < |children| ==> children[j].Snap() == s0.kids[j])
    }

    method SetParents(ghost s0: NodeVal)
      requires Valid() && s0.kids == KidSnaps(|children|)
      modifies Below
      ensures ParentsUpTo(|children|, s0)
      decreases Below, 1
    {
      var i := 0;
      while i < |children|
        invariant 0 <= i <= |children|
        invariant ParentsUpTo(i, s0)
      {
        SetParent(i, s0);
        i := i + 1;
      }
    }

    method SetParent(i: nat, ghost s0: NodeVal)
      requires Valid() && i < |children| && ParentsUpTo(i, s0)
      modifies Below
      ensures ParentsUpTo(i + 1, s0)
      decreases Below, 0
    {
      label Before:
      children[i].parentNode := this;
      children[i].SetParentInChildren();
      OthersKept@Before(i);
    }

    // -------------------------------------------------------------------
    // createPorts

    /** createPorts: every node appends one new port per child, facing that
        child, and the child's up port is connected back to it. The links to
        parents are left as they were. */
    method CreatePorts()
      requires Valid()
      modifies Repr()
      ensures Snap() == WithPorts(old(Snap())) && Connected()
      ensures upConnected == old(upConnected)
      ensures old(Parented()) ==> Parented()
      ensures parentNode == old(parentNode)
      decreases Below, 3
    {
      ghost var s0 := Snap();
      ghost var p0 := Parented();
      AddPorts(s0, p0);
      PortsAll(s0);
    }

    /** The loop of createPorts after i children: this node's own fields. */
    ghost predicate PortsOwn(i: nat, s0: NodeVal)
      reads this
    {
      elem == s0.elem && upPort == s0.up &&
      |downPorts| == |s0.down| + i && downPorts[..|s0.down|] == s0.down &&
      forall k :: |s0.down| <= k < |downPorts| ==> downPorts[k] == NewPort
    }

    /** The loop of createPorts after i children: the child subtrees. */
    ghost predicate PortsKids(i: nat, s0: NodeVal)
      reads Below
      requires Valid()
    {
      i <= |children| && |s0.kids| == |children| &&
      (forall j :: 0 <= j < i ==>
         children[j].Snap() == WithPorts(s0.kids[j]) &&
         children[j].upConnected == this && children[j].Connected()) &&
      (forall j :: i <= j < |children| ==> children[j].Snap() == s0.kids[j])
    }

    method AddPorts(ghost s0: NodeVal, ghost p0: bool)
      requires Valid() && s0 == Snap() && p0 == Parented()
      modifies Repr()
      ensures PortsOwn(|children|, s0) && PortsKids(|children|, s0)
      ensures p0 ==> Parented()
      ensures upConnected == old(upConnected) && parentNode == old(parentNode)
      decreases Below, 2
    {
      var i := 0;
      while i < |children|
        invariant 0 <= i <= |children|
        invariant PortsOwn(i, s0) && PortsKids(i, s0)
        invariant p0 ==> Parented()
        invariant upConnected == old(upConnected) && parentNode == old(parentNode)
      {
        AddPort(i, s0, p0);
        i := i + 1;
      }
    }

    method AddPort(i: nat, ghost s0: NodeVal, ghost p0: bool)
      requires Valid() && i < |children| && PortsOwn(i, s0) && PortsKids(i, s0)
      requires p0 ==> Parented()
      modifies Repr()
      ensures PortsOwn(i + 1, s0) && PortsKids(i + 1, s0)
      ensures p0 ==> Parented()
      ensures upConnected == old(upConnected) && parentNode == old(parentNode)
      decreases Below, 1
    {
      downPorts := downPorts + [NewPort];
      ConnectChild(i, s0, p0);
    }

    /** The rest of one pass of createPorts: child i is connected back to
        this node and creates its own ports. */
    method ConnectChild(i: nat, ghost s0: NodeVal, ghost p0: bool)
      requires Valid() && i < |children| && PortsKids(i, s0)
      requires p0 ==> Parented()
      modifies Below
      ensures PortsKids(i + 1, s0)
      ensures p0 ==> Parented()
      decreases Below, 0
    {
      label Before:
      children[i].upConnected := this;
      children[i].CreatePorts();
      OthersKept@Before(i);
    }

    lemma PortsAll(s0: NodeVal)
      requires Valid() && PortsOwn(|children|, s0) && PortsKids(|children|, s0)
      ensures Snap() == WithPorts(s0)
    {
      var w := WithPorts(s0);
      assert downPorts == w.down;
      assert KidSnaps(|children|) == w.kids;
    }

    // -------------------------------------------------------------------
    // adaptPorts

    /** adaptPorts: each down port takes the resistance its child adapts
        to, in child order, then the node computes its own up port
        resistance for the period T and returns it. No link to a parent
        changes. */
    method AdaptPorts(T: real) returns (rp: real)
      requires Valid() && Wired(Snap()) && Positive(Snap(), T)
      modifies Repr()`elem, Repr()`upPort, Repr()`downPorts
      ensures Snap() == Adapt(old(Snap()), T)
      ensures rp == upPort.Rp
      ensures Parented() == old(Parented()) && Connected() == old(Connected())
      decreases Below, 4
    {
      rp := AdaptNode(T);
      LinksKept();
    }

    /** The passes of adaptPorts over the subtree. */
    method AdaptNode(T: real) returns (rp: real)
      requires Valid() && Wired(Snap()) && Positive(Snap(), T)
      modifies Repr()`elem, Repr()`upPort, Repr()`downPorts
      ensures Snap() == Adapt(old(Snap()), T)
      ensures rp == upPort.Rp
      decreases Below, 3
    {
      ghost var s0 := Snap();
      AdaptStart(T);
      AdaptChildren(s0, T);
      AdaptedAll(s0, T);
      label Written:
      upPort := upPort.(Rp := CalculateUpRes(T));
      KidsKept@Written();
      rp := upPort.Rp;
    }

    /** The loop of adaptPorts after i children: this node's down ports. */
    ghost predicate AdaptedOwn(i: nat, s0: NodeVal, T: real)
      reads this
    {
      Wired(s0) && Positive(s0, T) && |s0.kids| == |children| &&
      elem == s0.elem && upPort == s0.up && |downPorts| == |children| && i <= |children| &&
      (forall j :: 0 <= j < i ==> downPorts[j] == s0.down[j].(Rp := Adapt(s0.kids[j], T).up.Rp)) &&
      (forall j :: i <= j < |children| ==> downPorts[j] == s0.down[j])
    }

    /** The loop of adaptPorts after i children: the child subtrees. */
    ghost predicate AdaptedKids(i: nat, s0: NodeVal, T: real)
      reads Below
      requires Valid()
    {
      Wired(s0) && Positive(s0, T) && |s0.kids| == |children| && i <= |children| &&
      (forall j :: 0 <= j < i ==> children[j].Snap() == Adapt(s0.kids[j], T)) &&
      (forall j :: i <= j < |children| ==> children[j].Snap() == s0.kids[j])
    }

    method AdaptChildren(ghost s0: NodeVal, T: real)
      requires Valid() && AdaptedOwn(0, s0, T) && AdaptedKids(0, s0, T)
      modifies Repr()`elem, Repr()`upPort, Repr()`downPorts
      ensures AdaptedOwn(|children|, s0, T) && AdaptedKids(|children|, s0, T)
      decreases Below, 2
    {
      var i := 0;
      while i < |children|
        invariant 0 <= i <= |children|
        invariant AdaptedOwn(i, s0, T) && AdaptedKids(i, s0, T)
      {
        AdaptChild(i, s0, T);
        i := i + 1;
      }
    }

    /** One pass of adaptPorts' loop. */
    method AdaptChild(i: nat, ghost s0: NodeVal, T: real)
      requires Valid() && i < |children| && AdaptedOwn(i, s0, T) && AdaptedKids(i, s0, T)
      modifies Repr()`elem, Repr()`upPort, Repr()`downPorts
      ensures AdaptedOwn(i + 1, s0, T) && AdaptedKids(i + 1, s0, T)
      decreases Below, 1
    {
      var rp := AdaptKid(i, s0, T);
      downPorts := downPorts[i := downPorts[i].(Rp := rp)];
    }

    /** Child i adapts and reports its up port resistance. */
    method AdaptKid(i: nat, ghost s0: NodeVal, T: real) returns (rp: real)
      requires Valid() && i < |children| && AdaptedKids(i, s0, T)
      modifies Below`elem, Below`upPort, Below`downPorts
      ensures AdaptedKids(i + 1, s0, T) && rp == Adapt(s0.kids[i], T).up.Rp
      decreases Below, 0
    {
      label Before:
      rp := children[i].AdaptPorts(T);
      OthersKept@Before(i);
    }

    lemma AdaptStart(T: real)
      requires Valid() && Wired(Snap()) && Positive(Snap(), T)
      ensures AdaptedOwn(0, Snap(), T) && AdaptedKids(0, Snap(), T)
    {
    }

    lemma AdaptedAll(s0: NodeVal, T: real)
      requires Valid() && AdaptedOwn(|children|, s0, T) && AdaptedKids(|children|, s0, T)
      ensures ElementFits(elem, |downPorts|) && UpResDefined(elem, downPorts, T)
      ensures Adapt(s0, T) == NodeVal(elem, upPort.(Rp := UpRes(elem, downPorts, T)), downPorts, KidSnaps(|children|))
    {
      var A := Adapt(s0, T);
      assert downPorts == A.down;
      assert KidSnaps(|children|) == A.kids;
    }

    /** calculateUpRes of the node's kind for the period T. */
    function CalculateUpRes(T: real): real
      reads this
      requires ElementFits(elem, |downPorts|) && UpResDefined(elem, downPorts, T)
    {
      UpRes(elem, downPorts, T)
    }

    // -------------------------------------------------------------------
    // calculateScatterCoeffs

    /** calculateScatterCoeffs: the node recomputes its coefficients from
        the resistances of its ports, then every child does, in order. No link to a parent
        changes. */
    method CalculateScatterCoeffs()
      requires Valid() && Wired(Snap()) && ResPositive(Snap())
      modifies Repr()`elem, Repr()`upPort, Repr()`downPorts
      ensures Snap() == Scatter(old(Snap()))
      ensures Parented() == old(Parented()) && Connected() == old(Connected())
      decreases Below, 3
    {
      ScatterNode();
      LinksKept();
    }

    /** The passes of calculateScatterCoeffs over the subtree. */
    method ScatterNode()
      requires Valid() && Wired(Snap()) && ResPositive(Snap())
      modifies Repr()`elem, Repr()`upPort, Repr()`downPorts
      ensures Snap() == Scatter(old(Snap()))
      decreases Below, 2
    {
      ghost var s0 := Snap();
      ScatterStart();
      ScatterDefinedWhenPositive(elem, upPort.Rp, downPorts);
      elem := ScatterCoeffs(elem, upPort.Rp, downPorts);
      ScatterChildren(s0);
      ScatteredAll(s0);
    }

    /** The loop of calculateScatterCoeffs after i children. */
    ghost predicate ScatteredKids(i: nat, s0: NodeVal)
      reads Below
      requires Valid()
    {
      Wired(s0) && ResPositive(s0) && |s0.kids| == |children| && i <= |children| &&
      (forall j :: 0 <= j < i ==> children[j].Snap() == Scatter(s0.kids[j])) &&
      (forall j :: i <= j < |children| ==> children[j].Snap() == s0.kids[j])
    }

    method ScatterChildren(ghost s0: NodeVal)
      requires Valid() && ScatteredKids(0, s0)
      modifies Below`elem, Below`upPort, Below`downPorts
      ensures ScatteredKids(|children|, s0)
      decreases Below, 1
    {
      var i := 0;
      while i < |children|
        invariant 0 <= i <= |children|
        invariant ScatteredKids(i, s0)
      {
        ScatterChild(i, s0);
        i := i + 1;
      }
    }

    /** One pass of calculateScatterCoeffs' loop. */
    method ScatterChild(i: nat, ghost s0: NodeVal)
      requires Valid() && i < |children| && ScatteredKids(i, s0)
      modifies Below`elem, Below`upPort, Below`downPorts
      ensures ScatteredKids(i + 1, s0)
      decreases Below, 0
    {
      label Before:
      children[i].CalculateScatterCoeffs();
      OthersKept@Before(i);
    }

    lemma ScatterStart()
      requires Valid() && Wired(Snap()) && ResPositive(Snap())
      ensures ScatteredKids(0, Snap())
    {
    }

    lemma ScatteredAll(s0: NodeVal)
      requires Valid() && ScatteredKids(|children|, s0)
      requires ScatterDefined(s0.elem, s0.up.Rp, s0.down)
      requires elem == ScatterCoeffs(s0.elem, s0.up.Rp, s0.down) && upPort == s0.up && downPorts == s0.down
      ensures Snap() == Scatter(s0)
    {
      assert KidSnaps(|children|) == Scatter(s0).kids;
    }

    // -------------------------------------------------------------------
    // pullWaveUp

    /** pullWaveUp: each down port receives the wave its child reflects, in
        child order, then the node reflects its own up wave and returns it. No link
        to a parent changes. */
    method PullWaveUp() returns (b: real)
      requires Valid() && Wired(Snap())
      modifies Repr()`elem, Repr()`upPort, Repr()`downPorts
      ensures Snap() == Pull(old(Snap()))
      ensures b == upPort.b
      ensures Parented() == old(Parented()) && Connected() == old(Connected())
      decreases Below, 4
    {
      b := PullNode();
      LinksKept();
    }

    /** The passes of pullWaveUp over the subtree. */
    method PullNode() returns (b: real)
      requires Valid() && Wired(Snap())
      modifies Repr()`elem, Repr()`upPort, Repr()`downPorts
      ensures Snap() == Pull(old(Snap()))
      ensures b == upPort.b
      decreases Below, 3
    {
      ghost var s0 := Snap();
      PullStart();
      PullChildren(s0);
      PulledAll(s0);
      label Written:
      upPort := upPort.(b := CalculateUpB());
      KidsKept@Written();
      b := upPort.b;
    }

    /** The loop of pullWaveUp after i children: this node's down ports. */
    ghost predicate PulledOwn(i: nat, s0: NodeVal)
      reads this
    {
      Wired(s0) && |s0.kids| == |children| &&
      elem == s0.elem && upPort == s0.up && |downPorts| == |children| && i <= |children| &&
      (forall j :: 0 <= j < i ==> downPorts[j] == s0.down[j].(a := Pull(s0.kids[j]).up.b)) &&
      (forall j :: i <= j < |children| ==> downPorts[j] == s0.down[j])
    }

    /** The loop of pullWaveUp after i children: the child subtrees. */
    ghost predicate PulledKids(i: nat, s0: NodeVal)
      reads Below
      requires Valid()
    {
      Wired(s0) && |s0.kids| == |children| && i <= |children| &&
      (forall j :: 0 <= j < i ==> children[j].Snap() == Pull(s0.kids[j])) &&
      (forall j :: i <= j < |children| ==> children[j].Snap() == s0.kids[j])
    }

    method PullChildren(ghost s0: NodeVal)
      requires Valid() && PulledOwn(0, s0) && PulledKids(0, s0)
      modifies Repr()`elem, Repr()`upPort, Repr()`downPorts
      ensures PulledOwn(|children|, s0) && PulledKids(|children|, s0)
      decreases Below, 2
    {
      var i := 0;
      while i < |children|
        invariant 0 <= i <= |children|
        invariant PulledOwn(i, s0) && PulledKids(i, s0)
      {
        PullChild(i, s0);
        i := i + 1;
      }
    }

    /** One pass of pullWaveUp's loop. */
    method PullChild(i: nat, ghost s0: NodeVal)
      requires Valid() && i < |children| && PulledOwn(i, s0) && PulledKids(i, s0)
      modifies Repr()`elem, Repr()`upPort, Repr()`downPorts
      ensures PulledOwn(i + 1, s0) && PulledKids(i + 1, s0)
      decreases Below, 1
    {
      var a := PullKid(i, s0);
      downPorts := downPorts[i := downPorts[i].(a := a)];
    }

    /** Child i is pulled and reports the wave it reflects. */
    method PullKid(i: nat, ghost s0: NodeVal) returns (a: real)
      requires Valid() && i < |children| && PulledKids(i, s0)
      modifies Below`elem, Below`upPort, Below`downPorts
      ensures PulledKids(i + 1, s0) && a == Pull(s0.kids[i]).up.b
      decreases Below, 0
    {
      label Before:
      a := children[i].PullWaveUp();
      OthersKept@Before(i);
    }

    lemma PullStart()
      requires Valid() && Wired(Snap())
      ensures PulledOwn(0, Snap()) && PulledKids(0, Snap())
    {
    }

    lemma PulledAll(s0: NodeVal)
      requires Valid() && PulledOwn(|children|, s0) && PulledKids(|children|, s0)
      ensures ElementFits(elem, |downPorts|)
      ensures Pull(s0) == NodeVal(elem, upPort.(b := UpB(elem, downPorts)), downPorts, KidSnaps(|children|))
    {
      var P := Pull(s0);
      assert downPorts == P.down;
      assert KidSnaps(|children|) == P.kids;
    }

    /** calculateUpB of the node's kind. */
    function CalculateUpB(): real
      reads this
      requires ElementFits(elem, |downPorts|)
    {
      UpB(elem, downPorts)
    }

    // -------------------------------------------------------------------
    // pushWaveDown

    /** pushWaveDown: the node takes the descending wave d on its up port
        and reflects its down waves (updating its delayed wave), then every
        child is pushed, in order, the wave its down port reflected. No
        link to a parent changes. */
    method PushWaveDown(d: real)
      requires Valid() && Wired(Snap()) && Pushable(Snap())
      modifies Repr()`elem, Repr()`upPort, Repr()`downPorts
      ensures Snap() == Push(old(Snap()), d)
      ensures Parented() == old(Parented()) && Connected() == old(Connected())
      decreases Below, 3
    {
      PushNode(d);
      LinksKept();
    }

    /** The passes of pushWaveDown over the subtree. */
    method PushNode(d: real)
      requires Valid() && Wired(Snap()) && Pushable(Snap())
      modifies Repr()`elem, Repr()`upPort, Repr()`downPorts
      ensures Snap() == Push(old(Snap()), d)
      decreases Below, 2
    {
      ghost var s0 := Snap();
      PushStart(d);
      upPort := upPort.(a := d);
      CalculateDownB(d);
      PushChildren(s0, d);
      PushedAll(s0, d);
    }

    /** calculateDownB of the node's kind: the down ports' reflected waves
        and, for a capacitor or an inductor, the delayed wave. */
    method CalculateDownB(d: real)
      requires ElementFits(elem, |downPorts|) && DownDefined(elem)
      modifies this`elem, this`downPorts
      ensures elem == NextState(old(elem), d)
      ensures downPorts == DownWaves(old(elem), old(downPorts), d)
      ensures upPort == old(upPort)
    {
      downPorts := DownWaves(elem, downPorts, d);
      elem := NextState(elem, d);
    }

    /** The loop of pushWaveDown after i children. */
    ghost predicate PushedKids(i: nat, s0: NodeVal, d: real)
      reads Below
      requires Valid()
    {
      Wired(s0) && Pushable(s0) && |s0.kids| == |children| && i <= |children| &&
      (forall j :: 0 <= j < i ==> children[j].Snap() == Push(s0.kids[j], DownWaves(s0.elem, s0.down, d)[j].b)) &&
      (forall j :: i <= j < |children| ==> children[j].Snap() == s0.kids[j])
    }

    method PushChildren(ghost s0: NodeVal, d: real)
      requires Valid() && PushedKids(0, s0, d)
      requires downPorts == DownWaves(s0.elem, s0.down, d)
      modifies Below`elem, Below`upPort, Below`downPorts
      ensures PushedKids(|children|, s0, d)
      decreases Below, 1
    {
      var i := 0;
      while i < |children|
        invariant 0 <= i <= |children|
        invariant PushedKids(i, s0, d)
      {
        PushChild(i, s0, d);
        i := i + 1;
      }
    }

    /** One pass of pushWaveDown's loop. */
    method PushChild(i: nat, ghost s0: NodeVal, d: real)
      requires Valid() && i < |children| && PushedKids(i, s0, d)
      requires downPorts == DownWaves(s0.elem, s0.down, d)
      modifies Below`elem, Below`upPort, Below`downPorts
      ensures PushedKids(i + 1, s0, d)
      decreases Below, 0
    {
      label Before:
      children[i].PushWaveDown(downPorts[i].b);
      OthersKept@Before(i);
    }

    lemma PushStart(d: real)
      requires Valid() && Wired(Snap()) && Pushable(Snap())
      ensures PushedKids(0, Snap(), d)
      ensures ElementFits(elem, |downPorts|) && DownDefined(elem)
    {
    }

    lemma PushedAll(s0: NodeVal, d: real)
      requires Valid() && PushedKids(|children|, s0, d)
      requires elem == NextState(s0.elem, d) && upPort == s0.up.(a := d)
      requires downPorts == DownWaves(s0.elem, s0.down, d)
      ensures Snap() == Push(s0, d)
    {
      assert KidSnaps(|children|) == Push(s0, d).kids;
    }

    // -------------------------------------------------------------------
    // Element parameters set from outside

    /** Setting R of a resistor (a public member of wdfTerminatedRes). */
    method SetResistance(R: real)
      requires elem.Resistor?
      modifies this
      ensures elem == Resistor(R) && upPort == old(upPort) && downPorts == old(downPorts)
    {
      elem := Resistor(R);
    }

    /** Setting Vs of a resistive voltage source (a public member of
        wdfTerminatedResVSource); its series resistance is kept. */
    method SetVoltage(Vs: real)
      requires elem.ResVSource?
      modifies this
      ensures elem == old(elem).(Vs := Vs) && upPort == old(upPort) && downPorts == old(downPorts)
    {
      elem := ResVSource(Vs, elem.RSer);
    }

    // -------------------------------------------------------------------
    // Frames

    /** A write to this node's own fields leaves every child subtree as it
        was. */
    twostate lemma ChildrenKept()
      requires Valid()
      requires forall o :: o in Below ==> unchanged(o)
      ensures forall j :: 0 <= j < |children| ==> children[j].Snap() == old(children[j].Snap())
    {
      forall j | 0 <= j < |children|
        ensures children[j].Snap() == old(children[j].Snap())
      {
        assert children[j].Repr() <= Below;
      }
    }

    /** The same, for the child subtrees as one sequence of values. */
    twostate lemma KidsKept()
      requires Valid()
      requires forall o :: o in Below ==> unchanged(o)
      ensures KidSnaps(|children|) == old(KidSnaps(|children|))
    {
    }

    /** A pass that leaves every parentNode and upConnected link as it
        was keeps the tree parented and connected as it was. */
    twostate lemma LinksKept()
      requires Valid()
      requires forall o :: o in Repr() ==> o.parentNode == old(o.parentNode) && o.upConnected == old(o.upConnected)
      ensures Parented() == old(Parented()) && Connected() == old(Connected())
    {
    }

    /** A call that may change only child i's subtree leaves every other
        child subtree, and its links, as they were. */
    twostate lemma OthersKept(i: nat)
      requires Valid() && i < |children|
      requires forall o :: o in Repr() && o !in children[i].Repr() ==> unchanged(o)
      ensures forall j :: 0 <= j < |children| && j != i ==>
        children[j].Snap() == old(children[j].Snap()) &&
        children[j].parentNode == old(children[j].parentNode) &&
        children[j].upConnected == old(children[j].upConnected) &&
        children[j].Parented() == old(children[j].Parented()) &&
        children[j].Connected() == old(children[j].Connected())
    {
      forall j | 0 <= j < |children| && j != i
        ensures children[j].Snap() == old(children[j].Snap())
        ensures children[j].Parented() == old(children[j].Parented())
        ensures children[j].Connected() == old(children[j].Connected())
        ensures children[j].parentNode == old(children[j].parentNode)
        ensures children[j].upConnected == old(children[j].upConnected)
      {
        assert children[j].Repr() !! children[i].Repr() by {
          if j < i { } else { }
        }
        assert children[j] in Repr();
      }
    }
  }

  /** The objects of the subtrees of the given nodes. */
  ghost function ReprOf(kids: seq<TreeNode>): (r: set<TreeNode>)
    ensures forall i :: 0 <= i < |kids| ==> kids[i].Repr() <= r
  {
    if |kids| == 0 then {} else ReprOf(kids[..|kids| - 1]) + kids[|kids| - 1].Repr()
  }

  /** Subtrees built before a new node holds none of it. */
  twostate lemma ReprOfAllocated(kids: seq<TreeNode>)
    requires forall i :: 0 <= i < |kids| ==> old(allocated(kids[i]))
    ensures forall o :: o in ReprOf(kids) ==> old(allocated(o))
  {
    if |kids| > 0 {
      ReprOfAllocated(kids[..|kids| - 1]);
      assert old(allocated(kids[|kids| - 1].Below));
    }
  }
}
