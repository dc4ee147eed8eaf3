// wdfTree: the owner of a whole circuit. It holds the entry nodes of the
// subtrees that hang off the root, the root itself, the vectors of waves
// that cross the root, the sample rate and the port resistances the
// subtrees present to the root. A user subclass builds the circuit; the
// tree initialises it, adapts it and runs it one sample at a time.

module Trees {

  import opened LinAlg
  import opened Types
  import opened Elements
  import opened TreeSpec
  import opened TreeNodes
  import opened NlModels
  import opened Roots

  // ---------------------------------------------------------------------
  // The passes over all subtrees, as functions of the subtree values

  /** pullWaveUp of every subtree. */
  function PullAll(ss: seq<NodeVal>): (r: seq<NodeVal>)
    requires forall i :: 0 <= i < |ss| ==> Wired(ss[i])
    ensures |r| == |ss| && forall i :: 0 <= i < |ss| ==> r[i] == Pull(ss[i])
  {
    seq(|ss|, i requires 0 <= i < |ss| => Pull(ss[i]))
  }

  /** The waves the subtrees reflect towards the root. */
  function UpWaves(ss: seq<NodeVal>): (r: Vector)
    ensures |r| == |ss| && forall i :: 0 <= i < |ss| ==> r[i] == ss[i].up.b
  {
    seq(|ss|, i requires 0 <= i < |ss| => ss[i].up.b)
  }

  /** The port resistances the subtrees present to the root. */
  function UpResistances(ss: seq<NodeVal>): (r: Vector)
    ensures |r| == |ss| && forall i :: 0 <= i < |ss| ==> r[i] == ss[i].up.Rp
  {
    seq(|ss|, i requires 0 <= i < |ss| => ss[i].up.Rp)
  }

  /** pushWaveDown of every subtree i with the descending wave ds[i]. */
  function PushAll(ss: seq<NodeVal>, ds: Vector): (r: seq<NodeVal>)
    requires |ds| == |ss| && forall i :: 0 <= i < |ss| ==> Wired(ss[i]) && Pushable(ss[i])
    ensures |r| == |ss| && forall i :: 0 <= i < |ss| ==> r[i] == Push(ss[i], ds[i])
  {
    seq(|ss|, i requires 0 <= i < |ss| => Push(ss[i], ds[i]))
  }

  /** adaptPorts then calculateScatterCoeffs on one subtree: a consistent
      subtree. */
  function AdaptOne(s: NodeVal, T: real): (r: NodeVal)
    requires Wired(s) && Positive(s, T)
    ensures Consistent(r, T) && r.up.Rp == Adapt(s, T).up.Rp
  {
    AdaptThenScatter(s, T);
    ScatterKeepsUp(Adapt(s, T));
    Scatter(Adapt(s, T))
  }

  /** adaptPorts then calculateScatterCoeffs on every subtree. */
  function AdaptAll(ss: seq<NodeVal>, T: real): (r: seq<NodeVal>)
    requires forall i :: 0 <= i < |ss| ==> Wired(ss[i]) && Positive(ss[i], T)
    ensures |r| == |ss| && forall i :: 0 <= i < |ss| ==> r[i] == AdaptOne(ss[i], T)
  {
    seq(|ss|, i requires 0 <= i < |ss| => AdaptOne(ss[i], T))
  }

  /** createPorts of every subtree. */
  function WithPortsAll(ss: seq<NodeVal>): (r: seq<NodeVal>)
    ensures |r| == |ss| && forall i :: 0 <= i < |ss| ==> r[i] == WithPorts(ss[i])
  {
    seq(|ss|, i requires 0 <= i < |ss| => WithPorts(ss[i]))
  }

  /** calculateScatterCoeffs keeps the up port. */
  lemma ScatterKeepsUp(n: NodeVal)
    requires Wired(n) && ResPositive(n)
    ensures Scatter(n).up == n.up
  {
  }

  /** One sample through adapted subtrees: whatever the root answers,
      every junction of every subtree obeys its law afterwards and every
      connection is a joined pair; the subtrees stay adapted. */
  lemma CycleAllLaws(ss: seq<NodeVal>, ds: Vector, T: real)
    requires |ds| == |ss| && forall i :: 0 <= i < |ss| ==> Wired(ss[i]) && Consistent(ss[i], T)
    ensures forall i :: 0 <= i < |ss| ==> Wired(PullAll(ss)[i]) && Pushable(PullAll(ss)[i])
    ensures forall i :: 0 <= i < |ss| ==>
      Laws(PushAll(PullAll(ss), ds)[i]) && Consistent(PushAll(PullAll(ss), ds)[i], T)
  {
    forall i | 0 <= i < |ss|
      ensures Pushable(PullAll(ss)[i]) && Laws(Push(Pull(ss[i]), ds[i])) && Consistent(Push(Pull(ss[i]), ds[i]), T)
    {
      CycleLaws(ss[i], T, ds[i]);
      PullKeepsConsistent(ss[i], T);
      PushKeepsConsistent(Pull(ss[i]), T, ds[i]);
    }
  }

  /** The two passes adaptTree makes over one subtree: adaptPorts, whose
      result is the subtree's port resistance, then calculateScatterCoeffs. */
  method AdaptSubtree(e: TreeNode, T: real) returns (rp: real)
    requires e.Valid() && Wired(e.Snap()) && Positive(e.Snap(), T)
    modifies e.Repr()`elem, e.Repr()`upPort, e.Repr()`downPorts
    ensures e.Snap() == AdaptOne(old(e.Snap()), T) && rp == AdaptOne(old(e.Snap()), T).up.Rp
  {
    ghost var s0 := e.Snap();
    rp := e.AdaptPorts(T);
    AdaptThenScatter(s0, T);
    e.CalculateScatterCoeffs();
    ScatterKeepsUp(Adapt(s0, T));
  }

  // ---------------------------------------------------------------------
  // The tree object

  class WdfTree {
    /** The root, built by the subclass. */
    const root: Root
    /** subtreeEntryNodes: the top node of each subtree. */
    const subtreeEntryNodes: seq<TreeNode>
    const subtreeCount: nat
    var ascendingWaves: Vector
    var descendingWaves: Vector
    var treeSampleRate: real
    /** The sample period. */
    var T: real
    /** The port resistances of the subtrees, as adaptTree last saw them. */
    var Rp: seq<real>
    var params: seq<ParamData>
    /** Every node object of every subtree. */
    ghost const nodes: set<TreeNode>

    /** One entry node per subtree; the subtrees are trees that share no
        node, and no node is the tree or a part of its root. */
    ghost predicate SubtreesValid()
    {
      |subtreeEntryNodes| == subtreeCount &&
      (forall i :: 0 <= i < subtreeCount ==> subtreeEntryNodes[i].Valid() && subtreeEntryNodes[i].Repr() <= nodes) &&
      (forall i, j :: 0 <= i < j < subtreeCount ==> subtreeEntryNodes[i].Repr() !! subtreeEntryNodes[j].Repr()) &&
      this !in NodeObjects() && root !in NodeObjects() && root.Parts() !! NodeObjects() && this !in root.Parts()
    }

    /** T is the period of the sample rate. */
    ghost predicate RateSet()
      reads this`treeSampleRate, this`T
    {
      treeSampleRate != 0.0 && T == 1.0 / treeSampleRate
    }

    /** A tree its subclass has built: subtrees, a root, a sample rate. */
    ghost predicate Valid()
      reads this`treeSampleRate, this`T, root, root.solver
    {
      SubtreesValid() && RateSet() && root.Valid()
    }

    /** Nodes(), seen as objects. */
    ghost function NodeObjects(): set<object>
    {
      Nodes()
    }

    /** Every node of every subtree. */
    ghost function Nodes(): set<TreeNode>
    {
      nodes
    }

    /** The subtrees as values. */
    ghost function Snaps(): (r: seq<NodeVal>)
      reads Nodes()`elem, Nodes()`upPort, Nodes()`downPorts
      requires SubtreesValid()
      ensures |r| == subtreeCount
      ensures forall j :: 0 <= j < subtreeCount ==> r[j] == subtreeEntryNodes[j].Snap()
    {
      SnapsUpTo(subtreeCount)
    }

    ghost function SnapsUpTo(k: nat): (r: seq<NodeVal>)
      reads Nodes()`elem, Nodes()`upPort, Nodes()`downPorts
      requires SubtreesValid() && k <= subtreeCount
      ensures |r| == k && forall j :: 0 <= j < k ==> r[j] == subtreeEntryNodes[j].Snap()
    {
      if k == 0 then [] else SnapsUpTo(k - 1) + [subtreeEntryNodes[k - 1].Snap()]
    }

    /** A tree as its subclass's constructor leaves it. The base
        constructor wdfTree() sets no wave vectors and a sample rate and
        period of 1; the subclass then gives the subtrees (their count is
        the number of entry nodes), the root, the initial Rp and the
        parameters. */
    constructor (entries: seq<TreeNode>, r: Root, Rp0: seq<real>, ps: seq<ParamData>)
      ensures subtreeEntryNodes == entries && subtreeCount == |entries| && root == r
      ensures ascendingWaves == [] && descendingWaves == []
      ensures treeSampleRate == 1.0 && T == 1.0 && RateSet()
      ensures Rp == Rp0 && params == ps && nodes == ReprOf(entries)
    {
      subtreeEntryNodes := entries;
      nodes := ReprOf(entries);
      subtreeCount := |entries|;
      root := r;
      ascendingWaves := [];
      descendingWaves := [];
      treeSampleRate := 1.0;
      T := 1.0;
      Rp := Rp0;
      params := ps;
    }

    /** setSamplerate(fs): the tree's rate becomes fs and T its period. */
    method SetSamplerate(fs: real)
      requires fs != 0.0
      modifies this`treeSampleRate, this`T
      ensures treeSampleRate == fs && RateSet()
    {
      treeSampleRate := fs;
      T := 1.0 / treeSampleRate;
    }

    /** getSamplerate: the rate whose period is T. */
    function GetSamplerate(): (fs: real)
      reads this
      requires RateSet()
      ensures fs * T == 1.0
    {
      treeSampleRate
    }

    // -------------------------------------------------------------------
    // The loops over the subtrees

    /** After i passes of a loop over the subtrees: subtree j is done[j]
        for j < i and still todo[j] from i on. */
    ghost predicate Progress(i: nat, done: seq<NodeVal>, todo: seq<NodeVal>)
      reads Nodes()`elem, Nodes()`upPort, Nodes()`downPorts
      requires SubtreesValid()
    {
      i <= subtreeCount && |done| == subtreeCount && |todo| == subtreeCount &&
      (forall j :: 0 <= j < i ==> subtreeEntryNodes[j].Snap() == done[j]) &&
      (forall j :: i <= j < subtreeCount ==> subtreeEntryNodes[j].Snap() == todo[j])
    }

    /** After all passes the subtrees are done. */
    lemma ProgressAll(done: seq<NodeVal>, todo: seq<NodeVal>)
      requires SubtreesValid() && Progress(subtreeCount, done, todo)
      ensures Snaps() == done
    {
    }

    // -------------------------------------------------------------------
    // initTree

    /** initTree: allocates the two wave vectors, one entry per subtree
        (their values unset), then lets every subtree set the parents in
        its children and create its ports. */
    method InitTree()
      requires SubtreesValid()
      modifies this`ascendingWaves, this`descendingWaves, Nodes()
      ensures |ascendingWaves| == subtreeCount && |descendingWaves| == subtreeCount
      ensures Snaps() == WithPortsAll(old(Snaps()))
      ensures forall i :: 0 <= i < subtreeCount ==>
        subtreeEntryNodes[i].Parented() && subtreeEntryNodes[i].Connected()
    {
      assert |Zeros(subtreeCount)| == subtreeCount;
      var asc: Vector :| |asc| == subtreeCount;
      var desc: Vector :| |desc| == subtreeCount;
      ascendingWaves, descendingWaves := asc, desc;
      InitEach();
    }

    /** The loop of initTree. */
    method InitEach()
      requires SubtreesValid()
      modifies Nodes()
      ensures Snaps() == WithPortsAll(old(Snaps()))
      ensures forall i :: 0 <= i < subtreeCount ==>
        subtreeEntryNodes[i].Parented() && subtreeEntryNodes[i].Connected()
    {
      ghost var s0 := Snaps();
      ghost var target := WithPortsAll(s0);
      var i := 0;
      while i < subtreeCount
        invariant 0 <= i <= subtreeCount
        invariant Progress(i, target, s0) && Linked(i)
      {
        InitOne(i, target, s0);
        i := i + 1;
      }
      ProgressAll(target, s0);
    }

    /** The first i subtrees know their parents and are connected. */
    ghost predicate Linked(i: nat)
      reads Nodes()`parentNode, Nodes()`upConnected
      requires SubtreesValid() && i <= subtreeCount
    {
      forall j :: 0 <= j < i ==> subtreeEntryNodes[j].Parented() && subtreeEntryNodes[j].Connected()
    }

    /** One pass of initTree's loop. */
    method InitOne(i: nat, ghost target: seq<NodeVal>, ghost s0: seq<NodeVal>)
      requires SubtreesValid() && i < subtreeCount && Progress(i, target, s0) && Linked(i)
      requires target[i] == WithPorts(s0[i])
      modifies Nodes()
      ensures Progress(i + 1, target, s0) && Linked(i + 1)
    {
      label Before:
      var e := subtreeEntryNodes[i];
      e.SetParentInChildren();
      e.CreatePorts();
      EntriesKept@Before(i);
    }

    // -------------------------------------------------------------------
    // adaptTree

    /** adaptTree: every subtree adapts to the period T, its port
        resistance is stored in Rp, and it computes its scattering
        coefficients. The root's setPortResistances is called through
        the wdfRoot pointer, where it does nothing. A root with matrices
        then has them updated by the tree's setRootMatrData hook, whose
        result is returned; a root without returns 0. */
    method AdaptTree(setRootMatrData: (MatData, seq<real>) -> (MatData, int)) returns (r: int)
      requires Valid() && |Rp| == subtreeCount
      requires forall i :: 0 <= i < subtreeCount ==> Wired(Snaps()[i]) && Positive(Snaps()[i], T)
      modifies this`Rp, Nodes()`elem, Nodes()`upPort, Nodes()`downPorts, root
      ensures Valid()
      ensures Snaps() == AdaptAll(old(Snaps()), T)
      ensures Rp == UpResistances(Snaps())
      ensures Linked(subtreeCount) == old(Linked(subtreeCount))
      ensures root.kind.SimpleRoot? ==> r == 0 && root.mats == old(root.mats)
      ensures !root.kind.SimpleRoot? ==> (root.mats, r) == setRootMatrData(old(root.mats), Rp)
    {
      ghost var s0 := Snaps();
      AdaptSubtrees(s0);
      r := AdaptRoot(setRootMatrData);
      LinksKept();
    }

    /** The end of adaptTree: the call of setPortResistances, then the
        matrices of the root, if it has any, from the setRootMatrData hook. */
    method AdaptRoot(setRootMatrData: (MatData, seq<real>) -> (MatData, int)) returns (r: int)
      requires Valid()
      modifies root
      ensures Valid() && Snaps() == old(Snaps())
      ensures root.kind.SimpleRoot? ==> r == 0 && root.mats == old(root.mats)
      ensures !root.kind.SimpleRoot? ==> (root.mats, r) == setRootMatrData(old(root.mats), Rp)
    {
      root.SetPortResistances(Rp);
      var m := root.RootMatrices();
      if m.Some? {
        var res := setRootMatrData(m.value, Rp);
        root.mats := res.0;
        r := res.1;
      } else {
        r := 0;
      }
    }

    /** The loop of adaptTree. Rp[i] is written in pass i; the passes
        never read Rp, so the values are collected and stored at the end. */
    method AdaptSubtrees(ghost s0: seq<NodeVal>)
      requires SubtreesValid() && |Rp| == subtreeCount && s0 == Snaps()
      requires forall i :: 0 <= i < subtreeCount ==> Wired(s0[i]) && Positive(s0[i], T)
      modifies this`Rp, Nodes()`elem, Nodes()`upPort, Nodes()`downPorts
      ensures Snaps() == AdaptAll(s0, T) && Rp == UpResistances(Snaps())
    {
      var rps := AdaptEach(s0, Rp);
      Rp := rps;
    }

    /** The passes of adaptTree's loop, from Rp as it was; the result is
        the new Rp. */
    method AdaptEach(ghost s0: seq<NodeVal>, rps0: seq<real>) returns (rps: seq<real>)
      requires SubtreesValid() && |rps0| == subtreeCount && s0 == Snaps()
      requires forall i :: 0 <= i < subtreeCount ==> Wired(s0[i]) && Positive(s0[i], T)
      modifies Nodes()`elem, Nodes()`upPort, Nodes()`downPorts
      ensures Snaps() == AdaptAll(s0, T) && rps == UpResistances(Snaps())
    {
      ghost var target := AdaptAll(s0, T);
      rps := rps0;
      var i := 0;
      while i < subtreeCount
        invariant 0 <= i <= subtreeCount && |rps| == subtreeCount
        invariant Progress(i, target, s0)
        invariant forall j :: 0 <= j < i ==> rps[j] == target[j].up.Rp
      {
        var rp := AdaptOneSubtree(i, target, s0);
        rps := rps[i := rp];
        i := i + 1;
      }
      ProgressAll(target, s0);
    }

    /** One pass of adaptTree's loop. */
    method AdaptOneSubtree(i: nat, ghost target: seq<NodeVal>, ghost s0: seq<NodeVal>) returns (rp: real)
      requires SubtreesValid() && i < subtreeCount && Progress(i, target, s0)
      requires Wired(s0[i]) && Positive(s0[i], T) && target[i] == AdaptOne(s0[i], T)
      modifies Nodes()`elem, Nodes()`upPort, Nodes()`downPorts
      ensures Progress(i + 1, target, s0) && rp == target[i].up.Rp
    {
      label Before:
      rp := AdaptSubtree(subtreeEntryNodes[i], T);
      EntriesKept@Before(i);
    }

    // -------------------------------------------------------------------
    // cycleWave

    /** cycleWave: one sample. Every subtree in turn reflects its wave up
        into ascendingWaves, the root answers with descendingWaves, and
        every subtree in turn takes its descending wave down. No link to a
        parent changes. */
    method CycleWave(num: Numerics)
      requires Valid() && |ascendingWaves| == subtreeCount
      requires forall i :: 0 <= i < subtreeCount ==> Wired(Snaps()[i]) && Pushable(Snaps()[i])
      requires root.CanProcess(subtreeCount, |descendingWaves|, num)
      requires root.AnswerSize(|descendingWaves|) == subtreeCount
      modifies this`ascendingWaves, this`descendingWaves, Nodes()`elem, Nodes()`upPort, Nodes()`downPorts, root.Parts()
      ensures Valid() && root.mats == old(root.mats)
      ensures ascendingWaves == UpWaves(PullAll(old(Snaps())))
      ensures root.Answered(old(root.State()), ascendingWaves, old(descendingWaves), descendingWaves, num)
      ensures |descendingWaves| == subtreeCount
      ensures Snaps() == PushAll(PullAll(old(Snaps())), descendingWaves)
      ensures Linked(subtreeCount) == old(Linked(subtreeCount))
    {
      ghost var s0 := Snaps();
      ghost var pre := root.State();
      ghost var d0 := descendingWaves;
      PullSubtrees(s0);
      AnswerAndPush(pre, d0, num);
    }

    /** The second half of cycleWave: the root answers, then every subtree
        takes its descending wave down. */
    method AnswerAndPush(ghost pre: RootState, ghost d0: Vector, num: Numerics)
      requires Valid() && root.State() == pre && descendingWaves == d0
      requires root.CanProcess(|ascendingWaves|, |descendingWaves|, num)
      requires root.AnswerSize(|descendingWaves|) == subtreeCount
      requires forall i :: 0 <= i < subtreeCount ==> Wired(Snaps()[i]) && Pushable(Snaps()[i])
      modifies this`descendingWaves, Nodes()`elem, Nodes()`upPort, Nodes()`downPorts, root.Parts()
      ensures Valid() && root.mats == old(root.mats) && ascendingWaves == old(ascendingWaves)
      ensures root.Answered(pre, ascendingWaves, d0, descendingWaves, num)
      ensures |descendingWaves| == subtreeCount
      ensures Snaps() == PushAll(old(Snaps()), descendingWaves)
      ensures Linked(subtreeCount) == old(Linked(subtreeCount))
    {
      RootStep(pre, num);
      ghost var s1 := Snaps();
      PushSubtrees(s1, pre, d0, num);
    }

    /** The root's part of cycleWave: its answer to the ascending waves
        becomes descendingWaves. */
    method RootStep(ghost pre: RootState, num: Numerics)
      requires Valid() && root.State() == pre
      requires root.CanProcess(|ascendingWaves|, |descendingWaves|, num)
      modifies this`descendingWaves, root.Parts()
      ensures Valid() && root.mats == old(root.mats) && Snaps() == old(Snaps())
      ensures ascendingWaves == old(ascendingWaves)
      ensures root.Answered(pre, ascendingWaves, old(descendingWaves), descendingWaves, num)
      ensures |descendingWaves| == root.AnswerSize(|old(descendingWaves)|)
      ensures Linked(subtreeCount) == old(Linked(subtreeCount))
    {
      descendingWaves := root.ProcessAscendingWaves(ascendingWaves, descendingWaves, num);
      NodesKept();
    }

    /** The first loop of cycleWave. The wave of subtree i is stored in
        pass i; the passes never read ascendingWaves, so the waves are
        collected and stored at the end. */
    method PullSubtrees(ghost s0: seq<NodeVal>)
      requires SubtreesValid() && |ascendingWaves| == subtreeCount && s0 == Snaps()
      requires forall i :: 0 <= i < subtreeCount ==> Wired(s0[i])
      modifies this`ascendingWaves, Nodes()`elem, Nodes()`upPort, Nodes()`downPorts
      ensures Snaps() == PullAll(s0) && ascendingWaves == UpWaves(PullAll(s0))
      ensures Linked(subtreeCount) == old(Linked(subtreeCount))
      ensures (forall i :: 0 <= i < subtreeCount ==> Pushable(s0[i])) ==>
        forall i :: 0 <= i < subtreeCount ==> Wired(Snaps()[i]) && Pushable(Snaps()[i])
    {
      var waves := PullEach(s0, ascendingWaves);
      ascendingWaves := waves;
      LinksKept();
    }

    /** The passes of the first loop, from the ascending waves as they
        were; the result is the new ascending waves. */
    method PullEach(ghost s0: seq<NodeVal>, waves0: Vector) returns (waves: Vector)
      requires SubtreesValid() && |waves0| == subtreeCount && s0 == Snaps()
      requires forall i :: 0 <= i < subtreeCount ==> Wired(s0[i])
      modifies Nodes()`elem, Nodes()`upPort, Nodes()`downPorts
      ensures Snaps() == PullAll(s0) && waves == UpWaves(PullAll(s0))
    {
      ghost var target := PullAll(s0);
      waves := waves0;
      var i := 0;
      while i < subtreeCount
        invariant 0 <= i <= subtreeCount && |waves| == subtreeCount
        invariant Progress(i, target, s0)
        invariant forall j :: 0 <= j < i ==> waves[j] == target[j].up.b
      {
        var wave := PullOneSubtree(i, target, s0);
        waves := waves[i := wave];
        i := i + 1;
      }
      ProgressAll(target, s0);
    }

    /** One pass of the first loop: pullWaveUp of subtree i. */
    method PullOneSubtree(i: nat, ghost target: seq<NodeVal>, ghost s0: seq<NodeVal>) returns (wave: real)
      requires SubtreesValid() && i < subtreeCount && Progress(i, target, s0)
      requires Wired(s0[i]) && target[i] == Pull(s0[i])
      modifies Nodes()`elem, Nodes()`upPort, Nodes()`downPorts
      ensures Progress(i + 1, target, s0) && wave == target[i].up.b
    {
      label Before:
      wave := subtreeEntryNodes[i].PullWaveUp();
      EntriesKept@Before(i);
    }

    /** The second loop of cycleWave. */
    method PushSubtrees(ghost s1: seq<NodeVal>, ghost pre: RootState, ghost d0: Vector, num: Numerics)
      requires Valid() && |descendingWaves| == subtreeCount && s1 == Snaps()
      requires forall i :: 0 <= i < subtreeCount ==> Wired(s1[i]) && Pushable(s1[i])
      modifies Nodes()`elem, Nodes()`upPort, Nodes()`downPorts
      ensures Snaps() == PushAll(s1, descendingWaves)
      ensures Valid()
      ensures root.Answered(pre, ascendingWaves, d0, descendingWaves, num) ==
        old(root.Answered(pre, ascendingWaves, d0, descendingWaves, num))
      ensures Linked(subtreeCount) == old(Linked(subtreeCount))
    {
      PushEach(s1);
      LinksKept();
    }

    /** The loop itself. */
    method PushEach(ghost s1: seq<NodeVal>)
      requires Valid() && |descendingWaves| == subtreeCount && s1 == Snaps()
      requires forall i :: 0 <= i < subtreeCount ==> Wired(s1[i]) && Pushable(s1[i])
      modifies Nodes()`elem, Nodes()`upPort, Nodes()`downPorts
      ensures Snaps() == PushAll(s1, descendingWaves)
      ensures Valid()
    {
      ghost var target := PushAll(s1, descendingWaves);
      var i := 0;
      while i < subtreeCount
        invariant 0 <= i <= subtreeCount
        invariant Progress(i, target, s1)
      {
        PushOneSubtree(i, target, s1);
        i := i + 1;
      }
      ProgressAll(target, s1);
    }

    /** One pass of the second loop: pushWaveDown of subtree i. */
    method PushOneSubtree(i: nat, ghost target: seq<NodeVal>, ghost s1: seq<NodeVal>)
      requires SubtreesValid() && i < subtreeCount && Progress(i, target, s1)
      requires |descendingWaves| == subtreeCount
      requires Wired(s1[i]) && Pushable(s1[i]) && target[i] == Push(s1[i], descendingWaves[i])
      modifies Nodes()`elem, Nodes()`upPort, Nodes()`downPorts
      ensures Progress(i + 1, target, s1)
    {
      label Before:
      subtreeEntryNodes[i].PushWaveDown(descendingWaves[i]);
      EntriesKept@Before(i);
    }

    // -------------------------------------------------------------------
    // Frames

    /** A step that touches no node keeps the subtrees and their links. */
    twostate lemma NodesKept()
      requires SubtreesValid()
      requires forall o :: o in Nodes() ==> unchanged(o)
      ensures Snaps() == old(Snaps()) && Linked(subtreeCount) == old(Linked(subtreeCount))
    {
    }

    /** Passes that leave every parentNode and upConnected link as it was
        keep the subtrees linked as they were. */
    twostate lemma LinksKept()
      requires SubtreesValid()
      requires forall o :: o in Nodes() ==> o.parentNode == old(o.parentNode) && o.upConnected == old(o.upConnected)
      ensures Linked(subtreeCount) == old(Linked(subtreeCount))
    {
    }

    /** A call that may change only subtree i leaves every other subtree,
        and its links, as they were. */
    twostate lemma EntriesKept(i: nat)
      requires SubtreesValid() && i < subtreeCount
      requires forall j, o :: 0 <= j < subtreeCount && j != i && o in subtreeEntryNodes[j].Repr() ==> unchanged(o)
      ensures forall j :: 0 <= j < subtreeCount && j != i ==>
        subtreeEntryNodes[j].Snap() == old(subtreeEntryNodes[j].Snap()) &&
        subtreeEntryNodes[j].Parented() == old(subtreeEntryNodes[j].Parented()) &&
        subtreeEntryNodes[j].Connected() == old(subtreeEntryNodes[j].Connected())
    {
      forall j | 0 <= j < subtreeCount && j != i
        ensures subtreeEntryNodes[j].Snap() == old(subtreeEntryNodes[j].Snap())
        ensures subtreeEntryNodes[j].Parented() == old(subtreeEntryNodes[j].Parented())
        ensures subtreeEntryNodes[j].Connected() == old(subtreeEntryNodes[j].Connected())
      {
        assert subtreeEntryNodes[j].Repr() !! subtreeEntryNodes[i].Repr() by {
          if j < i { } else { }
        }
      }
    }
  }
}
