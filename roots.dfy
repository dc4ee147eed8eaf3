// The roots of a scattering tree (wdfRoot and its subclasses). A root
// takes the waves that ascend from the subtrees and answers with the waves
// that descend into them: the simple root through one unterminated element,
// the R-type root through its scattering matrix S, the nonlinear root
// through the Newton solver. The kind of root is fixed when it is built.

module Roots {

  import opened LinAlg
  import opened Types
  import opened NlModels
  import opened NlSolvers
  import opened RootNodes

  /** The three roots, with the number of subtrees the R-type and the
      nonlinear root are built for. */
  datatype RootKind = SimpleRoot | RtypeRoot(numSubtrees: nat) | NlRoot(numSubtrees: nat)

  /** What a root remembers between samples: the memory of the simple
      root's element; the Newton solver's first-run flag, last solution x0
      and warm-start term F fNL. */
  datatype RootState = RootState(elem: Option<RootVal>, firstRun: bool, x0: Vector, warm: Vector)

  class Root {
    const kind: RootKind
    /** rootElement of wdfRootSimple. */
    const rootElement: RootNode?
    /** NlSolver of wdfRootNL. */
    const solver: NewtonSolver?
    /** rootMatrixData of wdfRootRtype and wdfRootNL; the simple root has
        none. */
    var mats: MatData

    ghost predicate Valid()
      reads this, solver
    {
      (kind.SimpleRoot? <==> rootElement != null) &&
      (kind.NlRoot? <==> solver != null) &&
      (solver != null ==> solver.Valid())
    }

    /** The objects processAscendingWaves may change: the root element, or
        the solver and its two arrays. */
    ghost function Parts(): set<object>
    {
      (if rootElement != null then {rootElement} else {}) +
      (if solver != null then {solver, solver.fNL, solver.JNL} else {})
    }

    /** wdfRootSimple(rootElement). */
    constructor Simple(e: RootNode)
      ensures Valid() && kind == SimpleRoot && rootElement == e && solver == null
    {
      kind := SimpleRoot;
      rootElement := e;
      solver := null;
    }

    /** wdfRootRtype(numSubtrees): S gets the size numSubtrees x
        numSubtrees with unset entries; E, F, M and N are emptied. */
    constructor Rtype(numSubtrees: nat)
      ensures Valid() && kind == RtypeRoot(numSubtrees) && rootElement == null && solver == null
      ensures RtypeShaped(mats, numSubtrees)
      ensures mats.Emat == [] && mats.Fmat == [] && mats.Mmat == [] && mats.Nmat == [] && mats.Tmat == []
    {
      kind := RtypeRoot(numSubtrees);
      rootElement := null;
      solver := null;
      assert IsMatrix(ZeroMatrix(numSubtrees, numSubtrees), numSubtrees, numSubtrees);
      var S: Matrix :| IsMatrix(S, numSubtrees, numSubtrees);
      mats := MatData(S, [], [], [], [], []);
    }

    /** wdfRootNL(numSubtrees, nlList, solverType): builds a Newton solver
        for the models of nlList (whatever solverType says) and sizes the
        matrices for its port count numNl: S is (numSubtrees + numNl)
        square, E numNl x numSubtrees, F numNl x numNl, M numSubtrees x
        numSubtrees and N numSubtrees x numNl, all with unset entries. */
    constructor NL(numSubtrees: nat, nlList: seq<int>, solverType: int)
      ensures Valid() && kind == NlRoot(numSubtrees) && rootElement == null && solver != null
      ensures fresh(solver) && fresh(solver.fNL) && fresh(solver.JNL)
      ensures solver.nlModels == ModelsOf(nlList) && solver.firstRun
      ensures NlShaped(mats, solver.numNLPorts, numSubtrees)
      ensures IsMatrix(mats.Smat, numSubtrees + solver.numNLPorts, numSubtrees + solver.numNLPorts)
      ensures mats.Tmat == []
    {
      kind := NlRoot(numSubtrees);
      rootElement := null;
      var s := new NewtonSolver(nlList);
      solver := s;
      var nl := s.GetNumPorts();
      var nb := numSubtrees;
      ghost var zero := MatData(ZeroMatrix(nb + nl, nb + nl), ZeroMatrix(nl, nb), ZeroMatrix(nl, nl),
        ZeroMatrix(nb, nb), ZeroMatrix(nb, nl), []);
      assert NlShaped(zero, nl, nb) && IsMatrix(zero.Smat, nb + nl, nb + nl);
      var m: MatData :| NlShaped(m, nl, nb) && IsMatrix(m.Smat, nb + nl, nb + nl) && m.Tmat == [];
      mats := m;
    }

    /** getRootMatrPtr: the matrices of an R-type or a nonlinear root;
        nothing (NULL) for the simple root. */
    function RootMatrices(): (m: Option<MatData>)
      reads this
      ensures m.None? <==> kind.SimpleRoot?
      ensures m.Some? ==> m.value == mats
    {
      if kind.SimpleRoot? then None else Some(mats)
    }

    /** wdfRoot::setPortResistances, the one the tree calls through its
        wdfRoot pointer: the base class method is not virtual and does
        nothing. */
    method SetPortResistances(Rp: seq<real>)
    {
    }

    /** wdfRootSimple::setPortResistances: hands the port resistance of
        the first subtree to the root element. */
    method SimpleSetPortResistances(Rp: seq<real>)
      requires Valid() && kind.SimpleRoot? && |Rp| > 0 && CoeffDefined(rootElement.elem, Rp[0])
      modifies rootElement
      ensures rootElement.Val() == AfterSetPortResistance(old(rootElement.Val()), Rp[0])
    {
      rootElement.SetPortResistance(Rp[0]);
    }

    /** What processAscendingWaves needs for n ascending waves and m
        descending ones: the simple root indexes position 0 of both; the
        R-type and the nonlinear root multiply by matrices that must fit
        (Armadillo throws otherwise). */
    ghost predicate CanProcess(n: nat, m: nat, num: Numerics)
      reads this, solver
    {
      match kind
      case SimpleRoot => 0 < n && 0 < m
      case RtypeRoot(_) => forall i :: 0 <= i < |mats.Smat| ==> |mats.Smat[i]| == n
      case NlRoot(_) => solver != null && Sound(num) && NlShaped(mats, solver.numNLPorts, n)
    }

    /** What the root carries from one sample to the next. */
    ghost function State(): RootState
      reads this, Parts()
    {
      RootState(if rootElement != null then Some(rootElement.Val()) else None,
        solver != null && solver.firstRun,
        if solver != null then solver.x0 else [],
        if solver != null then solver.Fmat_fNL else [])
    }

    /** The number of descending waves the root answers with, given m
        before the call. */
    function AnswerSize(m: nat): nat
      reads this
    {
      match kind
      case SimpleRoot => m
      case RtypeRoot(_) => |mats.Smat|
      case NlRoot(_) => |mats.Mmat|
    }

    /** The answer out of processAscendingWaves to the ascending waves asc,
        from the state pre, with desc the descending waves before the call:
        the simple root lets its element reflect asc[0] into position 0 (the
        element keeps its new memory); the R-type root answers S asc; the
        nonlinear root starts from zero on its first sample and from the
        warm start F fNL + E asc afterwards, makes the Newton passes and
        answers M asc + N fNL at the last iterate. */
    ghost predicate Answered(pre: RootState, asc: Vector, desc: Vector, out: Vector, num: Numerics)
      reads this, Parts()
    {
      match kind
      case SimpleRoot => SimpleAnswered(pre, asc, desc, out)
      case RtypeRoot(_) => RowsFit(mats.Smat, asc) && out == MatVec(mats.Smat, asc)
      case NlRoot(_) => NlAnswered(pre, asc, out, num)
    }

    /** The simple root's answer. */
    ghost predicate SimpleAnswered(pre: RootState, asc: Vector, desc: Vector, out: Vector)
      reads rootElement
    {
      rootElement != null && pre.elem.Some? && 0 < |asc| && 0 < |desc| &&
      out == desc[0 := ReflectedWave(pre.elem.value, asc[0])] &&
      rootElement.Val() == AfterDownB(pre.elem.value, asc[0])
    }

    /** The nonlinear root's answer. */
    ghost predicate NlAnswered(pre: RootState, asc: Vector, out: Vector, num: Numerics)
      reads this`mats, solver, if solver != null then {solver.fNL, solver.JNL} else {}
    {
      solver != null && solver.Valid() && Sound(num) &&
      NlShaped(mats, solver.numNLPorts, |asc|) &&
      |pre.x0| == solver.numNLPorts && |pre.warm| == solver.numNLPorts &&
      solver.x0 == Iterate(mats, solver.nlModels, asc,
        if pre.firstRun then pre.x0 else Add(pre.warm, MatVec(mats.Emat, asc)), 0, num).x &&
      !solver.firstRun && solver.EvaluatedAt(mats, asc, solver.x0, num) &&
      out == Add(MatVec(mats.Mmat, asc), MatVec(mats.Nmat, Currents(solver.nlModels, solver.x0, num)))
    }

    /** processAscendingWaves: the descending waves for the ascending ones. */
    method ProcessAscendingWaves(asc: Vector, desc: Vector, num: Numerics) returns (out: Vector)
      requires Valid() && CanProcess(|asc|, |desc|, num)
      modifies Parts()
      ensures Valid() && mats == old(mats)
      ensures Answered(old(State()), asc, desc, out, num)
      ensures |out| == AnswerSize(|desc|)
    {
      match kind {
        case SimpleRoot =>
          var idx: SizeT := 0;
          out, idx := rootElement.CalculateDownB(asc, desc, idx);
        case RtypeRoot(_) =>
          out := MatVec(mats.Smat, asc);
        case NlRoot(_) =>
          out := solver.NlSolve(asc, mats, num);
      }
    }
  }

  // ---------------------------------------------------------------------
  // What the roots answer

  /** An R-type root whose S is the identity answers every ascending wave
      with itself: with one subtree it answers what a simple root over an
      open switch answers. */
  lemma RtypeIdentity(r: Root, pre: RootState, asc: Vector, desc: Vector, out: Vector, num: Numerics)
    requires r.kind.RtypeRoot? && r.mats.Smat == Identity(|asc|)
    requires r.Answered(pre, asc, desc, out, num)
    ensures out == asc
  {
    var n := |asc|;
    assert |out| == n;
    forall i | 0 <= i < n
      ensures out[i] == asc[i]
    {
      UnitDot(n, i, asc);
    }
  }

  /** Row i of the identity picks entry i. */
  lemma {:induction false} UnitDot(n: nat, i: nat, v: Vector)
    requires i < n == |v|
    ensures Dot(Identity(n)[i], v) == v[i]
  {
    UnitDotFrom(n, i, v, 0);
  }

  lemma {:induction false} UnitDotFrom(n: nat, i: nat, v: Vector, k: nat)
    requires i < n == |v| && k <= n
    ensures DotFrom(Identity(n)[i], v, k) == if k <= i then v[i] else 0.0
    decreases n - k
  {
    if k < n {
      UnitDotFrom(n, i, v, k + 1);
    }
  }
}
