// The Newton solver of a nonlinear root (nlSolver, nlNewtonSolver). It
// owns the device models and their work buffers, evaluates the models at
// a guess x of the nonlinear port voltages, and runs damped-free Newton
// passes on the residual F(x) = E in + F fNL(x) - x until its norm drops
// below TOL or ITMAX passes are used. The root's matrices (the solver's
// myMatData pointer) are passed to each call.

module NlSolvers {

  import opened LinAlg
  import opened Types
  import opened NlModels

  /** Convergence tolerance on the 2-norm of the residual. */
  const TOL: real := 0.000001
  /** Largest number of Newton passes per sample. */
  const ITMAX: nat := 50

  // ---------------------------------------------------------------------
  // The solver's specification as functions of its inputs

  /** The models the solver builds from a list of IDs: one per known ID,
      in list order; unknown IDs are skipped. */
  function ModelsOf(ids: seq<int>): (ms: seq<NlModel>)
    ensures |ms| <= |ids|
  {
    if |ids| == 0 then []
    else
      var rest := ModelsOf(ids[..|ids| - 1]);
      match ModelOfId(ids[|ids| - 1])
      case Some(m) => rest + [m]
      case None => rest
  }

  /** The total port count of a list of models. */
  function PortsOf(ms: seq<NlModel>): nat
  {
    if |ms| == 0 then 0 else PortsOf(ms[..|ms| - 1]) + NumPorts(ms[|ms| - 1])
  }

  /** The currents the models write for the port voltages x: each model's
      currents at its own ports, one block after the other. */
  function Currents(ms: seq<NlModel>, x: Vector, num: Numerics): (f: Vector)
    requires PortsOf(ms) <= |x|
    ensures |f| == PortsOf(ms)
    decreases |ms|
  {
    if |ms| == 0 then []
    else
      var init := ms[..|ms| - 1];
      var last := ms[|ms| - 1];
      Currents(init, x, num) + ModelCurrents(last, PortVoltages(last, x, PortsOf(init)), num)
  }

  /** Entry (i, j) of the block-diagonal Jacobian of the models: the
      model's own Jacobian inside its diagonal block, zero elsewhere. */
  function JacEntry(ms: seq<NlModel>, x: Vector, i: nat, j: nat, num: Numerics): real
    requires ExpPositive(num) && PortsOf(ms) <= |x| && i < PortsOf(ms) && j < PortsOf(ms)
    decreases |ms|
  {
    var init := ms[..|ms| - 1];
    var last := ms[|ms| - 1];
    var p := PortsOf(init);
    if p <= i && p <= j then ModelJacobian(last, PortVoltages(last, x, p), num)[i - p][j - p]
    else if i < p && j < p then JacEntry(init, x, i, j, num)
    else 0.0
  }

  /** The Jacobian JNL of the model currents. */
  function Jacobian(ms: seq<NlModel>, x: Vector, num: Numerics): (J: Matrix)
    requires ExpPositive(num) && |x| == PortsOf(ms)
    ensures IsMatrix(J, |x|, |x|)
    ensures forall i, j :: 0 <= i < |x| && 0 <= j < |x| ==> J[i][j] == JacEntry(ms, x, i, j, num)
  {
    seq(|x|, i requires 0 <= i < |x| => seq(|x|, j requires 0 <= j < |x| => JacEntry(ms, x, i, j, num)))
  }

  /** The residual F = E in + F fNL(x) - x, zero exactly at a solution of
      the root's nonlinear equations. */
  function Residual(mats: MatData, ms: seq<NlModel>, inWaves: Vector, x: Vector, num: Numerics): (F: Vector)
    requires |x| == PortsOf(ms) && NlShaped(mats, |x|, |inWaves|)
    ensures |F| == |x|
  {
    Sub(Add(MatVec(mats.Emat, inWaves), MatVec(mats.Fmat, Currents(ms, x, num))), x)
  }

  /** The Jacobian of the residual, F JNL - I. */
  function ResidualJacobian(mats: MatData, ms: seq<NlModel>, x: Vector, num: Numerics): (J: Matrix)
    requires ExpPositive(num) && |x| == PortsOf(ms) && IsMatrix(mats.Fmat, |x|, |x|)
    ensures IsMatrix(J, |x|, |x|)
  {
    MatSub(MatMul(mats.Fmat, Jacobian(ms, x, num), |x|, |x|), Identity(|x|), |x|, |x|)
  }

  /** The Newton direction p = -J^-1 F. */
  function Direction(J: Matrix, F: Vector, num: Numerics): (p: Vector)
    requires Sound(num) && IsMatrix(J, |F|, |F|)
    ensures |p| == |F|
  {
    Scale(-1.0, MatVec(num.inv(J), F))
  }

  /** One Newton pass from x: x + alpha p with p the Newton direction
      for the residual at x and step length alpha = 1. */
  function NewtonStep(mats: MatData, ms: seq<NlModel>, inWaves: Vector, x: Vector, num: Numerics): (y: Vector)
    requires Sound(num) && |x| == PortsOf(ms) && NlShaped(mats, |x|, |inWaves|)
    ensures |y| == |x|
  {
    var F := Residual(mats, ms, inWaves, x, num);
    Add(x, Scale(1.0, Direction(ResidualJacobian(mats, ms, x, num), F, num)))
  }

  /** The last iterate of a Newton run and the number of passes it used. */
  datatype Outcome = Outcome(x: Vector, passes: nat)

  /** The Newton passes from x, with pass counter iter: while the residual
      norm is at least TOL and fewer than ITMAX passes were made, step by
      p = -J^-1 F with step length 1. */
  function Iterate(mats: MatData, ms: seq<NlModel>, inWaves: Vector, x: Vector, iter: nat, num: Numerics): (r: Outcome)
    requires Sound(num) && |x| == PortsOf(ms) && NlShaped(mats, |x|, |inWaves|) && iter <= ITMAX
    ensures |r.x| == |x|
    decreases ITMAX - iter
  {
    if NormSquared(Residual(mats, ms, inWaves, x, num)) >= TOL * TOL && iter < ITMAX then
      Iterate(mats, ms, inWaves, NewtonStep(mats, ms, inWaves, x, num), iter + 1, num)
    else
      Outcome(x, iter)
  }

  /** The run from x with pass counter iter is the run from start with
      a fresh counter: x is an iterate of that run. */
  ghost predicate SameRun(mats: MatData, ms: seq<NlModel>, inWaves: Vector, x: Vector, iter: nat, start: Vector, num: Numerics)
  {
    Sound(num) && |x| == |start| == PortsOf(ms) && NlShaped(mats, |x|, |inWaves|) && iter <= ITMAX &&
    Iterate(mats, ms, inWaves, x, iter, num) == Iterate(mats, ms, inWaves, start, 0, num)
  }

  /** One Newton pass, unfolded: from x with residual F and Jacobian J the
      run continues at x - J^-1 F. */
  lemma IterateStep(mats: MatData, ms: seq<NlModel>, inWaves: Vector, x: Vector, iter: nat, F: Vector, J: Matrix,
                    xnew: Vector, num: Numerics)
    requires Sound(num) && |x| == PortsOf(ms) && NlShaped(mats, |x|, |inWaves|) && iter < ITMAX
    requires F == Residual(mats, ms, inWaves, x, num) && J == ResidualJacobian(mats, ms, x, num)
    requires NormSquared(F) >= TOL * TOL
    requires xnew == Add(x, Scale(1.0, Direction(J, F, num)))
    ensures xnew == NewtonStep(mats, ms, inWaves, x, num)
    ensures Iterate(mats, ms, inWaves, x, iter, num) == Iterate(mats, ms, inWaves, xnew, iter + 1, num)
  {
  }

  /** The run ends where the loop condition fails. */
  lemma IterateStop(mats: MatData, ms: seq<NlModel>, inWaves: Vector, x: Vector, iter: nat, num: Numerics)
    requires Sound(num) && |x| == PortsOf(ms) && NlShaped(mats, |x|, |inWaves|) && iter <= ITMAX
    requires !(NormSquared(Residual(mats, ms, inWaves, x, num)) >= TOL * TOL && iter < ITMAX)
    ensures Iterate(mats, ms, inWaves, x, iter, num) == Outcome(x, iter)
  {
  }

  // ---------------------------------------------------------------------
  // The solver object

  class NewtonSolver {
    // Set up once by the constructor.
    const nlModels: seq<NlModel>
    const numNLPorts: nat
    const fNL: array<real>
    const JNL: array2<real>
    // Rewritten by every solve.
    var x0: Vector
    var F: Vector
    var J: Matrix
    var Fmat_fNL: Vector
    var firstRun: bool

    /** Every buffer has the total port count as its length, or as both
        of its dimensions. */
    ghost predicate Valid()
      reads this
    {
      numNLPorts == PortsOf(nlModels) &&
      |x0| == numNLPorts && |F| == numNLPorts && |Fmat_fNL| == numNLPorts &&
      IsMatrix(J, numNLPorts, numNLPorts) &&
      fNL.Length == numNLPorts && JNL.Length0 == numNLPorts && JNL.Length1 == numNLPorts
    }

    /** Builds the models of nlList in order (skipping unknown IDs), sums
        their ports and zero-fills every buffer. */
    constructor(nlList: seq<int>)
      ensures Valid() && nlModels == ModelsOf(nlList) && firstRun
      ensures x0 == Zeros(numNLPorts) && F == Zeros(numNLPorts) && Fmat_fNL == Zeros(numNLPorts)
      ensures J == ZeroMatrix(numNLPorts, numNLPorts)
      ensures fresh(fNL) && fresh(JNL)
      ensures fNL[..] == Zeros(numNLPorts) && Entries(JNL) == ZeroMatrix(numNLPorts, numNLPorts)
    {
      var models: seq<NlModel> := [];
      var i := 0;
      while i < |nlList|
        invariant 0 <= i <= |nlList|
        invariant models == ModelsOf(nlList[..i])
      {
        assert nlList[..i + 1][..i] == nlList[..i];
        var id := nlList[i];
        if id == DIODE {
          models := models + [DiodeModel];
        } else if id == DIODE_AP {
          models := models + [DiodeApModel];
        } else if id == NPN_EM {
          models := models + [NpnEmModel];
        } else if id == TRI_DW {
          models := models + [TriDwModel];
        }
        i := i + 1;
      }
      assert nlList[..i] == nlList;
      var n := 0;
      var k := 0;
      while k < |models|
        invariant 0 <= k <= |models|
        invariant n == PortsOf(models[..k])
      {
        assert models[..k + 1][..k] == models[..k];
        n := n + NumPorts(models[k]);
        k := k + 1;
      }
      assert models[..k] == models;
      nlModels := models;
      numNLPorts := n;
      x0 := Zeros(n);
      F := Zeros(n);
      J := ZeroMatrix(n, n);
      fNL := new real[n](_ => 0.0);
      JNL := new real[n, n]((_, _) => 0.0);
      Fmat_fNL := Zeros(n);
      firstRun := true;
      new;
      assert Entries(JNL) == ZeroMatrix(n, n) by {
        forall r | 0 <= r < n
          ensures Entries(JNL)[r] == ZeroMatrix(n, n)[r]
        {
        }
      }
    }

    /** getNumPorts: the total number of nonlinear ports. */
    function GetNumPorts(): (n: nat)
      requires Valid()
      reads this
      ensures n == PortsOf(nlModels)
      ensures n == fNL.Length
    {
      numNLPorts
    }

    /** The buffers hold the evaluation at x: fNL the model currents,
        JNL their Jacobian, Fmat_fNL = F fNL, F the residual and J its
        Jacobian. */
    ghost predicate EvaluatedAt(mats: MatData, inWaves: Vector, x: Vector, num: Numerics)
      reads this`F, this`J, this`Fmat_fNL, fNL, JNL
    {
      ExpPositive(num) && |x| == PortsOf(nlModels) && NlShaped(mats, |x|, |inWaves|) &&
      fNL[..] == Currents(nlModels, x, num) &&
      Entries(JNL) == Jacobian(nlModels, x, num) &&
      Fmat_fNL == MatVec(mats.Fmat, Currents(nlModels, x, num)) &&
      F == Residual(mats, nlModels, inWaves, x, num) &&
      J == ResidualJacobian(mats, nlModels, x, num)
    }

    /** evalNlModels: zeroes JNL, lets every model write its block of fNL
        and JNL at x, and sets Fmat_fNL, the residual F and its Jacobian
        J from them. */
    method EvalNlModels(inWaves: Vector, mats: MatData, x: Vector, num: Numerics)
      requires Valid() && ExpPositive(num) && |x| == numNLPorts && NlShaped(mats, numNLPorts, |inWaves|)
      modifies this`Fmat_fNL, this`F, this`J, fNL, JNL
      ensures Valid()
      ensures EvaluatedAt(mats, inWaves, x, num)
    {
      ZeroEntries(JNL);
      CalculateAll(nlModels, fNL, JNL, x, num);
      ghost var fv, Jv := fNL[..], Entries(JNL);
      var fm, r, dr := Combine(mats, nlModels, inWaves, x, fNL[..], Entries(JNL), num);
      Fmat_fNL, F, J := fm, r, dr;
      assert fNL[..] == fv && Entries(JNL) == Jv;
    }

    /** nlSolve: starts from the zero guess on the first call and from
        Fmat_fNL + E in afterwards, runs the Newton passes, leaves the last
        iterate in x0 and returns M in + N fNL for it. */
    method NlSolve(inWaves: Vector, mats: MatData, num: Numerics) returns (outWaves: Vector)
      requires Valid() && Sound(num) && NlShaped(mats, numNLPorts, |inWaves|)
      modifies this, fNL, JNL
      ensures Valid()
      ensures !firstRun
      ensures x0 == Iterate(mats, nlModels, inWaves,
        if old(firstRun) then old(x0) else Add(old(Fmat_fNL), MatVec(mats.Emat, inWaves)), 0, num).x
      ensures EvaluatedAt(mats, inWaves, x0, num)
      ensures outWaves == Add(MatVec(mats.Mmat, inWaves), MatVec(mats.Nmat, Currents(nlModels, x0, num)))
    {
      var n := numNLPorts;
      J := ZeroMatrix(n, n);
      if firstRun {
        firstRun := false;
      } else {
        x0 := Add(Fmat_fNL, MatVec(mats.Emat, inWaves));
      }
      EvalNlModels(inWaves, mats, x0, num);
      NewtonLoop(inWaves, mats, num);
      outWaves := Add(MatVec(mats.Mmat, inWaves), MatVec(mats.Nmat, fNL[..]));
    }

    /** The Newton loop of nlSolve, from the evaluation at x0: passes are
        made while the residual norm is at least TOL and fewer than ITMAX
        passes were made; x0 ends at the last iterate, evaluated. */
    method NewtonLoop(inWaves: Vector, mats: MatData, num: Numerics)
      requires Valid() && Sound(num) && EvaluatedAt(mats, inWaves, x0, num)
      modifies this`x0, this`Fmat_fNL, this`F, this`J, fNL, JNL
      ensures Valid()
      ensures EvaluatedAt(mats, inWaves, x0, num)
      ensures x0 == Iterate(mats, nlModels, inWaves, old(x0), 0, num).x
    {
      ghost var start := x0;
      var iter: nat := 0;
      var normF2 := NormSquared(F);
      while normF2 >= TOL * TOL && iter < ITMAX
        invariant Valid() && iter <= ITMAX
        invariant SameRun(mats, nlModels, inWaves, x0, iter, start, num)
        invariant EvaluatedAt(mats, inWaves, x0, num)
        invariant normF2 == NormSquared(F)
        decreases ITMAX - iter
      {
        normF2 := NewtonPass(inWaves, mats, num, iter);
        iter := iter + 1;
      }
      IterateStop(mats, nlModels, inWaves, x0, iter, num);
    }

    /** One pass of the Newton loop of nlSolve: steps x0 by the Newton
        direction with step length alpha = 1, evaluates the models at the
        new point and returns the new residual norm. */
    method NewtonPass(inWaves: Vector, mats: MatData, num: Numerics, ghost iter: nat) returns (normF2new: real)
      requires Valid() && Sound(num) && EvaluatedAt(mats, inWaves, x0, num)
      requires iter < ITMAX && NormSquared(F) >= TOL * TOL
      modifies this`x0, this`Fmat_fNL, this`F, this`J, fNL, JNL
      ensures Valid()
      ensures EvaluatedAt(mats, inWaves, x0, num) && normF2new == NormSquared(F)
      ensures Iterate(mats, nlModels, inWaves, old(x0), iter, num) == Iterate(mats, nlModels, inWaves, x0, iter + 1, num)
    {
      ghost var xold := x0;
      var p := Direction(J, F, num);
      var alpha := 1.0;
      var xnew := Add(x0, Scale(alpha, p));
      IterateStep(mats, nlModels, inWaves, x0, iter, F, J, xnew, num);
      EvalNlModels(inWaves, mats, xnew, num);
      normF2new := NormSquared(F);
      x0 := xnew;
      assert Iterate(mats, nlModels, inWaves, xold, iter, num) == Iterate(mats, nlModels, inWaves, x0, iter + 1, num);
    }
  }

  /** The last three lines of evalNlModels: Fmat_fNL = F fNL,
      F = E in + Fmat_fNL - x and J = F JNL - I. */
  method Combine(mats: MatData, ms: seq<NlModel>, inWaves: Vector, x: Vector, f: Vector, jm: Matrix, num: Numerics)
    returns (fm: Vector, r: Vector, dr: Matrix)
    requires ExpPositive(num) && |x| == PortsOf(ms) && NlShaped(mats, |x|, |inWaves|)
    requires f == Currents(ms, x, num) && jm == Jacobian(ms, x, num)
    ensures fm == MatVec(mats.Fmat, Currents(ms, x, num))
    ensures r == Residual(mats, ms, inWaves, x, num)
    ensures dr == ResidualJacobian(mats, ms, x, num)
  {
    var n := |x|;
    fm := MatVec(mats.Fmat, f);
    r := Sub(Add(MatVec(mats.Emat, inWaves), fm), x);
    dr := MatSub(MatMul(mats.Fmat, jm, n, n), Identity(n), n, n);
  }

  /** Armadillo's zeros() on a matrix held in an array. */
  method ZeroEntries(A: array2<real>)
    modifies A
    ensures forall i, j :: 0 <= i < A.Length0 && 0 <= j < A.Length1 ==> A[i, j] == 0.0
  {
    forall i, j | 0 <= i < A.Length0 && 0 <= j < A.Length1 {
      A[i, j] := 0.0;
    }
  }

  /** The model loop of evalNlModels: from cursor 0, every model in turn
      writes its block of fNL and JNL at x and advances the cursor. Over a
      zeroed JNL the result is the currents and their Jacobian. */
  method CalculateAll(ms: seq<NlModel>, fNL: array<real>, JNL: array2<real>, x: Vector, num: Numerics)
    requires ExpPositive(num) && |x| == PortsOf(ms)
    requires fNL.Length == |x| && JNL.Length0 == |x| && JNL.Length1 == |x|
    requires forall i, j :: 0 <= i < |x| && 0 <= j < |x| ==> JNL[i, j] == 0.0
    modifies fNL, JNL
    ensures fNL[..] == Currents(ms, x, num)
    ensures Entries(JNL) == Jacobian(ms, x, num)
  {
    var currentPort := 0;
    assert fNL[..0] == Currents(ms[..0], x, num);
    var k := 0;
    while k < |ms|
      invariant 0 <= k <= |ms|
      invariant currentPort == PortsOf(ms[..k]) <= |x|
      invariant fNL[..currentPort] == Currents(ms[..k], x, num)
      invariant JnlUpTo(Entries(JNL), ms[..k], x, num)
    {
      PortsOfPrefix(ms, k);
      ghost var cp := currentPort;
      ghost var fb := fNL[..];
      ghost var Jb := Entries(JNL);
      currentPort := Calculate(ms[k], fNL, JNL, x, currentPort, num);
      StepCurrents(fb, fNL[..], Jb, Entries(JNL), ms, x, k, cp, currentPort, num);
      StepJacobian(fb, fNL[..], Jb, Entries(JNL), ms, x, k, cp, currentPort, num);
      k := k + 1;
    }
    assert ms[..k] == ms && fNL[..currentPort] == fNL[..];
    JnlComplete(Entries(JNL), ms, x, num);
  }

  // ---------------------------------------------------------------------
  // The steps of the evaluation loop

  /** Jm holds the Jacobian blocks of the models written so far (ports
      below PortsOf(ms)) and zero everywhere else. */
  ghost predicate JnlUpTo(Jm: Matrix, ms: seq<NlModel>, x: Vector, num: Numerics)
    requires ExpPositive(num) && PortsOf(ms) <= |x|
  {
    forall i, j :: 0 <= i < |Jm| && 0 <= j < |Jm[i]| ==>
      Jm[i][j] == if i < PortsOf(ms) && j < PortsOf(ms) then JacEntry(ms, x, i, j, num) else 0.0
  }

  /** The ports of the first k models plus those of model k are the ports
      of the first k + 1 models, and no more than all ports. */
  lemma {:induction false} PortsOfPrefix(ms: seq<NlModel>, k: nat)
    requires k < |ms|
    ensures PortsOf(ms[..k]) + NumPorts(ms[k]) == PortsOf(ms[..k + 1]) <= PortsOf(ms)
    decreases |ms|
  {
    assert ms[..k + 1][..k] == ms[..k];
    if k + 1 < |ms| {
      var init := ms[..|ms| - 1];
      assert init[..k] == ms[..k] && init[..k + 1] == ms[..k + 1] && init[k] == ms[k];
      PortsOfPrefix(init, k);
    } else {
      assert ms[..k + 1] == ms;
    }
  }

  /** One model's call extends the written currents by its own block. */
  lemma StepCurrents(fb: Vector, fa: Vector, Jb: Matrix, Ja: Matrix, ms: seq<NlModel>, x: Vector, k: nat, cp: nat,
                     next: nat, num: Numerics)
    requires k < |ms| && |x| == PortsOf(ms) && cp == PortsOf(ms[..k]) && next == cp + NumPorts(ms[k])
    requires next == PortsOf(ms[..k + 1]) <= PortsOf(ms)
    requires ExpPositive(num) && |fb| == |x| && fb[..cp] == Currents(ms[..k], x, num)
    requires BlockWritten(fb, fa, Jb, Ja, cp, ModelCurrents(ms[k], PortVoltages(ms[k], x, cp), num),
      ModelJacobian(ms[k], PortVoltages(ms[k], x, cp), num))
    ensures fa[..next] == Currents(ms[..k + 1], x, num)
  {
    var f := ModelCurrents(ms[k], PortVoltages(ms[k], x, cp), num);
    CurrentsSnoc(ms, x, k, num);
    WrittenPrefix(fb, fa, cp, f);
  }

  /** After writing f at cp, the prefix up to the end of f is the old
      prefix followed by f. */
  lemma WrittenPrefix(fb: Vector, fa: Vector, cp: nat, f: Vector)
    requires cp + |f| <= |fb| == |fa|
    requires forall i :: 0 <= i < |fa| ==> fa[i] == if cp <= i < cp + |f| then f[i - cp] else fb[i]
    ensures fa[..cp + |f|] == fb[..cp] + f
  {
  }

  /** The currents of the first k + 1 models are those of the first k
      followed by model k's own. */
  lemma CurrentsSnoc(ms: seq<NlModel>, x: Vector, k: nat, num: Numerics)
    requires k < |ms| && PortsOf(ms[..k + 1]) <= |x|
    ensures PortsOf(ms[..k]) + NumPorts(ms[k]) == PortsOf(ms[..k + 1])
    ensures Currents(ms[..k + 1], x, num) ==
      Currents(ms[..k], x, num) + ModelCurrents(ms[k], PortVoltages(ms[k], x, PortsOf(ms[..k])), num)
  {
    assert ms[..k + 1][..k] == ms[..k] && ms[..k + 1][k] == ms[k];
  }

  /** One model's call extends the written Jacobian by its own block. */
  lemma StepJacobian(fb: Vector, fa: Vector, Jb: Matrix, Ja: Matrix, ms: seq<NlModel>, x: Vector, k: nat, cp: nat,
                     next: nat, num: Numerics)
    requires k < |ms| && |x| == PortsOf(ms) && cp == PortsOf(ms[..k]) && next == cp + NumPorts(ms[k])
    requires next == PortsOf(ms[..k + 1]) <= PortsOf(ms)
    requires ExpPositive(num) && JnlUpTo(Jb, ms[..k], x, num)
    requires BlockWritten(fb, fa, Jb, Ja, cp, ModelCurrents(ms[k], PortVoltages(ms[k], x, cp), num),
      ModelJacobian(ms[k], PortVoltages(ms[k], x, cp), num))
    ensures JnlUpTo(Ja, ms[..k + 1], x, num)
  {
    var ms' := ms[..k + 1];
    assert ms'[..|ms'| - 1] == ms[..k] && ms'[|ms'| - 1] == ms[k];
    forall i, j | 0 <= i < |Ja| && 0 <= j < |Ja[i]|
      ensures Ja[i][j] == if i < next && j < next then JacEntry(ms', x, i, j, num) else 0.0
    {
    }
  }

  /** Once all models have written, JNL is the Jacobian. */
  lemma JnlComplete(Jm: Matrix, ms: seq<NlModel>, x: Vector, num: Numerics)
    requires ExpPositive(num) && |x| == PortsOf(ms) && IsMatrix(Jm, |x|, |x|)
    requires JnlUpTo(Jm, ms, x, num)
    ensures Jm == Jacobian(ms, x, num)
  {
    forall r | 0 <= r < |x|
      ensures Jm[r] == Jacobian(ms, x, num)[r]
    {
    }
  }

  // ---------------------------------------------------------------------
  // Properties of the solver's specification

  /** Known IDs each give one model, in list order. */
  lemma {:induction false} ModelsOfAllKnown(ids: seq<int>)
    requires forall i :: 0 <= i < |ids| ==> ModelOfId(ids[i]).Some?
    ensures |ModelsOf(ids)| == |ids|
    ensures forall i :: 0 <= i < |ids| ==> ModelsOf(ids)[i] == ModelOfId(ids[i]).value
  {
    if |ids| > 0 {
      var init := ids[..|ids| - 1];
      assert forall i :: 0 <= i < |init| ==> init[i] == ids[i];
      ModelsOfAllKnown(init);
    }
  }

  /** Unknown IDs add no model. */
  lemma {:induction false} ModelsOfSkipsUnknown(ids: seq<int>, bad: seq<int>)
    requires forall i :: 0 <= i < |bad| ==> ModelOfId(bad[i]).None?
    ensures ModelsOf(ids + bad) == ModelsOf(ids)
    decreases |bad|
  {
    if |bad| > 0 {
      var init := bad[..|bad| - 1];
      var all := ids + bad;
      assert all[..|all| - 1] == ids + init && all[|all| - 1] == bad[|bad| - 1];
      assert ModelOfId(all[|all| - 1]).None?;
      assert ModelsOf(all) == ModelsOf(ids + init);
      ModelsOfSkipsUnknown(ids, init);
    } else {
      assert ids + bad == ids;
    }
  }

  /** The currents of the first k models are a prefix of the currents
      of all of them. */
  lemma {:induction false} CurrentsPrefix(ms: seq<NlModel>, x: Vector, k: nat, num: Numerics)
    requires PortsOf(ms) <= |x| && k <= |ms|
    ensures PortsOf(ms[..k]) <= PortsOf(ms)
    ensures Currents(ms, x, num)[..PortsOf(ms[..k])] == Currents(ms[..k], x, num)
    decreases |ms|
  {
    PortsBelow(ms, k);
    if k < |ms| {
      var init := ms[..|ms| - 1];
      var p := PortsOf(ms[..k]);
      var q := PortsOf(init);
      assert init[..k] == ms[..k];
      PortsBelow(init, k);
      CurrentsPrefix(init, x, k, num);
      PrefixOfConcat(Currents(init, x, num), ModelCurrents(ms[|ms| - 1], PortVoltages(ms[|ms| - 1], x, q), num), p);
    } else {
      assert ms[..k] == ms;
    }
  }

  /** The currents of model k sit at its own ports: ports
      PortsOf(ms[..k]) up to PortsOf(ms[..k + 1]) carry that model's
      currents for the voltages at those ports. */
  lemma CurrentsBlock(ms: seq<NlModel>, x: Vector, k: nat, num: Numerics)
    requires PortsOf(ms) <= |x| && k < |ms|
    ensures PortsOf(ms[..k]) + NumPorts(ms[k]) <= PortsOf(ms)
    ensures Currents(ms, x, num)[PortsOf(ms[..k])..PortsOf(ms[..k]) + NumPorts(ms[k])] ==
      ModelCurrents(ms[k], PortVoltages(ms[k], x, PortsOf(ms[..k])), num)
  {
    PortsOfPrefix(ms, k);
    var p := PortsOf(ms[..k]);
    var next := p + NumPorts(ms[k]);
    var all := Currents(ms, x, num);
    var head := Currents(ms[..k], x, num);
    var blk := ModelCurrents(ms[k], PortVoltages(ms[k], x, p), num);
    CurrentsPrefix(ms, x, k + 1, num);
    CurrentsSnoc(ms, x, k, num);
    SliceOfPrefix(all, p, next);
    SliceOfConcat(head, blk);
  }

  lemma PrefixOfConcat(a: Vector, b: Vector, p: nat)
    requires p <= |a|
    ensures (a + b)[..p] == a[..p]
  {
  }

  lemma SliceOfPrefix(a: Vector, p: nat, q: nat)
    requires p <= q <= |a|
    ensures a[p..q] == a[..q][p..]
  {
  }

  lemma SliceOfConcat(a: Vector, b: Vector)
    ensures (a + b)[|a|..] == b
  {
  }

  /** The Jacobian is block diagonal: an entry whose row and column
      belong to different models is zero. */
  lemma {:induction false} JacobianOffBlock(ms: seq<NlModel>, x: Vector, i: nat, j: nat, b: nat, num: Numerics)
    requires ExpPositive(num) && PortsOf(ms) <= |x| && i < PortsOf(ms) && j < PortsOf(ms) && b < |ms|
    requires i < PortsOf(ms[..b]) <= j || j < PortsOf(ms[..b]) <= i
    ensures JacEntry(ms, x, i, j, num) == 0.0
    decreases |ms|
  {
    var init := ms[..|ms| - 1];
    var q := PortsOf(init);
    if b < |ms| - 1 {
      assert init[..b] == ms[..b];
      PortsBelow(init, b);
      if i < q && j < q {
        JacobianOffBlock(init, x, i, j, b, num);
      }
    } else {
      assert ms[..b] == init;
    }
  }

  /** The ports of a prefix are at most the ports of the whole list. */
  lemma {:induction false} PortsBelow(ms: seq<NlModel>, b: nat)
    requires b <= |ms|
    ensures PortsOf(ms[..b]) <= PortsOf(ms)
  {
    if b < |ms| {
      PortsOfPrefix(ms, b);
    } else {
      assert ms[..b] == ms;
    }
  }

  /** The residual vanishes exactly at a fixed point of
      x = E in + F fNL(x). */
  lemma ResidualZeroIffFixedPoint(mats: MatData, ms: seq<NlModel>, inWaves: Vector, x: Vector, num: Numerics)
    requires |x| == PortsOf(ms) && NlShaped(mats, |x|, |inWaves|)
    ensures Residual(mats, ms, inWaves, x, num) == Zeros(|x|) <==>
      x == Add(MatVec(mats.Emat, inWaves), MatVec(mats.Fmat, Currents(ms, x, num)))
  {
    var r := Residual(mats, ms, inWaves, x, num);
    var y := Add(MatVec(mats.Emat, inWaves), MatVec(mats.Fmat, Currents(ms, x, num)));
    if r == Zeros(|x|) {
      forall i | 0 <= i < |x| ensures x[i] == y[i] {
        assert r[i] == y[i] - x[i];
      }
    }
    if x == y {
      forall i | 0 <= i < |x| ensures r[i] == Zeros(|x|)[i] {
      }
    }
  }

  /** The warm start Fmat_fNL + E in of a later solve is one fixed-point
      step x + F(x) from the previous solution, taken with the new input. */
  lemma WarmStartIsFixedPointStep(mats: MatData, ms: seq<NlModel>, inWaves: Vector, x: Vector, num: Numerics)
    requires |x| == PortsOf(ms) && NlShaped(mats, |x|, |inWaves|)
    ensures Add(MatVec(mats.Fmat, Currents(ms, x, num)), MatVec(mats.Emat, inWaves)) ==
      Add(x, Residual(mats, ms, inWaves, x, num))
  {
    var lhs := Add(MatVec(mats.Fmat, Currents(ms, x, num)), MatVec(mats.Emat, inWaves));
    var rhs := Add(x, Residual(mats, ms, inWaves, x, num));
    forall i | 0 <= i < |x| ensures lhs[i] == rhs[i] {
    }
  }

  /** A Newton run makes at most ITMAX passes in all. */
  lemma {:induction false} IterateWithinBudget(mats: MatData, ms: seq<NlModel>, inWaves: Vector, x: Vector, iter: nat, num: Numerics)
    requires Sound(num) && |x| == PortsOf(ms) && NlShaped(mats, |x|, |inWaves|) && iter <= ITMAX
    ensures Iterate(mats, ms, inWaves, x, iter, num).passes <= ITMAX
    decreases ITMAX - iter
  {
    if NormSquared(Residual(mats, ms, inWaves, x, num)) >= TOL * TOL && iter < ITMAX {
      IterateWithinBudget(mats, ms, inWaves, NewtonStep(mats, ms, inWaves, x, num), iter + 1, num);
    } else {
      StopWithinBudget(mats, ms, inWaves, x, iter, num);
    }
  }

  /** A run that ends where it starts stays within the budget. */
  lemma StopWithinBudget(mats: MatData, ms: seq<NlModel>, inWaves: Vector, x: Vector, iter: nat, num: Numerics)
    requires Sound(num) && |x| == PortsOf(ms) && NlShaped(mats, |x|, |inWaves|) && iter <= ITMAX
    requires !(NormSquared(Residual(mats, ms, inWaves, x, num)) >= TOL * TOL && iter < ITMAX)
    ensures Iterate(mats, ms, inWaves, x, iter, num).passes <= ITMAX
  {
    IterateStop(mats, ms, inWaves, x, iter, num);
  }

  /** What a finished Newton run guarantees: it used all ITMAX passes, or
      its residual norm is below TOL. */
  predicate Settled(mats: MatData, ms: seq<NlModel>, inWaves: Vector, r: Outcome, num: Numerics)
    requires |r.x| == PortsOf(ms) && NlShaped(mats, |r.x|, |inWaves|)
  {
    r.passes == ITMAX || NormSquared(Residual(mats, ms, inWaves, r.x, num)) < TOL * TOL
  }

  /** A run that ends where it starts is settled. */
  lemma StopSettled(mats: MatData, ms: seq<NlModel>, inWaves: Vector, x: Vector, iter: nat, num: Numerics)
    requires Sound(num) && |x| == PortsOf(ms) && NlShaped(mats, |x|, |inWaves|) && iter <= ITMAX
    requires !(NormSquared(Residual(mats, ms, inWaves, x, num)) >= TOL * TOL && iter < ITMAX)
    ensures Settled(mats, ms, inWaves, Iterate(mats, ms, inWaves, x, iter, num), num)
  {
    IterateStop(mats, ms, inWaves, x, iter, num);
  }

  /** Every Newton run ends settled: the solver stops early only once the
      residual norm is below TOL. */
  lemma {:induction false} IterateSettled(mats: MatData, ms: seq<NlModel>, inWaves: Vector, x: Vector, iter: nat, num: Numerics)
    requires Sound(num) && |x| == PortsOf(ms) && NlShaped(mats, |x|, |inWaves|) && iter <= ITMAX
    ensures Settled(mats, ms, inWaves, Iterate(mats, ms, inWaves, x, iter, num), num)
    decreases ITMAX - iter
  {
    if NormSquared(Residual(mats, ms, inWaves, x, num)) >= TOL * TOL && iter < ITMAX {
      IterateSettled(mats, ms, inWaves, NewtonStep(mats, ms, inWaves, x, num), iter + 1, num);
    } else {
      StopSettled(mats, ms, inWaves, x, iter, num);
    }
  }
}
