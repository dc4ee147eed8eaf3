// Dense vectors and matrices over the reals: the small part of the
// Armadillo vocabulary (`vec`, `mat`, `*`, `+`, `-`, `eye`, `zeros`) that
// the scattering tree and the Newton solver use.

module LinAlg {

  type Vector = seq<real>
  type Matrix = seq<seq<real>>

  /** M has `rows` rows of `cols` entries each. */
  predicate IsMatrix(M: Matrix, rows: nat, cols: nat)
  {
    |M| == rows && forall i :: 0 <= i < rows ==> |M[i]| == cols
  }

  /** Every row of M has as many entries as v. */
  predicate RowsFit(M: Matrix, v: Vector)
  {
    forall i :: 0 <= i < |M| ==> |M[i]| == |v|
  }

  /** The dot product of u and v. */
  function Dot(u: Vector, v: Vector): real
    requires |u| == |v|
  {
    DotFrom(u, v, 0)
  }

  /** The sum of u[k] * v[k] for k from `from` to the end. */
  function DotFrom(u: Vector, v: Vector, from: nat): real
    requires |u| == |v| && from <= |u|
    decreases |u| - from
  {
    if from == |u| then 0.0 else u[from] * v[from] + DotFrom(u, v, from + 1)
  }

  /** Shifting both index ranges by one: the sum over u from k + 1 with
      w, where w is v behind one extra entry, is the sum over u[1..] and v
      from k. */
  lemma {:induction false} DotFromShift(u: Vector, w: Vector, v: Vector, k: nat)
    requires |u| == |w| == |v| + 1 && k <= |v|
    requires forall i :: 0 <= i < |v| ==> w[i + 1] == v[i]
    ensures DotFrom(u, w, k + 1) == DotFrom(u[1..], v, k)
    decreases |v| - k
  {
    if k < |v| {
      DotFromShift(u, w, v, k + 1);
    }
  }

  /** Dot product with a vector whose first entry is split off. */
  lemma DotHead(u: Vector, x: real, v: Vector)
    requires |u| == |v| + 1
    ensures Dot(u, [x] + v) == u[0] * x + Dot(u[1..], v)
  {
    DotFromShift(u, [x] + v, v, 0);
  }

  /** The squared 2-norm of v. */
  function NormSquared(v: Vector): real
  {
    Dot(v, v)
  }

  function Zeros(n: nat): (r: Vector)
    ensures |r| == n && forall i :: 0 <= i < n ==> r[i] == 0.0
  {
    seq(n, i => 0.0)
  }

  function ZeroMatrix(rows: nat, cols: nat): (r: Matrix)
    ensures IsMatrix(r, rows, cols)
    ensures forall i, j :: 0 <= i < rows && 0 <= j < cols ==> r[i][j] == 0.0
  {
    seq(rows, i => Zeros(cols))
  }

  function Identity(n: nat): (r: Matrix)
    ensures IsMatrix(r, n, n)
    ensures forall i, j :: 0 <= i < n && 0 <= j < n ==> r[i][j] == if i == j then 1.0 else 0.0
  {
    seq(n, i => seq(n, j => if i == j then 1.0 else 0.0))
  }

  function Add(u: Vector, v: Vector): (r: Vector)
    requires |u| == |v|
    ensures |r| == |u| && forall i :: 0 <= i < |u| ==> r[i] == u[i] + v[i]
  {
    seq(|u|, i requires 0 <= i < |u| => u[i] + v[i])
  }

  function Sub(u: Vector, v: Vector): (r: Vector)
    requires |u| == |v|
    ensures |r| == |u| && forall i :: 0 <= i < |u| ==> r[i] == u[i] - v[i]
  {
    seq(|u|, i requires 0 <= i < |u| => u[i] - v[i])
  }

  function Scale(c: real, v: Vector): (r: Vector)
    ensures |r| == |v| && forall i :: 0 <= i < |v| ==> r[i] == c * v[i]
  {
    seq(|v|, i requires 0 <= i < |v| => c * v[i])
  }

  function MatVec(M: Matrix, v: Vector): (r: Vector)
    requires RowsFit(M, v)
    ensures |r| == |M| && forall i :: 0 <= i < |M| ==> r[i] == Dot(M[i], v)
  {
    seq(|M|, i requires 0 <= i < |M| => Dot(M[i], v))
  }

  /** Column j of a matrix whose rows all have more than j entries. */
  function Column(M: Matrix, j: nat): (r: Vector)
    requires forall i :: 0 <= i < |M| ==> j < |M[i]|
    ensures |r| == |M| && forall i :: 0 <= i < |M| ==> r[i] == M[i][j]
  {
    seq(|M|, i requires 0 <= i < |M| => M[i][j])
  }

  function MatMul(A: Matrix, B: Matrix, inner: nat, cols: nat): (r: Matrix)
    requires IsMatrix(B, inner, cols) && RowsFit(A, Zeros(inner))
    ensures IsMatrix(r, |A|, cols)
    ensures forall i, j :: 0 <= i < |A| && 0 <= j < cols ==> r[i][j] == Dot(A[i], Column(B, j))
  {
    seq(|A|, i requires 0 <= i < |A| => seq(cols, j requires 0 <= j < cols => Dot(A[i], Column(B, j))))
  }

  function MatSub(A: Matrix, B: Matrix, rows: nat, cols: nat): (r: Matrix)
    requires IsMatrix(A, rows, cols) && IsMatrix(B, rows, cols)
    ensures IsMatrix(r, rows, cols)
    ensures forall i, j :: 0 <= i < rows && 0 <= j < cols ==> r[i][j] == A[i][j] - B[i][j]
  {
    seq(rows, i requires 0 <= i < rows => seq(cols, j requires 0 <= j < cols => A[i][j] - B[i][j]))
  }

  lemma Dot3(u: Vector, v: Vector)
    requires |u| == 3 && |v| == 3
    ensures Dot(u, v) == u[0] * v[0] + u[1] * v[1] + u[2] * v[2]
  {
    assert DotFrom(u, v, 3) == 0.0;
    assert DotFrom(u, v, 2) == u[2] * v[2];
    assert DotFrom(u, v, 1) == u[1] * v[1] + u[2] * v[2];
    assert DotFrom(u, v, 0) == u[0] * v[0] + (u[1] * v[1] + u[2] * v[2]);
  }
}
