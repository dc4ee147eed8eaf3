// wdfTerminatedRtype_RT1: the R-type adaptor the switchable attenuator
// defines for itself. It supplies the two hooks a terminated R-type adaptor
// leaves to its user: the up port resistance and the 3x3 scattering matrix.

module SwitchTreeRtype {

  import opened LinAlg

  /** calculateUpRes of RT1: the series law Rup = Rleft + Rright. */
  function RT1UpRes(Rl: real, Rr: real): (r: real)
    ensures Rl > 0.0 && Rr > 0.0 ==> r > Rl && r > Rr
  {
    Rl + Rr
  }

  /** The left coefficient yl that calculateScatterCoeffs of RT1 derives. */
  function RT1Yl(Ru: real, Rl: real, Rr: real): real
    requires Ru + Rl + Rr != 0.0
  {
    2.0 * Rl / (Ru + Rl + Rr)
  }

  /** The scattering matrix calculateScatterCoeffs of RT1 writes into S,
      row by row: (1-yu, -yu, -yu), (-yl, 1-yl, -yl), (-yr, -yr, 1-yr)
      with yu = 1 and yr = 1 - yl. */
  function RT1Matrix(Ru: real, Rl: real, Rr: real): (S: Matrix)
    requires Ru + Rl + Rr != 0.0
    ensures IsMatrix(S, 3, 3)
  {
    var yu := 1.0;
    var yl := RT1Yl(Ru, Rl, Rr);
    var yr := 1.0 - yl;
    [[1.0 - yu, -yu, -yu],
     [-yl, 1.0 - yl, -yl],
     [-yr, -yr, 1.0 - yr]]
  }

  /** The weight vector y = (1, yl, 1 - yl) of RT1. */
  function RT1Weights(Ru: real, Rl: real, Rr: real): (y: Vector)
    requires Ru + Rl + Rr != 0.0
    ensures |y| == 3 && y[0] == 1.0 && y[1] + y[2] == 1.0
  {
    [1.0, RT1Yl(Ru, Rl, Rr), 1.0 - RT1Yl(Ru, Rl, Rr)]
  }

  /** Every entry of the RT1 matrix is S(i,j) = [i == j] - y_i. */
  lemma RT1MatrixEntries(Ru: real, Rl: real, Rr: real)
    requires Ru + Rl + Rr != 0.0
    ensures forall i, j :: 0 <= i < 3 && 0 <= j < 3 ==>
      RT1Matrix(Ru, Rl, Rr)[i][j] == (if i == j then 1.0 else 0.0) - RT1Weights(Ru, Rl, Rr)[i]
  {
  }

  /** Adapted (Ru = Rl + Rr) with positive children, the left coefficient is
      the share Rl / (Rl + Rr) of the up port resistance, strictly between
      0 and 1. */
  lemma RT1Adapted(Rl: real, Rr: real)
    requires Rl > 0.0 && Rr > 0.0
    ensures RT1Yl(RT1UpRes(Rl, Rr), Rl, Rr) == Rl / (Rl + Rr)
    ensures 0.0 < RT1Yl(RT1UpRes(Rl, Rr), Rl, Rr) < 1.0
  {
    var Ru := RT1UpRes(Rl, Rr);
    assert Ru + Rl + Rr == 2.0 * (Rl + Rr);
    calc {
      RT1Yl(Ru, Rl, Rr);
      2.0 * Rl / (2.0 * (Rl + Rr));
      Rl / (Rl + Rr);
    }
    assert Rl / (Rl + Rr) < 1.0 by {
      assert Rl < Rl + Rr;
    }
  }

  /** Whenever the weights sum to 2 (1 + yl + yr with yl + yr = 1) the
      scattering matrix is its own inverse: scattering twice gives back the
      incident waves. */
  lemma RT1Involution(Ru: real, Rl: real, Rr: real)
    requires Ru + Rl + Rr != 0.0
    ensures MatMul(RT1Matrix(Ru, Rl, Rr), RT1Matrix(Ru, Rl, Rr), 3, 3) == Identity(3)
  {
    var S := RT1Matrix(Ru, Rl, Rr);
    var P := MatMul(S, S, 3, 3);
    forall i | 0 <= i < 3
      ensures P[i] == Identity(3)[i]
    {
      forall j | 0 <= j < 3
        ensures P[i][j] == Identity(3)[i][j]
      {
        RT1ProductEntry(Ru, Rl, Rr, i, j);
      }
    }
  }

  /** Entry (i, j) of S times S. */
  lemma RT1ProductEntry(Ru: real, Rl: real, Rr: real, i: nat, j: nat)
    requires Ru + Rl + Rr != 0.0 && i < 3 && j < 3
    ensures Dot(RT1Matrix(Ru, Rl, Rr)[i], Column(RT1Matrix(Ru, Rl, Rr), j)) == if i == j then 1.0 else 0.0
  {
    var S := RT1Matrix(Ru, Rl, Rr);
    var y := RT1Weights(Ru, Rl, Rr);
    RT1MatrixEntries(Ru, Rl, Rr);
    Dot3(S[i], Column(S, j));
    WeightedEntry(y[0], y[1], y[2], i, j);
  }

  /** With weights summing to 2, sum over k of ([i == k] - y_i)([k == j] - y_k)
      is [i == j]. */
  lemma WeightedEntry(y0: real, y1: real, y2: real, i: nat, j: nat)
    requires y0 + y1 + y2 == 2.0 && i < 3 && j < 3
    ensures var y := [y0, y1, y2];
      var d := (k: nat, l: nat) => if k == l then 1.0 else 0.0;
      (d(i, 0) - y[i]) * (d(0, j) - y0) + (d(i, 1) - y[i]) * (d(1, j) - y1) + (d(i, 2) - y[i]) * (d(2, j) - y2)
        == d(i, j)
  {
    var yi := [y0, y1, y2][i];
    assert yi * y0 + yi * y1 + yi * y2 == yi * 2.0;
  }
}
