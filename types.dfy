// The plain value types the roots, the solver and the trees share: the
// root matrices (matData) and the description of a tree parameter
// (paramType, paramData).

module Types {

  import opened LinAlg

  /** matData: the matrices of an R-type or a nonlinear root. The R-type
      root uses only Smat, the nonlinear root only Emat, Fmat, Mmat and
      Nmat; Tmat is carried and used by no root. */
  datatype MatData = MatData(Smat: Matrix, Emat: Matrix, Fmat: Matrix, Mmat: Matrix, Nmat: Matrix, Tmat: Matrix)

  /** The shape the R-type root needs: S is numBr x numBr. */
  predicate RtypeShaped(m: MatData, numBr: nat)
  {
    IsMatrix(m.Smat, numBr, numBr)
  }

  /** The shapes the nonlinear root needs, for numNl nonlinear ports and
      numBr ports towards the subtrees: E is numNl x numBr, F is
      numNl x numNl, M is numBr x numBr and N is numBr x numNl. */
  predicate NlShaped(m: MatData, numNl: nat, numBr: nat)
  {
    IsMatrix(m.Emat, numNl, numBr) && IsMatrix(m.Fmat, numNl, numNl) &&
    IsMatrix(m.Mmat, numBr, numBr) && IsMatrix(m.Nmat, numBr, numNl)
  }

  /** paramType: a parameter is either a switch or a continuous value. */
  datatype ParamType = BoolParam | DoubleParam

  /** paramData: one user parameter of a tree. */
  datatype ParamData = ParamData(
    name: string, ID: nat, ptype: ParamType, value: real, units: string, lowLim: real, highLim: real)

  /** The value of a parameter lies in its declared range. */
  predicate InRange(p: ParamData)
  {
    p.lowLim <= p.value <= p.highLim
  }
}
