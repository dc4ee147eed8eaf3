// The nonlinear device models of a nonlinear root (nlModel and its
// subclasses): a single diode, an anti-parallel diode pair, an Ebers-Moll
// npn transistor and a Dempwolf triode. Each one reads the port voltages x
// at its own ports, starting at the cursor currentPort, writes the port
// currents fNL and their Jacobian JNL at the same positions, and moves the
// cursor past its ports. exp, log and pow are taken as given functions.

module NlModels {

  import opened LinAlg

  /** The model IDs a nonlinear root is built from. */
  const DIODE: int := 0
  const DIODE_AP: int := 1
  const NPN_EM: int := 10
  const TRI_DW: int := 20

  /** The elementary functions of the models and the matrix inverse of
      the Newton solver (Armadillo's inv). */
  datatype Numerics = Numerics(
    exp: real -> real, log: real -> real, pow: (real, real) -> real,
    inv: Matrix -> Matrix)

  /** What the model and the solver need of the given functions: exp is
      positive (the models divide by 1 + exp(..)) and the inverse of an
      n x n matrix is n x n. A singular matrix, whose inverse Armadillo
      refuses with an exception, is not told apart. */
  ghost predicate Sound(num: Numerics)
  {
    ExpPositive(num) &&
    (forall M: Matrix {:trigger num.inv(M)} :: IsMatrix(M, |M|, |M|) ==> IsMatrix(num.inv(M), |M|, |M|))
  }

  /** The part of Sound the models need. */
  ghost predicate ExpPositive(num: Numerics)
  {
    forall v :: num.exp(v) > 0.0
  }

  datatype NlModel = DiodeModel | DiodeApModel | NpnEmModel | TriDwModel

  /** The model the solver constructs for an ID; no model for any other
      ID. */
  function ModelOfId(id: int): (r: Option<NlModel>)
    ensures r.Some? <==> id in {DIODE, DIODE_AP, NPN_EM, TRI_DW}
    ensures id == DIODE ==> r == Some(DiodeModel)
    ensures id == DIODE_AP ==> r == Some(DiodeApModel)
    ensures id == NPN_EM ==> r == Some(NpnEmModel)
    ensures id == TRI_DW ==> r == Some(TriDwModel)
  {
    if id == DIODE then Some(DiodeModel)
    else if id == DIODE_AP then Some(DiodeApModel)
    else if id == NPN_EM then Some(NpnEmModel)
    else if id == TRI_DW then Some(TriDwModel)
    else None
  }

  datatype Option<T> = None | Some(value: T)

  /** getNumPorts: the port count each model passes to the nlModel
      constructor. */
  function NumPorts(m: NlModel): (n: nat)
    ensures n == 1 || n == 2
    ensures n == 1 <==> m.DiodeModel? || m.DiodeApModel?
  {
    match m
    case DiodeModel => 1
    case DiodeApModel => 1
    case NpnEmModel => 2
    case TriDwModel => 2
  }

  // Device constants
  const Is_DIODE: real := 2.52e-9
  const VT_DIODE: real := 0.02585
  const Is_BJT: real := 5.911e-15
  const VT_BJT: real := 0.02585
  const BETAF: real := 1.434e3
  const BETAR: real := 1.262
  const ALPHAF: real := BETAF / (1.0 + BETAF)
  const ALPHAR: real := BETAR / (1.0 + BETAR)

  const TRI_G: real := 2.242e-3
  const TRI_C: real := 3.40
  const TRI_MU: real := 103.2
  const TRI_Y: real := 1.26
  const TRI_GG: real := 6.177e-4
  const TRI_CG: real := 9.901
  const TRI_E: real := 1.314
  const TRI_IG0: real := 8.025e-8

  /** The diode current Is (e^(v/VT) - 1). */
  function DiodeCurrent(v: real, num: Numerics): real
  {
    Is_DIODE * (num.exp(v / VT_DIODE) - 1.0)
  }

  /** The triode's grid current Ig for the grid-cathode voltage vGC. */
  function TriodeGrid(vGC: real, num: Numerics): real
  {
    TRI_GG * num.pow(num.log(1.0 + num.exp(TRI_CG * vGC)) / TRI_CG, TRI_E) + TRI_IG0
  }

  /** The triode's cathode current Ik for the voltages vAC and vGC. */
  function TriodeCathode(vAC: real, vGC: real, num: Numerics): real
  {
    TRI_G * num.pow(num.log(1.0 + num.exp(TRI_C * (vAC / TRI_MU + vGC))) / TRI_C, TRI_Y)
  }

  /** The voltages at a model's own ports, read from x at the port
      cursor cp: x[cp], and x[cp + 1] for a two-port model. */
  function PortVoltages(m: NlModel, x: Vector, cp: nat): (v: Vector)
    requires cp + NumPorts(m) <= |x|
    ensures |v| == NumPorts(m)
    ensures forall i :: 0 <= i < |v| ==> v[i] == x[cp + i]
  {
    if NumPorts(m) == 1 then [x[cp]] else [x[cp], x[cp + 1]]
  }

  /** The currents a model writes for the voltages v at its own ports. */
  function ModelCurrents(m: NlModel, v: Vector, num: Numerics): (f: Vector)
    requires |v| == NumPorts(m)
    ensures |f| == NumPorts(m)
  {
    match m
    case DiodeModel => [DiodeCurrent(v[0], num)]
    case DiodeApModel =>
      var arg1 := v[0] / VT_DIODE;
      [Is_DIODE * (num.exp(arg1) - 1.0) - Is_DIODE * (num.exp(-arg1) - 1.0)]
    case NpnEmModel =>
      var eBC := num.exp(v[0] / VT_BJT);
      var eBE := num.exp(v[1] / VT_BJT);
      [-Is_BJT * (eBE - 1.0) + (Is_BJT / ALPHAR) * (eBC - 1.0),
       (Is_BJT / ALPHAF) * (eBE - 1.0) - Is_BJT * (eBC - 1.0)]
    case TriDwModel =>
      var ig := TriodeGrid(v[1], num);
      [TriodeCathode(v[0], v[1], num) - ig, ig]
  }

  /** The Jacobian a model writes for the voltages v at its own ports. */
  function ModelJacobian(m: NlModel, v: Vector, num: Numerics): (J: Matrix)
    requires ExpPositive(num) && |v| == NumPorts(m)
    ensures IsMatrix(J, NumPorts(m), NumPorts(m))
  {
    match m
    case DiodeModel =>
      [[(Is_DIODE / VT_DIODE) * num.exp(v[0] / VT_DIODE)]]
    case DiodeApModel =>
      var arg1 := v[0] / VT_DIODE;
      [[(Is_DIODE / VT_DIODE) * (num.exp(arg1) + num.exp(-arg1))]]
    case NpnEmModel =>
      var eBC := num.exp(v[0] / VT_BJT);
      var eBE := num.exp(v[1] / VT_BJT);
      [[(Is_BJT / ALPHAR / VT_BJT) * eBC, (-(Is_BJT / VT_BJT)) * eBE],
       [(-(Is_BJT / VT_BJT)) * eBC, (Is_BJT / ALPHAF / VT_BJT) * eBE]]
    case TriDwModel =>
      var eg := num.exp(TRI_CG * v[1]);
      var lg := num.log(1.0 + eg) / TRI_CG;
      var dIgdvGC := (TRI_GG * TRI_E * eg * num.pow(lg, TRI_E - 1.0)) / (1.0 + eg);
      var ek := num.exp(TRI_C * (v[0] / TRI_MU + v[1]));
      var pk := num.pow(num.log(1.0 + ek) / TRI_C, TRI_Y - 1.0);
      [[(TRI_G * TRI_Y * ek * pk) / (TRI_MU * (1.0 + ek)), (TRI_G * TRI_Y * ek * pk) / (1.0 + ek) - dIgdvGC],
       [0.0, dIgdvGC]]
  }

  /** The entries of a two-dimensional array as a matrix. */
  function Entries(A: array2<real>): (M: Matrix)
    reads A
    ensures IsMatrix(M, A.Length0, A.Length1)
    ensures forall i, j :: 0 <= i < A.Length0 && 0 <= j < A.Length1 ==> M[i][j] == A[i, j]
  {
    seq(A.Length0, i requires 0 <= i < A.Length0 reads A =>
      seq(A.Length1, j requires 0 <= j < A.Length1 reads A => A[i, j]))
  }

  /** fNL and JNL go from fb and Jb to fa and Ja by writing the block of
      ports [cp, cp + |f|): fNL there holds f and the diagonal block of JNL
      holds J; every other entry keeps its value. */
  predicate BlockWritten(fb: Vector, fa: Vector, Jb: Matrix, Ja: Matrix, cp: nat, f: Vector, J: Matrix)
  {
    IsMatrix(J, |f|, |f|) && |fa| == |fb| && |Ja| == |Jb| &&
    (forall i :: 0 <= i < |Ja| ==> |Ja[i]| == |Jb[i]|) &&
    (forall i :: 0 <= i < |fa| ==> fa[i] == if cp <= i < cp + |f| then f[i - cp] else fb[i]) &&
    (forall i, j :: 0 <= i < |Ja| && 0 <= j < |Ja[i]| ==>
       Ja[i][j] == if cp <= i < cp + |f| && cp <= j < cp + |f| then J[i - cp][j - cp] else Jb[i][j])
  }

  /** fNL and JNL hold the values fb and Jb. */
  predicate Holding(fNL: array<real>, JNL: array2<real>, fb: Vector, Jb: Matrix)
    reads fNL, JNL
  {
    |fb| == fNL.Length && IsMatrix(Jb, JNL.Length0, JNL.Length1) &&
    (forall i :: 0 <= i < fNL.Length ==> fNL[i] == fb[i]) &&
    (forall i, j :: 0 <= i < JNL.Length0 && 0 <= j < JNL.Length1 ==> JNL[i, j] == Jb[i][j])
  }

  /** fNL and JNL hold fb and Jb with the block of ports [cp, cp + |f|)
      overwritten by f and J. */
  predicate HoldingWritten(fNL: array<real>, JNL: array2<real>, fb: Vector, Jb: Matrix, cp: nat, f: Vector, J: Matrix)
    reads fNL, JNL
  {
    |fb| == fNL.Length && IsMatrix(Jb, JNL.Length0, JNL.Length1) && IsMatrix(J, |f|, |f|) &&
    (forall i :: 0 <= i < fNL.Length ==> fNL[i] == if cp <= i < cp + |f| then f[i - cp] else fb[i]) &&
    (forall i, j :: 0 <= i < JNL.Length0 && 0 <= j < JNL.Length1 ==>
       JNL[i, j] == if cp <= i < cp + |f| && cp <= j < cp + |f| then J[i - cp][j - cp] else Jb[i][j])
  }

  /** The arrays' view of a block write, as values. */
  lemma HoldingWrittenIsBlockWritten(fNL: array<real>, JNL: array2<real>, fb: Vector, Jb: Matrix, cp: nat, f: Vector, J: Matrix)
    requires HoldingWritten(fNL, JNL, fb, Jb, cp, f, J)
    ensures BlockWritten(fb, fNL[..], Jb, Entries(JNL), cp, f, J)
  {
  }

  /** Writes a one-port block. */
  method Write1(fNL: array<real>, JNL: array2<real>, cp: nat, f0: real, j00: real, ghost fb: Vector, ghost Jb: Matrix)
    requires cp < fNL.Length && cp < JNL.Length0 && cp < JNL.Length1 && Holding(fNL, JNL, fb, Jb)
    modifies fNL, JNL
    ensures HoldingWritten(fNL, JNL, fb, Jb, cp, [f0], [[j00]])
  {
    fNL[cp] := f0;
    JNL[cp, cp] := j00;
  }

  /** Writes a two-port block. */
  method Write2(fNL: array<real>, JNL: array2<real>, cp: nat, f0: real, f1: real, j00: real, j01: real, j10: real, j11: real,
                ghost fb: Vector, ghost Jb: Matrix)
    requires cp + 2 <= fNL.Length && cp + 2 <= JNL.Length0 && cp + 2 <= JNL.Length1 && Holding(fNL, JNL, fb, Jb)
    modifies fNL, JNL
    ensures HoldingWritten(fNL, JNL, fb, Jb, cp, [f0, f1], [[j00, j01], [j10, j11]])
  {
    fNL[cp] := f0;
    JNL[cp, cp] := j00;
    JNL[cp, cp + 1] := j01;
    fNL[cp + 1] := f1;
    JNL[cp + 1, cp] := j10;
    JNL[cp + 1, cp + 1] := j11;
  }

  /** The model's ports fit into x, fNL and JNL from the cursor on. */
  predicate Fits(m: NlModel, fNL: array<real>, JNL: array2<real>, x: Vector, cp: nat)
  {
    cp + NumPorts(m) <= |x| && cp + NumPorts(m) <= fNL.Length &&
    cp + NumPorts(m) <= JNL.Length0 && cp + NumPorts(m) <= JNL.Length1
  }

  /** calculate: reads x and writes fNL and JNL only at the model's own
      ports [currentPort, currentPort + getNumPorts()), then advances the
      cursor by getNumPorts(). */
  method Calculate(m: NlModel, fNL: array<real>, JNL: array2<real>, x: Vector, currentPort: nat, num: Numerics)
    returns (next: nat)
    requires ExpPositive(num) && Fits(m, fNL, JNL, x, currentPort)
    modifies fNL, JNL
    ensures next == currentPort + NumPorts(m)
    ensures BlockWritten(old(fNL[..]), fNL[..], old(Entries(JNL)), Entries(JNL), currentPort,
      ModelCurrents(m, PortVoltages(m, x, currentPort), num), ModelJacobian(m, PortVoltages(m, x, currentPort), num))
  {
    ghost var fb := fNL[..];
    ghost var Jb := Entries(JNL);
    match m {
      case DiodeModel => next := CalculateDiode(fNL, JNL, x, currentPort, num, fb, Jb);
      case DiodeApModel => next := CalculateDiodeAp(fNL, JNL, x, currentPort, num, fb, Jb);
      case NpnEmModel => next := CalculateNpnEm(fNL, JNL, x, currentPort, num, fb, Jb);
      case TriDwModel => next := CalculateTriDw(fNL, JNL, x, currentPort, num, fb, Jb);
    }
    HoldingWrittenIsBlockWritten(fNL, JNL, fb, Jb, currentPort,
      ModelCurrents(m, PortVoltages(m, x, currentPort), num), ModelJacobian(m, PortVoltages(m, x, currentPort), num));
  }

  /** diodeModel::calculate. */
  method CalculateDiode(fNL: array<real>, JNL: array2<real>, x: Vector, currentPort: nat, num: Numerics,
                   ghost fb: Vector, ghost Jb: Matrix)
    returns (next: nat)
    requires ExpPositive(num) && Fits(DiodeModel, fNL, JNL, x, currentPort) && Holding(fNL, JNL, fb, Jb)
    modifies fNL, JNL
    ensures next == currentPort + 1
    ensures HoldingWritten(fNL, JNL, fb, Jb, currentPort,
      ModelCurrents(DiodeModel, PortVoltages(DiodeModel, x, currentPort), num), ModelJacobian(DiodeModel, PortVoltages(DiodeModel, x, currentPort), num))
  {
    var cp := currentPort;
    var vd := x[cp];
    var arg1 := vd / VT_DIODE;
    var id := Is_DIODE * (num.exp(arg1) - 1.0);
    var gd := (Is_DIODE / VT_DIODE) * num.exp(arg1);
    next := cp + NumPorts(DiodeModel);
    assert PortVoltages(DiodeModel, x, cp) == [vd];
    Write1(fNL, JNL, cp, id, gd, fb, Jb);
  }

  /** diodeApModel::calculate. */
  method CalculateDiodeAp(fNL: array<real>, JNL: array2<real>, x: Vector, currentPort: nat, num: Numerics,
                   ghost fb: Vector, ghost Jb: Matrix)
    returns (next: nat)
    requires ExpPositive(num) && Fits(DiodeApModel, fNL, JNL, x, currentPort) && Holding(fNL, JNL, fb, Jb)
    modifies fNL, JNL
    ensures next == currentPort + 1
    ensures HoldingWritten(fNL, JNL, fb, Jb, currentPort,
      ModelCurrents(DiodeApModel, PortVoltages(DiodeApModel, x, currentPort), num), ModelJacobian(DiodeApModel, PortVoltages(DiodeApModel, x, currentPort), num))
  {
    var cp := currentPort;
    var vd := x[cp];
    var arg1 := vd / VT_DIODE;
    var id := Is_DIODE * (num.exp(arg1) - 1.0) - Is_DIODE * (num.exp(-arg1) - 1.0);
    var gd := (Is_DIODE / VT_DIODE) * (num.exp(arg1) + num.exp(-arg1));
    next := cp + NumPorts(DiodeApModel);
    assert PortVoltages(DiodeApModel, x, cp) == [vd];
    Write1(fNL, JNL, cp, id, gd, fb, Jb);
  }

  /** npnEmModel::calculate: port cp is base-collector, port cp + 1
      base-emitter. */
  method CalculateNpnEm(fNL: array<real>, JNL: array2<real>, x: Vector, currentPort: nat, num: Numerics,
                   ghost fb: Vector, ghost Jb: Matrix)
    returns (next: nat)
    requires ExpPositive(num) && Fits(NpnEmModel, fNL, JNL, x, currentPort) && Holding(fNL, JNL, fb, Jb)
    modifies fNL, JNL
    ensures next == currentPort + 2
    ensures HoldingWritten(fNL, JNL, fb, Jb, currentPort,
      ModelCurrents(NpnEmModel, PortVoltages(NpnEmModel, x, currentPort), num), ModelJacobian(NpnEmModel, PortVoltages(NpnEmModel, x, currentPort), num))
  {
    var cp := currentPort;
    var vBC := x[cp];
    var vBE := x[cp + 1];
    var eBC := num.exp(vBC / VT_BJT);
    var eBE := num.exp(vBE / VT_BJT);
    var iC := -Is_BJT * (eBE - 1.0) + (Is_BJT / ALPHAR) * (eBC - 1.0);
    var iE := (Is_BJT / ALPHAF) * (eBE - 1.0) - Is_BJT * (eBC - 1.0);
    var dCC := (Is_BJT / ALPHAR / VT_BJT) * eBC;
    var dCE := (-(Is_BJT / VT_BJT)) * eBE;
    var dEC := (-(Is_BJT / VT_BJT)) * eBC;
    var dEE := (Is_BJT / ALPHAF / VT_BJT) * eBE;
    next := cp + NumPorts(NpnEmModel);
    assert PortVoltages(NpnEmModel, x, cp) == [vBC, vBE];
    ghost var f := ModelCurrents(NpnEmModel, [vBC, vBE], num);
    ghost var J := ModelJacobian(NpnEmModel, [vBC, vBE], num);
    assert f[0] == iC && f[1] == iE;
    assert J[0][0] == dCC && J[0][1] == dCE && J[1][0] == dEC && J[1][1] == dEE;
    Write2(fNL, JNL, cp, iC, iE, dCC, dCE, dEC, dEE, fb, Jb);
  }

  /** triDwModel::calculate: port cp is anode-cathode, port cp + 1
      grid-cathode. The grid current is written first; the cathode entry
      subtracts it. */
  method CalculateTriDw(fNL: array<real>, JNL: array2<real>, x: Vector, currentPort: nat, num: Numerics,
                   ghost fb: Vector, ghost Jb: Matrix)
    returns (next: nat)
    requires ExpPositive(num) && Fits(TriDwModel, fNL, JNL, x, currentPort) && Holding(fNL, JNL, fb, Jb)
    modifies fNL, JNL
    ensures next == currentPort + 2
    ensures HoldingWritten(fNL, JNL, fb, Jb, currentPort,
      ModelCurrents(TriDwModel, PortVoltages(TriDwModel, x, currentPort), num), ModelJacobian(TriDwModel, PortVoltages(TriDwModel, x, currentPort), num))
  {
    var cp := currentPort;
    var vAC := x[cp];
    var vAC_mu := vAC / TRI_MU;
    var vGC := x[cp + 1];
    var eg := num.exp(TRI_CG * vGC);
    var lg := num.log(1.0 + eg) / TRI_CG;
    var ig := TRI_GG * num.pow(lg, TRI_E) + TRI_IG0;
    var dIg := (TRI_GG * TRI_E * eg * num.pow(lg, TRI_E - 1.0)) / (1.0 + eg);
    var ek := num.exp(TRI_C * (vAC_mu + vGC));
    var pk := num.pow(num.log(1.0 + ek) / TRI_C, TRI_Y - 1.0);
    var ik := TRI_G * num.pow(num.log(1.0 + ek) / TRI_C, TRI_Y) - ig;
    var dAA := (TRI_G * TRI_Y * ek * pk) / (TRI_MU * (1.0 + ek));
    var dAG := (TRI_G * TRI_Y * ek * pk) / (1.0 + ek) - dIg;
    next := cp + NumPorts(TriDwModel);
    assert PortVoltages(TriDwModel, x, cp) == [vAC, vGC];
    ghost var f := ModelCurrents(TriDwModel, [vAC, vGC], num);
    ghost var J := ModelJacobian(TriDwModel, [vAC, vGC], num);
    assert f[0] == ik && f[1] == ig;
    assert J[0][0] == dAA && J[0][1] == dAG && J[1][0] == 0.0 && J[1][1] == dIg;
    Write2(fNL, JNL, cp, ik, ig, dAA, dAG, 0.0, dIg, fb, Jb);
  }

  // ---------------------------------------------------------------------
  // Properties of the device laws

  /** The diode carries no current at zero voltage whenever e^0 = 1. */
  lemma DiodeAtRest(num: Numerics)
    requires num.exp(0.0) == 1.0
    ensures ModelCurrents(DiodeModel, [0.0], num) == [0.0]
  {
  }

  /** The anti-parallel pair is symmetric for any exponential: its current
      is odd and its conductance even in the voltage. */
  lemma AntiParallelSymmetric(v: real, num: Numerics)
    requires ExpPositive(num)
    ensures ModelCurrents(DiodeApModel, [-v], num)[0] == -ModelCurrents(DiodeApModel, [v], num)[0]
    ensures ModelJacobian(DiodeApModel, [-v], num)[0][0] == ModelJacobian(DiodeApModel, [v], num)[0][0]
  {
    assert -v / VT_DIODE == -(v / VT_DIODE);
    assert -(-v / VT_DIODE) == v / VT_DIODE;
  }

  /** The anti-parallel pair is two single diodes in opposite directions. */
  lemma AntiParallelIsTwoDiodes(v: real, num: Numerics)
    ensures ModelCurrents(DiodeApModel, [v], num)[0] == DiodeCurrent(v, num) - DiodeCurrent(-v, num)
  {
    assert -v / VT_DIODE == -(v / VT_DIODE);
  }

  /** The triode's first port carries the cathode current less the grid
      current, its second the grid current, and the grid current does not
      depend on the anode voltage. */
  lemma TriodeCurrents(vAC: real, vGC: real, num: Numerics)
    requires ExpPositive(num)
    ensures ModelCurrents(TriDwModel, [vAC, vGC], num)[1] == TriodeGrid(vGC, num)
    ensures ModelCurrents(TriDwModel, [vAC, vGC], num)[0] == TriodeCathode(vAC, vGC, num) - TriodeGrid(vGC, num)
    ensures ModelJacobian(TriDwModel, [vAC, vGC], num)[1][0] == 0.0
    ensures forall w :: ModelCurrents(TriDwModel, [w, vGC], num)[1] == ModelCurrents(TriDwModel, [vAC, vGC], num)[1]
  {
  }

  // ---------------------------------------------------------------------
  // The Jacobian block is the derivative of the currents. The given
  // functions have no derivatives here, so each model states the
  // identities the chain rule forces between its JNL block and its fNL
  // entries (with e' = e, log' = 1/u and pow'(u, p) = p pow(u, p - 1)).

  /** pow(u, p) = u pow(u, p - 1) for positive u, and log is positive
      above 1. */
  ghost predicate PowLogRules(num: Numerics)
  {
    (forall u, p, q {:trigger num.pow(u, p), num.pow(u, q)} ::
       u > 0.0 && q == p - 1.0 ==> num.pow(u, p) == u * num.pow(u, q)) &&
    (forall y {:trigger num.log(y)} :: y > 1.0 ==> num.log(y) > 0.0)
  }

  /** The diode's conductance is dI/dv = (I + Is)/VT. */
  lemma DiodeSlope(v: real, num: Numerics)
    requires ExpPositive(num)
    ensures VT_DIODE * ModelJacobian(DiodeModel, [v], num)[0][0] == ModelCurrents(DiodeModel, [v], num)[0] + Is_DIODE
  {
  }

  /** The pair's conductance is the sum of its two diodes' slopes, the
      one at v and the one at -v. */
  lemma AntiParallelSlope(v: real, num: Numerics)
    requires ExpPositive(num)
    ensures VT_DIODE * ModelJacobian(DiodeApModel, [v], num)[0][0] ==
      (DiodeCurrent(v, num) + Is_DIODE) + (DiodeCurrent(-v, num) + Is_DIODE)
  {
    assert -v / VT_DIODE == -(v / VT_DIODE);
  }

  /** Each of the transistor's currents is a sum of one exponential term
      per junction: column j of the Jacobian is the derivative of the
      terms in v_j, so the columns are in the ratio of the terms'
      coefficients and each row sums to the current's slope. */
  lemma NpnEmSlopes(vBC: real, vBE: real, num: Numerics)
    requires ExpPositive(num)
    ensures var f := ModelCurrents(NpnEmModel, [vBC, vBE], num);
            var J := ModelJacobian(NpnEmModel, [vBC, vBE], num);
      VT_BJT * (J[0][0] + J[0][1]) == f[0] + Is_BJT / ALPHAR - Is_BJT &&
      VT_BJT * (J[1][0] + J[1][1]) == f[1] + Is_BJT / ALPHAF - Is_BJT &&
      J[1][0] == -ALPHAR * J[0][0] &&
      J[0][1] == -ALPHAF * J[1][1]
  {
  }

  /** The triode's grid current Ig does not depend on vAC, and its slope
      in vGC is E e_g (Ig - Ig0)/((1 + e_g) l_g), with e_g = e^(Cg vGC)
      and l_g = log(1 + e_g)/Cg. */
  lemma TriodeGridSlope(vAC: real, vGC: real, num: Numerics)
    requires ExpPositive(num) && PowLogRules(num)
    ensures var f := ModelCurrents(TriDwModel, [vAC, vGC], num);
            var J := ModelJacobian(TriDwModel, [vAC, vGC], num);
            var eg := num.exp(TRI_CG * vGC);
            var lg := num.log(1.0 + eg) / TRI_CG;
      J[1][0] == 0.0 &&
      J[1][1] * (1.0 + eg) * lg == TRI_E * eg * (f[1] - TRI_IG0)
  {
    var f := ModelCurrents(TriDwModel, [vAC, vGC], num);
    var J := ModelJacobian(TriDwModel, [vAC, vGC], num);
    var eg := num.exp(TRI_CG * vGC);
    var lg := num.log(1.0 + eg) / TRI_CG;
    assert num.log(1.0 + eg) > 0.0;
    var pg := num.pow(lg, TRI_E - 1.0);
    assert num.pow(lg, TRI_E) == lg * pg;
    PowerSlope(J[1][1], TRI_GG, TRI_E, eg, lg, pg, f[1] - TRI_IG0);
  }

  /** The triode's cathode current Ik = f0 + f1 has slope
      y e_k Ik/(mu (1 + e_k) l_k) in vAC and mu times that in vGC, with
      e_k = e^(C (vAC/mu + vGC)) and l_k = log(1 + e_k)/C; the entries
      of the first row take off the grid current's slopes. */
  lemma TriodeCathodeSlopes(vAC: real, vGC: real, num: Numerics)
    requires ExpPositive(num) && PowLogRules(num)
    ensures var f := ModelCurrents(TriDwModel, [vAC, vGC], num);
            var J := ModelJacobian(TriDwModel, [vAC, vGC], num);
            var ek := num.exp(TRI_C * (vAC / TRI_MU + vGC));
            var lk := num.log(1.0 + ek) / TRI_C;
      TRI_MU * J[0][0] * (1.0 + ek) * lk == TRI_Y * ek * (f[0] + f[1]) &&
      J[0][1] == TRI_MU * J[0][0] - J[1][1]
  {
    var f := ModelCurrents(TriDwModel, [vAC, vGC], num);
    var J := ModelJacobian(TriDwModel, [vAC, vGC], num);
    var ek := num.exp(TRI_C * (vAC / TRI_MU + vGC));
    var lk := num.log(1.0 + ek) / TRI_C;
    assert num.log(1.0 + ek) > 0.0;
    var pk := num.pow(lk, TRI_Y - 1.0);
    assert num.pow(lk, TRI_Y) == lk * pk;
    var X := TRI_G * TRI_Y * ek * pk;
    assert TRI_MU * J[0][0] == X / (1.0 + ek) by {
      ScaledQuotient(X, TRI_MU, 1.0 + ek);
    }
    PowerSlope(TRI_MU * J[0][0], TRI_G, TRI_Y, ek, lk, pk, f[0] + f[1]);
  }

  /** The algebra of d/dv (g pow(log(1 + e^(cv))/c, y)): with
      s = g y e p/(1 + e) and I = g l p, s (1 + e) l = y e I. */
  lemma PowerSlope(s: real, g: real, y: real, e: real, l: real, p: real, I: real)
    requires e > 0.0 && s == (g * y * e * p) / (1.0 + e) && I == g * (l * p)
    ensures s * (1.0 + e) * l == y * e * I
  {
    assert s * (1.0 + e) == g * y * e * p;
  }

  /** mu (X / (mu d)) = X / d. */
  lemma ScaledQuotient(X: real, mu: real, d: real)
    requires mu != 0.0 && d != 0.0
    ensures mu * (X / (mu * d)) == X / d
  {
  }
}
