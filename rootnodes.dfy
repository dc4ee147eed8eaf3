// wdfRootNode and the unterminated elements that can sit at the root of a
// tree: the switch, the unadapted capacitor, inductor and resistor, and the
// ideal voltage and current sources. Each reflects the wave that ascends
// from its subtree in closed form; the capacitor and the inductor remember
// the waves of the previous sample.

module RootNodes {

  import opened Waves

  /** size_t holds the port index: it counts modulo 2^64. */
  const SizeRange: int := 0x1_0000_0000_0000_0000

  type SizeT = x: int | 0 <= x < SizeRange

  /** portIndex + numPorts in size_t arithmetic. */
  function SizeAdd(x: SizeT, y: SizeT): (r: SizeT)
    ensures x + y < SizeRange ==> r == x + y
    ensures x + y >= SizeRange ==> r == x + y - SizeRange
  {
    (x + y) % SizeRange
  }

  /** The kind of unterminated element, with the constants it keeps. */
  datatype RootElement =
    | Switch(position: int)
    | Cap(C: real, T: real)
    | Ind(L: real, T: real)
    | Res(R: real)
    | VSource(Vs: real)
    | CSource(Is: real)

  /** A root node as a value: its element, the members Rp and numPorts of
      wdfRootNode, and prevA, prevB and reflectionCoeff of the elements that
      have them. */
  datatype RootVal = RootVal(elem: RootElement, Rp: real, numPorts: SizeT, prevA: real, prevB: real, rc: real)

  /** The wave calculateDownB sends back down for the ascending wave a. */
  function ReflectedWave(s: RootVal, a: real): real
  {
    match s.elem
    case Switch(position) => if position == 0 then 1.0 * a else -1.0 * a
    case Cap(_, _) => s.rc * s.prevB - s.rc * a + s.prevA
    case Ind(_, _) => -s.rc * s.prevB - s.rc * a - s.prevA
    case Res(_) => s.rc * a
    case VSource(Vs) => 2.0 * Vs - a
    case CSource(Is) => 2.0 * s.Rp * Is + a
  }

  /** The state calculateDownB leaves: the capacitor and the inductor keep
      the ascending and the reflected wave; nothing else changes. */
  function AfterDownB(s: RootVal, a: real): (r: RootVal)
    ensures r.elem == s.elem && r.Rp == s.Rp && r.numPorts == s.numPorts && r.rc == s.rc
    ensures s.elem.Cap? || s.elem.Ind? ==> r.prevA == a && r.prevB == ReflectedWave(s, a)
    ensures !(s.elem.Cap? || s.elem.Ind?) ==> r == s
  {
    if s.elem.Cap? || s.elem.Ind? then s.(prevA := a, prevB := ReflectedWave(s, a)) else s
  }

  /** The port resistance of the component itself: T/(2C) for the
      capacitor, 2L/T for the inductor, R for the resistor. */
  function ComponentRes(e: RootElement): real
    requires e.Cap? ==> e.C != 0.0
    requires e.Ind? ==> e.T != 0.0
  {
    match e
    case Cap(C, T) => T / (2.0 * C)
    case Ind(L, T) => 2.0 * L / T
    case Res(R) => R
    case _ => 0.0
  }

  /** setPortResistance can compute a reflection coefficient for the
      subtree port resistance R without dividing by zero. */
  predicate CoeffDefined(e: RootElement, R: real)
  {
    (e.Cap? ==> e.C != 0.0 && R + e.T / (2.0 * e.C) != 0.0) &&
    (e.Ind? ==> e.T != 0.0 && R + 2.0 * e.L / e.T != 0.0) &&
    (e.Res? ==> e.R + R != 0.0)
  }

  /** The reflection coefficient setPortResistance stores for the subtree
      port resistance R. */
  function ReflectionCoeff(e: RootElement, R: real): real
    requires e.Cap? || e.Ind? || e.Res?
    requires CoeffDefined(e, R)
  {
    match e
    case Cap(C, T) => (R - T / (2.0 * C)) / (R + (T / (2.0 * C)))
    case Ind(L, T) => (R - 2.0 * L / T) / (R + 2.0 * L / T)
    case Res(Rc) => (Rc - R) / (Rc + R)
  }

  /** The state setPortResistance leaves. The member Rp is assigned to
      itself, so it keeps its value; the C, L and R elements store their
      reflection coefficient. */
  function AfterSetPortResistance(s: RootVal, R: real): (r: RootVal)
    requires CoeffDefined(s.elem, R)
    ensures r.Rp == s.Rp && r.elem == s.elem && r.numPorts == s.numPorts
    ensures r.prevA == s.prevA && r.prevB == s.prevB
    ensures s.elem.Cap? || s.elem.Ind? || s.elem.Res? ==> r.rc == ReflectionCoeff(s.elem, R)
    ensures !(s.elem.Cap? || s.elem.Ind? || s.elem.Res?) ==> r == s
  {
    if s.elem.Cap? || s.elem.Ind? || s.elem.Res? then s.(rc := ReflectionCoeff(s.elem, R)) else s
  }

  /** The port of the root node towards its subtree, seen from the root:
      the ascending wave enters it, the reflected wave leaves it. */
  function RootPort(R: real, a: real, b: real): Port
  {
    Port(R, if R == 0.0 then 0.0 else 1.0 / R, a, b)
  }

  class RootNode {
    var elem: RootElement
    /** Rp of wdfRootNode. No code assigns it: the constructors leave it
        unset and every setPortResistance assigns its parameter to
        itself. */
    var Rp: real
    /** numPorts of wdfRootNode. The constructor assigns its parameter to
        itself, so the member is never set either. */
    var numPorts: SizeT
    var prevA: real
    var prevB: real
    var reflectionCoeff: real

    function Val(): RootVal
      reads this
    {
      RootVal(elem, Rp, numPorts, prevA, prevB, reflectionCoeff)
    }

    /** wdfUnterminatedSwitch(position). */
    constructor UnterminatedSwitch(position: int)
      ensures elem == Switch(position)
    {
      elem := Switch(position);
    }

    /** wdfUnterminatedCap(C, T): both remembered waves start at zero; the
        reflection coefficient is left for setPortResistance. */
    constructor UnterminatedCap(C: real, T: real)
      ensures elem == Cap(C, T) && prevA == 0.0 && prevB == 0.0
    {
      elem := Cap(C, T);
      prevA := 0.0;
      prevB := 0.0;
    }

    /** wdfUnterminatedInd(L, T). */
    constructor UnterminatedInd(L: real, T: real)
      ensures elem == Ind(L, T) && prevA == 0.0 && prevB == 0.0
    {
      elem := Ind(L, T);
      prevA := 0.0;
      prevB := 0.0;
    }

    /** wdfUnterminatedRes(R). */
    constructor UnterminatedRes(R: real)
      ensures elem == Res(R)
    {
      elem := Res(R);
    }

    /** wdfIdealVSource(Vs). */
    constructor IdealVSource(Vs: real)
      ensures elem == VSource(Vs)
    {
      elem := VSource(Vs);
    }

    /** wdfIdealCSource(Is). */
    constructor IdealCSource(Is: real)
      ensures elem == CSource(Is)
    {
      elem := CSource(Is);
    }

    /** calculateDownB: writes the reflected wave at portIndex into the
        descending waves and advances the index by numPorts. The switch
        indexes without a bounds check, every other element through at(),
        which throws outside the vector; both need portIndex inside the two
        vectors. */
    method CalculateDownB(asc: seq<real>, desc: seq<real>, portIndex: SizeT) returns (desc': seq<real>, next: SizeT)
      requires portIndex < |asc| && portIndex < |desc|
      modifies this
      ensures desc' == desc[portIndex := ReflectedWave(old(Val()), asc[portIndex])]
      ensures Val() == AfterDownB(old(Val()), asc[portIndex])
      ensures next == SizeAdd(portIndex, numPorts)
    {
      var a := asc[portIndex];
      match elem {
        case Switch(position) =>
          if position == 0 {
            desc' := desc[portIndex := 1.0 * a];
          } else {
            desc' := desc[portIndex := -1.0 * a];
          }
        case Cap(_, _) =>
          desc' := desc[portIndex := reflectionCoeff * prevB - reflectionCoeff * a + prevA];
          prevB := desc'[portIndex];
          prevA := a;
        case Ind(_, _) =>
          desc' := desc[portIndex := -reflectionCoeff * prevB - reflectionCoeff * a - prevA];
          prevB := desc'[portIndex];
          prevA := a;
        case Res(_) =>
          desc' := desc[portIndex := reflectionCoeff * a];
        case VSource(Vs) =>
          desc' := desc[portIndex := 2.0 * Vs - a];
        case CSource(Is) =>
          desc' := desc[portIndex := 2.0 * Rp * Is + a];
      }
      assert desc'[portIndex] == ReflectedWave(old(Val()), a);
      next := SizeAdd(portIndex, numPorts);
    }

    /** setPortResistance(R): Rp stays as it was; the C, L and R elements
        derive their reflection coefficient from R. */
    method SetPortResistance(R: real)
      requires CoeffDefined(elem, R)
      modifies this
      ensures Val() == AfterSetPortResistance(old(Val()), R)
    {
      match elem {
        case Cap(C, T) =>
          reflectionCoeff := (R - T / (2.0 * C)) / (R + (T / (2.0 * C)));
        case Ind(L, T) =>
          reflectionCoeff := (R - 2.0 * L / T) / (R + 2.0 * L / T);
        case Res(Rc) =>
          reflectionCoeff := (Rc - R) / (Rc + R);
        case _ =>
      }
    }

    /** getNumPorts: the member numPorts. */
    function GetNumPorts(): (n: SizeT)
      reads this
      ensures n == Val().numPorts
    {
      numPorts
    }

    /** setSwitch(position) of the switch. */
    method SetSwitch(position: int)
      requires elem.Switch?
      modifies this
      ensures Val() == old(Val()).(elem := Switch(position))
    {
      elem := Switch(position);
    }
  }

  // ---------------------------------------------------------------------
  // What each element imposes on the port it closes

  /** An open switch (position 0) reflects the wave unchanged, so no current
      flows through the port; a closed switch inverts it, so the port
      voltage is zero. */
  lemma SwitchLaws(s: RootVal, R: real, a: real)
    requires s.elem.Switch? && R != 0.0
    ensures s.elem.position == 0 ==> PortCurrent(RootPort(R, a, ReflectedWave(s, a))) == 0.0
    ensures s.elem.position != 0 ==> PortVoltage(RootPort(R, a, ReflectedWave(s, a))) == 0.0
  {
  }

  /** The ideal voltage source holds the port voltage at Vs whatever
      arrives. */
  lemma VSourceVoltage(s: RootVal, R: real, a: real)
    requires s.elem.VSource?
    ensures PortVoltage(RootPort(R, a, ReflectedWave(s, a))) == s.elem.Vs
  {
  }

  /** The ideal current source drives Is out of the port, measured at the
      node's own member Rp (which no code sets). */
  lemma CSourceCurrent(s: RootVal, a: real)
    requires s.elem.CSource? && s.Rp != 0.0
    ensures PortCurrent(RootPort(s.Rp, a, ReflectedWave(s, a))) == -s.elem.Is
  {
    var b := ReflectedWave(s, a);
    assert a - b == -2.0 * s.Rp * s.elem.Is;
  }

  /** With the coefficient of setPortResistance(R), the unadapted resistor
      obeys Ohm's law at a port of resistance R: v = Rc i. */
  lemma ResOhm(s: RootVal, R: real, a: real)
    requires s.elem.Res? && R != 0.0 && CoeffDefined(s.elem, R)
    requires s.rc == ReflectionCoeff(s.elem, R)
    ensures PortVoltage(RootPort(R, a, ReflectedWave(s, a))) ==
            s.elem.R * PortCurrent(RootPort(R, a, ReflectedWave(s, a)))
  {
    var Rc := s.elem.R;
    var k := Rc + R;
    var q := a / k;
    assert a == k * q;
    assert s.rc * k == Rc - R;
    var b := ReflectedWave(s, a);
    assert b == (Rc - R) * q by {
      calc {
        b;
        s.rc * a;
        s.rc * (k * q);
        (s.rc * k) * q;
      }
    }
    assert a + b == 2.0 * Rc * q;
    assert a - b == 2.0 * R * q;
    assert PortCurrent(RootPort(R, a, b)) == q;
  }

  /** The unadapted capacitor is the trapezoidal rule for i = C dv/dt: with
      the coefficient of setPortResistance(R), the voltage step from the
      previous sample to this one is T/(2C) times the sum of the two
      currents. */
  lemma CapTrapezoidal(s: RootVal, R: real, a: real)
    requires s.elem.Cap? && s.elem.C != 0.0 && R > 0.0 && ComponentRes(s.elem) > 0.0
    requires s.rc == ReflectionCoeff(s.elem, R)
    ensures var prev := RootPort(R, s.prevA, s.prevB);
            var now := RootPort(R, a, ReflectedWave(s, a));
            PortVoltage(now) - PortVoltage(prev) ==
              ComponentRes(s.elem) * (PortCurrent(now) + PortCurrent(prev))
  {
    var R0 := ComponentRes(s.elem);
    var k := R + R0;
    var b := ReflectedWave(s, a);
    assert s.rc * k == R - R0;
    assert k * b == (R - R0) * s.prevB - (R - R0) * a + k * s.prevA by {
      calc {
        k * b;
        k * (s.rc * s.prevB - s.rc * a + s.prevA);
        (s.rc * k) * s.prevB - (s.rc * k) * a + k * s.prevA;
      }
    }
    var x := (a - b) + (s.prevA - s.prevB);
    assert R * ((a + b) - (s.prevA + s.prevB)) == R0 * x;
    ScaledCurrents(R, R0, (a + b) - (s.prevA + s.prevB), x);
  }

  /** The unadapted inductor is the trapezoidal rule for v = L di/dt: the
      sum of the voltages of two successive samples is 2L/T times the
      current step. */
  lemma IndTrapezoidal(s: RootVal, R: real, a: real)
    requires s.elem.Ind? && s.elem.T != 0.0 && R > 0.0 && ComponentRes(s.elem) > 0.0
    requires s.rc == ReflectionCoeff(s.elem, R)
    ensures var prev := RootPort(R, s.prevA, s.prevB);
            var now := RootPort(R, a, ReflectedWave(s, a));
            PortVoltage(now) + PortVoltage(prev) ==
              ComponentRes(s.elem) * (PortCurrent(now) - PortCurrent(prev))
  {
    var R0 := ComponentRes(s.elem);
    var k := R + R0;
    var b := ReflectedWave(s, a);
    assert s.rc * k == R - R0;
    assert k * b == -(R - R0) * s.prevB - (R - R0) * a - k * s.prevA by {
      calc {
        k * b;
        k * (-s.rc * s.prevB - s.rc * a - s.prevA);
        -(s.rc * k) * s.prevB - (s.rc * k) * a - k * s.prevA;
      }
    }
    var x := (a - b) - (s.prevA - s.prevB);
    assert R * ((a + b) + (s.prevA + s.prevB)) == R0 * x;
    ScaledCurrents(R, R0, (a + b) + (s.prevA + s.prevB), x);
  }

  /** From R y = R0 x: y/2 is R0 times x/(2R), the step from the doubled
      wave sums to voltages and currents. */
  lemma ScaledCurrents(R: real, R0: real, y: real, x: real)
    requires R > 0.0 && R * y == R0 * x
    ensures y / 2.0 == R0 * (x / (2.0 * R))
  {
    assert y == R0 * x / R;
  }

  /** Matched to its own port resistance (R equal to T/(2C), 2L/T or the
      resistance itself) the reflection coefficient is zero and the
      unadapted element reflects what its adapted counterpart does: the
      previous incident wave, its negation, or nothing. */
  lemma MatchedReflection(s: RootVal, a: real)
    requires s.elem.Cap? || s.elem.Ind? || s.elem.Res?
    requires s.elem.Cap? ==> s.elem.C != 0.0
    requires s.elem.Ind? ==> s.elem.T != 0.0
    requires ComponentRes(s.elem) > 0.0
    requires s.rc == ReflectionCoeff(s.elem, ComponentRes(s.elem))
    ensures s.elem.Cap? ==> ReflectedWave(s, a) == s.prevA
    ensures s.elem.Ind? ==> ReflectedWave(s, a) == -s.prevA
    ensures s.elem.Res? ==> ReflectedWave(s, a) == 0.0
  {
  }
}
