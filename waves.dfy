// The wave port (wdfPort): incident wave a, reflected wave b, port
// resistance Rp and its (unused) conductance Gp, and the voltage and current
// the port carries.

module Waves {

  /** A port. `a` travels into the node that owns the port, `b` leaves it.
      The C++ port also points at the node on its other side; here a
      down port i of a node is always connected to that node's child i. */
  datatype Port = Port(Rp: real, Gp: real, a: real, b: real)

  /** A port as wdfPort's constructor leaves it: every number zero. */
  const NewPort: Port := Port(0.0, 0.0, 0.0, 0.0)

  function PortVoltage(p: Port): real
  {
    (p.a + p.b) / 2.0
  }

  function PortCurrent(p: Port): real
    requires p.Rp != 0.0
  {
    (p.a - p.b) / (2.0 * p.Rp)
  }

  /** Voltage and current determine the waves again: a = v + Rp i and
      b = v - Rp i, so the wave transform of the port loses nothing. */
  lemma WavesFromVoltageAndCurrent(p: Port)
    requires p.Rp != 0.0
    ensures p.a == PortVoltage(p) + p.Rp * PortCurrent(p)
    ensures p.b == PortVoltage(p) - p.Rp * PortCurrent(p)
  {
    var i := PortCurrent(p);
    assert p.Rp * i == (p.a - p.b) / 2.0 by {
      calc {
        p.Rp * i;
        p.Rp * ((p.a - p.b) / (2.0 * p.Rp));
        (p.a - p.b) / 2.0;
      }
    }
  }

  /** The two sides of one connection: the wave that leaves one port is the
      wave that enters the other, and both have the same resistance. */
  predicate Joined(p: Port, q: Port)
  {
    p.a == q.b && p.b == q.a && p.Rp == q.Rp
  }

  /** Across a joined pair the voltage is the same and the current that
      flows into one side flows out of the other. */
  lemma JoinedPortsShareVoltage(p: Port, q: Port)
    requires Joined(p, q) && p.Rp != 0.0
    ensures PortVoltage(p) == PortVoltage(q)
    ensures PortCurrent(p) == -PortCurrent(q)
  {
  }
}
