/**
 * The z-rotation `RZGate` ("rz"), defined as a single U1 instruction.
 */
module RzGate {
  import opened Instructions

  function Header(phi: real): GateHeader {
    GateHeader("rz", 1, [phi])
  }

  /** The framework records the gate as "rz" on one qubit with the angle as
      its only parameter; the inverse keeps name and qubit count and negates
      that parameter. */
  lemma InverseHeader(phi: real)
    ensures Header(phi).numQubits == 1 && |Header(phi).params| == 1
    ensures var h := Header(phi);
      Header(Inverse(phi).phi) == GateHeader(h.name, h.numQubits, [-h.params[0]])
  {
  }

  /** `_define`: one U1 by the same angle on the local qubit. */
  function Rule(phi: real): (r: Circuit)
    ensures |r| == 1 && r[0] == Instr(U1(phi), [0], [])
  {
    [Instr(U1(phi), [0], [])]
  }

  /** `inverse`: the rotation by the opposite angle. */
  function Inverse(phi: real): (g: Gate)
    ensures g.RZ? && g.phi + phi == 0.0
  {
    RZ(-phi)
  }

  lemma InverseInvolutive(phi: real)
    ensures Inverse(Inverse(phi).phi) == RZ(phi)
  {
  }

  /** The definition of the inverse is the U1 by the opposite angle. */
  lemma InverseNegatesRule(phi: real)
    ensures Rule(Inverse(phi).phi)[0].op.lam == -Rule(phi)[0].op.lam
  {
  }

  /** The `rz` helper: appends one RZ instruction on `q`. */
  function AppendRz(c: Circuit, phi: real, q: nat): (r: Circuit)
    ensures |r| == |c| + 1 && r[..|c|] == c
    ensures r[|c|] == Instr(RZ(phi), [q], [])
  {
    Append(c, RZ(phi), [q], [])
  }
}
