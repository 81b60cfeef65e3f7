/**
 * The two-pulse single-qubit gate `U3Gate_eth` ("u3_eth"): a z-rotation, an
 * x-rotation and a z-rotation.
 */
module U3EthGate {
  import opened Instructions
  import RxGate

  function Header(theta: real, phi: real, lam: real): GateHeader {
    GateHeader("u3_eth", 1, [theta, phi, lam])
  }

  /** The framework records the gate as "u3_eth" on one qubit with the three
      angles as parameters; the inverse keeps name and qubit count and its
      parameters are those of the gate negated, the last two exchanged. */
  lemma InverseHeader(theta: real, phi: real, lam: real)
    ensures Header(theta, phi, lam).numQubits == 1 && |Header(theta, phi, lam).params| == 3
    ensures var h, g := Header(theta, phi, lam), Inverse(theta, phi, lam);
      Header(g.theta, g.phi, g.lam) == GateHeader(h.name, h.numQubits, [-h.params[0], -h.params[2], -h.params[1]])
  {
  }

  /** `_define`: RZ(theta), RX(phi), RZ(lam) on the local qubit. */
  function Rule(theta: real, phi: real, lam: real): (r: Circuit)
    ensures |r| == 3 && forall i | 0 <= i < 3 :: r[i].qargs == [0] && r[i].cargs == []
  {
    [ Instr(RZ(theta), [0], []),
      Instr(RX(phi), [0], []),
      Instr(RZ(lam), [0], []) ]
  }

  /** `inverse`: negate the first angle, and negate and exchange the other two. */
  function Inverse(theta: real, phi: real, lam: real): (g: Gate)
    ensures g.U3Eth? && g.theta == -theta && g.phi == -lam && g.lam == -phi
  {
    U3Eth(-theta, -lam, -phi)
  }

  lemma InverseInvolutive(theta: real, phi: real, lam: real)
    ensures var g := Inverse(theta, phi, lam); Inverse(g.theta, g.phi, g.lam) == U3Eth(theta, phi, lam)
  {
  }

  /** Operand `k` of a local definition, placed on the instruction's operands. */
  function Place(local: seq<nat>, outer: seq<nat>): (r: seq<nat>)
    ensures |r| == |local|
  {
    seq(|local|, k requires 0 <= k < |local| => if local[k] < |outer| then outer[local[k]] else local[k])
  }

  /** One level of expansion of the RX instructions of a circuit: each is
      replaced by the RX definition placed on its operand. */
  function ExpandRx(c: Circuit): (r: Circuit)
    decreases |c|
  {
    if c == [] then []
    else
      var head :=
        if c[0].op.RX? then
          var d := RxGate.Rule(c[0].op.theta);
          seq(|d|, i requires 0 <= i < |d| => Instr(d[i].op, Place(d[i].qargs, c[0].qargs), d[i].cargs))
        else [c[0]];
      head + ExpandRx(c[1..])
  }

  /** Expanding the RX step of the definition gives seven instructions on the
      local qubit, each an RZ or a CX_PI by one quarter turn. */
  lemma ExpandedRule(theta: real, phi: real, lam: real)
    ensures var e := ExpandRx(Rule(theta, phi, lam));
      e == [ Instr(RZ(theta), [0], []),
             Instr(RZ(-Pi / 2.0), [0], []),
             Instr(CXPi(1.0), [0], []),
             Instr(RZ(phi), [0], []),
             Instr(CXPi(1.0), [0], []),
             Instr(RZ(-Pi / 2.0), [0], []),
             Instr(RZ(lam), [0], []) ]
    ensures var e := ExpandRx(Rule(theta, phi, lam));
      |e| == 7 && forall i | 0 <= i < 7 :: e[i].qargs == [0] && (e[i].op.RZ? || e[i].op == CXPi(1.0))
  {
    var r := Rule(theta, phi, lam);
    assert r[1..][1..][1..] == [];
    assert ExpandRx(r[1..][1..]) == [r[2]];
    var d := RxGate.Rule(phi);
    assert Place([0], [0]) == [0];
    assert ExpandRx(r[1..]) == seq(5, i requires 0 <= i < 5 => Instr(d[i].op, Place(d[i].qargs, [0]), d[i].cargs)) + [r[2]];
  }

  /** The `u3_eth` helper: appends one U3_eth instruction on `q`. */
  function AppendU3Eth(c: Circuit, theta: real, phi: real, lam: real, q: nat): (r: Circuit)
    ensures |r| == |c| + 1 && r[..|c|] == c
    ensures r[|c|] == Instr(U3Eth(theta, phi, lam), [q], [])
  {
    Append(c, U3Eth(theta, phi, lam), [q], [])
  }
}
