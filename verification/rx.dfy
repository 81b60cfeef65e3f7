/**
 * The x-rotation `RXGate` ("rx"), defined by five chip-native instructions:
 * z-rotations around two quarter-turn CX_PI pulses.
 */
module RxGate {
  import opened Instructions
  import CxPiGate

  function Header(theta: real): GateHeader {
    GateHeader("rx", 1, [theta])
  }

  /** The framework records the gate as "rx" on one qubit with the angle as
      its only parameter; the module-level inverse keeps name and qubit count
      and negates that parameter. */
  lemma InverseHeader(theta: real)
    ensures Header(theta).numQubits == 1 && |Header(theta).params| == 1
    ensures var h := Header(theta);
      Header(Inverse(RX(theta)).theta) == GateHeader(h.name, h.numQubits, [-h.params[0]])
  {
  }

  /** `_define`: RZ(-pi/2), CX_PI(1), RZ(theta), CX_PI(1), RZ(-pi/2), all on
      the local qubit. */
  function Rule(theta: real): (r: Circuit)
    ensures |r| == 5
  {
    [ Instr(RZ(-Pi / 2.0), [0], []),
      Instr(CXPi(1.0), [0], []),
      Instr(RZ(theta), [0], []),
      Instr(CXPi(1.0), [0], []),
      Instr(RZ(-Pi / 2.0), [0], []) ]
  }

  /** The definition reads the same forwards and backwards. */
  lemma RulePalindrome(theta: real)
    ensures Palindrome(Rule(theta))
  {
    var r := Rule(theta);
    forall i | 0 <= i < 5 ensures r[i] == r[4 - i] {
      assert i == 0 || i == 1 || i == 2 || i == 3 || i == 4;
    }
  }

  /** Only the middle instruction depends on the angle, and it determines it. */
  lemma OnlyMiddleDependsOnAngle(a: real, b: real)
    ensures forall i | 0 <= i < 5 && i != 2 :: Rule(a)[i] == Rule(b)[i]
    ensures Rule(a)[2] == Instr(RZ(a), [0], [])
    ensures Rule(a) == Rule(b) <==> a == b
  {
    if Rule(a) == Rule(b) {
      assert Rule(a)[2] == Rule(b)[2];
    }
  }

  /** Every instruction of the definition is an RZ or a CX_PI whose construction
      succeeds, so building the definition never raises. */
  lemma RuleConstructible(theta: real)
    ensures forall i | 0 <= i < 5 ::
      Rule(theta)[i].qargs == [0] &&
      (Rule(theta)[i].op.RZ? || (Rule(theta)[i].op.CXPi? && CxPiGate.New(Rule(theta)[i].op.multiple).Ok?))
  {
    assert CxPiGate.New(1.0).Ok?;
  }

  /** The module-level `inverse`: the rotation by the opposite angle. It is a
      free function of the module, not a method of `RXGate`. */
  function Inverse(g: Gate): (r: Gate)
    requires g.RX?
    ensures r.RX? && r.theta + g.theta == 0.0
  {
    RX(-g.theta)
  }

  lemma InverseInvolutive(g: Gate)
    requires g.RX?
    ensures Inverse(Inverse(g)) == g
  {
  }

  /** The `rx` helper: appends one RX instruction on `q`. */
  function AppendRx(c: Circuit, theta: real, q: nat): (r: Circuit)
    ensures |r| == |c| + 1 && r[..|c|] == c
    ensures r[|c|] == Instr(RX(theta), [q], [])
  {
    Append(c, RX(theta), [q], [])
  }
}
