/**
 * The chip-native x-rotation `CX_PIGate` ("rx_pi/2"): a rotation by a whole
 * multiple of pi/2, defined as a single U3 instruction.
 */
module CxPiGate {
  import opened Instructions

  /** Python's `theta % 1`: the floored remainder, never negative. */
  function Mod1(theta: real): (r: real)
    ensures 0.0 <= r < 1.0
    ensures r == 0.0 <==> theta == theta.Floor as real
  {
    theta - theta.Floor as real
  }

  /** The constructor: raises unless `theta` is a whole number of quarter turns. */
  function New(theta: real): (r: Result<Gate>)
    ensures r.Ok? <==> theta == theta.Floor as real
    ensures r.Ok? ==> r.value.CXPi? && r.value.multiple == theta
    ensures r.Err? ==> r.error.QiskitError?
  {
    if Mod1(theta) != 0.0 then Err(QiskitError("the desired angle is not supported by the gate "))
    else Ok(CXPi(theta))
  }

  function Header(theta: real): GateHeader {
    GateHeader("rx_pi/2", 1, [theta])
  }

  /** The framework records the gate as "rx_pi/2" on one qubit with the
      multiple as its only parameter; the inverse keeps name and qubit count
      and negates that parameter. */
  lemma InverseHeader(theta: real)
    requires New(theta).Ok?
    ensures Header(theta).numQubits == 1 && |Header(theta).params| == 1
    ensures Inverse(theta).Ok?
    ensures var h := Header(theta);
      Header(Inverse(theta).value.multiple) == GateHeader(h.name, h.numQubits, [-h.params[0]])
  {
  }

  /** `_define`: one U3 on the local qubit, rotating by theta times pi/2. */
  function Rule(theta: real): (r: Circuit)
    ensures |r| == 1 && r[0].qargs == [0] && r[0].cargs == []
    ensures r[0].op.U3? && r[0].op.theta == theta * Pi / 2.0
  {
    [Instr(U3(theta * Pi / 2.0, -Pi / 2.0, Pi / 2.0), [0], [])]
  }

  /** `inverse`: the gate with the negated multiple, built by the constructor;
      it raises exactly when the gate itself could not have been built. */
  function Inverse(theta: real): (r: Result<Gate>)
    ensures r.Ok? <==> New(theta).Ok?
    ensures r.Ok? ==> r.value == CXPi(-theta)
    ensures r.Err? ==> r.error.QiskitError?
  {
    WholeNegation(theta);
    New(-theta)
  }

  /** A real is a whole number iff its negation is. */
  lemma WholeNegation(theta: real)
    ensures theta == theta.Floor as real <==> -theta == (-theta).Floor as real
  {
    if theta == theta.Floor as real {
      var m := -theta.Floor;
      assert -theta == m as real;
      assert (-theta).Floor == m;
    }
    if -theta == (-theta).Floor as real {
      var m := -(-theta).Floor;
      assert theta == m as real;
      assert theta.Floor == m;
    }
  }

  /** Inverting twice gives back the original gate. */
  lemma InverseInvolutive(theta: real)
    requires New(theta).Ok?
    ensures Inverse(theta).Ok? && Inverse(Inverse(theta).value.multiple) == New(theta)
  {
  }

  /** The definition of the inverse rotates by the opposite angle about the
      same axis: only the first U3 angle changes, and only in sign. */
  lemma InverseNegatesRotation(theta: real)
    requires New(theta).Ok?
    ensures Inverse(theta).Ok?
    ensures var r, s := Rule(theta), Rule(Inverse(theta).value.multiple);
      s[0].op.U3? && s[0].op.theta == -r[0].op.theta &&
      s[0].op.phi == r[0].op.phi && s[0].op.lam == r[0].op.lam &&
      s[0].qargs == r[0].qargs
  {
    RuleOfNegation(theta);
  }

  lemma RuleOfNegation(theta: real)
    ensures var r, s := Rule(theta), Rule(-theta);
      s[0].op.U3? && s[0].op.theta == -r[0].op.theta &&
      s[0].op.phi == r[0].op.phi && s[0].op.lam == r[0].op.lam &&
      s[0].qargs == r[0].qargs
  {
    var a := theta * Pi;
    assert (-theta) * Pi == -a;
    assert (-a) / 2.0 == -(a / 2.0);
  }

  /** The `rx_pi` helper: appends one CX_PI instruction on `q`, or raises (and
      appends nothing) when the constructor does. */
  function AppendRxPi(c: Circuit, theta: real, q: nat): (r: Result<Circuit>)
    ensures r.Ok? <==> New(theta).Ok?
    ensures r.Ok? ==> |r.value| == |c| + 1 && r.value[..|c|] == c
    ensures r.Ok? ==> r.value[|c|] == Instr(CXPi(theta), [q], [])
  {
    match New(theta)
    case Ok(g) => Ok(Append(c, g, [q], []))
    case Err(e) => Err(e)
  }
}
