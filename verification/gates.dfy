/**
 * The chip-native gates as one closed family: name/arity/parameters, the
 * definition rule, the inverse and the construction check, dispatched over
 * the `Gate` datatype, and a gate object whose `Define` fills its
 * `definition` field from the rule.
 */
module Gates {
  import opened Instructions
  import CxPiGate
  import RzGate
  import RxGate
  import U3EthGate
  import SwapGate

  /** What the constructors admit: a CX_PI multiple must be whole; every other
      gate of the family accepts any parameters. */
  predicate Constructible(g: Gate) {
    g.CXPi? ==> CxPiGate.New(g.multiple).Ok?
  }

  function Header(g: Gate): (h: GateHeader)
    requires g.IsNative()
    ensures h.numQubits == g.Arity()
    ensures |h.params| == (if g.Swap? then 0 else if g.U3Eth? then 3 else 1)
  {
    match g
    case CXPi(m) => CxPiGate.Header(m)
    case RZ(phi) => RzGate.Header(phi)
    case RX(theta) => RxGate.Header(theta)
    case U3Eth(theta, phi, lam) => U3EthGate.Header(theta, phi, lam)
    case Swap => SwapGate.Header()
  }

  /** Name and parameter list identify the gate: no two gates of the family
      share a header. */
  lemma HeaderDeterminesGate(g1: Gate, g2: Gate)
    requires g1.IsNative() && g2.IsNative()
    ensures Header(g1) == Header(g2) <==> g1 == g2
  {
    if Header(g1) == Header(g2) {
      var n1, n2 := Header(g1).name, Header(g2).name;
      assert n1 == n2;
      assert g1.CXPi? <==> g2.CXPi? by { assert |n1| == 7 <==> g1.CXPi?; assert |n2| == 7 <==> g2.CXPi?; }
      assert g1.U3Eth? <==> g2.U3Eth? by { assert |n1| == 6 <==> g1.U3Eth?; assert |n2| == 6 <==> g2.U3Eth?; }
      assert g1.Swap? <==> g2.Swap? by { assert |n1| == 4 <==> g1.Swap?; assert |n2| == 4 <==> g2.Swap?; }
      if g1.RZ? || g1.RX? {
        assert n1[1] == n2[1];
      }
    }
  }

  /** The `_define` rule of each gate, over local qubits 0 .. arity-1. */
  function Rule(g: Gate): Circuit
    requires g.IsNative()
  {
    match g
    case CXPi(m) => CxPiGate.Rule(m)
    case RZ(phi) => RzGate.Rule(phi)
    case RX(theta) => RxGate.Rule(theta)
    case U3Eth(theta, phi, lam) => U3EthGate.Rule(theta, phi, lam)
    case Swap => SwapGate.Rule()
  }

  /** Every rule is a well-formed circuit over the gate's own qubits, and every
      gate in it passes its constructor's check, so building a definition never
      raises. */
  lemma RuleWellFormed(g: Gate)
    requires g.IsNative()
    ensures WellFormed(Rule(g), g.Arity(), 0)
    ensures forall i | 0 <= i < |Rule(g)| :: Constructible(Rule(g)[i].op)
  {
    match g
    case Swap => SwapRuleWellFormed();
    case RX(theta) => RxRuleWellFormed(theta);
    case U3Eth(theta, phi, lam) => U3EthRuleWellFormed(theta, phi, lam);
    case CXPi(m) => assert Distinct([0]);
    case RZ(phi) => assert Distinct([0]);
  }

  lemma RxRuleWellFormed(theta: real)
    ensures WellFormed(RxGate.Rule(theta), 1, 0)
    ensures forall i | 0 <= i < |RxGate.Rule(theta)| :: Constructible(RxGate.Rule(theta)[i].op)
  {
    var r := RxGate.Rule(theta);
    assert Distinct([0]);
    RxGate.RuleConstructible(theta);
    forall i | 0 <= i < |r| ensures InstrOk(r[i], 1, 0) {
      assert r[i].qargs == [0];
    }
  }

  lemma U3EthRuleWellFormed(theta: real, phi: real, lam: real)
    ensures WellFormed(U3EthGate.Rule(theta, phi, lam), 1, 0)
    ensures forall i | 0 <= i < |U3EthGate.Rule(theta, phi, lam)| :: Constructible(U3EthGate.Rule(theta, phi, lam)[i].op)
  {
    var r := U3EthGate.Rule(theta, phi, lam);
    assert Distinct([0]);
    assert CxPiGate.New(1.0).Ok?;
    forall i | 0 <= i < |r| ensures InstrOk(r[i], 1, 0) {
      assert r[i].qargs == [0];
    }
  }

  lemma SwapRuleWellFormed()
    ensures WellFormed(SwapGate.Rule(), 2, 0)
    ensures forall i | 0 <= i < 21 :: Constructible(SwapGate.Rule()[i].op)
  {
    var r := SwapGate.Rule();
    assert CxPiGate.New(1.0).Ok?;
    assert Distinct([0]) && Distinct([1]) && Distinct([0, 1]) && Distinct([1, 0]);
    forall i | 0 <= i < 21 ensures InstrOk(r[i], 2, 0) && Constructible(r[i].op) {
      SwapGate.RuleAt(i);
      var j := if i < 7 then i else if i < 14 then i - 7 else i - 14;
      assert j == 0 || j == 1 || j == 2 || j == 3 || j == 4 || j == 5 || j == 6;
    }
  }

  /** How many rewriting steps separate a gate from the framework's primitive
      gates (U1, U3, CZ, CNOT, H), which have level 0. */
  function Level(g: Gate): nat {
    match g
    case CXPi(_) => 1
    case RZ(_) => 1
    case RX(_) => 2
    case Swap => 2
    case U3Eth(_, _, _) => 3
    case _ => 0
  }

  /** Each rule uses only gates of a lower level, so rewriting every gate by
      its rule repeatedly ends in primitive gates. */
  lemma RuleLowersLevel(g: Gate)
    requires g.IsNative()
    ensures forall i | 0 <= i < |Rule(g)| :: Level(Rule(g)[i].op) < Level(g)
  {
    if g.Swap? {
      SwapGate.RuleUsesNativeGates();
      forall i | 0 <= i < |Rule(g)| ensures Level(Rule(g)[i].op) < Level(g) {
        assert Rule(g)[i] in SwapGate.Rule();
      }
    }
  }

  /** The gates that define their own `inverse`. RX does not: its `inverse` is
      a free function of its module (RxGate.Inverse). */
  predicate HasOwnInverse(g: Gate) {
    g.CXPi? || g.RZ? || g.U3Eth? || g.Swap?
  }

  /** `inverse`: a constructible gate of the same kind, name and arity. */
  function Inverse(g: Gate): (r: Gate)
    requires HasOwnInverse(g) && Constructible(g)
    ensures HasOwnInverse(r) && Constructible(r)
    ensures Header(r).name == Header(g).name && r.Arity() == g.Arity()
  {
    match g
    case CXPi(m) =>
      CxPiGate.InverseInvolutive(m);
      CxPiGate.Inverse(m).value
    case RZ(phi) => RzGate.Inverse(phi)
    case U3Eth(theta, phi, lam) => U3EthGate.Inverse(theta, phi, lam)
    case Swap => SwapGate.Inverse()
  }

  /** Inverting twice gives back the gate. */
  lemma InverseInvolutive(g: Gate)
    requires HasOwnInverse(g) && Constructible(g)
    ensures Inverse(Inverse(g)) == g
  {
    match g
    case CXPi(m) => CxPiGate.InverseInvolutive(m);
    case RZ(phi) => RzGate.InverseInvolutive(phi);
    case U3Eth(theta, phi, lam) => U3EthGate.InverseInvolutive(theta, phi, lam);
    case Swap =>
  }

  /** A gate object of the family; `definition` is empty until `Define` runs. */
  class GateInstance {
    const op: Gate
    var definition: Option<Circuit>

    predicate Valid() {
      op.IsNative() && Constructible(op)
    }

    constructor (op: Gate)
      requires op.IsNative() && Constructible(op)
      ensures this.op == op && Valid() && definition == None
    {
      this.op := op;
      definition := None;
    }

    /** `_define`: copy the rule into a fresh list and store it. */
    method Define()
      requires Valid()
      modifies this
      ensures definition == Some(Rule(op))
    {
      var rule := Rule(op);
      var d: Circuit := [];
      for i := 0 to |rule|
        invariant d == rule[..i]
      {
        d := d + [rule[i]];
      }
      assert rule[..|rule|] == rule;
      definition := Some(d);
    }
  }
}
