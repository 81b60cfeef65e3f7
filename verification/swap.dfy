/**
 * The two-qubit `SwapGate` ("swap"), defined by 21 chip-native instructions:
 * three CNOTs, each realised as a CZ between quarter-turn CX_PI pulses and
 * z-rotations on its target.
 */
module SwapGate {
  import opened Instructions
  import opened Matrices

  function Header(): GateHeader {
    GateHeader("swap", 2, [])
  }

  /** The framework records the gate as "swap" on two qubits with no
      parameter, and the definition uses only those two qubits. */
  lemma HeaderCoversRule()
    ensures Header().params == []
    ensures forall i, k | 0 <= i < |Rule()| && 0 <= k < |Rule()[i].qargs| :: Rule()[i].qargs[k] < Header().numQubits
  {
    RuleUsesNativeGates();
    forall i, k | 0 <= i < |Rule()| && 0 <= k < |Rule()[i].qargs| ensures Rule()[i].qargs[k] < Header().numQubits {
      assert Rule()[i] in Rule();
    }
  }

  /** `_define`: the 21-instruction rule on local qubits 0 and 1. */
  function Rule(): (r: Circuit)
    ensures |r| == 21
  {
    [ Instr(CXPi(1.0), [1], []),
      Instr(RZ(Pi / 2.0), [1], []),
      Instr(CXPi(1.0), [1], []),
      Instr(CZ, [0, 1], []),
      Instr(CXPi(1.0), [1], []),
      Instr(RZ(Pi / 2.0), [1], []),
      Instr(CXPi(1.0), [1], []),
      Instr(CXPi(1.0), [0], []),
      Instr(RZ(Pi / 2.0), [0], []),
      Instr(CXPi(1.0), [0], []),
      Instr(CZ, [1, 0], []),
      Instr(CXPi(1.0), [0], []),
      Instr(RZ(Pi / 2.0), [0], []),
      Instr(CXPi(1.0), [0], []),
      Instr(CXPi(1.0), [1], []),
      Instr(RZ(Pi / 2.0), [1], []),
      Instr(CXPi(1.0), [1], []),
      Instr(CZ, [0, 1], []),
      Instr(CXPi(1.0), [1], []),
      Instr(RZ(Pi / 2.0), [1], []),
      Instr(CXPi(1.0), [1], []) ]
  }

  /** A CNOT from `control` to `target` in the chip's gate set: a CZ between
      two copies of CX_PI, RZ(pi/2), CX_PI on the target. */
  function CnotBlock(control: nat, target: nat): (r: Circuit)
    ensures |r| == 7
  {
    [ Instr(CXPi(1.0), [target], []),
      Instr(RZ(Pi / 2.0), [target], []),
      Instr(CXPi(1.0), [target], []),
      Instr(CZ, [control, target], []),
      Instr(CXPi(1.0), [target], []),
      Instr(RZ(Pi / 2.0), [target], []),
      Instr(CXPi(1.0), [target], []) ]
  }

  /** The textbook definition the rule stands for: cx a,b; cx b,a; cx a,b. */
  function CnotSwap(): Circuit {
    [Instr(CX, [0, 1], []), Instr(CX, [1, 0], []), Instr(CX, [0, 1], [])]
  }

  /** Replace every two-operand CNOT by its chip-native block. */
  function NativeCnots(c: Circuit): Circuit
    decreases |c|
  {
    if c == [] then []
    else
      (if c[0].op.CX? && |c[0].qargs| == 2 then CnotBlock(c[0].qargs[0], c[0].qargs[1]) else [c[0]])
      + NativeCnots(c[1..])
  }

  /** The rule is three CNOT blocks, with targets 1, 0, 1. */
  lemma RuleBlocks()
    ensures Rule() == CnotBlock(0, 1) + CnotBlock(1, 0) + CnotBlock(0, 1)
  {
  }

  /** The rule is the textbook three-CNOT swap with each CNOT made native. */
  lemma RuleRealisesCnotSwap()
    ensures Rule() == NativeCnots(CnotSwap())
  {
    var c := CnotSwap();
    assert c[1..][1..][1..] == [];
    assert NativeCnots(c[1..][1..]) == CnotBlock(0, 1);
    assert NativeCnots(c[1..]) == CnotBlock(1, 0) + CnotBlock(0, 1);
    RuleBlocks();
  }

  /** Only CX_PI(1), RZ(pi/2) and CZ occur, and only on local qubits 0 and 1. */
  lemma RuleUsesNativeGates()
    ensures forall ins | ins in Rule() ::
      (ins.op == CXPi(1.0) || ins.op == RZ(Pi / 2.0) || ins.op == CZ) &&
      ins.cargs == [] && forall k | 0 <= k < |ins.qargs| :: ins.qargs[k] < 2
  {
    var r := Rule();
    forall i | 0 <= i < 21
      ensures (r[i].op == CXPi(1.0) || r[i].op == RZ(Pi / 2.0) || r[i].op == CZ) &&
        r[i].cargs == [] && forall k | 0 <= k < |r[i].qargs| :: r[i].qargs[k] < 2
    {
      RuleAt(i);
      var j := if i < 7 then i else if i < 14 then i - 7 else i - 14;
      assert j == 0 || j == 1 || j == 2 || j == 3 || j == 4 || j == 5 || j == 6;
    }
  }

  /** Position `i` of the rule, read off its three blocks. */
  lemma RuleAt(i: nat)
    requires i < 21
    ensures i < 7 ==> Rule()[i] == CnotBlock(0, 1)[i]
    ensures 7 <= i < 14 ==> Rule()[i] == CnotBlock(1, 0)[i - 7]
    ensures 14 <= i ==> Rule()[i] == CnotBlock(0, 1)[i - 14]
  {
    RuleBlocks();
  }

  /** Exactly three CZ instructions, at positions 3, 10 and 17, on the qubit
      pairs (0, 1), (1, 0) and (0, 1). */
  lemma CzPositions()
    ensures forall i | 0 <= i < |Rule()| :: Rule()[i].op.CZ? <==> i == 3 || i == 10 || i == 17
    ensures Rule()[3].qargs == [0, 1] && Rule()[10].qargs == [1, 0] && Rule()[17].qargs == [0, 1]
  {
    forall i | 0 <= i < 21 ensures Rule()[i].op.CZ? <==> i == 3 || i == 10 || i == 17 {
      RuleAt(i);
      var j := if i < 7 then i else if i < 14 then i - 7 else i - 14;
      assert j == 0 || j == 1 || j == 2 || j == 3 || j == 4 || j == 5 || j == 6;
    }
  }

  /** The 21-instruction rule reads the same forwards and backwards. */
  lemma RulePalindrome()
    ensures Palindrome(Rule())
  {
    forall c: nat, t: nat ensures Palindrome(CnotBlock(c, t)) {
      var b := CnotBlock(c, t);
      forall i | 0 <= i < 7 ensures b[i] == b[6 - i] {
        assert i == 0 || i == 1 || i == 2 || i == 3 || i == 4 || i == 5 || i == 6;
      }
    }
    PalindromeSandwich(CnotBlock(0, 1), CnotBlock(1, 0));
    RuleBlocks();
  }

  /** `inverse`: SWAP is its own inverse. */
  function Inverse(): (g: Gate)
    ensures g == Swap
  {
    Swap
  }

  /** `to_matrix`: exchanges basis states 1 and 2 (|01> and |10>). It acts
      on the state space of the qubits the gate declares. */
  function ToMatrix(): (m: Matrix)
    ensures IsSquare(m, Pow2(Header().numQubits))
  {
    [ [1, 0, 0, 0],
      [0, 0, 1, 0],
      [0, 1, 0, 0],
      [0, 0, 0, 1] ]
  }

  /** The basis permutation of SWAP: 1 and 2 exchanged, 0 and 3 fixed. */
  function Sigma(i: nat): (j: nat)
    ensures i < 4 ==> j < 4
  {
    if i == 1 then 2 else if i == 2 then 1 else i
  }

  lemma SigmaInvolutive(i: nat)
    ensures Sigma(Sigma(i)) == i
  {
  }

  /** `to_matrix` is the 0/1 permutation matrix of Sigma. */
  lemma MatrixIsPermutation()
    ensures IsSquare(ToMatrix(), 4)
    ensures forall i, j | 0 <= i < 4 && 0 <= j < 4 :: ToMatrix()[i][j] == if j == Sigma(i) then 1 else 0
  {
    var m := ToMatrix();
    forall i, j | 0 <= i < 4 && 0 <= j < 4 ensures m[i][j] == if j == Sigma(i) then 1 else 0 {
      assert i == 0 || i == 1 || i == 2 || i == 3;
      assert j == 0 || j == 1 || j == 2 || j == 3;
    }
  }

  /** Applied to basis state k, the matrix gives basis state Sigma(k): in
      particular |01> and |10> are exchanged. */
  lemma ExchangesBasis(k: nat)
    requires k < 4
    ensures MatVec(ToMatrix(), Basis(4, k), 4) == Basis(4, Sigma(k))
  {
    var m := ToMatrix();
    MatrixIsPermutation();
    forall i | 0 <= i < 4 ensures MatVec(m, Basis(4, k), 4)[i] == Basis(4, Sigma(k))[i] {
      DotCommutes(m[i], Basis(4, k));
      DotUnit(Basis(4, k), m[i], k);
      SigmaInvolutive(k);
    }
  }

  /** The matrix is its own inverse: M * M is the identity. */
  lemma MatrixSquaredIsIdentity()
    ensures MatMul(ToMatrix(), ToMatrix(), 4) == Identity(4)
  {
    var m := ToMatrix();
    MatrixIsPermutation();
    forall i | 0 <= i < 4 ensures MatMul(m, m, 4)[i] == Identity(4)[i] {
      forall j | 0 <= j < 4 ensures MatMul(m, m, 4)[i][j] == Identity(4)[i][j] {
        DotUnit(m[i], Column(m, 4, j), Sigma(i));
        SigmaInvolutive(i);
      }
    }
  }

  /** The matrix of the inverse gate is the adjoint (here: the transpose,
      every entry being real) of the gate's matrix. */
  lemma InverseMatrixIsAdjoint()
    ensures Inverse() == Swap
    ensures Transpose(ToMatrix(), 4) == ToMatrix()
  {
    var m := ToMatrix();
    MatrixIsPermutation();
    forall i | 0 <= i < 4 ensures Transpose(m, 4)[i] == m[i] {
      forall j | 0 <= j < 4 ensures Transpose(m, 4)[i][j] == m[i][j] {
        SigmaInvolutive(i);
      }
    }
  }

  /** The `swap` helper: appends one SWAP instruction on the two qubits. */
  function AppendSwap(c: Circuit, qubit1: nat, qubit2: nat): (r: Circuit)
    ensures |r| == |c| + 1 && r[..|c|] == c
    ensures r[|c|] == Instr(Swap, [qubit1, qubit2], [])
  {
    Append(c, Swap, [qubit1, qubit2], [])
  }
}
