/**
 * Shared vocabulary of the model: the closed set of gates that occur in the
 * chip-native decompositions and in the QAOA circuit, circuit instructions,
 * circuits as instruction sequences, and the failure type of gate
 * construction.
 *
 * The five chip-native gates (CX_PI, RZ, RX, U3_eth, SWAP) have their own
 * modules; the framework's gates and directives (U1, U3, CZ, CNOT, H, barrier,
 * measure) appear only as opaque constructors.
 */
module Instructions {

  /** The constant pi of the framework, as the shortest decimal that rounds to
      the double-precision value it imports. No proof depends on its value. */
  const Pi: real := 3.141592653589793

  datatype Gate =
    | CXPi(multiple: real)                      // CX_PIGate, "rx_pi/2"
    | RZ(phi: real)                             // RZGate, "rz"
    | RX(theta: real)                           // RXGate, "rx"
    | U3Eth(theta: real, phi: real, lam: real)  // U3Gate_eth, "u3_eth"
    | Swap                                      // SwapGate, "swap"
    | U1(lam: real)                             // framework gate, opaque
    | U3(theta: real, phi: real, lam: real)     // framework gate, opaque
    | CZ                                        // framework gate, opaque
    | CX                                        // framework CNOT, opaque
    | H                                         // framework Hadamard, opaque
    | Barrier                                   // ordering fence over its qubits
    | Measure                                   // qubit into classical bit
  {
    /** The chip-native gates this model defines. */
    predicate IsNative() {
      CXPi? || RZ? || RX? || U3Eth? || Swap?
    }

    /** Number of qubits the operation acts on (a barrier spans any number). */
    function Arity(): nat {
      if Swap? || CZ? || CX? then 2 else if Barrier? then 0 else 1
    }
  }

  /** The gate, the qubit operands and the classical operands of one
      instruction, as `(gate, [qubits], [clbits])` in the framework. */
  datatype Instr = Instr(op: Gate, qargs: seq<nat>, cargs: seq<nat>)

  type Circuit = seq<Instr>

  /** What the framework's `Gate` base records of a gate: its name, the number
      of qubits it acts on and its parameter list. */
  datatype GateHeader = GateHeader(name: string, numQubits: nat, params: seq<real>)

  datatype Error = QiskitError(message: string)

  datatype Result<T> = Ok(value: T) | Err(error: Error)

  datatype Option<T> = None | Some(value: T)

  /** `QuantumCircuit.append`: the instruction is added at the end. */
  function Append(c: Circuit, op: Gate, qargs: seq<nat>, cargs: seq<nat>): (r: Circuit)
    ensures |r| == |c| + 1 && r[..|c|] == c
    ensures r[|c|] == Instr(op, qargs, cargs)
  {
    c + [Instr(op, qargs, cargs)]
  }

  /** The qubit indices 0 .. n-1 in order, as a register is listed. */
  function Range(n: nat): (r: seq<nat>)
    ensures |r| == n && forall k | 0 <= k < n :: r[k] == k
  {
    seq(n, k requires 0 <= k < n => k)
  }

  predicate Distinct(s: seq<nat>) {
    forall i, j | 0 <= i < j < |s| :: s[i] != s[j]
  }

  /** An instruction fits a register of `nq` qubits and `nc` classical bits:
      the right number of distinct, in-range operands. */
  predicate InstrOk(ins: Instr, nq: nat, nc: nat) {
    (ins.op.Barrier? || |ins.qargs| == ins.op.Arity()) &&
    Distinct(ins.qargs) &&
    (forall k | 0 <= k < |ins.qargs| :: ins.qargs[k] < nq) &&
    |ins.cargs| == (if ins.op.Measure? then 1 else 0) &&
    (forall k | 0 <= k < |ins.cargs| :: ins.cargs[k] < nc)
  }

  predicate WellFormed(c: Circuit, nq: nat, nc: nat) {
    forall i | 0 <= i < |c| :: InstrOk(c[i], nq, nc)
  }

  lemma AppendWellFormed(c: Circuit, op: Gate, qargs: seq<nat>, cargs: seq<nat>, nq: nat, nc: nat)
    requires WellFormed(c, nq, nc)
    ensures WellFormed(Append(c, op, qargs, cargs), nq, nc) <==> InstrOk(Instr(op, qargs, cargs), nq, nc)
  {
    var r := Append(c, op, qargs, cargs);
    assert r[|c|] == Instr(op, qargs, cargs);
    if InstrOk(Instr(op, qargs, cargs), nq, nc) {
      forall i | 0 <= i < |r| ensures InstrOk(r[i], nq, nc) {
        if i < |c| { assert r[i] == c[i]; }
      }
    }
  }

  /** A concatenation fits a register exactly when both parts do. */
  lemma WellFormedConcat(a: Circuit, b: Circuit, nq: nat, nc: nat)
    ensures WellFormed(a + b, nq, nc) <==> WellFormed(a, nq, nc) && WellFormed(b, nq, nc)
  {
    if WellFormed(a + b, nq, nc) {
      forall i | 0 <= i < |a| ensures InstrOk(a[i], nq, nc) {
        assert (a + b)[i] == a[i];
      }
      forall i | 0 <= i < |b| ensures InstrOk(b[i], nq, nc) {
        assert (a + b)[|a| + i] == b[i];
      }
    }
    if WellFormed(a, nq, nc) && WellFormed(b, nq, nc) {
      forall i | 0 <= i < |a + b| ensures InstrOk((a + b)[i], nq, nc) {
        if i >= |a| { assert (a + b)[i] == b[i - |a|]; }
      }
    }
  }

  /** The sequence reads the same backwards. */
  ghost predicate Palindrome<T>(s: seq<T>) {
    forall i | 0 <= i < |s| :: s[i] == s[|s| - 1 - i]
  }

  /** A palindrome between two copies of another palindrome is a palindrome. */
  lemma PalindromeSandwich<T>(a: seq<T>, b: seq<T>)
    requires Palindrome(a) && Palindrome(b)
    ensures Palindrome(a + b + a)
  {
    var s := a + b + a;
    var n := |s|;
    forall i | 0 <= i < n ensures s[i] == s[n - 1 - i] {
      var j := n - 1 - i;
      if i < |a| {
        assert s[i] == a[i] && s[j] == a[|a| - 1 - i];
      } else if i < |a| + |b| {
        assert s[i] == b[i - |a|] && s[j] == b[|b| - 1 - (i - |a|)];
      } else {
        assert s[i] == a[i - |a| - |b|] && s[j] == a[|a| - 1 - (i - |a| - |b|)];
      }
    }
  }
}
