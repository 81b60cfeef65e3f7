# QAOA on a chip-native gate set, in Dafny

This project models three parts of the ETH fork of Qiskit Terra that simulates
the Quantum Approximate Optimization Algorithm (QAOA) using the gate set native
to a specific quantum chip (CZ, RZ and the quarter-turn `rx_pi` pulse).

- **Ising translation** (`get_pauliList`, `get_ising_qubitops`). An Ising
  dictionary maps index tuples to coefficients.
  - Keys with two indices become coupling terms.
  - Keys with one index become field terms.
  - The empty key becomes the constant offset.
  - Each term is a coefficient with a Z mask and an X mask over the qubits.
- **The QAOA circuit builder**, the `QAOA` class. Its `register` field is
  reset to an empty circuit. It is then extended one layer per pair of
  angles, and finished with a barrier and a measurement of every qubit.
  Each layer has three parts:
  - Hadamards on every qubit;
  - CNOT–RZ–CNOT for each coupling;
  - an RX mixer on every qubit.
- **The chip-native gates**:
  - `CX_PIGate` ("rx_pi/2"), a whole number of quarter turns about x;
  - `RZGate`;
  - `RXGate`;
  - `U3Gate_eth`, the two-pulse gate;
  - `SwapGate`.

  For each gate the model gives its constructor check, its `_define` rule,
  its `inverse` and its circuit helper. For SWAP it also gives its
  permutation matrix.

Layout, one module per source file:

- `instructions.dfy` holds the shared vocabulary:
  - a closed `Gate` datatype, in which the framework's own gates (U1, U3, CZ,
    CNOT, H, barrier, measure) are opaque constructors;
  - instructions and circuits;
  - `QuantumCircuit.append`;
  - the well-formedness of a circuit.
- `rx_pi.dfy`, `rz.dfy`, `rx.dfy`, `u3_eth.dfy` and `swap.dfy` hold one gate
  each. `matrices.dfy` holds the small amount of linear algebra that the SWAP
  matrix needs.
- `gates.dfy` dispatches over the family. Its `GateInstance` class runs the
  `_define` append loop into its `definition` field.
- `ising.dfy` holds the translation. Its methods use the source's loops and
  its `np.zeros` arrays, and are proved equal to specification functions.
- `qaoa.dfy` holds the `QAOA` class. Its methods update `register` with the
  source's loops, and are proved equal to specification functions (`Layer`,
  `Layers`, `Built`) about which the lemmas are stated.

Behaviours of the code worth stating explicitly:

- The Hadamard layer is emitted at the start of *every* layer.
- Layer i takes its cost angle from `params[2i-1]` and its mixer angle from
  `params[2i-2]`.
- The number of layers is `len(params) // 2`. A trailing odd angle is ignored
  without an error, and the layer count `p` given to the constructor is never
  read.
- Keys with three or more indices are dropped silently.
- `CX_PIGate` rejects a fractional multiple with `QiskitError`.
- `RXGate` has no `inverse` method. The `inverse` in `rx.py` is a free
  function of the module, modelled as `RxGate.Inverse`.

## Model

| member | source | states |
|---|---|---|
| IsingQubitOperator.Partition | examples/Qiskit_ETH/IsingQubitOperator.py:9-15 | the fields and couplings are collected in dictionary order. The constant is the value of the last empty key, or 0 |
| IsingQubitOperator.BuildTerm | examples/Qiskit_ETH/IsingQubitOperator.py:21-25 | a term built on two zeroed arrays carries the key's value. Its Z mask is set exactly at the key's indices and its X mask is all false |
| IsingQubitOperator.GetPauliList | examples/Qiskit_ETH/IsingQubitOperator.py:5-32 | the returned list is the coupling terms followed by the field terms. The returned constant is that of the dictionary |
| IsingQubitOperator.AppendTerms | examples/Qiskit_ETH/IsingQubitOperator.py:20-30 | each of the two term loops appends exactly one term per entry of its group, in the group's order, after what the list already held |
| IsingQubitOperator.GetIsingQubitOps | examples/Qiskit_ETH/IsingQubitOperator.py:35-38 | the operator wraps exactly the term list of `get_pauliList`, and the constant is the same |
| IsingQubitOperator.WithArityMembers | examples/Qiskit_ETH/IsingQubitOperator.py:9-13 | an entry is selected iff it is in the dictionary and its key has the given length |
| IsingQubitOperator.WithArityAppend | examples/Qiskit_ETH/IsingQubitOperator.py:9-13 | selection by key length distributes over concatenation, so it keeps dictionary order |
| IsingQubitOperator.WithArityCounts | examples/Qiskit_ETH/IsingQubitOperator.py:9-13 | a group has one entry per dictionary position with a key of that length |
| IsingQubitOperator.TermCount | examples/Qiskit_ETH/IsingQubitOperator.py:20-30 | the term list has one term per two-index key plus one per one-index key |
| IsingQubitOperator.EveryKeyHasTerm | examples/Qiskit_ETH/IsingQubitOperator.py:20-30 | every field or coupling key of the dictionary has its term in the list |
| IsingQubitOperator.CouplingsBeforeFields | examples/Qiskit_ETH/IsingQubitOperator.py:20-30 | all coupling terms come first and all field terms after them, each group in dictionary order |
| IsingQubitOperator.GroupKeepsOrder | examples/Qiskit_ETH/IsingQubitOperator.py:9-13 | two keys of the same length keep their relative order in their group |
| IsingQubitOperator.CouplingTerm | examples/Qiskit_ETH/IsingQubitOperator.py:20-25 | the term of coupling (i, j) has the key's value and masks of length `qubits`. Its Z mask is true exactly at i and j and its X mask is all false |
| IsingQubitOperator.FieldTerm | examples/Qiskit_ETH/IsingQubitOperator.py:26-30 | the term of field (i,) has the key's value. Its Z mask is true exactly at i and its X mask is all false |
| IsingQubitOperator.ConstantIsEmptyKeyValue | examples/Qiskit_ETH/IsingQubitOperator.py:8-15 | the constant is the value of the empty key, or 0 when there is no empty key |
| IsingQubitOperator.ConstantSkips | examples/Qiskit_ETH/IsingQubitOperator.py:14-15 | an entry with a non-empty key never changes the constant |
| IsingQubitOperator.WithArityDrops | examples/Qiskit_ETH/IsingQubitOperator.py:10-13 | an entry of another key length never changes a group |
| IsingQubitOperator.HighArityIgnored | examples/Qiskit_ETH/IsingQubitOperator.py:10-15 | a key with three or more indices changes neither the term list nor the constant. No error is raised |
| Qaoa.QAOA.constructor | examples/Qiskit_ETH/QAOA.py:32-40 | the object stores the model, the layer count, the qubit count and the noise flag, and starts with an empty register |
| Qaoa.QAOA.SingleQAOACircuit | examples/Qiskit_ETH/QAOA.py:43-65 | the register is only extended: the old register followed by one layer with gamma = params[0] and beta = params[1]. The result is the register |
| Qaoa.QAOA.BuildQAOACircuit | examples/Qiskit_ETH/QAOA.py:67-74 | whatever the register held before, it becomes exactly the built circuit. That circuit does not depend on `p` |
| Qaoa.AppendHadamards | examples/Qiskit_ETH/QAOA.py:44-45 | the first loop extends the register by exactly the H layer: H on qubits 0..n-1 in order |
| Qaoa.AppendCostLayer | examples/Qiskit_ETH/QAOA.py:56-60 | the coupling loop extends the register by exactly one CNOT/RZ/CNOT block per coupling, in dictionary order |
| Qaoa.AppendMixers | examples/Qiskit_ETH/QAOA.py:62-63 | the last loop extends the register by exactly RX(2 beta) on qubits 0..n-1 in order |
| Qaoa.LayerLength | examples/Qiskit_ETH/QAOA.py:44-63 | a layer has 2n + 3m instructions for n qubits and m couplings |
| Qaoa.LayerShape | examples/Qiskit_ETH/QAOA.py:44-63 | a layer has 2n + 3m instructions: H on qubits 0..n-1 in order at the start, and RX(2 beta) on qubits 0..n-1 in order at the end |
| Qaoa.LayerCouplings | examples/Qiskit_ETH/QAOA.py:56-60 | between those, coupling t of the dictionary occupies positions n+3t .. n+3t+2 as CNOT a->b, RZ(2 J gamma) on b, CNOT a->b |
| Qaoa.LayerIgnoresNonCouplings | examples/Qiskit_ETH/QAOA.py:47-54 | removing a field, the constant or a longer key from the model leaves the layer unchanged |
| Qaoa.BuiltLayer | examples/Qiskit_ETH/QAOA.py:69-71 | the i-th block of the built circuit (1-based, starting at (i-1)(2n + 3m)) is the layer with gamma = params[2i-1] and beta = params[2i-2] |
| Qaoa.TrailingParamIgnored | examples/Qiskit_ETH/QAOA.py:69 | only the first 2 * floor(len/2) angles are read. With an odd count, the last angle is ignored |
| Qaoa.BuiltTail | examples/Qiskit_ETH/QAOA.py:72-73 | the built circuit ends with one barrier over all n qubits followed by the measurement of qubit k into bit k for every k |
| Qaoa.BuiltLength | examples/Qiskit_ETH/QAOA.py:69-73 | the built circuit has floor(len/2) layers of 2n + 3m instructions each, then n + 1 more |
| Qaoa.LayerWellFormed | examples/Qiskit_ETH/QAOA.py:44-63 | when every coupling names two distinct register qubits, every instruction of a layer has in-range, distinct operands of the right number |
| Qaoa.BuiltWellFormed | examples/Qiskit_ETH/QAOA.py:67-74 | under the same condition, the whole circuit fits n qubits and n classical bits |
| CxPiGate.Mod1 | qiskit/extensions/standard/rx_pi.py:35 | Python's `theta % 1` lies in [0, 1) and is 0 iff theta is a whole number |
| CxPiGate.New | qiskit/extensions/standard/rx_pi.py:33-38 | construction succeeds iff theta is a whole number, and then gives CX_PI(theta). Otherwise it fails with QiskitError |
| CxPiGate.InverseHeader | qiskit/extensions/standard/rx_pi.py:38 | the gate is recorded on one qubit with one parameter, its multiple. The inverse of a constructible gate is recorded under the same name and qubit count with that parameter negated |
| CxPiGate.Rule | qiskit/extensions/standard/rx_pi.py:45-52 | the definition is one U3 on the local qubit, rotating by theta * pi / 2 |
| CxPiGate.Inverse | qiskit/extensions/standard/rx_pi.py:55-60 | the inverse is CX_PI(-theta) built by the constructor. It raises `QiskitError` exactly when theta is not whole, so the inverse of a constructible gate never raises |
| CxPiGate.InverseInvolutive | qiskit/extensions/standard/rx_pi.py:60 | inverting twice gives back the original gate |
| CxPiGate.InverseNegatesRotation | qiskit/extensions/standard/rx_pi.py:48 | the definition of the inverse negates the U3 rotation angle, with the same phases and qubit |
| CxPiGate.AppendRxPi | qiskit/extensions/standard/rx_pi.py:70-72 | appends exactly one CX_PI(theta) on q, keeping the circuit as a prefix. It fails iff the constructor does |
| RzGate.Rule | qiskit/extensions/standard/rz.py:38-45 | the definition is exactly one U1(phi) on the local qubit |
| RzGate.InverseHeader | qiskit/extensions/standard/rz.py:32 | the gate is recorded on one qubit with one parameter, its angle. The inverse is recorded under the same name and qubit count with that parameter negated |
| RzGate.Inverse | qiskit/extensions/standard/rz.py:47-52 | the inverse is an RZ whose angle cancels phi |
| RzGate.InverseInvolutive | qiskit/extensions/standard/rz.py:52 | inverting twice restores phi |
| RzGate.InverseNegatesRule | qiskit/extensions/standard/rz.py:41 | the definition of the inverse is the U1 by the opposite angle |
| RzGate.AppendRz | qiskit/extensions/standard/rz.py:61-63 | appends exactly one RZ(phi) on q, keeping the circuit as a prefix |
| RxGate.Rule | qiskit/extensions/standard/rx.py:41-52 | the definition has five instructions |
| RxGate.InverseHeader | qiskit/extensions/standard/rx.py:34 | the gate is recorded on one qubit with one parameter, its angle. The module-level inverse is recorded under the same name and qubit count with that parameter negated |
| RxGate.RulePalindrome | qiskit/extensions/standard/rx.py:43-49 | the definition reads the same forwards and backwards |
| RxGate.OnlyMiddleDependsOnAngle | qiskit/extensions/standard/rx.py:44-48 | only the middle instruction, RZ(theta), depends on theta, and two definitions are equal iff their angles are |
| RxGate.RuleConstructible | qiskit/extensions/standard/rx.py:44-48 | every instruction acts on qubit 0 and is an RZ or a CX_PI whose constructor succeeds, so building the definition never raises |
| RxGate.Inverse | qiskit/extensions/standard/rx.py:57-62 | the module-level `inverse` gives an RX whose angle cancels theta |
| RxGate.InverseInvolutive | qiskit/extensions/standard/rx.py:62 | inverting twice gives back the gate |
| RxGate.AppendRx | qiskit/extensions/standard/rx.py:65-67 | appends exactly one RX(theta) on q, keeping the circuit as a prefix |
| U3EthGate.Rule | qiskit/extensions/standard/u3_eth.py:39-49 | the definition has three instructions, all on the local qubit without classical operands |
| U3EthGate.InverseHeader | qiskit/extensions/standard/u3_eth.py:33 | the gate is recorded on one qubit with three parameters. The inverse is recorded under the same name and qubit count with parameters (-p0, -p2, -p1) |
| U3EthGate.Inverse | qiskit/extensions/standard/u3_eth.py:52-57 | the inverse of (theta, phi, lam) is (-theta, -lam, -phi) |
| U3EthGate.InverseInvolutive | qiskit/extensions/standard/u3_eth.py:57 | inverting twice gives back the original angles |
| U3EthGate.ExpandedRule | qiskit/extensions/standard/u3_eth.py:43-45 | expanding the RX step one level gives seven instructions on qubit 0, each an RZ or CX_PI(1) |
| U3EthGate.AppendU3Eth | qiskit/extensions/standard/u3_eth.py:75-77 | appends exactly one U3_eth(theta, phi, lam) on q, keeping the circuit as a prefix |
| SwapGate.Rule | qiskit/extensions/standard/swap.py:43-70 | the definition has 21 instructions |
| SwapGate.HeaderCoversRule | qiskit/extensions/standard/swap.py:37 | the gate is recorded with no parameter, and every qubit its definition uses is below the recorded qubit count |
| SwapGate.RuleBlocks | qiskit/extensions/standard/swap.py:46-66 | the definition is three 7-instruction CNOT blocks with targets q1, q0, q1 |
| SwapGate.RuleRealisesCnotSwap | qiskit/extensions/standard/swap.py:41 | the definition is "cx a,b; cx b,a; cx a,b" with each CNOT replaced by its native block |
| SwapGate.RuleUsesNativeGates | qiskit/extensions/standard/swap.py:46-66 | only CX_PI(1), RZ(pi/2) and CZ occur, on qubits 0 and 1 only |
| SwapGate.CzPositions | qiskit/extensions/standard/swap.py:49-63 | exactly three CZ instructions occur, at positions 3, 10 and 17, on (q0,q1), (q1,q0) and (q0,q1), the entries at lines 49, 56 and 63 |
| SwapGate.RulePalindrome | qiskit/extensions/standard/swap.py:46-66 | the 21-instruction definition reads the same forwards and backwards |
| SwapGate.Inverse | qiskit/extensions/standard/swap.py:72-74 | the inverse is SWAP itself |
| SwapGate.ToMatrix | qiskit/extensions/standard/swap.py:76-81 | the matrix is square, of dimension 2 to the power of the recorded qubit count |
| SwapGate.MatrixIsPermutation | qiskit/extensions/standard/swap.py:76-81 | `to_matrix` is the 4x4 0/1 matrix of the permutation exchanging basis states 1 and 2 |
| SwapGate.ExchangesBasis | qiskit/extensions/standard/swap.py:78-81 | the matrix maps basis state k to the state of its permuted index, so \|01> and \|10> are exchanged |
| SwapGate.MatrixSquaredIsIdentity | qiskit/extensions/standard/swap.py:78-81 | the matrix times itself is the identity |
| SwapGate.InverseMatrixIsAdjoint | qiskit/extensions/standard/swap.py:72-81 | the inverse gate's matrix equals the adjoint (transpose) of the gate's matrix |
| SwapGate.AppendSwap | qiskit/extensions/standard/swap.py:84-86 | appends exactly one SWAP on [qubit1, qubit2], keeping the circuit as a prefix |
| Gates.Header | qiskit/extensions/standard/swap.py:35-37 | the recorded qubit count is the gate's arity: 2 for SWAP, 1 for the others. The parameter list has 0, 3 or 1 entries. This row covers all five gates; the cited lines are one gate's, and the other gates' lines are on their own rows. |
| Gates.HeaderDeterminesGate | qiskit/extensions/standard/u3_eth.py:31-33 | two gates of the family have the same name and parameter list iff they are the same gate. This row covers all five gates; the cited lines are one gate's, and the other gates' lines are on their own rows. |
| Gates.RuleWellFormed | qiskit/extensions/standard/swap.py:44-66 | every definition is a well-formed circuit over the gate's own qubits, and each gate in it passes its constructor check. This row covers all five gates; the cited lines are one gate's, and the other gates' lines are on their own rows. |
| Gates.RuleLowersLevel | qiskit/extensions/standard/u3_eth.py:42-46 | every definition uses only gates closer to the primitive ones, so repeated expansion ends. This row covers all five gates; the cited lines are one gate's, and the other gates' lines are on their own rows. |
| Gates.Inverse | qiskit/extensions/standard/rz.py:47-52 | the inverse of a gate that defines one has the same kind, name and arity, and is constructible. This row covers the four gates that define `inverse`; the cited lines are one gate's, and the other gates' lines are on their own rows. |
| Gates.InverseInvolutive | qiskit/extensions/standard/u3_eth.py:52-57 | inverting twice gives back the gate, for every gate that defines `inverse`. This row covers the four gates that define `inverse`; the cited lines are one gate's, and the other gates' lines are on their own rows. |
| Gates.GateInstance.constructor | qiskit/extensions/standard/rz.py:30-32 | a new gate object holds its gate and no definition yet. This row covers all five gates; the cited lines are one gate's, and the other gates' lines are on their own rows. |
| Gates.GateInstance.Define | qiskit/extensions/standard/rz.py:38-45 | the append loop stores exactly the gate's rule as its definition. This row covers all five gates; the cited lines are one gate's, and the other gates' lines are on their own rows. |
| Instructions.Append | qiskit/extensions/standard/rz.py:63 | the old circuit is a prefix of the result, and the new instruction is last |
| Instructions.AppendWellFormed | qiskit/extensions/standard/swap.py:86 | appending to a well-formed circuit keeps it well-formed iff the new instruction fits |

## Left out

- `QAOA.calculateEnergy` and `objectiveFunction` are not modelled. They cover simulator execution, `transpile`, the noise model (floating-point error probabilities), `parallel_map`, the foreign mean-and-variance routine, and the backend field the constructor creates.
- The `to_matrix` methods of `rz.py`, `rx_pi.py` and `u3_eth.py` are not modelled: they need complex exponentials and trigonometry.
- SwapGate.ToMatrix: its entries are `complex` in the source and integers here, since every entry is 0 or 1.
- The inherited `Gate.inverse` that an `RXGate` object falls back on belongs to the framework and is not part of this model. `Gates.Inverse` is stated only for the four gates that define their own.
- The `label` argument of `U3Gate_eth` is not modelled: it is only a display label and does not change the recorded name "u3_eth".
- The framework's classes (`Gate`, `QuantumRegister`, `ClassicalRegister`, `QuantumCircuit`, `U1Gate`, `U3Gate`, `CzGate`, `CnotGate`, `HGate`, and Aqua's `WeightedPauliOperator` and `Pauli`) are opaque. Register elements are plain qubit and bit indices.
- Installing the helpers on `QuantumCircuit` at import time is not modelled. The helpers are plain functions that append to a circuit.
- The driver scripts and the demonstration lines at the end of `IsingQubitOperator.py` are not modelled.
- Angles are exact reals, not double-precision floats. `Pi` is the shortest decimal that rounds to the double value of pi, and no proof depends on it.
- IsingQubitOperator.GetPauliList: an out-of-range index raises in the source. The model requires every index to be in range instead.
- IsingQubitOperator.GetPauliList: the dictionary is a sequence of entries whose keys are required to be distinct, as a dictionary's keys are.
- Qaoa.QAOA.SingleQAOACircuit: a coupling naming the same qubit twice, or a qubit outside the register, raises in the source. The model requires every coupling to be addressable instead.
- Qaoa.QAOA.SingleQAOACircuit: fewer than two angles raises in the source. The model requires at least two angles.
- Qaoa.QAOA.BuildQAOACircuit: once at least one layer is built, it inherits the single layer's raise on a coupling that is not addressable. The model requires addressable couplings whenever there are two or more angles; with fewer, no layer is built and any couplings are accepted, as in the source.
- IsingQubitOperator.GetIsingQubitOps: the `WeightedPauliOperator` constructor is modelled as a plain wrapper of the term list. Any merging of terms with equal masks or pruning of zero weights that the library constructor does is not modelled.
- Qaoa.QAOA.SingleQAOACircuit: the source returns the `register` object itself, so a later call also changes a circuit returned earlier. The model returns a copy of the register's value, and aliasing between returned circuits is not modelled. The same holds for Qaoa.QAOA.BuildQAOACircuit.
- Instructions.Append: the framework's operand checks in `QuantumCircuit.append` (a repeated qubit, or one outside the register, raises) are not modelled; every append concatenates. `Instructions.AppendWellFormed` states the condition under which those checks pass.
