/**
 * The QAOA circuit builder: a `QAOA` object holds an Ising model, a qubit
 * count and a circuit register; `BuildQAOACircuit` resets the register and
 * appends one layer per pair of angles, then a barrier and a measurement of
 * every qubit.
 */
module Qaoa {
  import opened Instructions
  import opened IsingQubitOperator
  import RzGate
  import RxGate

  /** What the circuit needs of each coupling key (a, b): two distinct qubits of
      the register (otherwise the framework raises when the CNOT is added). */
  predicate CouplingsAddressable(ising: Ising, qubits: nat) {
    forall e | e in ising && |e.0| == 2 :: e.0[0] < qubits && e.0[1] < qubits && e.0[0] != e.0[1]
  }

  predicate AllCouplings(cs: Ising) {
    forall e | e in cs :: |e.0| == 2
  }

  /** A Hadamard on each qubit 0 .. n-1. */
  function HLayer(n: nat): Circuit {
    if n == 0 then [] else HLayer(n - 1) + [Instr(H, [n - 1], [])]
  }

  lemma {:induction false} HLayerAt(n: nat)
    ensures |HLayer(n)| == n
    ensures forall k | 0 <= k < n :: HLayer(n)[k] == Instr(H, [k], [])
  {
    if n > 0 {
      HLayerAt(n - 1);
    }
  }

  /** The RZ angle of a coupling with value J under cost angle gamma: J * 2 * gamma. */
  function CostAngle(value: real, gamma: real): real {
    value * 2.0 * gamma
  }

  lemma HLayerStep(prefix: Circuit, i: nat, before: Circuit, after: Circuit)
    requires before == prefix + HLayer(i)
    requires after == Append(before, H, [i], [])
    ensures after == prefix + HLayer(i + 1)
  {
  }

  /** The cost fragment of coupling (a, b) with value J: CNOT a->b, RZ(2 J gamma)
      on b, CNOT a->b. */
  function CostBlock(e: Entry, gamma: real): Circuit
    requires |e.0| == 2
  {
    [ Instr(CX, [e.0[0], e.0[1]], []),
      Instr(RZ(CostAngle(e.1, gamma)), [e.0[1]], []),
      Instr(CX, [e.0[0], e.0[1]], []) ]
  }

  /** The cost blocks of the couplings among `cs`, in order. */
  function CostLayer(cs: Ising, gamma: real): Circuit
    decreases |cs|
  {
    if cs == [] then []
    else
      var last := cs[|cs| - 1];
      CostLayer(cs[..|cs| - 1], gamma) + (if |last.0| == 2 then CostBlock(last, gamma) else [])
  }

  lemma CostLayerStep(cs: Ising, t: nat, gamma: real)
    requires t < |cs| && |cs[t].0| == 2
    ensures CostLayer(cs[..t + 1], gamma) == CostLayer(cs[..t], gamma) + CostBlock(cs[t], gamma)
  {
    assert cs[..t + 1][..t] == cs[..t];
  }

  /** The three appends of coupling t extend the cost layer by its block. */
  lemma CostStep(prefix: Circuit, cs: Ising, t: nat, gamma: real,
                 before: Circuit, c1: Circuit, c2: Circuit, after: Circuit)
    requires t < |cs| && |cs[t].0| == 2
    requires before == prefix + CostLayer(cs[..t], gamma)
    requires c1 == Append(before, CX, [cs[t].0[0], cs[t].0[1]], [])
    requires c2 == RzGate.AppendRz(c1, CostAngle(cs[t].1, gamma), cs[t].0[1])
    requires after == Append(c2, CX, [cs[t].0[0], cs[t].0[1]], [])
    ensures after == prefix + CostLayer(cs[..t + 1], gamma)
  {
    var e := cs[t];
    var block := CostBlock(e, gamma);
    assert block[1].op == RZ(CostAngle(e.1, gamma));
    assert c1 == before + block[..1];
    assert c2 == before + block[..2];
    assert after == before + block;
    CostLayerStep(cs, t, gamma);
  }

  /** An RX(2 beta) on each qubit 0 .. n-1. */
  function MixerLayer(n: nat, beta: real): Circuit {
    if n == 0 then [] else MixerLayer(n - 1, beta) + [Instr(RX(beta * 2.0), [n - 1], [])]
  }

  lemma {:induction false} MixerLayerAt(n: nat, beta: real)
    ensures |MixerLayer(n, beta)| == n
    ensures forall k | 0 <= k < n :: MixerLayer(n, beta)[k] == Instr(RX(beta * 2.0), [k], [])
  {
    if n > 0 {
      MixerLayerAt(n - 1, beta);
    }
  }

  lemma MixerLayerStep(prefix: Circuit, i: nat, beta: real, before: Circuit, after: Circuit)
    requires before == prefix + MixerLayer(i, beta)
    requires after == RxGate.AppendRx(before, beta * 2.0, i)
    ensures after == prefix + MixerLayer(i + 1, beta)
  {
  }

  lemma CouplingsSelected(ising: Ising)
    ensures AllCouplings(WithArity(ising, 2))
  {
    WithArityMembers(ising, 2);
  }

  /** The three loops of `singleQAOACircuit` together append one layer. */
  lemma LayerAppended(ising: Ising, n: nat, gamma: real, beta: real,
                      start: Circuit, afterH: Circuit, afterCost: Circuit, final: Circuit)
    requires afterH == start + HLayer(n)
    requires afterCost == afterH + CostLayer(WithArity(ising, 2), gamma)
    requires final == afterCost + MixerLayer(n, beta)
    ensures final == start + Layer(ising, n, gamma, beta)
  {
  }

  /** One layer of `singleQAOACircuit` with cost angle gamma and mixer angle beta. */
  function Layer(ising: Ising, n: nat, gamma: real, beta: real): Circuit {
    HLayer(n) + CostLayer(WithArity(ising, 2), gamma) + MixerLayer(n, beta)
  }

  /** The first `count` layers; layer i takes gamma = params[2i-1] and
      beta = params[2i-2]. */
  function Layers(ising: Ising, n: nat, params: seq<real>, count: nat): Circuit
    requires 2 * count <= |params|
  {
    if count == 0 then []
    else Layers(ising, n, params, count - 1) + Layer(ising, n, params[2 * count - 1], params[2 * count - 2])
  }

  function MeasureAll(n: nat): Circuit {
    if n == 0 then [] else MeasureAll(n - 1) + [Instr(Measure, [n - 1], [n - 1])]
  }

  lemma {:induction false} MeasureAllAt(n: nat)
    ensures |MeasureAll(n)| == n
    ensures forall k | 0 <= k < n :: MeasureAll(n)[k] == Instr(Measure, [k], [k])
  {
    if n > 0 {
      MeasureAllAt(n - 1);
    }
  }

  /** The circuit `buildQAOACircuit` leaves in the register. */
  function Built(ising: Ising, n: nat, params: seq<real>): Circuit {
    Layers(ising, n, params, |params| / 2) + [Instr(Barrier, Range(n), [])] + MeasureAll(n)
  }

  /** The first loop of `singleQAOACircuit`: a Hadamard on each qubit. */
  method AppendHadamards(c: Circuit, n: nat) returns (r: Circuit)
    ensures r == c + HLayer(n)
  {
    r := c;
    for i := 0 to n
      invariant r == c + HLayer(i)
    {
      ghost var before := r;
      r := Append(r, H, [i], []);
      HLayerStep(c, i, before, r);
    }
  }

  /** The loop over the couplings of `singleQAOACircuit`: CNOT, RZ, CNOT per
      coupling, in dictionary order. */
  method AppendCostLayer(c: Circuit, jij: Ising, gamma: real) returns (r: Circuit)
    requires AllCouplings(jij)
    ensures r == c + CostLayer(jij, gamma)
  {
    r := c;
    for t := 0 to |jij|
      invariant r == c + CostLayer(jij[..t], gamma)
    {
      assert jij[t] in jij;
      var key, value := jij[t].0, jij[t].1;
      ghost var before := r;
      r := Append(r, CX, [key[0], key[1]], []);
      ghost var r1 := r;
      var angle := CostAngle(value, gamma);
      r := RzGate.AppendRz(r, angle, key[1]);
      ghost var r2 := r;
      r := Append(r, CX, [key[0], key[1]], []);
      CostStep(c, jij, t, gamma, before, r1, r2, r);
    }
    assert jij[..|jij|] == jij;
  }

  /** The last loop of `singleQAOACircuit`: RX(2 beta) on each qubit. */
  method AppendMixers(c: Circuit, n: nat, beta: real) returns (r: Circuit)
    ensures r == c + MixerLayer(n, beta)
  {
    r := c;
    for i := 0 to n
      invariant r == c + MixerLayer(i, beta)
    {
      ghost var before := r;
      r := RxGate.AppendRx(r, beta * 2.0, i);
      MixerLayerStep(c, i, beta, before, r);
    }
  }

  class QAOA {
    const ising: Ising
    const p: int
    const qubits: nat
    const useNoiseModel: bool
    var register: Circuit

    constructor (ising: Ising, p: int, qubits: nat, useNoiseModel: bool)
      ensures this.ising == ising && this.p == p && this.qubits == qubits
      ensures this.useNoiseModel == useNoiseModel
      ensures register == []
    {
      this.ising := ising;
      this.p := p;
      this.qubits := qubits;
      this.useNoiseModel := useNoiseModel;
      register := [];
    }

    /** `singleQAOACircuit`: append one layer with gamma = params[0] and
        beta = params[1]; the register is only extended. */
    method SingleQAOACircuit(params: seq<real>) returns (circuit: Circuit)
      requires |params| >= 2
      requires CouplingsAddressable(ising, qubits)
      modifies this
      ensures register == old(register) + Layer(ising, qubits, params[0], params[1])
      ensures circuit == register
    {
      ghost var start := register;
      register := AppendHadamards(register, qubits);
      ghost var afterH := register;
      var hi, jij, _ := Partition(ising);
      CouplingsSelected(ising);
      register := AppendCostLayer(register, jij, params[0]);
      ghost var afterCost := register;
      register := AppendMixers(register, qubits, params[1]);
      LayerAppended(ising, qubits, params[0], params[1], start, afterH, afterCost, register);
      circuit := register;
    }

    /** `buildQAOACircuit`: start from an empty register, append floor(|params|/2)
        layers, then a barrier over all qubits and a measurement of each qubit
        into the classical bit of the same index. */
    method BuildQAOACircuit(params: seq<real>) returns (circuit: Circuit)
      requires |params| >= 2 ==> CouplingsAddressable(ising, qubits)
      modifies this
      ensures register == Built(ising, qubits, params)
      ensures circuit == register
    {
      register := [];
      for i := 1 to |params| / 2 + 1
        invariant register == Layers(ising, qubits, params, i - 1)
      {
        var parameters := [params[i * 2 - 1], params[i * 2 - 2]];
        var layer := SingleQAOACircuit(parameters);
      }
      register := Append(register, Barrier, Range(qubits), []);
      register := register + MeasureAll(qubits);
      circuit := register;
    }
  }

  /** The cost layer holds one three-instruction block per coupling, in the
      order the couplings were entered. */
  lemma {:induction false} CostLayerBlocks(cs: Ising, gamma: real)
    requires AllCouplings(cs)
    ensures |CostLayer(cs, gamma)| == 3 * |cs|
    ensures forall t | 0 <= t < |cs| ::
      |cs[t].0| == 2 && CostLayer(cs, gamma)[3 * t .. 3 * t + 3] == CostBlock(cs[t], gamma)
    decreases |cs|
  {
    if cs != [] {
      var init := cs[..|cs| - 1];
      assert AllCouplings(init) by {
        forall e | e in init ensures |e.0| == 2 { assert e in cs; }
      }
      CostLayerBlocks(init, gamma);
      assert cs[|cs| - 1] in cs;
      var head, block := CostLayer(init, gamma), CostBlock(cs[|cs| - 1], gamma);
      assert CostLayer(cs, gamma) == head + block;
      forall t | 0 <= t < |cs|
        ensures |cs[t].0| == 2 && CostLayer(cs, gamma)[3 * t .. 3 * t + 3] == CostBlock(cs[t], gamma)
      {
        assert cs[t] in cs;
        if t < |cs| - 1 {
          assert cs[t] == init[t];
          assert (head + block)[3 * t .. 3 * t + 3] == head[3 * t .. 3 * t + 3];
        } else {
          assert (head + block)[3 * t .. 3 * t + 3] == block;
        }
      }
    }
  }

  /** The number of instructions in one layer: a Hadamard and an RX per qubit
      and three per coupling. */
  function LayerSize(ising: Ising, n: nat): nat {
    2 * n + 3 * |WithArity(ising, 2)|
  }

  /** A layer is: H on qubits 0 .. n-1; then for each two-index key (a, b),
      in dictionary order, CNOT a->b, RZ(2 J gamma) on b, CNOT a->b; then
      RX(2 beta) on qubits 0 .. n-1. */
  lemma LayerLength(ising: Ising, n: nat, gamma: real, beta: real)
    ensures |Layer(ising, n, gamma, beta)| == LayerSize(ising, n)
  {
    HLayerAt(n);
    MixerLayerAt(n, beta);
    CouplingsSelected(ising);
    CostLayerBlocks(WithArity(ising, 2), gamma);
  }

  lemma LayerShape(ising: Ising, n: nat, gamma: real, beta: real)
    ensures |Layer(ising, n, gamma, beta)| == LayerSize(ising, n)
    ensures forall k | 0 <= k < n :: Layer(ising, n, gamma, beta)[k] == Instr(H, [k], [])
    ensures forall k | 0 <= k < n ::
      Layer(ising, n, gamma, beta)[LayerSize(ising, n) - n + k] == Instr(RX(beta * 2.0), [k], [])
  {
    var cs := WithArity(ising, 2);
    var hs, cost, mix := HLayer(n), CostLayer(cs, gamma), MixerLayer(n, beta);
    var l := Layer(ising, n, gamma, beta);
    assert l == hs + cost + mix;
    HLayerAt(n);
    MixerLayerAt(n, beta);
    WithArityMembers(ising, 2);
    CostLayerBlocks(cs, gamma);
    forall k | 0 <= k < n ensures l[LayerSize(ising, n) - n + k] == Instr(RX(beta * 2.0), [k], []) {
      assert l[n + 3 * |cs| + k] == mix[k];
    }
  }

  /** The cost part of a layer, one block per coupling, in dictionary order. */
  lemma LayerCouplings(ising: Ising, n: nat, gamma: real, beta: real)
    ensures AllCouplings(WithArity(ising, 2))
    ensures |Layer(ising, n, gamma, beta)| == LayerSize(ising, n)
    ensures var cs := WithArity(ising, 2);
      forall t | 0 <= t < |cs| ::
        Layer(ising, n, gamma, beta)[n + 3 * t .. n + 3 * t + 3] == CostBlock(cs[t], gamma)
  {
    var cs := WithArity(ising, 2);
    var hs, cost, mix := HLayer(n), CostLayer(cs, gamma), MixerLayer(n, beta);
    var l := Layer(ising, n, gamma, beta);
    assert l == hs + cost + mix;
    HLayerAt(n);
    MixerLayerAt(n, beta);
    CouplingsSelected(ising);
    CostLayerBlocks(cs, gamma);
    forall t | 0 <= t < |cs| ensures l[n + 3 * t .. n + 3 * t + 3] == CostBlock(cs[t], gamma) {
      SliceOfMiddle(hs, cost, mix, 3 * t, 3 * t + 3);
    }
  }

  lemma SliceOfMiddle(a: Circuit, b: Circuit, c: Circuit, lo: nat, hi: nat)
    requires lo <= hi <= |b|
    ensures (a + b + c)[|a| + lo .. |a| + hi] == b[lo .. hi]
  {
  }


  /** Only the two-index keys shape a layer: removing an entry whose key has
      any other length (a field, the constant, or three or more indices)
      leaves the layer unchanged. */
  lemma LayerIgnoresNonCouplings(a: Ising, e: Entry, b: Ising, n: nat, gamma: real, beta: real)
    requires |e.0| != 2
    ensures Layer(a + [e] + b, n, gamma, beta) == Layer(a + b, n, gamma, beta)
  {
    WithArityDrops(a, e, b, 2);
  }

  lemma {:induction false} LayersLength(ising: Ising, n: nat, params: seq<real>, count: nat)
    requires 2 * count <= |params|
    ensures |Layers(ising, n, params, count)| == count * LayerSize(ising, n)
  {
    if count > 0 {
      var prev := Layers(ising, n, params, count - 1);
      var last := Layer(ising, n, params[2 * count - 1], params[2 * count - 2]);
      assert Layers(ising, n, params, count) == prev + last;
      LayersLength(ising, n, params, count - 1);
      LayerLength(ising, n, params[2 * count - 1], params[2 * count - 2]);
      MulStep(|prev|, |last|, count, LayerSize(ising, n));
    }
  }

  lemma MulStep(a: nat, b: nat, c: nat, size: nat)
    requires 0 < c && a == (c - 1) * size && b == size
    ensures a + b == c * size
  {
  }

  /** The first i layers of a longer build are the build of i layers. */
  lemma {:induction false} LayersPrefix(ising: Ising, n: nat, params: seq<real>, count: nat, i: nat)
    requires 2 * count <= |params| && i <= count
    ensures |Layers(ising, n, params, i)| <= |Layers(ising, n, params, count)|
    ensures Layers(ising, n, params, count)[..|Layers(ising, n, params, i)|] == Layers(ising, n, params, i)
    decreases count
  {
    if i < count {
      LayersPrefix(ising, n, params, count - 1, i);
      var shorter := Layers(ising, n, params, count - 1);
      var last := Layer(ising, n, params[2 * count - 1], params[2 * count - 2]);
      assert Layers(ising, n, params, count) == shorter + last;
      assert (shorter + last)[..|Layers(ising, n, params, i)|] == shorter[..|Layers(ising, n, params, i)|];
    } else {
      assert Layers(ising, n, params, count)[..|Layers(ising, n, params, count)|] == Layers(ising, n, params, count);
    }
  }

  /** Where the i-th layer (1-based) starts in the built circuit. */
  function LayerStart(ising: Ising, n: nat, i: nat): nat
    requires 1 <= i
  {
    (i - 1) * LayerSize(ising, n)
  }

  /** Layer i of the built circuit (counting from 1) uses gamma = params[2i-1]
      and beta = params[2i-2]. */
  lemma BuiltLayer(ising: Ising, n: nat, params: seq<real>, i: nat)
    requires 1 <= i <= |params| / 2
    ensures LayerStart(ising, n, i) + LayerSize(ising, n) <= |Built(ising, n, params)|
    ensures Built(ising, n, params)[LayerStart(ising, n, i) .. LayerStart(ising, n, i) + LayerSize(ising, n)]
            == Layer(ising, n, params[2 * i - 1], params[2 * i - 2])
  {
    var all := Layers(ising, n, params, |params| / 2);
    var tail := [Instr(Barrier, Range(n), [])] + MeasureAll(n);
    assert Built(ising, n, params) == all + tail;
    var before := Layers(ising, n, params, i - 1);
    var layer := Layer(ising, n, params[2 * i - 1], params[2 * i - 2]);
    assert Layers(ising, n, params, i) == before + layer;
    LayersPrefix(ising, n, params, |params| / 2, i);
    LayersLength(ising, n, params, i - 1);
    LayerLength(ising, n, params[2 * i - 1], params[2 * i - 2]);
    PrefixSlice(all, tail, before, layer);
  }

  lemma PrefixSlice(all: Circuit, tail: Circuit, before: Circuit, layer: Circuit)
    requires |before| + |layer| <= |all|
    requires all[..|before| + |layer|] == before + layer
    ensures (all + tail)[|before| .. |before| + |layer|] == layer
  {
    assert (all + tail)[|before| .. |before| + |layer|] == (before + layer)[|before| ..];
  }

  lemma {:induction false} LayersReadOnlyPairs(ising: Ising, n: nat, params: seq<real>, extra: seq<real>, count: nat)
    requires 2 * count <= |params|
    ensures Layers(ising, n, params + extra, count) == Layers(ising, n, params, count)
  {
    if count > 0 {
      LayersReadOnlyPairs(ising, n, params, extra, count - 1);
      assert (params + extra)[2 * count - 1] == params[2 * count - 1];
      assert (params + extra)[2 * count - 2] == params[2 * count - 2];
    }
  }

  /** Only whole pairs of angles are read: a trailing unpaired angle is ignored. */
  lemma TrailingParamIgnored(ising: Ising, n: nat, params: seq<real>)
    ensures Built(ising, n, params) == Built(ising, n, params[..|params| / 2 * 2])
    ensures |params| % 2 == 1 ==> Built(ising, n, params) == Built(ising, n, params[..|params| - 1])
  {
    var even := params[..|params| / 2 * 2];
    assert |even| / 2 == |params| / 2;
    assert params == even + params[|even|..];
    LayersReadOnlyPairs(ising, n, even, params[|even|..], |params| / 2);
  }

  /** The built circuit has floor(|params|/2) layers, then a barrier over all
      n qubits, then n measurements, qubit k into classical bit k. */
  lemma BuiltTail(ising: Ising, n: nat, params: seq<real>)
    ensures n + 1 <= |Built(ising, n, params)|
    ensures Built(ising, n, params)[|Built(ising, n, params)| - n - 1] == Instr(Barrier, Range(n), [])
    ensures forall k | 0 <= k < n ::
      Built(ising, n, params)[|Built(ising, n, params)| - n + k] == Instr(Measure, [k], [k])
  {
    var layers := Layers(ising, n, params, |params| / 2);
    assert Built(ising, n, params) == layers + [Instr(Barrier, Range(n), [])] + MeasureAll(n);
    TailShape(layers, n);
  }

  lemma TailShape(prefix: Circuit, n: nat)
    ensures var b := prefix + [Instr(Barrier, Range(n), [])] + MeasureAll(n);
      |b| == |prefix| + 1 + n && b[|prefix|] == Instr(Barrier, Range(n), []) &&
      forall k | 0 <= k < n :: b[|prefix| + 1 + k] == Instr(Measure, [k], [k])
  {
    var b := prefix + [Instr(Barrier, Range(n), [])] + MeasureAll(n);
    MeasureAllAt(n);
    forall k | 0 <= k < n ensures b[|prefix| + 1 + k] == Instr(Measure, [k], [k]) {
      assert b[|prefix| + 1 + k] == MeasureAll(n)[k];
    }
  }

  /** The built circuit has 2n + 3m instructions per layer, then n + 1 more. */
  lemma BuiltLength(ising: Ising, n: nat, params: seq<real>)
    ensures |Built(ising, n, params)| == |params| / 2 * LayerSize(ising, n) + 1 + n
  {
    var layers := Layers(ising, n, params, |params| / 2);
    assert Built(ising, n, params) == layers + [Instr(Barrier, Range(n), [])] + MeasureAll(n);
    LayersLength(ising, n, params, |params| / 2);
    MeasureAllAt(n);
  }

  /** A cost layer over couplings of two distinct in-range qubits fits the
      register. */
  lemma {:induction false} CostLayerWellFormed(cs: Ising, n: nat, gamma: real)
    requires AllCouplings(cs) && CouplingsAddressable(cs, n)
    ensures WellFormed(CostLayer(cs, gamma), n, n)
    decreases |cs|
  {
    if cs != [] {
      var init, e := cs[..|cs| - 1], cs[|cs| - 1];
      assert forall x | x in init :: x in cs;
      assert e in cs;
      CostLayerWellFormed(init, n, gamma);
      var block := CostBlock(e, gamma);
      assert WellFormed(block, n, n) by {
        forall i | 0 <= i < 3 ensures InstrOk(block[i], n, n) {
          assert i == 0 || i == 1 || i == 2;
        }
      }
      WellFormedConcat(CostLayer(init, gamma), block, n, n);
    }
  }

  /** With every coupling addressable, each layer fits the n-qubit register. */
  lemma LayerWellFormed(ising: Ising, n: nat, gamma: real, beta: real)
    requires CouplingsAddressable(ising, n)
    ensures WellFormed(Layer(ising, n, gamma, beta), n, n)
  {
    var cs := WithArity(ising, 2);
    WithArityMembers(ising, 2);
    CostLayerWellFormed(cs, n, gamma);
    HLayerAt(n);
    MixerLayerAt(n, beta);
    assert Distinct([0]);
    assert WellFormed(HLayer(n), n, n);
    assert WellFormed(MixerLayer(n, beta), n, n);
    WellFormedConcat(HLayer(n), CostLayer(cs, gamma), n, n);
    WellFormedConcat(HLayer(n) + CostLayer(cs, gamma), MixerLayer(n, beta), n, n);
  }

  lemma {:induction false} LayersWellFormed(ising: Ising, n: nat, params: seq<real>, count: nat)
    requires CouplingsAddressable(ising, n) && 2 * count <= |params|
    ensures WellFormed(Layers(ising, n, params, count), n, n)
  {
    if count > 0 {
      LayersWellFormed(ising, n, params, count - 1);
      LayerWellFormed(ising, n, params[2 * count - 1], params[2 * count - 2]);
      WellFormedConcat(Layers(ising, n, params, count - 1),
                       Layer(ising, n, params[2 * count - 1], params[2 * count - 2]), n, n);
    }
  }

  /** With every coupling addressable, the built circuit fits a register of n
      qubits and n classical bits: every operand is in range and no gate
      names a qubit twice. */
  lemma BuiltWellFormed(ising: Ising, n: nat, params: seq<real>)
    requires CouplingsAddressable(ising, n)
    ensures WellFormed(Built(ising, n, params), n, n)
  {
    LayersWellFormed(ising, n, params, |params| / 2);
    var barrier: Circuit := [Instr(Barrier, Range(n), [])];
    assert InstrOk(barrier[0], n, n);
    MeasureAllAt(n);
    assert WellFormed(MeasureAll(n), n, n);
    WellFormedConcat(Layers(ising, n, params, |params| / 2), barrier, n, n);
    WellFormedConcat(Layers(ising, n, params, |params| / 2) + barrier, MeasureAll(n), n, n);
  }
}
