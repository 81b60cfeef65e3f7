/**
 * Translation of an Ising model into a list of weighted Pauli terms plus a
 * constant offset (`get_pauliList`, `get_ising_qubitops`).
 *
 * The Ising dictionary is an insertion-ordered sequence of (key, value)
 * entries with distinct keys; a key is a tuple of qubit indices. Keys of
 * arity 2 are couplings, of arity 1 fields, of arity 0 the constant; all
 * other keys are ignored.
 */
module IsingQubitOperator {

  type Key = seq<nat>
  type Entry = (Key, real)
  type Ising = seq<Entry>

  /** A weighted Pauli operator on `|z|` qubits: Z on the qubits where `z` is
      set, X on those where `x` is set. */
  datatype PauliTerm = PauliTerm(coeff: real, z: seq<bool>, x: seq<bool>)

  /** The library's operator class, as a plain wrapper of its term list. */
  datatype WeightedPauliOperator = WeightedPauliOperator(paulis: seq<PauliTerm>)

  /** What a dictionary guarantees: no key occurs twice. */
  predicate DistinctKeys(ising: Ising) {
    forall i, j | 0 <= i < j < |ising| :: ising[i].0 != ising[j].0
  }

  /** Every index of a field or coupling key addresses one of the qubits. */
  predicate IndicesInRange(ising: Ising, qubits: nat) {
    forall e | e in ising && 1 <= |e.0| <= 2 :: forall k | 0 <= k < |e.0| :: e.0[k] < qubits
  }

  /** The entries of arity `n`, in dictionary order. */
  function WithArity(ising: Ising, n: nat): (r: Ising)
    ensures |r| <= |ising|
    decreases |ising|
  {
    if ising == [] then []
    else
      var last := ising[|ising| - 1];
      WithArity(ising[..|ising| - 1], n) + (if |last.0| == n then [last] else [])
  }

  /** An entry is selected iff it is in the dictionary and its key has
      length `n`. */
  lemma {:induction false} WithArityMembers(ising: Ising, n: nat)
    ensures forall e :: e in WithArity(ising, n) <==> e in ising && |e.0| == n
    decreases |ising|
  {
    if ising != [] {
      var init, last := ising[..|ising| - 1], ising[|ising| - 1];
      WithArityMembers(init, n);
      assert ising == init + [last];
    }
  }

  /** The value of the empty key, the last written if several; 0 if none. */
  function ConstantOf(ising: Ising): real
    decreases |ising|
  {
    if ising == [] then 0.0
    else if |ising[|ising| - 1].0| == 0 then ising[|ising| - 1].1
    else ConstantOf(ising[..|ising| - 1])
  }

  /** The Z mask of a key: set exactly at the key's indices. */
  function ZMask(qubits: nat, key: Key): seq<bool> {
    seq(qubits, k requires 0 <= k < qubits => k in key)
  }

  function NoX(qubits: nat): seq<bool> {
    seq(qubits, k requires 0 <= k < qubits => false)
  }

  function Term(qubits: nat, e: Entry): PauliTerm {
    PauliTerm(e.1, ZMask(qubits, e.0), NoX(qubits))
  }

  function Terms(qubits: nat, group: Ising): seq<PauliTerm> {
    seq(|group|, t requires 0 <= t < |group| => Term(qubits, group[t]))
  }

  /** The term list: all coupling terms, then all field terms. */
  function PauliList(ising: Ising, qubits: nat): seq<PauliTerm> {
    Terms(qubits, WithArity(ising, 2)) + Terms(qubits, WithArity(ising, 1))
  }

  /** The first loop of `get_pauliList`: fields and couplings collected in
      dictionary order, the constant overwritten by each empty key. */
  method Partition(ising: Ising) returns (hi: Ising, jij: Ising, constant: real)
    ensures hi == WithArity(ising, 1) && jij == WithArity(ising, 2)
    ensures constant == ConstantOf(ising)
  {
    hi, jij, constant := [], [], 0.0;
    for i := 0 to |ising|
      invariant hi == WithArity(ising[..i], 1)
      invariant jij == WithArity(ising[..i], 2)
      invariant constant == ConstantOf(ising[..i])
    {
      assert ising[..i + 1][..i] == ising[..i];
      var (key, value) := ising[i];
      if |key| == 1 {
        hi := hi + [ising[i]];
      } else if |key| == 2 {
        jij := jij + [ising[i]];
      } else if |key| == 0 {
        constant := value;
      }
    }
    assert ising[..|ising|] == ising;
  }

  /** One term of `get_pauliList`: zero X and Z masks, the Z mask set at the
      one or two indices of the key. */
  method BuildTerm(qubits: nat, key: Key, value: real) returns (term: PauliTerm)
    requires 1 <= |key| <= 2 && forall k | 0 <= k < |key| :: key[k] < qubits
    ensures term == Term(qubits, (key, value))
  {
    var xp := new bool[qubits](k => false);
    var zp := new bool[qubits](k => false);
    zp[key[0]] := true;
    if |key| == 2 {
      zp[key[1]] := true;
    }
    assert zp[..] == ZMask(qubits, key) by {
      if |key| == 2 {
        assert forall k | 0 <= k < qubits :: zp[k] == (k == key[0] || k == key[1]);
        assert key == [key[0], key[1]];
      } else {
        assert forall k | 0 <= k < qubits :: zp[k] == (k == key[0]);
        assert key == [key[0]];
      }
    }
    assert xp[..] == NoX(qubits);
    term := PauliTerm(value, zp[..], xp[..]);
  }

  /** `get_pauliList`. */
  method GetPauliList(ising: Ising, qubits: nat) returns (pauliList: seq<PauliTerm>, constant: real)
    requires DistinctKeys(ising) && IndicesInRange(ising, qubits)
    ensures pauliList == PauliList(ising, qubits)
    ensures constant == ConstantOf(ising)
  {
    var hi, jij;
    hi, jij, constant := Partition(ising);
    WithArityMembers(ising, 1);
    WithArityMembers(ising, 2);
    pauliList := AppendTerms([], qubits, jij);
    pauliList := AppendTerms(pauliList, qubits, hi);
  }

  /** One loop of `get_pauliList`: a term per entry of the group, appended in
      the group's order. */
  method AppendTerms(acc: seq<PauliTerm>, qubits: nat, group: Ising) returns (r: seq<PauliTerm>)
    requires forall e | e in group :: 1 <= |e.0| <= 2 && forall k | 0 <= k < |e.0| :: e.0[k] < qubits
    ensures r == acc + Terms(qubits, group)
  {
    r := acc;
    for t := 0 to |group|
      invariant r == acc + Terms(qubits, group[..t])
    {
      assert group[t] in group;
      var term := BuildTerm(qubits, group[t].0, group[t].1);
      r := r + [term];
      assert Terms(qubits, group[..t + 1]) == Terms(qubits, group[..t]) + [Term(qubits, group[t])];
    }
    assert group[..|group|] == group;
  }

  /** `get_ising_qubitops`: the same terms, wrapped as one operator, and the
      same constant. */
  method GetIsingQubitOps(ising: Ising, qubits: nat) returns (op: WeightedPauliOperator, constant: real)
    requires DistinctKeys(ising) && IndicesInRange(ising, qubits)
    ensures op.paulis == PauliList(ising, qubits)
    ensures constant == ConstantOf(ising)
  {
    var pauliList;
    pauliList, constant := GetPauliList(ising, qubits);
    op := WeightedPauliOperator(pauliList);
  }

  /** Positions of the dictionary that hold a key of arity `n`. */
  function Positions(ising: Ising, n: nat): set<nat> {
    set i: nat | i < |ising| && |ising[i].0| == n
  }

  /** Selecting by arity distributes over concatenation: it keeps order. */
  lemma {:induction false} WithArityAppend(a: Ising, b: Ising, n: nat)
    ensures WithArity(a + b, n) == WithArity(a, n) + WithArity(b, n)
    decreases |b|
  {
    if b == [] {
      assert a + b == a;
    } else {
      var b' := b[..|b| - 1];
      assert (a + b)[..|a + b| - 1] == a + b';
      assert (a + b)[|a + b| - 1] == b[|b| - 1];
      WithArityAppend(a, b', n);
    }
  }

  /** The selection has one entry per position of that arity. */
  lemma {:induction false} WithArityCounts(ising: Ising, n: nat)
    ensures |WithArity(ising, n)| == |Positions(ising, n)|
    decreases |ising|
  {
    if ising != [] {
      var m := |ising| - 1;
      var p := ising[..m];
      WithArityCounts(p, n);
      assert Positions(ising, n) == Positions(p, n) + (if |ising[m].0| == n then {m} else {});
      assert m !in Positions(p, n);
    }
  }

  /** Exactly one term per field key plus one per coupling key. */
  lemma TermCount(ising: Ising, qubits: nat)
    ensures |PauliList(ising, qubits)| == |Positions(ising, 2)| + |Positions(ising, 1)|
  {
    WithArityCounts(ising, 2);
    WithArityCounts(ising, 1);
  }

  /** Every field and coupling key contributes its own term. */
  lemma EveryKeyHasTerm(ising: Ising, qubits: nat, i: nat)
    requires i < |ising| && 1 <= |ising[i].0| <= 2
    ensures Term(qubits, ising[i]) in PauliList(ising, qubits)
  {
    var n := |ising[i].0|;
    var group := WithArity(ising, n);
    WithArityMembers(ising, n);
    assert ising[i] in group;
    var t :| 0 <= t < |group| && group[t] == ising[i];
    var c := |WithArity(ising, 2)|;
    if n == 2 {
      assert PauliList(ising, qubits)[t] == Term(qubits, ising[i]);
    } else {
      assert PauliList(ising, qubits)[c + t] == Term(qubits, ising[i]);
    }
  }

  /** All coupling terms come first, then all field terms, each group in
      dictionary order. */
  lemma CouplingsBeforeFields(ising: Ising, qubits: nat)
    ensures var c, f := WithArity(ising, 2), WithArity(ising, 1);
      |PauliList(ising, qubits)| == |c| + |f| &&
      (forall t | 0 <= t < |c| :: PauliList(ising, qubits)[t] == Term(qubits, c[t])) &&
      (forall t | 0 <= t < |f| :: PauliList(ising, qubits)[|c| + t] == Term(qubits, f[t]))
  {
  }

  /** Two keys of one arity keep their relative order in its group. */
  lemma GroupKeepsOrder(ising: Ising, n: nat, p: nat, q: nat)
    requires p < q < |ising| && |ising[p].0| == n && |ising[q].0| == n
    ensures exists p', q' | 0 <= p' < q' < |WithArity(ising, n)| ::
      WithArity(ising, n)[p'] == ising[p] && WithArity(ising, n)[q'] == ising[q]
  {
    var r := WithArity(ising, n);
    var left := WithArity(ising[..q], n);
    assert ising[..q] + ising[q..] == ising;
    WithArityAppend(ising[..q], ising[q..], n);
    assert [ising[q]] + ising[q + 1..] == ising[q..];
    WithArityAppend([ising[q]], ising[q + 1..], n);
    var single: Ising := [ising[q]];
    assert single[..0] == [];
    assert WithArity([ising[q]], n) == [ising[q]];
    assert ising[p] in ising[..q];
    WithArityMembers(ising[..q], n);
    var p' :| 0 <= p' < |left| && left[p'] == ising[p];
    assert r[p'] == ising[p] && r[|left|] == ising[q];
  }

  /** The term of a coupling key (i, j): its value, a Z mask set exactly at i
      and j, no X. */
  lemma CouplingTerm(ising: Ising, qubits: nat, t: nat)
    requires IndicesInRange(ising, qubits)
    requires t < |WithArity(ising, 2)|
    ensures var e, term := WithArity(ising, 2)[t], PauliList(ising, qubits)[t];
      e in ising && |e.0| == 2 && e.0[0] < qubits && e.0[1] < qubits &&
      term.coeff == e.1 && |term.z| == qubits && |term.x| == qubits &&
      (forall k | 0 <= k < qubits :: term.z[k] <==> k == e.0[0] || k == e.0[1]) &&
      (forall k | 0 <= k < qubits :: !term.x[k])
  {
    var e := WithArity(ising, 2)[t];
    assert e in WithArity(ising, 2);
    assert e.0 == [e.0[0], e.0[1]];
  }

  /** The term of a field key (i): its value, a Z mask set exactly at i, no X. */
  lemma FieldTerm(ising: Ising, qubits: nat, t: nat)
    requires IndicesInRange(ising, qubits)
    requires t < |WithArity(ising, 1)|
    ensures var e, term := WithArity(ising, 1)[t], PauliList(ising, qubits)[|WithArity(ising, 2)| + t];
      e in ising && |e.0| == 1 && e.0[0] < qubits &&
      term.coeff == e.1 && |term.z| == qubits && |term.x| == qubits &&
      (forall k | 0 <= k < qubits :: term.z[k] <==> k == e.0[0]) &&
      (forall k | 0 <= k < qubits :: !term.x[k])
  {
    var e := WithArity(ising, 1)[t];
    assert e in WithArity(ising, 1);
    assert e.0 == [e.0[0]];
  }

  /** The constant is the value of the empty key, or 0 when there is none. */
  lemma {:induction false} ConstantIsEmptyKeyValue(ising: Ising)
    requires DistinctKeys(ising)
    ensures (forall i | 0 <= i < |ising| :: |ising[i].0| != 0) ==> ConstantOf(ising) == 0.0
    ensures forall i | 0 <= i < |ising| && |ising[i].0| == 0 :: ConstantOf(ising) == ising[i].1
    decreases |ising|
  {
    if ising != [] {
      var m := |ising| - 1;
      var p := ising[..m];
      assert DistinctKeys(p);
      ConstantIsEmptyKeyValue(p);
      if |ising[m].0| == 0 {
        forall i | 0 <= i < |ising| && |ising[i].0| == 0 ensures i == m {
        }
      } else {
        assert forall i | 0 <= i < m :: p[i] == ising[i];
      }
    }
  }

  /** An entry whose key is not empty does not change the constant. */
  lemma {:induction false} ConstantSkips(a: Ising, e: Entry, b: Ising)
    requires |e.0| != 0
    ensures ConstantOf(a + [e] + b) == ConstantOf(a + b)
    decreases |b|
  {
    if b == [] {
      assert a + [e] + b == a + [e] && (a + [e])[..|a|] == a && a + b == a;
    } else {
      var b' := b[..|b| - 1];
      assert (a + [e] + b)[..|a + [e] + b| - 1] == a + [e] + b';
      assert (a + b)[..|a + b| - 1] == a + b';
      ConstantSkips(a, e, b');
    }
  }

  /** An entry of another arity does not change the selection. */
  lemma WithArityDrops(a: Ising, e: Entry, b: Ising, n: nat)
    requires |e.0| != n
    ensures WithArity(a + [e] + b, n) == WithArity(a + b, n)
  {
    var single: Ising := [e];
    assert single[..0] == [];
    assert WithArity(single, n) == [];
    WithArityAppend(a + [e], b, n);
    WithArityAppend(a, [e], n);
    WithArityAppend(a, b, n);
  }

  /** A key of arity 3 or more is dropped: no term, no error, no constant. */
  lemma HighArityIgnored(a: Ising, e: Entry, b: Ising, qubits: nat)
    requires |e.0| >= 3
    ensures PauliList(a + [e] + b, qubits) == PauliList(a + b, qubits)
    ensures ConstantOf(a + [e] + b) == ConstantOf(a + b)
  {
    WithArityDrops(a, e, b, 1);
    WithArityDrops(a, e, b, 2);
    ConstantSkips(a, e, b);
  }
}
