/**
 * Square integer matrices as row sequences: enough linear algebra to state
 * what a 0/1 permutation matrix does.
 */
module Matrices {

  type Matrix = seq<seq<int>>

  /** The dimension of the state space of `k` qubits. */
  function Pow2(k: nat): (r: nat)
    ensures r >= 1
  {
    if k == 0 then 1 else 2 * Pow2(k - 1)
  }

  predicate IsSquare(m: Matrix, n: nat) {
    |m| == n && forall i | 0 <= i < n :: |m[i]| == n
  }

  function Dot(u: seq<int>, v: seq<int>): int
    requires |u| == |v|
    decreases |u|
  {
    if |u| == 0 then 0 else u[0] * v[0] + Dot(u[1..], v[1..])
  }

  /** The basis vector with a single 1 at position `k`. */
  function Basis(n: nat, k: nat): (e: seq<int>)
    ensures |e| == n
  {
    seq(n, i requires 0 <= i < n => if i == k then 1 else 0)
  }

  function Identity(n: nat): (m: Matrix)
    ensures IsSquare(m, n)
  {
    seq(n, i requires 0 <= i < n => Basis(n, i))
  }

  function Column(m: Matrix, n: nat, j: nat): (c: seq<int>)
    requires IsSquare(m, n) && j < n
    ensures |c| == n
  {
    seq(n, i requires 0 <= i < n => m[i][j])
  }

  function Transpose(m: Matrix, n: nat): (t: Matrix)
    requires IsSquare(m, n)
    ensures IsSquare(t, n)
  {
    seq(n, i requires 0 <= i < n => Column(m, n, i))
  }

  function MatMul(a: Matrix, b: Matrix, n: nat): (m: Matrix)
    requires IsSquare(a, n) && IsSquare(b, n)
    ensures IsSquare(m, n)
  {
    seq(n, i requires 0 <= i < n => seq(n, j requires 0 <= j < n => Dot(a[i], Column(b, n, j))))
  }

  function MatVec(m: Matrix, v: seq<int>, n: nat): (w: seq<int>)
    requires IsSquare(m, n) && |v| == n
    ensures |w| == n
  {
    seq(n, i requires 0 <= i < n => Dot(m[i], v))
  }

  /** A vector that is zero everywhere contributes nothing to a dot product. */
  lemma {:induction false} DotZero(u: seq<int>, v: seq<int>)
    requires |u| == |v| && forall i | 0 <= i < |u| :: u[i] == 0
    ensures Dot(u, v) == 0
  {
    if |u| > 0 {
      DotZero(u[1..], v[1..]);
    }
  }

  /** The dot product with a basis vector picks one entry. */
  lemma {:induction false} DotUnit(u: seq<int>, v: seq<int>, p: nat)
    requires |u| == |v| && p < |u|
    requires forall i | 0 <= i < |u| :: u[i] == if i == p then 1 else 0
    ensures Dot(u, v) == v[p]
  {
    if p == 0 {
      DotZero(u[1..], v[1..]);
    } else {
      DotUnit(u[1..], v[1..], p - 1);
    }
  }

  lemma {:induction false} DotCommutes(u: seq<int>, v: seq<int>)
    requires |u| == |v|
    ensures Dot(u, v) == Dot(v, u)
  {
    if |u| > 0 {
      DotCommutes(u[1..], v[1..]);
    }
  }
}
