/** Small arithmetic shared by the counting arguments. */
module Numbers {
  function Max(a: int, b: int): (m: int)
    ensures a <= m && b <= m && (m == a || m == b)
  {
    if a < b then b else a
  }

  // 1, 2, ..., n
  function UpTo(n: nat): (s: seq<nat>)
    ensures |s| == n && forall i | 0 <= i < n :: s[i] == i + 1
  {
    seq(n, i => i + 1)
  }

  function Pow2(k: nat): (p: nat)
    ensures p > 0
  {
    if k == 0 then 1 else 2 * Pow2(k - 1)
  }

  lemma MulMonotone(a: nat, b: nat, p: nat)
    requires a <= b
    ensures a * p <= b * p
  {
  }

  lemma CancelLess(a: nat, b: nat, p: nat)
    requires a * p < b * p
    ensures a < b
  {
    if b <= a {
      MulMonotone(b, a, p);
    }
  }

  // A quotient is known by its remainder.
  lemma QuotientIs(a: nat, d: nat, q: nat, r: nat)
    requires r < d && a == q * d + r
    ensures a / d == q
  {
    var m := a / d;
    assert a == m * d + a % d;
    assert q * d < (m + 1) * d && m * d < (q + 1) * d;
    CancelLess(q, m + 1, d);
    CancelLess(m, q + 1, d);
  }

  // Places in a list, in order.
  predicate Rising(at: seq<nat>) { forall i, j | 0 <= i < j < |at| :: at[i] < at[j] }

  lemma NoPlaces()
    ensures Rising([])
  {
  }

  lemma RisingSnoc(at: seq<nat>, n: nat)
    requires Rising(at) && forall k | 0 <= k < |at| :: at[k] < n
    ensures Rising(at + [n])
  {
  }

  lemma InSnoc(at: seq<nat>, n: nat, i: nat)
    ensures i in at + [n] <==> i in at || i == n
  {
    assert (at + [n])[|at|] == n;
  }
}
