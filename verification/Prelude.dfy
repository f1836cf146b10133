/** Small shared vocabulary: optional values, minima and maxima, sums and powers, and finite-set facts. */
module Prelude {

  datatype Option<+T> = None | Some(value: T)

  function MinR(a: real, b: real): real { if a <= b then a else b }

  function MaxR(a: real, b: real): real { if a >= b then a else b }

  function MinI(a: int, b: int): int { if a <= b then a else b }

  function MaxI(a: int, b: int): int { if a >= b then a else b }

  /** The least integer at or above `x`, as a real (Math.ceil). */
  function Ceil(x: real): (r: real)
    ensures x <= r < x + 1.0
  {
    -((-x).Floor as real)
  }

  function Pow2(n: nat): (p: nat)
    ensures p >= 1
  {
    if n == 0 then 1 else 2 * Pow2(n - 1)
  }

  function Sum(xs: seq<real>): real {
    if xs == [] then 0.0 else Sum(xs[..|xs| - 1]) + xs[|xs| - 1]
  }

  lemma SameSizeSubset<T>(a: set<T>, b: set<T>)
    requires a <= b && |a| == |b|
    ensures a == b
  {
    assert b == a + (b - a);
  }

  lemma SubsetCardinality<T>(a: set<T>, b: set<T>)
    requires a <= b
    ensures |a| <= |b|
  {
    assert b == a + (b - a);
  }

  /** Every finite nonempty set has an element of least rank. */
  lemma {:induction false} LeastExists<T>(s: set<T>, rank: T -> int) returns (m: T)
    requires s != {}
    ensures m in s && forall x :: x in s ==> rank(m) <= rank(x)
  {
    m :| m in s;
    if s != {m} {
      var n := LeastExists(s - {m}, rank);
      assert s == s - {m} + {m};
      if rank(n) < rank(m) {
        m := n;
      }
    }
  }
}
