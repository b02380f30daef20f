/** Finite sums over an index range [0, k). */
module Sums {

  /** f(0) + f(1) + ... + f(k - 1) */
  function SumRange(k: nat, f: int -> int): int
  {
    if k == 0 then 0 else SumRange(k - 1, f) + f(k - 1)
  }

  /** Sums of two functions that agree on [0, k) are equal. */
  lemma {:induction false} SumRangeExt(k: nat, f: int -> int, g: int -> int)
    requires forall j :: 0 <= j < k ==> f(j) == g(j)
    ensures SumRange(k, f) == SumRange(k, g)
  {
    if k > 0 {
      SumRangeExt(k - 1, f, g);
    }
  }

  /** A function that vanishes on [0, k) sums to 0. */
  lemma {:induction false} SumRangeZero(k: nat, f: int -> int)
    requires forall j :: 0 <= j < k ==> f(j) == 0
    ensures SumRange(k, f) == 0
  {
    if k > 0 {
      SumRangeZero(k - 1, f);
    }
  }

  /** A function that vanishes on [0, k) except possibly at s sums to f(s). */
  lemma {:induction false} SumRangeSingle(k: nat, f: int -> int, s: int)
    requires 0 <= s < k
    requires forall j :: 0 <= j < k && j != s ==> f(j) == 0
    ensures SumRange(k, f) == f(s)
  {
    if s == k - 1 {
      SumRangeZero(k - 1, f);
    } else {
      SumRangeSingle(k - 1, f, s);
    }
  }

  /** A function that vanishes on [0, k) except possibly at s and t sums to f(s) + f(t). */
  lemma {:induction false} SumRangePair(k: nat, f: int -> int, s: int, t: int)
    requires 0 <= s < k && 0 <= t < k && s != t
    requires forall j :: 0 <= j < k && j != s && j != t ==> f(j) == 0
    ensures SumRange(k, f) == f(s) + f(t)
  {
    if s == k - 1 {
      SumRangeSingle(k - 1, f, t);
    } else if t == k - 1 {
      SumRangeSingle(k - 1, f, s);
    } else {
      SumRangePair(k - 1, f, s, t);
    }
  }

  /** A sum of non-negative terms is at least each of its terms, and it is 0
      exactly when every term is 0. */
  lemma {:induction false} SumRangeNonneg(k: nat, f: int -> int)
    requires forall j :: 0 <= j < k ==> f(j) >= 0
    ensures SumRange(k, f) >= 0
    ensures forall j :: 0 <= j < k ==> SumRange(k, f) >= f(j)
    ensures SumRange(k, f) == 0 <==> forall j :: 0 <= j < k ==> f(j) == 0
  {
    if k > 0 {
      SumRangeNonneg(k - 1, f);
    }
  }

  /** Exactly one index in [0, k) where f is 1. */
  ghost predicate ExactlyOne(k: nat, f: int -> int)
  {
    exists s :: 0 <= s < k && f(s) == 1 && forall j :: 0 <= j < k && j != s ==> f(j) == 0
  }

  /** The index where a 0/1-valued function summing to 1 is 1. */
  lemma {:induction false} SumRangeOneAt(k: nat, f: int -> int) returns (s: nat)
    requires forall j :: 0 <= j < k ==> f(j) == 0 || f(j) == 1
    requires SumRange(k, f) == 1
    ensures s < k && f(s) == 1
    ensures forall j :: 0 <= j < k && j != s ==> f(j) == 0
  {
    SumRangeNonneg(k - 1, f);
    if f(k - 1) == 1 {
      s := k - 1;
    } else {
      s := SumRangeOneAt(k - 1, f);
    }
  }

  /** A 0/1-valued function sums to 1 exactly when it is 1 at exactly one index. */
  lemma SumRangeOneIff(k: nat, f: int -> int)
    requires forall j :: 0 <= j < k ==> f(j) == 0 || f(j) == 1
    ensures SumRange(k, f) == 1 <==> ExactlyOne(k, f)
  {
    if ExactlyOne(k, f) {
      var s :| 0 <= s < k && f(s) == 1 && forall j :: 0 <= j < k && j != s ==> f(j) == 0;
      SumRangeSingle(k, f, s);
    }
    if SumRange(k, f) == 1 {
      var s := SumRangeOneAt(k, f);
    }
  }
}
