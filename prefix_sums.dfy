/** Reference definitions for the range-query engine: running totals over a
    sequence of numbers, the naive range sums the engine's answers must agree
    with, and the identities that let the engine answer in constant time. */
module PrefixSums {

  /** (-1)^k * x, for any integer k. */
  function Signed(k: int, x: int): int {
    if k % 2 == 0 then x else -x
  }

  /** Shifting the exponent by l: (-1)^(r-l) * x == (-1)^l * ((-1)^r * x). */
  lemma SignedAnchor(l: int, r: int, x: int)
    ensures Signed(r - l, x) == Signed(l, Signed(r, x))
  {
  }

  /** The sum of s[0..k), the value held at index k of the plain prefix array. */
  function PrefixTotal(s: seq<int>, k: nat): int
    requires k <= |s|
  {
    if k == 0 then 0 else PrefixTotal(s, k - 1) + s[k - 1]
  }

  /** The sum of s[j] over the indices j < k whose parity is odd (when `odd`)
      or even (otherwise). Parity is that of the absolute index j. */
  function ParityTotal(s: seq<int>, k: nat, odd: bool): int
    requires k <= |s|
  {
    if k == 0 then 0
    else ParityTotal(s, k - 1, odd) + (if ((k - 1) % 2 == 1) == odd then s[k - 1] else 0)
  }

  function EvenTotal(s: seq<int>, k: nat): int
    requires k <= |s|
  {
    ParityTotal(s, k, false)
  }

  function OddTotal(s: seq<int>, k: nat): int
    requires k <= |s|
  {
    ParityTotal(s, k, true)
  }

  /** The naive inclusive range sum s[l] + s[l+1] + ... + s[r]; zero when r == l - 1. */
  function RangeSum(s: seq<int>, l: nat, r: int): int
    requires l <= r + 1 <= |s|
    decreases r - l
  {
    if r < l then 0 else RangeSum(s, l, r - 1) + s[r]
  }

  /** The naive alternating range sum: the sum over i in [l, r] of (-1)^(i-l) * s[i],
      so the term at l is always added, whatever the parity of l. */
  function AltRangeSum(s: seq<int>, l: nat, r: int): int
    requires l <= r + 1 <= |s|
    decreases r - l
  {
    if r < l then 0 else AltRangeSum(s, l, r - 1) + Signed(r - l, s[r])
  }

  /** Every index lands in exactly one of the two parity totals, so together
      they make up the plain running total. */
  lemma {:induction false} ParityTotalsPartition(s: seq<int>, k: nat)
    requires k <= |s|
    ensures EvenTotal(s, k) + OddTotal(s, k) == PrefixTotal(s, k)
  {
    if k > 0 {
      ParityTotalsPartition(s, k - 1);
    }
  }

  /** A difference of two running totals is the naive sum of the range between. */
  lemma {:induction false} RangeSumByPrefix(s: seq<int>, l: nat, r: int)
    requires l <= r + 1 <= |s|
    ensures RangeSum(s, l, r) == PrefixTotal(s, r + 1) - PrefixTotal(s, l)
    decreases r - l
  {
    if l <= r {
      RangeSumByPrefix(s, l, r - 1);
    }
  }

  /** The alternating sum anchored at l is the difference of the even-index and
      odd-index sums over [l, r], negated when l is odd. */
  lemma {:induction false} AltSumByParity(s: seq<int>, l: nat, r: int)
    requires l <= r + 1 <= |s|
    ensures AltRangeSum(s, l, r) ==
      Signed(l, (EvenTotal(s, r + 1) - EvenTotal(s, l)) - (OddTotal(s, r + 1) - OddTotal(s, l)))
    decreases r - l
  {
    if l <= r {
      AltSumByParity(s, l, r - 1);
      assert EvenTotal(s, r + 1) == EvenTotal(s, r) + (if r % 2 == 0 then s[r] else 0);
      assert OddTotal(s, r + 1) == OddTotal(s, r) + (if r % 2 == 1 then s[r] else 0);
      SignedAnchor(l, r, s[r]);
    }
  }

  /** What the difference of plain running totals at r + 1 and l stands for,
      for every pair of indices into the running totals: the sum over [l, r],
      or the negated sum over the gap [r + 1, l - 1] when the range is inverted. */
  lemma PlainDifference(s: seq<int>, l: nat, r: int)
    requires l <= |s| && 0 <= r + 1 <= |s|
    ensures l <= r + 1 ==> PrefixTotal(s, r + 1) - PrefixTotal(s, l) == RangeSum(s, l, r)
    ensures r + 1 < l ==> PrefixTotal(s, r + 1) - PrefixTotal(s, l) == -RangeSum(s, r + 1, l - 1)
  {
    if l <= r + 1 {
      RangeSumByPrefix(s, l, r);
    } else {
      RangeSumByPrefix(s, r + 1, l - 1);
    }
  }

  /** What the parity-anchored difference of the even and odd running totals
      stands for: the alternating sum over [l, r] starting with +s[l], or, when
      the range is inverted, the negated alternating sum over the gap
      [r + 1, l - 1] with its signs anchored at l. */
  lemma AltDifference(s: seq<int>, l: nat, r: int)
    requires l <= |s| && 0 <= r + 1 <= |s|
    ensures var d := Signed(l, (EvenTotal(s, r + 1) - EvenTotal(s, l)) - (OddTotal(s, r + 1) - OddTotal(s, l)));
      && (l <= r + 1 ==> d == AltRangeSum(s, l, r))
      && (r + 1 < l ==> d == -Signed(l - (r + 1), AltRangeSum(s, r + 1, l - 1)))
  {
    if l <= r + 1 {
      AltSumByParity(s, l, r);
    } else {
      AltSumByParity(s, r + 1, l - 1);
      SignedAnchor(r + 1, l, AltRangeSum(s, r + 1, l - 1));
    }
  }
}
