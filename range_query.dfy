/** The range-query engine: two linear passes over the fetched numbers, one
    for the plain totals and one for the even/odd totals, build three prefix
    arrays, after which every query is answered in constant time, and the batch
    of queries is answered in order. */
module RangeQuery {
  import opened PrefixSums

  /** The query type tags of the fetched payload. */
  const PLAIN_SUM: string := "1"
  const ALT_SUM: string := "2"

  /** One fetched query: its type tag and its inclusive range [l, r]. */
  datatype Query = Query(kind: string, l: int, r: int)

  /** The indices a query of a known type reads from the prefix arrays
      (l and r + 1) exist; a query of any other type reads nothing. */
  predicate Indexable(q: Query, n: nat) {
    (q.kind == PLAIN_SUM || q.kind == ALT_SUM) ==> 0 <= q.l <= n && 0 <= q.r + 1 <= n
  }

  /** The answer a query should get, computed naively from the numbers: type
      "1" is the plain sum over [l, r], type "2" the alternating sum over [l, r]
      starting with +s[l], any other type 0. script.js's `calculate` does not
      check l <= r; for an inverted range whose indices are inside the prefix
      arrays, its formulas give the negated sum over the gap [r + 1, l - 1] (for type "2",
      with the gap's signs anchored at l). */
  function Answer(s: seq<int>, q: Query): int
    requires Indexable(q, |s|)
  {
    if q.kind == PLAIN_SUM then
      if q.l <= q.r + 1 then RangeSum(s, q.l, q.r) else -RangeSum(s, q.r + 1, q.l - 1)
    else if q.kind == ALT_SUM then
      if q.l <= q.r + 1 then AltRangeSum(s, q.l, q.r)
      else -Signed(q.l - (q.r + 1), AltRangeSum(s, q.r + 1, q.l - 1))
    else
      0
  }

  /** The plain prefix array of `nums`: index k holds the sum of nums[0..k). */
  method BuildTotals(nums: seq<int>) returns (sums: array<int>)
    ensures fresh(sums)
    ensures sums.Length == |nums| + 1
    ensures forall k {:trigger sums[k]} :: 0 <= k <= |nums| ==> sums[k] == PrefixTotal(nums, k)
  {
    var n := |nums|;
    sums := new int[n + 1](_ => 0);
    for i := 0 to n
      invariant forall k {:trigger sums[k]} :: 0 <= k <= i ==> sums[k] == PrefixTotal(nums, k)
    {
      sums[i + 1] := sums[i] + nums[i];
      assert sums[i + 1] == PrefixTotal(nums, i + 1);
    }
  }

  /** The parity-split prefix arrays of `nums`: index k of `even` (of `odd`)
      holds the sum of nums[j] over the even (odd) j < k. Each step carries
      both totals forward and adds nums[i] to the one matching i's parity. */
  method BuildParityTotals(nums: seq<int>) returns (even: array<int>, odd: array<int>)
    ensures fresh(even) && fresh(odd)
    ensures even.Length == |nums| + 1 && odd.Length == |nums| + 1
    ensures forall k {:trigger even[k]} :: 0 <= k <= |nums| ==> even[k] == EvenTotal(nums, k)
    ensures forall k {:trigger odd[k]} :: 0 <= k <= |nums| ==> odd[k] == OddTotal(nums, k)
  {
    var n := |nums|;
    even := new int[n + 1](_ => 0);
    odd := new int[n + 1](_ => 0);
    for i := 0 to n
      invariant forall k {:trigger even[k]} :: 0 <= k <= i ==> even[k] == EvenTotal(nums, k)
      invariant forall k {:trigger odd[k]} :: 0 <= k <= i ==> odd[k] == OddTotal(nums, k)
    {
      even[i + 1] := even[i];
      odd[i + 1] := odd[i];
      if i % 2 == 0 {
        even[i + 1] := even[i + 1] + nums[i];
      } else {
        odd[i + 1] := odd[i + 1] + nums[i];
      }
      assert even[i + 1] == EvenTotal(nums, i + 1) && odd[i + 1] == OddTotal(nums, i + 1);
    }
  }

  /** A single-element range is answered with its one element by both query
      types: the lone term of an alternating sum is always added. */
  lemma SingleElementAnswer(s: seq<int>, q: Query)
    requires q.kind == PLAIN_SUM || q.kind == ALT_SUM
    requires 0 <= q.l == q.r < |s|
    ensures Answer(s, q) == s[q.l]
  {
    var i := q.l;
    assert RangeSum(s, i, i) == RangeSum(s, i, i - 1) + s[i];
    assert AltRangeSum(s, i, i) == AltRangeSum(s, i, i - 1) + Signed(0, s[i]);
  }

  /** The run state: the fetched numbers and queries, and the prefix arrays
      built from the numbers. */
  class Engine {
    const nums: seq<int>
    const queries: seq<Query>
    var prefixSum: array<int>
    var prefixEven: array<int>
    var prefixOdd: array<int>

    /** The three arrays hold the running totals of `nums`, each of length n + 1
        and starting at 0. */
    ghost predicate Indexed()
      reads this, prefixSum, prefixEven, prefixOdd
    {
      && prefixSum.Length == |nums| + 1
      && prefixEven.Length == |nums| + 1
      && prefixOdd.Length == |nums| + 1
      && (forall k {:trigger prefixSum[k]} :: 0 <= k <= |nums| ==> prefixSum[k] == PrefixTotal(nums, k))
      && (forall k {:trigger prefixEven[k]} :: 0 <= k <= |nums| ==> prefixEven[k] == EvenTotal(nums, k))
      && (forall k {:trigger prefixOdd[k]} :: 0 <= k <= |nums| ==> prefixOdd[k] == OddTotal(nums, k))
    }

    /** A run starts from the fetched numbers and queries, with no index built. */
    constructor (nums: seq<int>, queries: seq<Query>)
      ensures this.nums == nums && this.queries == queries
      ensures prefixSum.Length == 0 && prefixEven.Length == 0 && prefixOdd.Length == 0
    {
      this.nums := nums;
      this.queries := queries;
      prefixSum := new int[0];
      prefixEven := new int[0];
      prefixOdd := new int[0];
    }

    /** Builds the plain, even-index and odd-index prefix arrays, each in one
        pass over `nums`, and installs them as the run's index. */
    method PreCompute()
      modifies this
      ensures fresh(prefixSum) && fresh(prefixEven) && fresh(prefixOdd)
      ensures Indexed()
    {
      var sums := BuildTotals(nums);
      var even, odd := BuildParityTotals(nums);
      prefixSum, prefixEven, prefixOdd := sums, even, odd;
    }

    /** Answers one query from the prefix arrays alone, in constant time, and
        agrees with the naive answer. */
    function Calculate(q: Query): (v: int)
      reads this, prefixSum, prefixEven, prefixOdd
      requires Indexed()
      requires Indexable(q, |nums|)
      ensures v == Answer(nums, q)
    {
      if q.kind == PLAIN_SUM then
        PlainDifference(nums, q.l, q.r);
        prefixSum[q.r + 1] - prefixSum[q.l]
      else if q.kind == ALT_SUM then
        AltDifference(nums, q.l, q.r);
        var evenSum := prefixEven[q.r + 1] - prefixEven[q.l];
        var oddSum := prefixOdd[q.r + 1] - prefixOdd[q.l];
        if q.l % 2 == 0 then evenSum - oddSum else oddSum - evenSum
      else
        0
    }

    /** Builds the index, then answers every query in order. */
    method Solve() returns (results: seq<int>)
      requires forall k :: 0 <= k < |queries| ==> Indexable(queries[k], |nums|)
      modifies this
      ensures fresh(prefixSum) && fresh(prefixEven) && fresh(prefixOdd)
      ensures Indexed()
      ensures |results| == |queries|
      ensures forall k :: 0 <= k < |queries| ==> results[k] == Calculate(queries[k])
      ensures forall k :: 0 <= k < |queries| ==> results[k] == Answer(nums, queries[k])
    {
      PreCompute();
      results := [];
      for k := 0 to |queries|
        invariant |results| == k
        invariant forall j :: 0 <= j < k ==> results[j] == Calculate(queries[j])
      {
        var result := Calculate(queries[k]);
        results := results + [result];
      }
    }
  }

  /** The sample run on [1, 2, 3, 4, 5]: a plain sum over [1, 3] and
      alternating sums over [1, 3] and [0, 4]. */
  method SolveExample() returns (results: seq<int>)
    ensures results == [9, 3, 3]
  {
    var nums := [1, 2, 3, 4, 5];
    var run := new Engine(nums, [Query(PLAIN_SUM, 1, 3), Query(ALT_SUM, 1, 3), Query(ALT_SUM, 0, 4)]);
    results := run.Solve();
    assert RangeSum(nums, 1, 3) == 9;
    assert AltRangeSum(nums, 1, 3) == 3;
    assert AltRangeSum(nums, 0, 4) == 3;
  }
}
