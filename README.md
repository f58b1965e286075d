# Range-query engine, modelled and verified in Dafny

This project models the query-answering core of a small batch job
(`data_structure_and_algorithm/script.js`). The job fetches a list of numbers
and a list of queries, answers every query, and posts the answers back. The
core has three parts:

- `preCompute` makes two linear passes over the numbers: one for the plain
  totals, one for the even/odd totals. It builds three prefix arrays of length
  n + 1, each starting at 0:
  - `prefixSum`: the plain running total;
  - `prefixEven`: the running total over even indices;
  - `prefixOdd`: the running total over odd indices.
  Parity is the parity of the absolute index.
- `calculate` answers one query `{type, range: [l, r]}` in constant time:
  - type `"1"` gives the inclusive range sum;
  - type `"2"` gives the alternating sum whose first term, at `l`, is added;
  - any other type gives 0.
- `solve` builds the index, then answers the queries in order.

Files:

- `prefix_sums.dfy` (module `PrefixSums`) holds the reference definitions.
  - Running totals: `PrefixTotal`, `ParityTotal`, `EvenTotal` and `OddTotal`.
  - Naive range sums: `RangeSum` is s[l] + ... + s[r]. `AltRangeSum` is the sum
    of (-1)^(i-l) * s[i] over i in [l, r], written with `Signed(k, x)` =
    (-1)^k * x.
  - Lemmas connecting the two: the constant-time formulas equal the naive sums.
- `range_query.dfy` (module `RangeQuery`) holds the engine.
  - A `Query` keeps the source's string type tag.
  - The class `Engine` holds the script's run state as fields: the fetched
    numbers and queries, and the three prefix arrays. It provides
    `PreCompute`, `Calculate` and `Solve`.
  - `Indexed()` states that the arrays hold the running totals of the numbers.
  - `Answer` is the naive answer a query should get. `Indexable` says which
    array indices a query reads.

## Model

| member | source | states |
|---|---|---|
| `PrefixSums.ParityTotalsPartition` | data_structure_and_algorithm/script.js:38-47 | at every index k, the even-index total plus the odd-index total equals the plain total, because each step adds nums[i] to exactly one parity array |
| `PrefixSums.RangeSumByPrefix` | data_structure_and_algorithm/script.js:58-59 | for 0 <= l <= r + 1 <= n, prefix[r+1] - prefix[l] equals the naive inclusive sum nums[l] + ... + nums[r] |
| `PrefixSums.AltSumByParity` | data_structure_and_algorithm/script.js:60-71 | for 0 <= l <= r + 1 <= n, the naive sum of (-1)^(i-l) * nums[i] over [l, r] equals evenSum - oddSum when l is even and oddSum - evenSum when l is odd; so the first term is added whatever the parity of l |
| `PrefixSums.PlainDifference` | data_structure_and_algorithm/script.js:53-59 | for any l and r + 1 inside the prefix array, the type "1" formula gives the naive range sum; for an inverted range (r + 1 < l) it gives the negated sum over the gap [r + 1, l - 1] |
| `PrefixSums.AltDifference` | data_structure_and_algorithm/script.js:60-71 | for any l and r + 1 inside the prefix arrays, the type "2" formula gives the anchored alternating sum; for an inverted range it gives the negated alternating sum over the gap, with its signs anchored at l |
| `RangeQuery.BuildTotals` | data_structure_and_algorithm/script.js:29-33 | the zero-filled array of length n + 1, filled left to right, ends with entry k equal to the sum of nums[0..k) |
| `RangeQuery.BuildParityTotals` | data_structure_and_algorithm/script.js:35-47 | the two zero-filled arrays of length n + 1 end with entry k equal to the sum of nums[j] over the even (resp. odd) j < k |
| `RangeQuery.Engine.constructor` | data_structure_and_algorithm/script.js:6-10 | a run holds the fetched numbers and queries and starts with empty prefix arrays |
| `RangeQuery.Engine.PreCompute` | data_structure_and_algorithm/script.js:27-50 | installs three newly allocated arrays of length n + 1 holding the plain, even-index and odd-index running totals of nums (`Indexed()`); their contents are a function of nums alone, so rebuilding gives the same arrays |
| `RangeQuery.Engine.Calculate` | data_structure_and_algorithm/script.js:52-75 | the constant-time answer read from the prefix arrays equals `Answer`, the naive answer: the range sum for type "1", the anchored alternating sum for type "2", 0 for any other type |
| `RangeQuery.Engine.Solve` | data_structure_and_algorithm/script.js:77-87 | after building the index, returns one result per query (same length) in query order; entry k is `Calculate(queries[k])`, which is the naive answer to queries[k]; the numbers and queries are unchanged |
| `RangeQuery.SingleElementAnswer` | data_structure_and_algorithm/script.js:58-71 | a range with l == r is answered with nums[l] by both type "1" and type "2" |
| `RangeQuery.SolveExample` | data_structure_and_algorithm/script.js:77-87 | on nums = [1, 2, 3, 4, 5], the queries type "1" [1, 3], type "2" [1, 3] and type "2" [0, 4] are answered [9, 3, 3] |

## Left out

- `fetchData`, `submit` and `main` (script.js:12-25, 89-115) are left out. They
  do HTTP requests through axios, use the bearer token, and rethrow async
  errors. The fetched payload becomes the `Engine` constructor's arguments.
  `Solve`'s result is what would be posted. The token is not modelled.
- Numbers are modelled as unbounded `int`. In the source they are IEEE doubles,
  so rounding and overflow of large sums are not captured.
- `Calculate` requires that, for types "1" and "2", both `l` and `r + 1` index
  the prefix arrays (`Indexable`). The source does not validate ranges: an
  index outside the arrays reads `undefined` and the answer is `NaN`. That
  path is not modelled. Inverted ranges inside the arrays are modelled, as
  the negated sum over the gap.
- The script's module-level variables (`nums`, `queries`, `prefixSum`,
  `prefixAlt`) are the fields of `Engine`. `nums` and `queries` are `const`:
  only `fetchData` assigns them, and it is not part of this model. The pair
  `prefixAlt = {prefixEven, prefixOdd}` is two fields.
- `preCompute`'s two passes are the helper methods `BuildTotals` and
  `BuildParityTotals`. The source assigns the global `prefixSum` before
  filling it. The model installs all three arrays once they are filled. No
  query runs in between, so the difference cannot be observed.
- Types `"1"` and `"2"` are compared as strings, as in the source. Any other
  type is answered 0, and malformed ranges are not reported. A per-query error
  result is not what the code does and is not modelled.
- The source takes parity with JavaScript's `%` on non-negative indices. There
  it agrees with Dafny's `%`.
