# Spot price history: paginator and aggregator

A Dafny model of the core of `history.go`, a command-line tool that asks the
EC2 API for the spot-price history of one instance type and product, and
prints the average price of each availability zone, cheapest first.

The core has two parts:

- **getSpot** (the paginator). It calls `DescribeSpotPriceHistory`. It appends
  the page's observations to an accumulator and copies the response's
  `NextToken` into the query. It repeats while that token is not `""`.
  A fetch error ends the process through `awsError`. The model has
  `Paginator.GetSpotSpec`, a recursive function shaped like the Go
  self-recursion, and `Paginator.GetSpot`, a `while` loop that mutates a
  `Query` object and calls a `Provider` object. The loop is proved to give the
  recursive function's outcome and to send exactly its tokens. Lemmas then
  show what that outcome is: the pages concatenated in order, or the first
  error.
- **avg** with **priceSort** (the aggregator). `Aggregator.GroupByZone` is the
  first loop. Its `map` variable from zone to (sum, count) is rebound to an
  updated map at each step.
  `Aggregator.ZoneMeans` is the second loop. It visits the map in an
  unspecified order (a `:|` choice, because Go's map order is random) and
  turns each entry into `Round6(sum / count * 1.29)`.
  `Aggregator.SortByCost` sorts an `array` in place with `Less` and `Swap`.
  `Aggregator.Avg` chains the three steps. Its contract is stated against
  reference functions of the input: `ZoneCount`, `ZoneSum`, `Zones` and
  `ZoneAverage`.

Prices are exact `real`s. A price string is given already parsed. A
`ParsedPrice.SyntaxError` is kept in the model, and it adds `0.0` to its zone's
sum, as the discarded error of `strconv.ParseFloat` does. `Round6` is
`math.Round(x * 1e6) / 1e6` in exact arithmetic: it rounds to the nearest
millionth, with halves going away from zero.

Two edge cases:

- An absent `NextToken` is dereferenced without a check (history.go:135), so
  the process panics. The model gives that case its own outcome,
  `Fetch.Panicked`, which carries no observations.
- `sort.Sort` is not stable and map order is random, so the order of
  equal-cost zones is left open. `AggregatorProperties.ReportDeterminedUpToTies`
  shows how much is still determined.

The contracts below are stated with these definitions. Each one models a piece
of the source directly:

- `Paginator.Stops` is the stop condition of getSpot: an error
  (history.go:131), or a token that is absent or empty (history.go:135).
- `Paginator.GetSpotSpec` is getSpot's self-recursion (history.go:129-139),
  and `Paginator.RequestsSpec` is the token each call carries.
- `SpotTypes.PriceOf` is the price that avg adds after discarding the
  `ParseFloat` error (history.go:145).
- `Aggregator.Len` is priceSort.Len (history.go:29), and `Aggregator.Less` is
  priceSort.Less (history.go:30).
- `Aggregator.ScaledMean` is `s.cost / float64(s.count) * 1.29`
  (history.go:160).
- `Aggregator.RoundHalfAway` is `math.Round`, and `Aggregator.Round6` is
  `math.Round(x*1000000) / 1000000` (history.go:161).

## Model

| member | source | states |
|---|---|---|
| Paginator.Provider.DescribeSpotPriceHistory | history.go:130 | one fetch: answers with the next response of the provider's script and records the continuation token and the product and instance-type filters the query carried |
| Paginator.Query.constructor | history.go:110-126 | a new query carries no continuation token; its product description and instance type are fixed for its lifetime |
| Paginator.FirstStop | history.go:131-137 | the index of the last call: that response is an error, has no token or has the empty token, and no earlier response stops |
| Paginator.GetSpotCollectsPages | history.go:129-139 | the recursion's outcome: on an error at the last call it aborts with that error; on an absent token it panics; otherwise the accumulator is the initial one followed by every page up to and including the last, in page order |
| Paginator.RequestsChain | history.go:134-137 | exactly FirstStop + 1 fetches are made; the first carries the query's initial token; call k + 1 carries response k's token, which is present and non-empty |
| Paginator.FailureAborts | history.go:130-133 | an error on page k, with no earlier stop, ends the invocation with that error after exactly k + 1 calls, and no observations come back |
| Paginator.ThreeTokensFourCalls | history.go:129-139 | tokens T1, T2, T3 and then "": four calls carrying no token, T1, T2 and T3, and the four pages concatenated |
| Paginator.FailureOnSecondPage | history.go:130-133 | an error on the second of three pages: two calls, an abort with that error, and the third page is never fetched |
| Paginator.GetSpot | history.go:129-139 | the loop gives the recursive definition's outcome, the provider receives exactly that definition's tokens, every call carries the query's two filter values, and the query ends holding the token of the last call |
| Aggregator.GroupByZone | history.go:142-156 | the map's keys are exactly the zones of the input; each entry holds its zone, the sum of that zone's prices and the number of its observations (at least one), the first observation of a zone included |
| Aggregator.TallyStep | history.go:147-155 | one more observation adds its zone to the zone set, adds its price and one to its own zone's tally, and leaves every other zone's tally unchanged |
| Aggregator.AbsentZone | history.go:147-152 | a zone not seen yet has count 0 and sum 0, the zero value new(price) starts from |
| Aggregator.ZoneMeans | history.go:157-162 | visiting the map in any order gives one record per key, with distinct zones, each the zone's count and its mean times 1.29, rounded to six decimals |
| Aggregator.Swap | history.go:31 | exchanges two records and nothing else; the records are a permutation of the old ones |
| Aggregator.SortByCost | history.go:163 | afterwards no record is Less than a record before it, and the array is a permutation of the old one |
| Aggregator.PermutationKeepsRecords | history.go:163 | rearranging the per-zone records keeps their zone set, the distinctness of their zones and each record |
| Aggregator.Avg | history.go:141-165 | the output's zones are exactly the input's distinct zones, each once; each record is that zone's count and its mean times 1.29, rounded to six decimals; the output is ascending by cost; empty input gives empty output |
| AggregatorProperties.ZoneCountPositive | history.go:147-155 | a zone has a positive count exactly when it occurs in the input |
| AggregatorProperties.SyntaxErrorCountsAsZero | history.go:145 | an observation whose price fails to parse still adds one to its zone's count and adds nothing to its sum |
| AggregatorProperties.CountsSumToLength | history.go:144-156 | the counts of the output records add up to the number of input observations |
| AggregatorProperties.ReportHasOneRecordPerZone | history.go:157-159 | the output has exactly as many records as the input has distinct zones |
| AggregatorProperties.EmptyHistoryEmptyReport | history.go:141-165 | an empty input admits only the empty output |
| AggregatorProperties.Round6Close | history.go:161 | rounding moves a cost by at most half a millionth |
| AggregatorProperties.Round6Monotone | history.go:161 | rounding never reverses the order of two costs |
| AggregatorProperties.Round6Idempotent | history.go:161 | rounding an already rounded cost changes nothing |
| AggregatorProperties.ReportedCostIsScaledMean | history.go:160-161 | each reported cost is within half a millionth of (sum of the zone's prices / count) * 1.29, and its count is the zone's number of observations |
| AggregatorProperties.ReportDeterminedUpToTies | history.go:157-163 | two outputs for the same input hold the same records, and their cost columns are identical, so they differ only in the order of equal-cost zones |
| AggregatorProperties.TwoZoneExample | history.go:141-165 | zoneA at 1.0 and 2.0 and zoneB at 3.0 give exactly zoneA 1.935 and then zoneB 3.87 |
| History.Run | history.go:60-66 | every call the provider receives carries the given product and instance type as its filters, one filter pair per call, and the first call carries no token; a report exists exactly when pagination completed; it is then the aggregate of the concatenated pages; a fetch error or an absent token produces no report |

## Left out

- Session setup (`newSession`) and `ec2.New` are left out: they are credential handling and foreign SDK calls. The fetch capability is the `Provider` class, which answers from a finite script of responses; its constructor stands in for `ec2.New` and starts with an empty request log.
- `awsError` is left out: it prints to stderr and calls `os.Exit(1)`. The model keeps only its effect, the `Aborted` outcome, which carries the error code and message and no observations. The HTTP status and request id are not modelled.
- `init`, `setupFlags`, the flag parsing in `main` and the `fmt.Println` loop are left out: they are command-line plumbing and output.
- `historyInput` is partly left out: the day count parsed with `strconv.Atoi` and the start time read from the clock are not modelled. The `Query` constructor keeps only the two filter values (product description and instance type) and the absent continuation token, and `History.Run` builds its query with it. The provider logs the filter values of every call, but its script of responses does not depend on them.
- Observations are assumed to carry both a zone and a price string. avg dereferences `h.SpotPrice` and `h.AvailabilityZone` without a check (history.go:145-146), so a nil field would make the process panic. The `Obs` datatype cannot express a missing field, and the model does not cover that panic.
- The parsing of price strings is left out. Observations carry `ParsedPrice`. Range errors, where `ParseFloat` returns ±Inf, are not modelled.
- Floating point is not modelled. Sums, means and the 1.29 markup are exact reals, and `Round6` rounds exactly.
- `sort.Sort`'s own algorithm is not modelled. `SortByCost` is a selection sort built on `Less` and `Swap`. Only what `sort.Sort` promises is stated: sorted and a permutation.
- Aliasing is not modelled. In Go, the `avg` slice and the map hold pointers to the same `price` objects. The model copies values.
- Paginator.GetSpot: requires that the provider's script holds a stopping response (an error, an absent token or the empty token). With a provider that never stops, the Go recursion never ends, and this model does not cover that case.
- History.Run: the printing of the report and the process exit codes are not modelled.
