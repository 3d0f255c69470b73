# Sales aggregation benchmark core, in Dafny

The benchmark repository writes one computation four times: a grouped
aggregation over synthetic sales records, plus the generator for those records.

**The aggregation.**
- Every record carries one of 4 regions and one of 5 products.
- The pair is sent to one of 20 buckets, `regionIdx * 5 + productIdx`.
- Each bucket counts its records and sums their amounts and quantities.
- A linear arg-max then picks the bucket with the largest amount sum and decodes it back to a label pair.

**The generator.**
- Record `i` has region `i % 4`, product `i % 5`, amount `100 + 10 i` and quantity `1 + i % 10`.
- The list is then shuffled.

The model follows each port in the form it is written in:

- `Common` (agggo/common_test.go): the record and counter shapes, the two label enumerations and the expected-result constants.
- `Classify`: the three ways a label pair becomes a bucket index.
  - Exact string match: Rust `match`, Go `switch`.
  - Kotlin's 256-entry first-character lookup tables, which never validate.
  - Kotlin's first-character `when`.
- `Grouping`: the reference semantics every port is proved against.
  - `Tally` counts and sums the records a selector picks. A selector is all records, one label pair, or one bucket under a rule.
  - `Buckets` is the 20 tallies.
  - `IsFirstMax` and `IsFirstMaxPresent` are the two tie rules of the arg-max scans.
  - `IsMaxGroup` is what the Go map version promises.
  - `AggCell` is the class for the groups that Kotlin and Go update in place.
- `Shuffle`: the Fisher–Yates shuffle behind Rust `shuffle`, Kotlin `shuffled()` and Go `rand.Shuffle`. Its random draws are a parameter.
- `SampleData`: the generator and its closed form.
  - Bucket `k` of a sample of `20 m` records holds `m` records, whatever the shuffle drew.
  - Bucket 19 (West/Keyboard) has the strictly largest amount sum.
- `RustBench`, `KotlinBench`, `GoBench`: the aggregation routines, generators and benchmark checks of each port.
  - They are written as methods with loops over arrays, maps and mutable cells.
  - Each is proved against `Grouping` and `SampleData`.
  - Every benchmark method has `ensures passed`: its checks succeed for any shuffle (and, in Go, any map iteration order).

Three behaviours of the code shape the model:

- Not every port validates its labels.
  - Kotlin `aggregateSales` (SalesAggregationBenchmark.kt:82-87) looks both first characters up in its tables and checks nothing else. An unknown product character sends a record to the previous region's Keyboard bucket when its region is not North; for North the index is -1 and the group access is out of bounds (`Classify.LookupMisroutesUnknownProduct`).
  - Go `aggregateSalesStructs` (goperf_test.go:12-23) keys its map by the label pair itself, so it accepts any pair.
- Both Go versions compute the averages inside the aggregation (goperf_test.go:24-27 and 94-95). They are floating point and left out below.
- Go `aggregateSalesStructs` runs its arg-max over the map (goperf_test.go:32-37), so ties and the scan follow map iteration order. The model takes that order as a parameter.

A note on the expected-result constants (`Common.ExpectedConstantsConsistent`, `SampleData.WinnerAmounts`):
- The Go and Kotlin `EXPECTED_TOTAL_AMOUNT` / `EXPECTED_AVG_AMOUNT` describe groups of 5000 records, that is a 100 000-record run. They do not describe `TOTAL_RECORDS` = 1 000 000.
- No check compares against them.
- The Rust table picks its values by run size and is consistent for all three sizes it lists (`RustBench.AmountTablesMatchSample`).

## Model

| member | source | states |
|---|---|---|
| Common.EnumerationsWellFormed | agggo/common_test.go:29-30 | 4 distinct regions and 5 distinct products, all non-empty; within each list the first characters are pairwise distinct |
| Common.ExpectedConstantsConsistent | agggo/common_test.go:20-27 | EXPECTED_TOTAL_SALES * 20 = TOTAL_RECORDS; expected quantity = 10 * expected sales; the amount constants describe 5000 records per group, not TOTAL_RECORDS / 20 |
| Classify.RegionIndex | aggrust/benches/aggbench.rs:112-115 | succeeds exactly on the 4 region labels, giving the label's position; any other label is the invalid-region panic |
| Classify.ProductIndex | aggrust/benches/aggbench.rs:116-120 | succeeds exactly on the 5 product labels, giving the label's position; any other label is the invalid-product panic |
| Classify.BucketIndex | aggrust/benches/aggbench.rs:122 | the index is below 20 and `/ 5`, `% 5` give back the region and product positions |
| Classify.RegionIndexOf | aggrust/benches/aggbench.rs:112-115 | matching the region at position a gives a |
| Classify.ProductIndexOf | aggrust/benches/aggbench.rs:116-120 | matching the product at position b gives b |
| Classify.ExactIndex | aggrust/benches/aggbench.rs:111-122 | succeeds exactly when both labels are valid, with an index that decodes back to the same pair; otherwise fails on the region first, then on the product |
| Classify.ExactIndexOf | aggrust/benches/aggbench.rs:122 | region a with product b lands in bucket a * 5 + b |
| Classify.ExactIndexIff | aggrust/benches/aggbench.rs:138-142 | a pair lands in bucket k if and only if it is the pair bucket k decodes to (the encoding is a bijection between the 20 pairs and 0..19) |
| Classify.FirstCharIndex | aggkotlin/src/jmh/kotlin/SalesAggregationBenchmark.kt:32-45 | a table entry is -1 or the position of a label with that first character, and -1 only when no label has it |
| Classify.LookupIndex | aggkotlin/src/jmh/kotlin/SalesAggregationBenchmark.kt:82-86 | the only failure is out of bounds; an index it returns is below 20 and comes from non-empty labels; when the product character is in the table, the bucket's region and product start with the record's first characters |
| Classify.WhenIndex | aggkotlin/src/jmh/kotlin/SalesAggregationBenchmark.kt:120-128 | fails only out of bounds or with the invalid-region / invalid-product error for the record's own label; an index it returns is below 20 and its bucket's region and product start with the record's first characters |
| Classify.FirstCharIndexStarts | aggkotlin/src/jmh/kotlin/SalesAggregationBenchmark.kt:32-45 | a table entry is set exactly for the characters that start some label |
| Classify.WhenRegionOf | aggkotlin/src/jmh/kotlin/SalesAggregationBenchmark.kt:119-122 | the region `when` gives position a exactly for the first character of region a |
| Classify.WhenProductOf | aggkotlin/src/jmh/kotlin/SalesAggregationBenchmark.kt:124-127 | the product `when` gives position b exactly for the first character of product b |
| Classify.WhenIndexIff | aggkotlin/src/jmh/kotlin/SalesAggregationBenchmark.kt:120-128 | a pair lands in bucket k exactly when both labels are non-empty and start with the first characters of k's region and product (so ("Nowhere", "Lamp") is bucket 0) |
| Classify.LookupIndexIff | aggkotlin/src/jmh/kotlin/SalesAggregationBenchmark.kt:82-86 | among pairs whose product character is in the table, a pair lands in bucket k exactly when both labels are non-empty and start with the first characters of k's pair |
| Classify.WhenIndexErrors | aggkotlin/src/jmh/kotlin/SalesAggregationBenchmark.kt:120-128 | an empty label is out of bounds; a non-empty region, then product, whose first character starts no label is the exception naming that label; every other pair is accepted |
| Classify.LookupIndexErrors | aggkotlin/src/jmh/kotlin/SalesAggregationBenchmark.kt:82-86 | an empty label, a region character that starts no region, or (after a region in the table) a product character with a code of 256 or more is out of bounds; a pair whose first characters both start labels is accepted |
| Classify.WhenMatchesTables | aggkotlin/src/jmh/kotlin/SalesAggregationBenchmark.kt:120-128 | the `when` branches give, for every character, exactly what the lookup tables hold: N,S,E,W are 0..3, L,P,T,M,K are 0..4, anything else -1 |
| Classify.RegionFirstChar | aggkotlin/src/jmh/kotlin/SalesAggregationBenchmark.kt:32-37 | a valid region's first character is below 256 and both first-character rules give its position |
| Classify.ProductFirstChar | aggkotlin/src/jmh/kotlin/SalesAggregationBenchmark.kt:39-45 | a valid product's first character is below 256 and both first-character rules give its position |
| Classify.RulesAgreeOnValidLabels | aggkotlin/src/jmh/kotlin/SalesAggregationBenchmark.kt:82-86 | on valid labels the lookup and `when` classifications equal exact matching |
| Classify.WhenAcceptedMatchesLookup | aggkotlin/src/jmh/kotlin/SalesAggregationBenchmark.kt:120-130 | whenever `when` accepts a pair, the lookup tables send it to the same bucket |
| Classify.LookupMisroutesUnknownProduct | aggkotlin/src/jmh/kotlin/SalesAggregationBenchmark.kt:82-87 | with an unmapped product character the index is regionIdx * 5 - 1: the previous region's Keyboard bucket for regionIdx >= 1, out of bounds for North |
| Classify.FirstCharacterRulesExamples | aggkotlin/src/jmh/kotlin/SalesAggregationBenchmark.kt:82-86 | ("South", "Xylophone") is counted as North/Keyboard by the lookup rule and rejected by the others; ("Nowhere", "Lamp") is North/Laptop for both first-character rules |
| Grouping.FirstFailure | aggrust/benches/aggbench.rs:111-120 | there is no failure exactly when every record is classified |
| Grouping.AggCell.constructor | aggkotlin/src/jmh/kotlin/SalesAggregationBenchmark.kt:17-21 | a new group has zero counters |
| Grouping.AggCell.Accumulate | aggkotlin/src/jmh/kotlin/SalesAggregationBenchmark.kt:88-90 | the group's counters become the old ones plus this record |
| Grouping.TallyAppend | aggrust/benches/aggbench.rs:111-126 | the tally of a concatenation is the sum of the tallies of its parts |
| Grouping.TallyPermutation | aggrust/benches/aggbench.rs:111-126 | any two orderings of the same records have equal tallies, so every bucket is invariant under shuffling |
| Grouping.TallyCountBounds | aggrust/benches/aggbench.rs:123 | a group counts between 0 and all records, and the all-records group counts exactly all |
| Grouping.EmptyIffAbsent | agggo/goperf_test.go:80-86 | a group counts zero if and only if no record is selected, and is then all zeros |
| Grouping.PositiveAmounts | aggrust/benches/aggbench.rs:124 | with positive amounts a group's amount sum is positive if and only if it counts a record |
| Grouping.ExactBucketIsPair | agggo/goperf_test.go:12-23 | bucket k under exact matching is the group of k's label pair |
| Grouping.LookupBucketsMatchExact | aggkotlin/src/jmh/kotlin/SalesAggregationBenchmark.kt:80-91 | on valid records the lookup version fills the same 20 buckets as exact matching |
| Grouping.WhenBucketsMatchLookup | aggkotlin/src/jmh/kotlin/SalesAggregationBenchmark.kt:119-136 | whenever `when` classifies every record, both Kotlin functions fill identical buckets |
| Grouping.ValidLabelsPassLookup | aggkotlin/src/jmh/kotlin/SalesAggregationBenchmark.kt:82-86 | valid records never go out of bounds in the lookup version |
| Grouping.ValidLabelsPassWhen | aggkotlin/src/jmh/kotlin/SalesAggregationBenchmark.kt:120-128 | valid records never throw in the `when` version |
| Grouping.FirstFailureAt | aggrust/benches/aggbench.rs:111-120 | the failure reported is that of the first record the rule rejects |
| Grouping.TotalUpdate | aggrust/benches/aggbench.rs:123-125 | adding a record to one bucket adds it to the total of all buckets |
| Grouping.FoldStep | aggrust/benches/aggbench.rs:122-125 | one more accepted record changes exactly its bucket, by that record |
| Grouping.Conservation | aggrust/benches/aggbench.rs:111-126 | when every record is classified, the 20 buckets together count every record and sum all amounts and quantities |
| Grouping.NonEmptyBucketsCoverRecords | agggo/goperf_test.go:78-87 | a bucket is non-empty exactly when some record lands in it, an empty one is all zeros, and the counts sum to the number of records |
| Grouping.KeysOfEmpty | agggo/goperf_test.go:12-23 | the map of groups is empty exactly when there are no records |
| Grouping.FirstMaxUnique | aggrust/benches/aggbench.rs:128-136 | the first maximum is unique |
| Grouping.NoRecordsFirstBucket | aggrust/benches/aggbench.rs:128-129 | with no records the full scan stops at bucket 0, North/Laptop, with zero counters |
| Grouping.ArgMaxRulesAgreeOnPositiveAmounts | agggo/goperf_test.go:90-102 | with positive amounts, scanning every bucket and scanning only allocated buckets pick the same bucket |
| Grouping.MapAndTunedAgreeOnUniqueMax | agggo/goperf_test.go:30-37 | with a unique maximum the map version's pair is the tuned version's bucket, with the same counters |
| Shuffle.Swap | agggo/goperf_test.go:123-125 | exchanges two positions, leaves the others and keeps the multiset |
| Shuffle.ShuffledIsPermutation | aggrust/benches/aggbench.rs:207 | shuffling keeps the length and the multiset of records |
| Shuffle.ShuffleDownMap | aggkotlin/src/jmh/kotlin/SalesAggregationBenchmark.kt:68 | shuffling commutes with a per-record map (dropping Kotlin's date before or after the shuffle is the same) |
| Shuffle.ShuffleInPlace | agggo/goperf_test.go:123-125 | the swap loop leaves the array holding the shuffle of its old contents |
| SampleData.CellBijection | aggrust/benches/aggbench.rs:193-194 | (i % 4, i % 5) determines i % 20: residues and buckets are in bijection |
| SampleData.GenBucket | aggrust/benches/aggbench.rs:192-203 | record i lands in the bucket of residue i % 20 |
| SampleData.BlockTally | aggrust/benches/aggbench.rs:192-203 | every 20 consecutive records put exactly one record, the one at the bucket's residue, in each bucket |
| SampleData.BlockBucket | aggrust/benches/aggbench.rs:192-203 | the one record that 20 consecutive records put in bucket k is record 20 b + the residue of k |
| SampleData.ExpectedBucketClosedForm | aggrust/benches/aggbench.rs:195-196 | after m blocks, the bucket of residue r holds m records, amount m (100 + 10 r) + 100 m (m - 1), quantity m (1 + r % 10) |
| SampleData.AmountGrows | aggrust/benches/aggbench.rs:195 | for m > 0 the amount sum grows strictly with the residue |
| SampleData.GeneratedBuckets | aggrust/benches/aggbench.rs:192-204 | the unshuffled data of 20 m records fills bucket k with m blocks of its residue |
| SampleData.SampleClassified | aggrust/benches/aggbench.rs:185-208 | a sample has n records, all with valid labels and positive amounts |
| SampleData.SampleBuckets | aggrust/benches/aggbench.rs:185-208 | whatever the shuffle drew, bucket k of a sample equals that of the unshuffled data |
| SampleData.SampleBucketClosed | aggrust/benches/aggbench.rs:185-208 | bucket k of a sample of 20 m records is in closed form: m records, with every bucket non-empty for m > 0 |
| SampleData.SampleWinner | aggrust/benches/aggbench.rs:175-181 | on a sample of 20 m records, m > 0, bucket 19 (West/Keyboard) has a strictly larger amount sum than every other bucket and holds m records and quantity 10 m |
| SampleData.SampleFirstMax | aggrust/benches/aggbench.rs:175-181 | any first maximum, over all buckets or over non-empty ones, is bucket 19, West/Keyboard |
| SampleData.SampleMaxGroup | agggo/goperf_test.go:147-153 | any largest group of a sample is West/Keyboard with N/20 records and quantity N/2 |
| SampleData.WinnerAmounts | agggo/common_test.go:23-24 | the Go/Kotlin amount constants equal the winner of a 100 000-record run and differ from the 1 000 000-record one |
| SampleData.SampleKeys | agggo/goperf_test.go:12-23 | a sample of at least 20 records carries all 20 label pairs and no others |
| RustBench.FirstMaxIndex | aggrust/benches/aggbench.rs:128-136 | the scan returns the lowest index of largest amount sum |
| RustBench.AggregateSales | aggrust/benches/aggbench.rs:107-145 | fails, with the first bad record's error, exactly when a label is invalid; otherwise returns the pair of the first largest bucket, which encodes back to it, and that bucket's counters |
| RustBench.CreateSampleData | aggrust/benches/aggbench.rs:185-209 | returns the formula's records shuffled by the given draws |
| RustBench.SampleIsPermutationOfFormula | aggrust/benches/aggbench.rs:185-208 | the sample has n records, is a permutation of the formula's list, and each record is record i of the formula for some i |
| RustBench.ToColumns | aggrust/benches/aggbench.rs:212-215 | the four columns have one entry per record |
| RustBench.ColumnsRoundTrip | aggrust/benches/aggbench.rs:212-215 | projecting onto columns loses nothing: rows of the columns are the records, and columns of well-shaped rows are the columns |
| RustBench.AmountTablesMatchSample | aggrust/benches/aggbench.rs:147-162 | for 1000, 100 000 and 1 000 000 records the expected amount is the winner's sum and the expected average is that sum over N/20 |
| RustBench.RustStructAggregation | aggrust/benches/aggbench.rs:166-183 | for any positive multiple of 20 records and any shuffle every assertion holds; the result is West/Keyboard with N/20 sales, N/2 quantity |
| KotlinBench.CreateSampleData | aggkotlin/src/jmh/kotlin/SalesAggregationBenchmark.kt:56-70 | n records, a permutation of the formula's dated records |
| KotlinBench.CreateSampleDataMatchesSample | aggkotlin/src/jmh/kotlin/SalesAggregationBenchmark.kt:56-70 | n records which, without their dates, are the shuffled formula; every month is in 1..12 and every day in 1..28 |
| KotlinBench.NewRegionLookup | aggkotlin/src/jmh/kotlin/SalesAggregationBenchmark.kt:32-37 | a 256-entry table mapping N,S,E,W to 0..3 and every other code to -1 |
| KotlinBench.NewProductLookup | aggkotlin/src/jmh/kotlin/SalesAggregationBenchmark.kt:39-45 | a 256-entry table mapping L,P,T,M,K to 0..4 and every other code to -1 |
| KotlinBench.NewGroups | aggkotlin/src/jmh/kotlin/SalesAggregationBenchmark.kt:78 | 20 distinct new groups, all zero |
| KotlinBench.ScanFromOne | aggkotlin/src/jmh/kotlin/SalesAggregationBenchmark.kt:94-102 | the scan from 1 returns the lowest index of largest amount sum |
| KotlinBench.MaxByOrNull | aggkotlin/src/jmh/kotlin/SalesAggregationBenchmark.kt:138 | null only for no groups; otherwise the lowest index of largest amount sum |
| KotlinBench.AccumulateAt | aggkotlin/src/jmh/kotlin/SalesAggregationBenchmark.kt:87-90 | only group idx changes, by the record |
| KotlinBench.LookupIdx | aggkotlin/src/jmh/kotlin/SalesAggregationBenchmark.kt:82-86 | the table lookups compute the lookup classification, out-of-bounds cases included |
| KotlinBench.AggregateSales | aggkotlin/src/jmh/kotlin/SalesAggregationBenchmark.kt:72-111 | fails exactly when some record's lookup goes out of bounds (first such record's error); otherwise the first largest lookup bucket, its pair and its counters |
| KotlinBench.AggregateSalesWhen | aggkotlin/src/jmh/kotlin/SalesAggregationBenchmark.kt:114-146 | throws exactly on the first record with an empty label or an unmapped first character; otherwise the first largest bucket, its pair and its counters |
| KotlinBench.ChecksPass | aggkotlin/src/jmh/kotlin/SalesAggregationBenchmark.kt:155-160 | the five `check`s of both benchmark methods (also kt:170-175), the average-quantity tolerance check as the integer equation total quantity = 10 * total sales: they pass only for bucket 19's pair, and for a multiple of 20 records exactly when the pair is West/Keyboard with N/20 sales and N/2 quantity |
| KotlinBench.KotlinStructAggregation | aggkotlin/src/jmh/kotlin/SalesAggregationBenchmark.kt:151-161 | every check passes for any positive multiple of 20 records and any shuffle |
| KotlinBench.KotlinStructAggregationWhen | aggkotlin/src/jmh/kotlin/SalesAggregationBenchmark.kt:166-176 | every check passes for any positive multiple of 20 records and any shuffle |
| GoBench.GoDecode | agggo/goperf_test.go:104-106 | Go's truncating `/ 5` and `% 5` decode a bucket index; for -1 they give 0 and -1 |
| GoBench.GroupByPair | agggo/goperf_test.go:12-23 | the map has a key for exactly the pairs that occur, each holding the count and sums of that pair's records |
| GoBench.ScanInOrder | agggo/goperf_test.go:30-37 | nil only when nothing is visited; otherwise a visited group no other beats, and every group visited before it is strictly smaller |
| GoBench.AggregateSalesStructs | agggo/goperf_test.go:11-39 | panics on a nil dereference exactly for no records; otherwise a largest group, the first such in iteration order, with its counters |
| GoBench.AllocateAndAdd | agggo/goperf_test.go:80-86 | allocates slot idx on its first record, adds the record to it and leaves every other slot alone |
| GoBench.GroupTuned | agggo/goperf_test.go:47-87 | fails on the first invalid label; otherwise the groups are the 20 buckets and a slot is allocated exactly when its bucket is non-empty |
| GoBench.ScanAllocated | agggo/goperf_test.go:90-102 | -1 exactly when nothing is allocated; otherwise the lowest allocated index of largest amount sum |
| GoBench.AggregateSalesStructsTuned | agggo/goperf_test.go:41-107 | fails on the first invalid label, or out of bounds with no records; otherwise the first largest non-empty bucket, its pair and its counters |
| GoBench.NoRecordsNoGroups | agggo/goperf_test.go:90-106 | with valid labels there are no records exactly when every bucket is empty |
| GoBench.CreateSampleStructs | agggo/goperf_test.go:109-127 | returns the formula's records shuffled by the given draws |
| GoBench.ValidAggResult | agggo/goperf_test.go:147-153 | `validateAggResult`, the `AvgQuantity` assertion as the integer equation total quantity = 10 * total sales: it passes only for bucket 19's pair, and for a multiple of 20 records exactly when the pair is West/Keyboard with N/20 sales and N/2 quantity |
| GoBench.BenchmarkGoStructAggregation | agggo/goperf_test.go:129-136 | `validateAggResult` passes for any positive multiple of 20 records, any shuffle and any map iteration order |
| GoBench.BenchmarkGoStructAggregationTuned | agggo/goperf_test.go:138-145 | `validateAggResult` passes for any positive multiple of 20 records and any shuffle |

## Left out

- Floating point: amounts are whole numbers by construction and are modelled as unbounded `int`. IEEE rounding of amount sums, the `AvgAmount`/`AvgQuantity` fields (agggo/goperf_test.go:24-27, 94-95) and the Kotlin 1e-6 tolerance are not modelled.
- Integer width: `i64`/`Long`/`int64` counters and sums are unbounded integers. No overflow can occur for the sizes the benchmarks use, and none is modelled.
- Randomness: the shuffles' random source is a parameter `picks`, the Fisher–Yates draws with `picks[i] <= i`. Which permutation the library actually draws is not modelled.
- Go map iteration order: a parameter `order` that lists every key once. Nothing is assumed about which order Go picks.
- RustBench.RustStructAggregation: takes the run size as a parameter (any positive multiple of 20) instead of the constant `TOTAL_RECORDS`. `Common.ExpectedConstantsConsistent` shows the constant is such a size. The same holds for the Kotlin and Go benchmark methods.
- RustBench.RustStructAggregation: the average-quantity assertion is stated as the integer equation total quantity = 10 * total sales, not as a floating-point division. The same holds for the Kotlin and Go checks.
- KotlinBench.AggregateSales: states the returned group's counters, not that the returned object is the very `groups[maxIdx]` instance. The group array is local to the call, so its identity is not observable by the caller.
- KotlinBench.AggregateSalesWhen: the same; it returns the counters of `groups[maxIdx]`, not that object itself.
- KotlinBench.CreateSampleDataMatchesSample: the date string built with `String.format` is modelled only as its integer month and day.
- Kotlin strings are UTF-16 code units while Dafny `char` is a Unicode scalar value. A label starting with a supplementary character is out of bounds for the lookup tables in both readings (both codes are at least 256), so only the encoding itself is not modelled.
- External engines: everything that talks to DuckDB, DataFusion, Parquet or Arrow is not part of this model (`RecordBatch::try_new`, the `datafusion_*` and `duckdb_*` benches, agggo/duckperf_test.go, agggo/duckdbperf_test.go). These are foreign library calls plus file I/O.
- Concurrency and harness plumbing are not modelled: `b.RunParallel`, `sync.Once`, the tokio runtime, timing, logging and the JMH annotations.
- The commented-out alternatives in aggrust/benches/aggbench.rs:33-105 are dead code.
