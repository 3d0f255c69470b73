/** The Rust port (aggrust/benches/aggbench.rs): `aggregate_sales` folds the
    records into a fixed `[AggResult; 20]` by exact label match and scans it
    for the first largest amount sum; `create_sample_data` pushes the
    generated records and shuffles them in place; `create_record_batch`
    starts by projecting the records onto four columns. */
module RustBench {
  import opened Common
  import opened Classify
  import opened Grouping
  import opened Shuffle
  import opened SampleData

  /** The arg-max scan of `aggregate_sales`: start at bucket 0 and move on a
      strictly larger amount sum only, visiting every bucket from 0. */
  method FirstMaxIndex(groups: array<AggResult>) returns (maxIdx: nat)
    requires groups.Length > 0
    ensures IsFirstMax(groups[..], maxIdx)
  {
    maxIdx := 0;
    var maxAmount := groups[0].totalAmount;
    var idx := 0;
    while idx < groups.Length
      invariant 0 <= idx <= groups.Length
      invariant maxIdx < groups.Length && maxIdx <= idx
      invariant maxAmount == groups[maxIdx].totalAmount
      invariant forall j :: 0 <= j < idx ==> groups[j].totalAmount <= maxAmount
      invariant forall j :: 0 <= j < maxIdx ==> groups[j].totalAmount < maxAmount
    {
      if groups[idx].totalAmount > maxAmount {
        maxIdx := idx;
        maxAmount := groups[idx].totalAmount;
      }
      idx := idx + 1;
    }
  }

  /** `aggregate_sales`. A record with an unknown region or product panics,
      which here is the error of the first such record. Otherwise the result
      is the label pair of the first bucket with the largest amount sum
      (a pair that encodes back to that bucket) with that bucket's counters. */
  method AggregateSales(records: seq<SalesRecord>) returns (res: Result<Outcome>)
    ensures res.Err? <==> !AllClassified(Exact, records)
    ensures res.Err? ==> FirstFailure(Exact, records) == Some(res.error)
    ensures res.Ok? ==>
              var m := ExactIndex(res.value.region, res.value.product);
              && m.Ok?
              && IsFirstMax(Buckets(Exact, records), m.value)
              && res.value.agg == Buckets(Exact, records)[m.value]
  {
    var groups := new AggResult[20](_ => Zero);
    assert groups[..] == Buckets(Exact, records[..0]);
    var i := 0;
    while i < |records|
      invariant 0 <= i <= |records|
      invariant AllClassified(Exact, records[..i])
      invariant groups[..] == Buckets(Exact, records[..i])
    {
      var r := records[i];
      var regionIdx := RegionIndex(r.region);
      if regionIdx.Err? {
        FirstFailureAt(Exact, records, i);
        return Err(regionIdx.error);
      }
      var productIdx := ProductIndex(r.product);
      if productIdx.Err? {
        FirstFailureAt(Exact, records, i);
        return Err(productIdx.error);
      }
      var idx := regionIdx.value * 5 + productIdx.value;
      FoldStep(Exact, records, i, idx);
      groups[idx] := Add(groups[idx], r);
      i := i + 1;
    }
    assert records[..i] == records;
    var maxIdx := FirstMaxIndex(groups);
    var region, product := Regions[maxIdx / 5], Products[maxIdx % 5];
    ExactIndexIff(region, product, maxIdx);
    return Ok(Outcome(region, product, groups[maxIdx]));
  }

  /** `create_sample_data`, for a run of n records: push record i for every
      i below n, then shuffle in place with the given draws. */
  method CreateSampleData(n: nat, picks: seq<nat>) returns (records: seq<SalesRecord>)
    requires ValidDraws(picks, n)
    ensures records == Sample(n, picks)
  {
    var a := new SalesRecord[n];
    for i := 0 to n
      invariant forall j :: 0 <= j < i ==> a[j] == Gen(j)
    {
      a[i] := SalesRecord(Regions[i % |Regions|], Products[i % |Products|], 100 + 10 * i, 1 + i % 10);
    }
    assert a[..] == Generated(n);
    ShuffleInPlace(a, picks);
    records := a[..];
  }

  /** The sample is the generated list rearranged: n records, each of them
      record i of the formula for some i. */
  lemma SampleIsPermutationOfFormula(n: nat, picks: seq<nat>)
    requires ValidDraws(picks, n)
    ensures |Sample(n, picks)| == n
    ensures multiset(Sample(n, picks)) == multiset(Generated(n))
    ensures forall r :: r in Sample(n, picks) ==> exists i :: 0 <= i < n && r == Gen(i)
  {
    ShuffledIsPermutation(Generated(n), picks);
    forall r | r in Sample(n, picks) ensures exists i :: 0 <= i < n && r == Gen(i) {
      assert r in multiset(Generated(n));
      var i :| 0 <= i < n && Generated(n)[i] == r;
    }
  }

  /** The four columns `create_record_batch` collects before building its
      Arrow batch. */
  datatype Columns = Columns(regions: seq<string>, products: seq<string>, amounts: seq<int>, quantities: seq<int>)

  predicate WellShaped(c: Columns) {
    |c.products| == |c.regions| && |c.amounts| == |c.regions| && |c.quantities| == |c.regions|
  }

  function ToColumns(records: seq<SalesRecord>): (c: Columns)
    ensures WellShaped(c) && |c.regions| == |records|
  {
    Columns(Map(records, (r: SalesRecord) => r.region), Map(records, (r: SalesRecord) => r.product),
            Map(records, (r: SalesRecord) => r.amount), Map(records, (r: SalesRecord) => r.quantity))
  }

  /** Row i of a batch. */
  function FromColumns(c: Columns): (records: seq<SalesRecord>)
    requires WellShaped(c)
    ensures |records| == |c.regions|
  {
    seq(|c.regions|, i requires 0 <= i < |c.regions| => SalesRecord(c.regions[i], c.products[i], c.amounts[i], c.quantities[i]))
  }

  /** The projection loses nothing: the rows of the columns are the records,
      and the columns of those rows are the columns again. */
  lemma ColumnsRoundTrip(records: seq<SalesRecord>, c: Columns)
    requires WellShaped(c)
    ensures FromColumns(ToColumns(records)) == records
    ensures ToColumns(FromColumns(c)) == c
  {
    var rs := FromColumns(ToColumns(records));
    assert forall i :: 0 <= i < |records| ==> rs[i] == records[i];
  }

  /** `EXPECTED_TOTAL_AMOUNT` and `EXPECTED_AVG_AMOUNT`, chosen by the run size. */
  function ExpectedTotalAmountFor(totalRecords: nat): nat {
    if totalRecords == 1000 then 259_500
    else if totalRecords == 100_000 then 2_500_950_000
    else 250_009_500_000
  }

  function ExpectedAvgAmountFor(totalRecords: nat): nat {
    if totalRecords == 1000 then 5190
    else if totalRecords == 100_000 then 500_190
    else 5_000_190
  }

  /** Both tables agree with the winning bucket of the sample for each of the
      three run sizes they list: the amount sum is that of West/Keyboard and
      the average is that sum over N/20 records. */
  lemma AmountTablesMatchSample(totalRecords: nat)
    requires totalRecords == 1000 || totalRecords == 100_000 || totalRecords == 1_000_000
    ensures ExpectedTotalAmountFor(totalRecords) == ClosedAmount(totalRecords / 20, 19)
    ensures ExpectedAvgAmountFor(totalRecords) * (totalRecords / 20) == ExpectedTotalAmountFor(totalRecords)
  {
    if totalRecords == 1000 {
      assert totalRecords / 20 == 50;
      assert ClosedAmount(50, 19) == 259_500;
    } else if totalRecords == 100_000 {
      assert totalRecords / 20 == 5000;
      assert ClosedAmount(5000, 19) == 2_500_950_000;
    } else {
      assert totalRecords / 20 == 50_000;
      assert ClosedAmount(50_000, 19) == 250_009_500_000;
    }
  }

  /** The benchmark, for a run of `totalRecords` records (TOTAL_RECORDS, a
      positive multiple of 20): aggregate the sample and assert West/Keyboard,
      N/20 sales, N/2 quantity and an average quantity of 10 (as the integer
      equation total quantity = 10 * total sales). Every assertion holds
      whatever the shuffle drew; the winner's amount sum is the one
      AmountTablesMatchSample relates to the constant table. */
  method RustStructAggregation(totalRecords: nat, picks: seq<nat>) returns (outcome: Result<Outcome>, passed: bool)
    requires totalRecords > 0 && totalRecords % 20 == 0 && ValidDraws(picks, totalRecords)
    ensures passed
    ensures outcome == Ok(Outcome("West", "Keyboard",
              AggResult(totalRecords / 20, ClosedAmount(totalRecords / 20, 19), totalRecords / 2)))
  {
    var sampleData := CreateSampleData(totalRecords, picks);
    outcome := AggregateSales(sampleData);
    var m := totalRecords / 20;
    RunSize(totalRecords);
    SampleClassified(20 * m, picks);
    if outcome.Err? {
      passed := false;
      assert false;
    }
    var k := ExactIndex(outcome.value.region, outcome.value.product).value;
    SampleFirstMax(m, picks, k);
    ExactIndexIff(outcome.value.region, outcome.value.product, 19);
    var agg := outcome.value.agg;
    passed := outcome.value.region == "West" && outcome.value.product == "Keyboard"
      && agg.totalSales == totalRecords / 20 && agg.totalQuantity == totalRecords / 2
      && agg.totalQuantity == ExpectedAvgQuantity * agg.totalSales;
  }
}
