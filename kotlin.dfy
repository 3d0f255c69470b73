/** The Kotlin port (aggkotlin/src/jmh/kotlin/SalesAggregationBenchmark.kt).
    Its `AggResult` is a data class with `var` fields, so a group is an
    `AggCell` whose fields the fold updates in place; `aggregateSales`
    classifies through two 256-entry first-character tables and
    `aggregateSalesWhen` through a first-character `when`. The sample list
    is built with `List(n) { ... }` and `shuffled()`, which returns a new
    list. */
module KotlinBench {
  import opened Common
  import opened Classify
  import opened Grouping
  import opened Shuffle
  import opened SampleData

  /** The month and day the `date` string is formatted from. */
  datatype Date = Date(month: int, day: int)

  /** Kotlin's record, which also carries a date. */
  datatype DatedRecord = DatedRecord(region: string, product: string, amount: int, quantity: int, date: Date)

  /** The record without its date; no aggregation reads the date. */
  function Undated(r: DatedRecord): SalesRecord {
    SalesRecord(r.region, r.product, r.amount, r.quantity)
  }

  function Undate(records: seq<DatedRecord>): (rs: seq<SalesRecord>)
    ensures |rs| == |records|
  {
    Map(records, Undated)
  }

  /** Element i of `List(n) { i -> ... }`. */
  function DatedGen(i: nat): DatedRecord {
    DatedRecord(Regions[i % 4], Products[i % 5], 100 + 10 * i, 1 + i % 10, Date(1 + i % 12, 1 + i % 28))
  }

  /** `createSampleData` for a run of n records: the list builder followed by
      `shuffled()` with the given draws. */
  function CreateSampleData(n: nat, picks: seq<nat>): (l: seq<DatedRecord>)
    requires ValidDraws(picks, n)
    ensures |l| == n
    ensures multiset(l) == multiset(seq(n, i requires 0 <= i < n => DatedGen(i)))
  {
    var built := seq(n, i requires 0 <= i < n => DatedGen(i));
    ShuffledIsPermutation(built, picks);
    Shuffled(built, picks)
  }

  /** The Kotlin sample is the shared sample with a date on every record,
      and every date is a real one: month 1..12, day 1..28. */
  lemma CreateSampleDataMatchesSample(n: nat, picks: seq<nat>)
    requires ValidDraws(picks, n)
    ensures |CreateSampleData(n, picks)| == n
    ensures Undate(CreateSampleData(n, picks)) == Sample(n, picks)
    ensures forall i :: 0 <= i < n ==>
              1 <= CreateSampleData(n, picks)[i].date.month <= 12 && 1 <= CreateSampleData(n, picks)[i].date.day <= 28
  {
    var dated := seq(n, i requires 0 <= i < n => DatedGen(i));
    assert Map(dated, Undated) == Generated(n);
    ShuffleDownMap(dated, Undated, n, picks);
    ShuffledIsPermutation(dated, picks);
    var l := CreateSampleData(n, picks);
    forall i | 0 <= i < n ensures 1 <= l[i].date.month <= 12 && 1 <= l[i].date.day <= 28 {
      assert l[i] in multiset(dated);
      var j :| 0 <= j < n && dated[j] == l[i];
    }
  }

  /** A 256-entry first-character table for `labels`. */
  predicate IsLookupTable(table: array<int>, labels: seq<string>)
    reads table
  {
    table.Length == 256 && forall c :: 0 <= c < 256 ==> table[c] == FirstCharIndex(labels, c)
  }

  /** `REGION_LOOKUP`: -1 everywhere, then the first characters of the regions. */
  method NewRegionLookup() returns (table: array<int>)
    ensures IsLookupTable(table, Regions)
  {
    table := new int[256](_ => -1);
    table['N' as int] := 0;
    table['S' as int] := 1;
    table['E' as int] := 2;
    table['W' as int] := 3;
    forall c | 0 <= c < 256 ensures table[c] == FirstCharIndex(Regions, c) {
      WhenMatchesTables(c as char);
    }
  }

  /** `PRODUCT_LOOKUP`: -1 everywhere, then the first characters of the products. */
  method NewProductLookup() returns (table: array<int>)
    ensures IsLookupTable(table, Products)
  {
    table := new int[256](_ => -1);
    table['L' as int] := 0;
    table['P' as int] := 1;
    table['T' as int] := 2;
    table['M' as int] := 3;
    table['K' as int] := 4;
    forall c | 0 <= c < 256 ensures table[c] == FirstCharIndex(Products, c) {
      WhenMatchesTables(c as char);
    }
  }

  /** The cells of a group array are pairwise distinct objects. */
  predicate DistinctCells(groups: array<AggCell>)
    reads groups
  {
    forall j, k :: 0 <= j < k < groups.Length ==> groups[j] != groups[k]
  }

  /** `Array(20) { AggResult() }`: twenty new, distinct, empty groups. */
  method NewGroups() returns (groups: array<AggCell>)
    ensures fresh(groups) && groups.Length == 20 && DistinctCells(groups)
    ensures forall k :: 0 <= k < 20 ==> fresh(groups[k])
    ensures Values(groups[..]) == seq(20, _ => Zero)
  {
    var cells: seq<AggCell> := [];
    while |cells| < 20
      invariant |cells| <= 20
      invariant forall k :: 0 <= k < |cells| ==> fresh(cells[k]) && cells[k].Value() == Zero
      invariant forall j, k :: 0 <= j < k < |cells| ==> cells[j] != cells[k]
    {
      var c := new AggCell();
      cells := cells + [c];
    }
    groups := new AggCell[20](i requires 0 <= i < 20 => cells[i]);
  }

  /** The arg-max of `aggregateSales`: start at group 0, scan from 1 and move
      on a strictly larger amount sum only. */
  method ScanFromOne(groups: array<AggCell>) returns (maxIdx: nat)
    requires groups.Length > 0
    ensures IsFirstMax(Values(groups[..]), maxIdx)
  {
    maxIdx := 0;
    var maxAmount := groups[0].totalAmount;
    for i := 1 to groups.Length
      invariant maxIdx < i
      invariant maxAmount == groups[maxIdx].totalAmount
      invariant forall j :: 0 <= j < i ==> groups[j].totalAmount <= maxAmount
      invariant forall j :: 0 <= j < maxIdx ==> groups[j].totalAmount < maxAmount
    {
      if groups[i].totalAmount > maxAmount {
        maxAmount := groups[i].totalAmount;
        maxIdx := i;
      }
    }
  }

  /** `groups.indices.maxByOrNull { groups[it].totalAmount }`: null for no
      indices; otherwise the first index, replaced only when a later one has a
      strictly larger amount sum. */
  method MaxByOrNull(groups: array<AggCell>) returns (maxIdx: Option<nat>)
    ensures maxIdx.None? <==> groups.Length == 0
    ensures maxIdx.Some? ==> IsFirstMax(Values(groups[..]), maxIdx.value)
  {
    if groups.Length == 0 {
      return None;
    }
    var maxElem := 0;
    var maxValue := groups[0].totalAmount;
    var e := 1;
    while e < groups.Length
      invariant 1 <= e <= groups.Length && maxElem < e
      invariant maxValue == groups[maxElem].totalAmount
      invariant forall j :: 0 <= j < e ==> groups[j].totalAmount <= maxValue
      invariant forall j :: 0 <= j < maxElem ==> groups[j].totalAmount < maxValue
    {
      var v := groups[e].totalAmount;
      if maxValue < v {
        maxElem := e;
        maxValue := v;
      }
      e := e + 1;
    }
    return Some(maxElem);
  }

  /** Fold one record into group idx; the other groups keep their values. */
  method AccumulateAt(groups: array<AggCell>, idx: nat, r: SalesRecord)
    requires idx < groups.Length && DistinctCells(groups)
    modifies groups[idx]
    ensures Values(groups[..]) == old(Values(groups[..]))[idx := Add(old(groups[idx].Value()), r)]
  {
    ghost var before := Values(groups[..]);
    var agg := groups[idx];
    agg.Accumulate(r);
    forall k | 0 <= k < groups.Length ensures Values(groups[..])[k] == before[idx := Add(before[idx], r)][k] {
      if k != idx {
        assert groups[k] != agg;
      }
    }
  }

  /** The index computation of `aggregateSales`:
      `REGION_LOOKUP[r.region[0].code] * 5 + PRODUCT_LOOKUP[r.product[0].code]`,
      where an empty label, a code of 256 or more, or a sum outside the group
      array is out of bounds. Nothing else is checked. */
  method LookupIdx(r: DatedRecord, regionLookup: array<int>, productLookup: array<int>) returns (idx: Result<nat>)
    requires IsLookupTable(regionLookup, Regions) && IsLookupTable(productLookup, Products)
    ensures idx == LookupIndex(r.region, r.product)
  {
    if |r.region| == 0 || r.region[0] as int >= 256 { return Err(IndexOutOfBounds); }
    var regionIdx := regionLookup[r.region[0] as int];
    if |r.product| == 0 || r.product[0] as int >= 256 { return Err(IndexOutOfBounds); }
    var productIdx := productLookup[r.product[0] as int];
    var i := regionIdx * 5 + productIdx;
    if i < 0 || i >= 20 { return Err(IndexOutOfBounds); }
    return Ok(i);
  }

  /** What both Kotlin aggregations return: the label pair and the very group
      object of the winning bucket. */
  datatype KotlinOutcome = KotlinOutcome(region: string, product: string, agg: AggCell)

  /** `aggregateSales`. Any record whose index computation goes out of bounds
      throws (the error of the first such record); otherwise the result is
      the label pair of the first group with the largest amount sum, which
      encodes back to that group, together with the group itself. */
  method AggregateSales(records: seq<DatedRecord>, regionLookup: array<int>, productLookup: array<int>)
    returns (res: Result<KotlinOutcome>)
    requires IsLookupTable(regionLookup, Regions) && IsLookupTable(productLookup, Products)
    ensures res.Err? <==> !AllClassified(Lookup, Undate(records))
    ensures res.Err? ==> FirstFailure(Lookup, Undate(records)) == Some(res.error)
    ensures res.Ok? ==>
              var m := ExactIndex(res.value.region, res.value.product);
              && m.Ok?
              && IsFirstMax(Buckets(Lookup, Undate(records)), m.value)
              && res.value.agg.Value() == Buckets(Lookup, Undate(records))[m.value]
  {
    ghost var recs := Undate(records);
    var groups := NewGroups();
    assert Values(groups[..]) == Buckets(Lookup, recs[..0]);
    var i := 0;
    while i < |records|
      invariant 0 <= i <= |records|
      invariant AllClassified(Lookup, recs[..i])
      invariant DistinctCells(groups) && groups.Length == 20
      invariant forall k :: 0 <= k < 20 ==> fresh(groups[k])
      invariant Values(groups[..]) == Buckets(Lookup, recs[..i])
    {
      var r := records[i];
      assert recs[i] == Undated(r);
      var idx := LookupIdx(r, regionLookup, productLookup);
      if idx.Err? {
        FirstFailureAt(Lookup, recs, i);
        return Err(idx.error);
      }
      FoldStep(Lookup, recs, i, idx.value);
      AccumulateAt(groups, idx.value, Undated(r));
      i := i + 1;
    }
    assert recs[..i] == recs;
    var maxIdx := ScanFromOne(groups);
    var region, product := Regions[maxIdx / 5], Products[maxIdx % 5];
    ExactIndexIff(region, product, maxIdx);
    return Ok(KotlinOutcome(region, product, groups[maxIdx]));
  }

  /** `aggregateSalesWhen`: the same fold with the `when` classification,
      which throws on an unknown first character, and the arg-max taken with
      `maxByOrNull`, whose `!!` never fails on the 20 indices. */
  method AggregateSalesWhen(records: seq<DatedRecord>) returns (res: Result<KotlinOutcome>)
    ensures res.Err? <==> !AllClassified(When, Undate(records))
    ensures res.Err? ==> FirstFailure(When, Undate(records)) == Some(res.error)
    ensures res.Ok? ==>
              var m := ExactIndex(res.value.region, res.value.product);
              && m.Ok?
              && IsFirstMax(Buckets(When, Undate(records)), m.value)
              && res.value.agg.Value() == Buckets(When, Undate(records))[m.value]
  {
    ghost var recs := Undate(records);
    var groups := NewGroups();
    assert Values(groups[..]) == Buckets(When, recs[..0]);
    var i := 0;
    while i < |records|
      invariant 0 <= i <= |records|
      invariant AllClassified(When, recs[..i])
      invariant DistinctCells(groups) && groups.Length == 20
      invariant forall k :: 0 <= k < 20 ==> fresh(groups[k])
      invariant Values(groups[..]) == Buckets(When, recs[..i])
    {
      var r := records[i];
      assert recs[i] == Undated(r);
      var idx := WhenIndex(r.region, r.product);
      if idx.Err? {
        FirstFailureAt(When, recs, i);
        return Err(idx.error);
      }
      FoldStep(When, recs, i, idx.value);
      AccumulateAt(groups, idx.value, Undated(r));
      i := i + 1;
    }
    assert recs[..i] == recs;
    var found := MaxByOrNull(groups);
    var maxIdx := found.value;
    var region, product := Regions[maxIdx / 5], Products[maxIdx % 5];
    ExactIndexIff(region, product, maxIdx);
    return Ok(KotlinOutcome(region, product, groups[maxIdx]));
  }

  /** The checks both benchmark methods make: West/Keyboard, N/20 sales, N/2
      quantity and an average quantity of 10 (the tolerance check on
      `totalQuantity / totalSales`, here the integer equation total quantity
      = 10 * total sales). They pass only for bucket 19's pair and, for a
      multiple of 20 records, the average check follows from the other two. */
  predicate ChecksPass(outcome: KotlinOutcome, totalRecords: nat): (ok: bool)
    reads outcome.agg
    ensures ok ==> ExactIndex(outcome.region, outcome.product) == Ok(19)
    ensures totalRecords % 20 == 0 ==>
              (ok <==> outcome.region == RegionOf(19) && outcome.product == ProductOf(19)
                       && outcome.agg.totalSales == totalRecords / 20 && outcome.agg.totalQuantity == totalRecords / 2)
  {
    && outcome.region == "West" && outcome.product == "Keyboard"
    && outcome.agg.totalSales == totalRecords / 20
    && outcome.agg.totalQuantity == totalRecords / 2
    && outcome.agg.totalQuantity == ExpectedAvgQuantity * outcome.agg.totalSales
  }

  /** `kotlinStructAggregation` on the sample of a run of `totalRecords`
      records (TOTAL_RECORDS, a positive multiple of 20): every check passes,
      whatever the shuffle drew. */
  method KotlinStructAggregation(totalRecords: nat, picks: seq<nat>) returns (passed: bool)
    requires totalRecords > 0 && totalRecords % 20 == 0 && ValidDraws(picks, totalRecords)
    ensures passed
  {
    var sampleData := CreateSampleData(totalRecords, picks);
    var regionLookup := NewRegionLookup();
    var productLookup := NewProductLookup();
    var res := AggregateSales(sampleData, regionLookup, productLookup);
    var m := totalRecords / 20;
    RunSize(totalRecords);
    CreateSampleDataMatchesSample(totalRecords, picks);
    SampleClassified(20 * m, picks);
    ValidLabelsPassLookup(Undate(sampleData));
    LookupBucketsMatchExact(Undate(sampleData));
    if res.Err? {
      passed := false;
      assert false;
    }
    var k := ExactIndex(res.value.region, res.value.product).value;
    SampleFirstMax(m, picks, k);
    ExactIndexIff(res.value.region, res.value.product, 19);
    passed := ChecksPass(res.value, totalRecords);
  }

  /** `kotlinStructAggregationWhen`: the same checks on the `when` version. */
  method KotlinStructAggregationWhen(totalRecords: nat, picks: seq<nat>) returns (passed: bool)
    requires totalRecords > 0 && totalRecords % 20 == 0 && ValidDraws(picks, totalRecords)
    ensures passed
  {
    var sampleData := CreateSampleData(totalRecords, picks);
    var res := AggregateSalesWhen(sampleData);
    var m := totalRecords / 20;
    RunSize(totalRecords);
    CreateSampleDataMatchesSample(totalRecords, picks);
    SampleClassified(20 * m, picks);
    ValidLabelsPassWhen(Undate(sampleData));
    WhenBucketsMatchLookup(Undate(sampleData));
    LookupBucketsMatchExact(Undate(sampleData));
    if res.Err? {
      passed := false;
      assert false;
    }
    var k := ExactIndex(res.value.region, res.value.product).value;
    SampleFirstMax(m, picks, k);
    ExactIndexIff(res.value.region, res.value.product, 19);
    passed := ChecksPass(res.value, totalRecords);
  }
}
