/** The Go port (agggo/goperf_test.go). `aggregateSalesStructs` groups by
    label pair in a map of `*AggResult` and takes a maximum in map iteration
    order; `aggregateSalesStructsTuned` uses exact matching into a
    `[20]*AggResult` whose groups are allocated on their first record and
    takes the first maximum among the allocated groups. The iteration order
    of the map, which Go leaves unspecified, is a parameter. */
module GoBench {
  import opened Common
  import opened Classify
  import opened Grouping
  import opened Shuffle
  import opened SampleData

  /** Go's `/` and `%` on int truncate toward zero. */
  function GoQuo(a: int, b: int): int
    requires b > 0
  {
    if a >= 0 then a / b else -((-a) / b)
  }

  function GoRem(a: int, b: int): int
    requires b > 0
  {
    a - b * GoQuo(a, b)
  }

  /** Decoding a tuned arg-max: a bucket index gives its region and product
      positions, and the -1 of "no group" gives region 0 and product -1. */
  lemma GoDecode(i: int)
    requires -1 <= i < 20
    ensures i == -1 ==> GoQuo(i, 5) == 0 && GoRem(i, 5) == -1
    ensures i >= 0 ==> GoQuo(i, 5) == i / 5 < 4 && GoRem(i, 5) == i % 5
  {
  }

  /** The group objects of a map are pairwise distinct. */
  predicate DistinctValues(groups: map<(string, string), AggCell>) {
    forall k1, k2 :: k1 in groups && k2 in groups && k1 != k2 ==> groups[k1] != groups[k2]
  }

  /** The grouping loop of `aggregateSalesStructs`: look the pair up, insert
      a new group on a miss, then update the group in place. Afterwards the
      map has a key for exactly the pairs that occur, each holding the count
      and sums of the records carrying it. */
  method GroupByPair(records: seq<SalesRecord>) returns (groups: map<(string, string), AggCell>)
    ensures groups.Keys == KeysOf(records)
    ensures forall key :: key in groups ==> groups[key].Value() == Tally(records, Pair(key.0, key.1))
  {
    groups := map[];
    var i := 0;
    while i < |records|
      invariant 0 <= i <= |records|
      invariant groups.Keys == KeysOf(records[..i])
      invariant DistinctValues(groups)
      invariant forall key :: key in groups ==> fresh(groups[key])
      invariant forall key :: key in groups ==> groups[key].Value() == Tally(records[..i], Pair(key.0, key.1))
    {
      var r := records[i];
      var key := (r.region, r.product);
      if key !in groups {
        var g := new AggCell();
        AbsentPairIsZero(records[..i], key);
        groups := groups[key := g];
      }
      var g := groups[key];
      g.Accumulate(r);
      forall key' | key' in groups
        ensures groups[key'].Value() == Tally(records[..i + 1], Pair(key'.0, key'.1))
      {
        TallyPrefixStep(records, i, Pair(key'.0, key'.1));
        if key' != key {
          assert groups[key'] != g;
        }
      }
      KeysOfStep(records, i);
      i := i + 1;
    }
    assert records[..i] == records;
  }

  /** The amount sum of the group of a label pair. */
  function PairAmount(records: seq<SalesRecord>, key: (string, string)): int {
    Tally(records, Pair(key.0, key.1)).totalAmount
  }

  /** The arg-max loop of `aggregateSalesStructs` over the map, visited in
      `order`: keep the first group visited, then move on a strictly larger
      amount sum. `maxAgg` stays nil only when there is nothing to visit;
      otherwise every key visited before the winner has a strictly smaller
      amount sum. */
  method ScanInOrder(groups: map<(string, string), AggCell>, order: seq<(string, string)>)
    returns (maxKey: (string, string), maxAgg: AggCell?)
    requires Distinct(order) && forall j :: 0 <= j < |order| ==> order[j] in groups
    ensures maxAgg == null <==> |order| == 0
    ensures maxAgg != null ==> maxKey in order && maxKey in groups && maxAgg == groups[maxKey]
    ensures maxAgg != null ==> forall t :: 0 <= t < |order| ==> groups[order[t]].totalAmount <= maxAgg.totalAmount
    ensures maxAgg != null ==> forall t, u :: 0 <= u < t < |order| && order[t] == maxKey ==>
              groups[order[u]].totalAmount < maxAgg.totalAmount
  {
    maxKey := ("", "");
    maxAgg := null;
    ghost var pos := 0;
    for j := 0 to |order|
      invariant maxAgg == null <==> j == 0
      invariant maxAgg != null ==> pos < j && maxKey == order[pos] && maxAgg == groups[maxKey]
      invariant maxAgg != null ==> forall t :: 0 <= t < j ==> groups[order[t]].totalAmount <= maxAgg.totalAmount
      invariant maxAgg != null ==> forall u :: 0 <= u < pos ==> groups[order[u]].totalAmount < maxAgg.totalAmount
    {
      var k := order[j];
      var v := groups[k];
      if maxAgg == null || v.totalAmount > maxAgg.totalAmount {
        maxKey := k;
        maxAgg := v;
        pos := j;
      }
    }
  }

  /** `order` visits every key of `keys` exactly once, as `range` does over a map. */
  ghost predicate VisitsEach(order: seq<(string, string)>, keys: set<(string, string)>) {
    Distinct(order) && forall key :: key in order <==> key in keys
  }

  /** `aggregateSalesStructs`. `order` is the order in which `range` visits
      the map: its keys, each once. With no records the map is empty,
      `maxAgg` stays nil and `*maxAgg` panics. Otherwise the result is a
      group of largest amount sum, the first of those in visiting order,
      with its counters. */
  method AggregateSalesStructs(records: seq<SalesRecord>, order: seq<(string, string)>) returns (res: Result<Outcome>)
    requires VisitsEach(order, KeysOf(records))
    ensures res.Err? <==> |records| == 0
    ensures res.Err? ==> res.error == NilDereference
    ensures res.Ok? ==> IsMaxGroup(records, res.value.region, res.value.product)
    ensures res.Ok? ==> res.value.agg == Tally(records, Pair(res.value.region, res.value.product))
    ensures res.Ok? ==> forall t, u :: 0 <= u < t < |order| && order[t] == (res.value.region, res.value.product) ==>
              PairAmount(records, order[u]) < res.value.agg.totalAmount
  {
    var groups := GroupByPair(records);
    var maxKey, maxAgg := ScanInOrder(groups, order);
    KeysOfEmpty(records);
    if maxAgg == null {
      assert KeysOf(records) == {};
      return Err(NilDereference);
    }
    forall key | key in KeysOf(records) ensures PairAmount(records, key) <= PairAmount(records, maxKey) {
      var t :| 0 <= t < |order| && order[t] == key;
    }
    return Ok(Outcome(maxKey.0, maxKey.1, maxAgg.Value()));
  }

  /** The counters of a `[20]*AggResult`, a nil group reading as empty. */
  function Present(groups: seq<AggCell?>): (vs: seq<AggResult>)
    reads groups
    ensures |vs| == |groups|
  {
    seq(|groups|, k requires 0 <= k < |groups| reads groups => if groups[k] == null then Zero else groups[k].Value())
  }

  /** The allocated groups are pairwise distinct objects. */
  predicate DistinctAllocated(groups: array<AggCell?>)
    reads groups
  {
    forall j, k :: 0 <= j < groups.Length && 0 <= k < groups.Length && j != k && groups[j] != null ==> groups[j] != groups[k]
  }

  /** Lines 80-86: allocate group idx on its first record, then update it in
      place; every other slot keeps its group and that group's counters. */
  method AllocateAndAdd(groups: array<AggCell?>, idx: nat, r: SalesRecord)
    requires idx < groups.Length && DistinctAllocated(groups)
    modifies groups, groups[idx]
    ensures DistinctAllocated(groups) && groups[idx] != null
    ensures old(groups[idx]) == null ==> fresh(groups[idx])
    ensures old(groups[idx]) != null ==> groups[idx] == old(groups[idx])
    ensures forall k :: 0 <= k < groups.Length && k != idx ==> groups[k] == old(groups[k])
    ensures Present(groups[..]) == old(Present(groups[..]))[idx := Add(old(Present(groups[..]))[idx], r)]
  {
    ghost var before := Present(groups[..]);
    if groups[idx] == null {
      groups[idx] := new AggCell();
    }
    var g := groups[idx];
    g.Accumulate(r);
    forall k | 0 <= k < groups.Length ensures Present(groups[..])[k] == before[idx := Add(before[idx], r)][k] {
      if k != idx && groups[k] != null {
        assert groups[k] != g;
      }
    }
  }

  /** The grouping loop of `aggregateSalesStructsTuned`: the two `switch`es
      (a panic on an unknown label), then allocate the group on its first
      record and update it in place. Afterwards a group is allocated exactly
      when some record landed in it, and holds that bucket's counters. */
  method GroupTuned(records: seq<SalesRecord>) returns (res: Result<array<AggCell?>>)
    ensures res.Err? <==> !AllClassified(Exact, records)
    ensures res.Err? ==> FirstFailure(Exact, records) == Some(res.error)
    ensures res.Ok? ==> res.value.Length == 20 && Present(res.value[..]) == Buckets(Exact, records)
    ensures res.Ok? ==> forall k :: 0 <= k < 20 ==> (res.value[k] != null <==> Buckets(Exact, records)[k].totalSales > 0)
  {
    var groups := new AggCell?[20](_ => null);
    assert Present(groups[..]) == Buckets(Exact, records[..0]);
    var i := 0;
    while i < |records|
      invariant 0 <= i <= |records|
      invariant AllClassified(Exact, records[..i])
      invariant groups.Length == 20 && DistinctAllocated(groups)
      invariant forall k :: 0 <= k < 20 && groups[k] != null ==> fresh(groups[k])
      invariant Present(groups[..]) == Buckets(Exact, records[..i])
      invariant forall k :: 0 <= k < 20 ==> (groups[k] != null <==> Buckets(Exact, records[..i])[k].totalSales > 0)
    {
      var r := records[i];
      var regionIdx := RegionIndex(r.region);
      if regionIdx.Err? {
        FirstFailureAt(Exact, records, i);
        return Err(regionIdx.error);
      }
      var productIdx := ProductIndex(r.product);
      if productIdx.Err? {
        FirstFailureAt(Exact, records, i);
        return Err(productIdx.error);
      }
      var idx := regionIdx.value * 5 + productIdx.value;
      FoldStep(Exact, records, i, idx);
      AllocateAndAdd(groups, idx, r);
      assert Buckets(Exact, records[..i + 1])[idx].totalSales > 0;
      i := i + 1;
    }
    assert records[..i] == records;
    return Ok(groups);
  }

  /** The arg-max loop of `aggregateSalesStructsTuned`: skip nil groups,
      take the first allocated one, then move on a strictly larger amount
      sum. `maxIdx` stays -1 when no group is allocated. */
  method ScanAllocated(groups: array<AggCell?>) returns (maxIdx: int)
    requires forall k :: 0 <= k < groups.Length && groups[k] != null ==> groups[k].totalSales > 0
    ensures -1 <= maxIdx < groups.Length
    ensures maxIdx == -1 <==> forall k :: 0 <= k < groups.Length ==> groups[k] == null
    ensures maxIdx != -1 ==> groups[maxIdx] != null && IsFirstMaxPresent(Present(groups[..]), maxIdx)
  {
    maxIdx := -1;
    var maxAmount := 0;
    for i := 0 to groups.Length
      invariant -1 <= maxIdx < i
      invariant maxIdx == -1 <==> forall k :: 0 <= k < i ==> groups[k] == null
      invariant maxIdx != -1 ==> groups[maxIdx] != null && maxAmount == groups[maxIdx].totalAmount
      invariant forall k :: 0 <= k < i && groups[k] != null ==> groups[k].totalAmount <= maxAmount
      invariant forall k :: 0 <= k < maxIdx && groups[k] != null ==> groups[k].totalAmount < maxAmount
    {
      var g := groups[i];
      if g != null {
        if maxIdx == -1 || g.totalAmount > maxAmount {
          maxIdx := i;
          maxAmount := g.totalAmount;
        }
      }
    }
  }

  /** `aggregateSalesStructsTuned`. An unknown label panics (the error of
      the first such record). With no records `maxIdx` stays -1, so
      `productIdx` is -1 % 5 = -1 and `productNames[-1]` is out of range.
      Otherwise the result is the label pair of the first non-empty group
      with the largest amount sum, which encodes back to it, and that group's
      counters. */
  method AggregateSalesStructsTuned(records: seq<SalesRecord>) returns (res: Result<Outcome>)
    ensures res.Err? <==> !AllClassified(Exact, records) || |records| == 0
    ensures !AllClassified(Exact, records) ==> res.Err? && FirstFailure(Exact, records) == Some(res.error)
    ensures AllClassified(Exact, records) && |records| == 0 ==> res == Err(IndexOutOfBounds)
    ensures res.Ok? ==>
              var m := ExactIndex(res.value.region, res.value.product);
              && m.Ok?
              && IsFirstMaxPresent(Buckets(Exact, records), m.value)
              && res.value.agg == Buckets(Exact, records)[m.value]
  {
    var grouped := GroupTuned(records);
    if grouped.Err? {
      return Err(grouped.error);
    }
    var groups := grouped.value;
    ghost var buckets := Buckets(Exact, records);
    assert Present(groups[..]) == buckets;
    var maxIdx := ScanAllocated(groups);
    var regionIdx, productIdx := GoQuo(maxIdx, 5), GoRem(maxIdx, 5);
    GoDecode(maxIdx);
    NoRecordsNoGroups(records);
    if productIdx < 0 {
      assert forall k :: 0 <= k < 20 ==> buckets[k].totalSales == 0;
      return Err(IndexOutOfBounds);
    }
    var region, product := Regions[regionIdx], Products[productIdx];
    ExactIndexIff(region, product, maxIdx);
    assert groups[maxIdx].Value() == buckets[maxIdx];
    return Ok(Outcome(region, product, groups[maxIdx].Value()));
  }

  /** Some bucket is non-empty exactly when there is an accepted record. */
  lemma NoRecordsNoGroups(records: seq<SalesRecord>)
    requires AllClassified(Exact, records)
    ensures |records| == 0 <==> forall k :: 0 <= k < 20 ==> Buckets(Exact, records)[k].totalSales == 0
  {
    if |records| > 0 {
      assert ClassifyBy(Exact, records[0]).Ok?;
      var k := ClassifyBy(Exact, records[0]).value;
      NonEmptyBucketsCoverRecords(Exact, records, k);
    }
  }

  /** `createSampleStructs` for a run of n records: append record i for
      every i below n, then `rand.Shuffle` with a swapping callback, here
      driven by the given draws. */
  method CreateSampleStructs(n: nat, picks: seq<nat>) returns (records: seq<SalesRecord>)
    requires ValidDraws(picks, n)
    ensures records == Sample(n, picks)
  {
    records := [];
    for i := 0 to n
      invariant records == Generated(i)
    {
      records := records + [SalesRecord(Regions[i % |Regions|], Products[i % |Products|], 100 + 10 * i, 1 + i % 10)];
    }
    var slice := new SalesRecord[n](i requires 0 <= i < n => records[i]);
    assert slice[..] == Generated(n);
    ShuffleInPlace(slice, picks);
    records := slice[..];
  }

  /** `validateAggResult` for a run of `totalRecords` records; the
      `AvgQuantity` check is the integer equation total quantity = 10 *
      total sales. It passes only for bucket 19's pair and, for a multiple
      of 20 records, the average check follows from the other two. */
  predicate ValidAggResult(region: string, product: string, agg: AggResult, totalRecords: nat): (ok: bool)
    ensures ok ==> ExactIndex(region, product) == Ok(19)
    ensures totalRecords % 20 == 0 ==>
              (ok <==> region == RegionOf(19) && product == ProductOf(19)
                       && agg.totalSales == totalRecords / 20 && agg.totalQuantity == totalRecords / 2)
  {
    && region == "West" && product == "Keyboard"
    && agg.totalSales == totalRecords / 20
    && agg.totalQuantity == totalRecords / 2
    && agg.totalQuantity == ExpectedAvgQuantity * agg.totalSales
  }

  /** `BenchmarkGoStructAggregation`: the validation passes whatever the
      shuffle drew and whatever order the map is visited in, because the
      West/Keyboard group is the unique maximum. */
  method BenchmarkGoStructAggregation(totalRecords: nat, picks: seq<nat>, order: seq<(string, string)>) returns (passed: bool)
    requires totalRecords > 0 && totalRecords % 20 == 0 && ValidDraws(picks, totalRecords)
    requires VisitsEach(order, LabelPairs())
    ensures passed
  {
    var sampleData := CreateSampleStructs(totalRecords, picks);
    var m := totalRecords / 20;
    RunSize(totalRecords);
    SampleKeys(totalRecords, picks);
    var res := AggregateSalesStructs(sampleData, order);
    if res.Err? {
      passed := false;
      assert false;
    }
    SampleMaxGroup(m, picks, res.value.region, res.value.product);
    passed := ValidAggResult(res.value.region, res.value.product, res.value.agg, totalRecords);
  }

  /** `BenchmarkGoStructAggregationTuned`: the validation passes whatever
      the shuffle drew. */
  method BenchmarkGoStructAggregationTuned(totalRecords: nat, picks: seq<nat>) returns (passed: bool)
    requires totalRecords > 0 && totalRecords % 20 == 0 && ValidDraws(picks, totalRecords)
    ensures passed
  {
    var sampleData := CreateSampleStructs(totalRecords, picks);
    var res := AggregateSalesStructsTuned(sampleData);
    var m := totalRecords / 20;
    RunSize(totalRecords);
    SampleClassified(20 * m, picks);
    if res.Err? {
      passed := false;
      assert false;
    }
    var k := ExactIndex(res.value.region, res.value.product).value;
    SampleFirstMax(m, picks, k);
    ExactIndexIff(res.value.region, res.value.product, 19);
    passed := ValidAggResult(res.value.region, res.value.product, res.value.agg, totalRecords);
  }
}
