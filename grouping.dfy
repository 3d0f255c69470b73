/** The reference semantics every port's aggregation is proved against: a
    group's counters are the count and sums over exactly the records it
    selects, a bucket grid is the 20 groups a classification rule fills, and
    the winner is chosen by one of two arg-max rules. */
module Grouping {
  import opened Common
  import opened Classify

  /** Which label classification an implementation uses. */
  datatype Rule = Exact | Lookup | When

  function ClassifyBy(rule: Rule, r: SalesRecord): Result<nat> {
    match rule
    case Exact => ExactIndex(r.region, r.product)
    case Lookup => LookupIndex(r.region, r.product)
    case When => WhenIndex(r.region, r.product)
  }

  /** Which records a group collects. */
  datatype Selector =
    | All                                    // every record
    | Pair(region: string, product: string)  // the records carrying exactly this label pair
    | Bucket(rule: Rule, k: nat)             // the records a rule sends to bucket k

  predicate Selects(sel: Selector, r: SalesRecord) {
    match sel
    case All => true
    case Pair(region, product) => r.region == region && r.product == product
    case Bucket(rule, k) => ClassifyBy(rule, r) == Ok(k)
  }

  /** One record folded into a group: the three `+=` updates. */
  function Add(a: AggResult, r: SalesRecord): AggResult {
    AggResult(a.totalSales + 1, a.totalAmount + r.amount, a.totalQuantity + r.quantity)
  }

  function Combine(a: AggResult, b: AggResult): AggResult {
    AggResult(a.totalSales + b.totalSales, a.totalAmount + b.totalAmount, a.totalQuantity + b.totalQuantity)
  }

  /** The group a selector defines: the records it selects, counted and summed. */
  function Tally(recs: seq<SalesRecord>, sel: Selector): AggResult
    decreases |recs|
  {
    if |recs| == 0 then Zero
    else
      var t := Tally(recs[..|recs| - 1], sel);
      if Selects(sel, recs[|recs| - 1]) then Add(t, recs[|recs| - 1]) else t
  }

  /** The 20-bucket grid a rule fills from `recs`. */
  function Buckets(rule: Rule, recs: seq<SalesRecord>): (gs: seq<AggResult>)
    ensures |gs| == 20
  {
    seq(20, k requires 0 <= k < 20 => Tally(recs, Bucket(rule, k)))
  }

  /** Field-wise sum of a sequence of groups. */
  function Total(gs: seq<AggResult>): AggResult
  {
    if |gs| == 0 then Zero else Combine(Total(gs[..|gs| - 1]), gs[|gs| - 1])
  }

  predicate AllClassified(rule: Rule, recs: seq<SalesRecord>) {
    forall i :: 0 <= i < |recs| ==> ClassifyBy(rule, recs[i]).Ok?
  }

  /** The failure a fold stops at: that of the first record the rule rejects. */
  function FirstFailure(rule: Rule, recs: seq<SalesRecord>): (f: Option<Failure>)
    ensures f.None? <==> AllClassified(rule, recs)
    decreases |recs|
  {
    if |recs| == 0 then None
    else match ClassifyBy(rule, recs[0])
      case Err(e) => Some(e)
      case Ok(_) => FirstFailure(rule, recs[1..])
  }

  /** The label pairs that occur in `recs`. */
  function KeysOf(recs: seq<SalesRecord>): set<(string, string)> {
    set i | 0 <= i < |recs| :: (recs[i].region, recs[i].product)
  }

  /** `m` is the lowest index with the largest amount sum. */
  predicate IsFirstMax(gs: seq<AggResult>, m: int) {
    && 0 <= m < |gs|
    && (forall j :: 0 <= j < |gs| ==> gs[j].totalAmount <= gs[m].totalAmount)
    && (forall j :: 0 <= j < m ==> gs[j].totalAmount < gs[m].totalAmount)
  }

  /** `m` is the lowest index with the largest amount sum among the non-empty
      groups only. */
  predicate IsFirstMaxPresent(gs: seq<AggResult>, m: int) {
    && 0 <= m < |gs| && gs[m].totalSales > 0
    && (forall j :: 0 <= j < |gs| && gs[j].totalSales > 0 ==> gs[j].totalAmount <= gs[m].totalAmount)
    && (forall j :: 0 <= j < m && gs[j].totalSales > 0 ==> gs[j].totalAmount < gs[m].totalAmount)
  }

  /** (region, product) occurs and no occurring pair has a larger amount sum. */
  predicate IsMaxGroup(recs: seq<SalesRecord>, region: string, product: string) {
    && (region, product) in KeysOf(recs)
    && forall key :: key in KeysOf(recs) ==>
         Tally(recs, Pair(key.0, key.1)).totalAmount <= Tally(recs, Pair(region, product)).totalAmount
  }

  /** What every port returns: the winning label pair and its counters. */
  datatype Outcome = Outcome(region: string, product: string, agg: AggResult)

  /** A group whose fields the source updates in place: Kotlin's `AggResult`
      data class with `var` fields and Go's `*AggResult`. */
  class AggCell {
    var totalSales: int
    var totalAmount: int
    var totalQuantity: int

    constructor ()
      ensures Value() == Zero
    {
      totalSales, totalAmount, totalQuantity := 0, 0, 0;
    }

    function Value(): AggResult
      reads this
    {
      AggResult(totalSales, totalAmount, totalQuantity)
    }

    /** The three in-place increments of a fold step. */
    method Accumulate(r: SalesRecord)
      modifies this
      ensures Value() == Add(old(Value()), r)
    {
      totalSales := totalSales + 1;
      totalAmount := totalAmount + r.amount;
      totalQuantity := totalQuantity + r.quantity;
    }
  }

  function Values(cells: seq<AggCell>): (vs: seq<AggResult>)
    reads cells
    ensures |vs| == |cells| && forall i :: 0 <= i < |cells| ==> vs[i] == cells[i].Value()
  {
    seq(|cells|, i requires 0 <= i < |cells| reads cells => cells[i].Value())
  }

  // ---------------------------------------------------------------------------
  // Lemmas about the reference semantics

  /** Folding one more record of a prefix: the loop step of every port. */
  lemma TallyPrefixStep(recs: seq<SalesRecord>, i: nat, sel: Selector)
    requires i < |recs|
    ensures Tally(recs[..i + 1], sel)
         == if Selects(sel, recs[i]) then Add(Tally(recs[..i], sel), recs[i]) else Tally(recs[..i], sel)
  {
    assert recs[..i + 1][..i] == recs[..i];
  }

  /** The last record of a non-empty sequence is folded last. */
  lemma TallyLast(recs: seq<SalesRecord>, sel: Selector)
    requires |recs| > 0
    ensures Tally(recs, sel)
         == if Selects(sel, recs[|recs| - 1]) then Add(Tally(recs[..|recs| - 1], sel), recs[|recs| - 1])
            else Tally(recs[..|recs| - 1], sel)
  {
  }

  /** A group over a concatenation is the combination of the two groups. */
  lemma {:induction false} TallyAppend(a: seq<SalesRecord>, b: seq<SalesRecord>, sel: Selector)
    ensures Tally(a + b, sel) == Combine(Tally(a, sel), Tally(b, sel))
    decreases |b|
  {
    if |b| == 0 {
      assert a + b == a;
    } else {
      var ab, b', x := a + b, b[..|b| - 1], b[|b| - 1];
      assert ab[..|ab| - 1] == a + b';
      assert ab[|ab| - 1] == x;
      TallyAppend(a, b', sel);
      TallyLast(ab, sel);
      TallyLast(b, sel);
    }
  }

  /** Taking one record out of a sequence takes it out of every group. */
  lemma TallyRemove(t: seq<SalesRecord>, j: nat, sel: Selector)
    requires j < |t|
    ensures Tally(t, sel) == Combine(Tally(t[..j] + t[j + 1..], sel), Tally([t[j]], sel))
  {
    var front, back := t[..j], t[j + 1..];
    assert t == front + ([t[j]] + back);
    TallyAppend(front, [t[j]] + back, sel);
    TallyAppend([t[j]], back, sel);
    TallyAppend(front, back, sel);
  }

  lemma MultisetRemove(s: seq<SalesRecord>, x: SalesRecord, t: seq<SalesRecord>, j: nat)
    requires j < |t| && t[j] == x && multiset(s + [x]) == multiset(t)
    ensures multiset(s) == multiset(t[..j] + t[j + 1..])
  {
    var front, back := t[..j], t[j + 1..];
    assert t == front + [x] + back;
    assert multiset(t) == multiset(front) + multiset{x} + multiset(back);
    assert multiset(s + [x]) == multiset(s) + multiset{x};
    assert multiset(front + back) == multiset(front) + multiset(back);
    assert multiset(s) == multiset(s + [x]) - multiset{x};
    assert multiset(t) - multiset{x} == multiset(front) + multiset(back);
  }

  /** Groups depend only on the multiset of records: shuffling the input
      changes no counter. */
  lemma {:induction false} TallyPermutation(s: seq<SalesRecord>, t: seq<SalesRecord>, sel: Selector)
    requires multiset(s) == multiset(t)
    ensures Tally(s, sel) == Tally(t, sel)
    decreases |s|
  {
    if |s| == 0 {
      assert |t| == |multiset(t)| == 0;
    } else {
      var x, s' := s[|s| - 1], s[..|s| - 1];
      assert s == s' + [x];
      assert x in multiset(t);
      var j :| 0 <= j < |t| && t[j] == x;
      MultisetRemove(s', x, t, j);
      TallyPermutation(s', t[..j] + t[j + 1..], sel);
      TallyRemove(t, j, sel);
      TallyAppend(s', [x], sel);
    }
  }

  /** A group never counts more records than there are, and the group of
      all records counts every record. */
  lemma {:induction false} TallyCountBounds(recs: seq<SalesRecord>, sel: Selector)
    ensures 0 <= Tally(recs, sel).totalSales <= |recs|
    ensures sel.All? ==> Tally(recs, sel).totalSales == |recs|
    decreases |recs|
  {
    if |recs| > 0 {
      TallyCountBounds(recs[..|recs| - 1], sel);
    }
  }

  /** Two selectors that agree on every record define the same group. */
  lemma {:induction false} TallyExt(recs: seq<SalesRecord>, s1: Selector, s2: Selector)
    requires forall i :: 0 <= i < |recs| ==> Selects(s1, recs[i]) == Selects(s2, recs[i])
    ensures Tally(recs, s1) == Tally(recs, s2)
    decreases |recs|
  {
    if |recs| > 0 {
      TallyExt(recs[..|recs| - 1], s1, s2);
    }
  }

  /** A group is empty exactly when it selects no record, and an empty group
      is all zeros. */
  lemma {:induction false} EmptyIffAbsent(recs: seq<SalesRecord>, sel: Selector)
    ensures Tally(recs, sel).totalSales == 0 <==> forall i :: 0 <= i < |recs| ==> !Selects(sel, recs[i])
    ensures Tally(recs, sel).totalSales == 0 ==> Tally(recs, sel) == Zero
    decreases |recs|
  {
    if |recs| > 0 {
      var p := recs[..|recs| - 1];
      EmptyIffAbsent(p, sel);
      TallyCountBounds(p, sel);
      assert forall i :: 0 <= i < |p| ==> p[i] == recs[i];
    }
  }

  /** With positive amounts, a group has a positive amount sum exactly when
      it is non-empty. */
  lemma {:induction false} PositiveAmounts(recs: seq<SalesRecord>, sel: Selector)
    requires forall i :: 0 <= i < |recs| ==> recs[i].amount > 0
    ensures Tally(recs, sel).totalAmount >= 0
    ensures Tally(recs, sel).totalAmount > 0 <==> Tally(recs, sel).totalSales > 0
    decreases |recs|
  {
    if |recs| > 0 {
      PositiveAmounts(recs[..|recs| - 1], sel);
      TallyCountBounds(recs[..|recs| - 1], sel);
    }
  }

  /** An exact-match bucket holds exactly the records carrying its label pair. */
  lemma ExactBucketIsPair(recs: seq<SalesRecord>, k: nat)
    requires k < 20
    ensures Tally(recs, Bucket(Exact, k)) == Tally(recs, Pair(RegionOf(k), ProductOf(k)))
  {
    forall i | 0 <= i < |recs|
      ensures Selects(Bucket(Exact, k), recs[i]) == Selects(Pair(RegionOf(k), ProductOf(k)), recs[i])
    {
      ExactIndexIff(recs[i].region, recs[i].product, k);
    }
    TallyExt(recs, Bucket(Exact, k), Pair(RegionOf(k), ProductOf(k)));
  }

  /** On records with valid labels the Kotlin lookup tables fill the same
      grid as exact matching. */
  lemma LookupBucketsMatchExact(recs: seq<SalesRecord>)
    requires AllClassified(Exact, recs)
    ensures Buckets(Lookup, recs) == Buckets(Exact, recs)
  {
    forall k | 0 <= k < 20
      ensures Tally(recs, Bucket(Lookup, k)) == Tally(recs, Bucket(Exact, k))
    {
      forall i | 0 <= i < |recs|
        ensures Selects(Bucket(Lookup, k), recs[i]) == Selects(Bucket(Exact, k), recs[i])
      {
        assert ClassifyBy(Exact, recs[i]).Ok?;
        RulesAgreeOnValidLabels(recs[i].region, recs[i].product);
      }
      TallyExt(recs, Bucket(Lookup, k), Bucket(Exact, k));
    }
  }

  /** On records the `when` version accepts, it fills the same grid as the
      lookup-table version. */
  lemma WhenBucketsMatchLookup(recs: seq<SalesRecord>)
    requires AllClassified(When, recs)
    ensures Buckets(When, recs) == Buckets(Lookup, recs)
  {
    forall k | 0 <= k < 20
      ensures Tally(recs, Bucket(When, k)) == Tally(recs, Bucket(Lookup, k))
    {
      forall i | 0 <= i < |recs|
        ensures Selects(Bucket(When, k), recs[i]) == Selects(Bucket(Lookup, k), recs[i])
      {
        assert ClassifyBy(When, recs[i]).Ok?;
        WhenAcceptedMatchesLookup(recs[i].region, recs[i].product);
      }
      TallyExt(recs, Bucket(When, k), Bucket(Lookup, k));
    }
  }

  /** Valid labels are accepted by the lookup-table version. */
  lemma ValidLabelsPassLookup(recs: seq<SalesRecord>)
    requires AllClassified(Exact, recs)
    ensures AllClassified(Lookup, recs)
  {
    forall i | 0 <= i < |recs| ensures ClassifyBy(Lookup, recs[i]).Ok? {
      assert ClassifyBy(Exact, recs[i]).Ok?;
      RulesAgreeOnValidLabels(recs[i].region, recs[i].product);
    }
  }

  /** Valid labels are accepted by the `when` version. */
  lemma ValidLabelsPassWhen(recs: seq<SalesRecord>)
    requires AllClassified(Exact, recs)
    ensures AllClassified(When, recs)
  {
    forall i | 0 <= i < |recs| ensures ClassifyBy(When, recs[i]).Ok? {
      assert ClassifyBy(Exact, recs[i]).Ok?;
      RulesAgreeOnValidLabels(recs[i].region, recs[i].product);
    }
  }

  /** The fold stops at the first rejected record. */
  lemma {:induction false} FirstFailureAt(rule: Rule, recs: seq<SalesRecord>, i: nat)
    requires i < |recs| && AllClassified(rule, recs[..i]) && ClassifyBy(rule, recs[i]).Err?
    ensures FirstFailure(rule, recs) == Some(ClassifyBy(rule, recs[i]).error)
    decreases i
  {
    if i > 0 {
      assert ClassifyBy(rule, recs[..i][0]).Ok?;
      assert recs[1..][..i - 1] == recs[..i][1..];
      FirstFailureAt(rule, recs[1..], i - 1);
    }
  }

  /** Adding a record to one group adds it to the total. */
  lemma {:induction false} TotalUpdate(gs: seq<AggResult>, k: nat, r: SalesRecord)
    requires k < |gs|
    ensures Total(gs[k := Add(gs[k], r)]) == Add(Total(gs), r)
    decreases |gs|
  {
    var n := |gs| - 1;
    if k == n {
      assert gs[k := Add(gs[k], r)][..n] == gs[..n];
    } else {
      assert gs[k := Add(gs[k], r)][..n] == gs[..n][k := Add(gs[..n][k], r)];
      TotalUpdate(gs[..n], k, r);
    }
  }

  /** A sequence of empty groups totals zero. */
  lemma {:induction false} TotalOfZeros(gs: seq<AggResult>)
    requires forall k :: 0 <= k < |gs| ==> gs[k] == Zero
    ensures Total(gs) == Zero
    decreases |gs|
  {
    if |gs| > 0 {
      TotalOfZeros(gs[..|gs| - 1]);
    }
  }

  /** Folding an accepted record updates exactly its own bucket. */
  lemma BucketsStep(rule: Rule, recs: seq<SalesRecord>, k: nat)
    requires |recs| > 0 && ClassifyBy(rule, recs[|recs| - 1]) == Ok(k)
    ensures k < 20
    ensures var before := Buckets(rule, recs[..|recs| - 1]);
            Buckets(rule, recs) == before[k := Add(before[k], recs[|recs| - 1])]
  {
    var n := |recs| - 1;
    var before := Buckets(rule, recs[..n]);
    assert k < 20 by {
      match rule
      case Exact => assert ExactIndex(recs[n].region, recs[n].product).value < 20;
      case Lookup =>
      case When =>
    }
    forall j | 0 <= j < 20 ensures Buckets(rule, recs)[j] == before[k := Add(before[k], recs[n])][j] {
      TallyLast(recs, Bucket(rule, j));
    }
  }

  /** The label pairs of a prefix grow by the pair of the next record. */
  lemma KeysOfStep(recs: seq<SalesRecord>, i: nat)
    requires i < |recs|
    ensures KeysOf(recs[..i + 1]) == KeysOf(recs[..i]) + {(recs[i].region, recs[i].product)}
  {
    assert recs[..i + 1] == recs[..i] + [recs[i]];
    assert forall j :: 0 <= j < i ==> recs[..i + 1][j] == recs[..i][j];
  }

  /** Some label pair occurs exactly when there is a record. */
  lemma KeysOfEmpty(recs: seq<SalesRecord>)
    ensures KeysOf(recs) == {} <==> |recs| == 0
  {
    if |recs| > 0 {
      assert (recs[0].region, recs[0].product) in KeysOf(recs);
    }
  }

  /** A pair that does not occur has an empty group. */
  lemma AbsentPairIsZero(recs: seq<SalesRecord>, key: (string, string))
    requires key !in KeysOf(recs)
    ensures Tally(recs, Pair(key.0, key.1)) == Zero
  {
    forall j | 0 <= j < |recs| ensures !Selects(Pair(key.0, key.1), recs[j]) {
      assert (recs[j].region, recs[j].product) in KeysOf(recs);
    }
    EmptyIffAbsent(recs, Pair(key.0, key.1));
  }

  /** One iteration of a port's fold loop: an accepted record i extends the
      accepted prefix and updates exactly its bucket of the grid. */
  lemma FoldStep(rule: Rule, recs: seq<SalesRecord>, i: nat, k: nat)
    requires i < |recs| && AllClassified(rule, recs[..i]) && ClassifyBy(rule, recs[i]) == Ok(k)
    ensures k < 20 && AllClassified(rule, recs[..i + 1])
    ensures Buckets(rule, recs[..i + 1]) == Buckets(rule, recs[..i])[k := Add(Buckets(rule, recs[..i])[k], recs[i])]
  {
    assert recs[..i + 1][..i] == recs[..i];
    BucketsStep(rule, recs[..i + 1], k);
  }

  /** Conservation: when every record is accepted, the 20 buckets together
      count every record once and carry the full amount and quantity sums. */
  lemma {:induction false} Conservation(rule: Rule, recs: seq<SalesRecord>)
    requires AllClassified(rule, recs)
    ensures Total(Buckets(rule, recs)) == Tally(recs, All)
    ensures Total(Buckets(rule, recs)).totalSales == |recs|
    decreases |recs|
  {
    if |recs| == 0 {
      TotalOfZeros(Buckets(rule, recs));
    } else {
      var n := |recs| - 1;
      var p, r := recs[..n], recs[n];
      assert AllClassified(rule, p) by {
        forall i | 0 <= i < |p| ensures ClassifyBy(rule, p[i]).Ok? { assert p[i] == recs[i]; }
      }
      Conservation(rule, p);
      assert ClassifyBy(rule, r).Ok?;
      var k := ClassifyBy(rule, r).value;
      BucketsStep(rule, recs, k);
      TotalUpdate(Buckets(rule, p), k, r);
      TallyLast(recs, All);
    }
    TallyCountBounds(recs, All);
  }

  /** The non-empty buckets alone also count every record once: empty buckets
      contribute nothing to the total. */
  lemma NonEmptyBucketsCoverRecords(rule: Rule, recs: seq<SalesRecord>, k: nat)
    requires AllClassified(rule, recs) && k < 20
    ensures Buckets(rule, recs)[k].totalSales == 0 ==> Buckets(rule, recs)[k] == Zero
    ensures Buckets(rule, recs)[k].totalSales > 0 <==> exists i :: 0 <= i < |recs| && ClassifyBy(rule, recs[i]) == Ok(k)
    ensures Total(Buckets(rule, recs)).totalSales == |recs|
  {
    assert Buckets(rule, recs)[k] == Tally(recs, Bucket(rule, k));
    TallyCountBounds(recs, Bucket(rule, k));
    EmptyIffAbsent(recs, Bucket(rule, k));
    Conservation(rule, recs);
  }

  /** There is only one lowest maximal index. */
  lemma FirstMaxUnique(gs: seq<AggResult>, m1: int, m2: int)
    requires IsFirstMax(gs, m1) && IsFirstMax(gs, m2)
    ensures m1 == m2
  {
    assert gs[m1].totalAmount == gs[m2].totalAmount;
  }

  /** With no records every bucket is empty, so a scan of all buckets stops
      at bucket 0: North/Laptop with zero counters. */
  lemma NoRecordsFirstBucket(rule: Rule, k: int)
    requires IsFirstMax(Buckets(rule, []), k)
    ensures k == 0 && RegionOf(k) == "North" && ProductOf(k) == "Laptop"
    ensures Buckets(rule, [])[k] == Zero
  {
    var gs := Buckets(rule, []);
    assert gs[0] == Tally([], Bucket(rule, 0)) == Zero;
    assert gs[k] == Tally([], Bucket(rule, k)) == Zero;
  }

  /** With positive amounts, scanning every bucket (Rust, Kotlin) and scanning
      only non-empty buckets (Go, tuned) pick the same winner. */
  lemma ArgMaxRulesAgreeOnPositiveAmounts(rule: Rule, recs: seq<SalesRecord>, m1: int, m2: int)
    requires forall i :: 0 <= i < |recs| ==> recs[i].amount > 0
    requires IsFirstMax(Buckets(rule, recs), m1)
    requires IsFirstMaxPresent(Buckets(rule, recs), m2)
    ensures m1 == m2
  {
    var gs := Buckets(rule, recs);
    forall j | 0 <= j < 20 ensures gs[j].totalAmount > 0 <==> gs[j].totalSales > 0 {
      PositiveAmounts(recs, Bucket(rule, j));
    }
    assert gs[m1].totalAmount >= gs[m2].totalAmount > 0;
    assert gs[m1].totalSales > 0;
    assert gs[m1].totalAmount == gs[m2].totalAmount;
  }

  /** Go's map version and its tuned array version agree when the largest
      amount sum among the occurring pairs is attained only once. */
  lemma MapAndTunedAgreeOnUniqueMax(recs: seq<SalesRecord>, region: string, product: string, m: nat)
    requires AllClassified(Exact, recs)
    requires IsMaxGroup(recs, region, product)
    requires IsFirstMaxPresent(Buckets(Exact, recs), m)
    requires forall j :: 0 <= j < 20 && j != m && Buckets(Exact, recs)[j].totalSales > 0 ==>
               Buckets(Exact, recs)[j].totalAmount < Buckets(Exact, recs)[m].totalAmount
    ensures region == RegionOf(m) && product == ProductOf(m)
    ensures Tally(recs, Pair(region, product)) == Buckets(Exact, recs)[m]
  {
    var gs := Buckets(Exact, recs);
    var i :| 0 <= i < |recs| && (recs[i].region, recs[i].product) == (region, product);
    assert ClassifyBy(Exact, recs[i]).Ok?;
    var k := ExactIndex(region, product).value;
    assert gs[k].totalSales > 0 by {
      assert Selects(Bucket(Exact, k), recs[i]);
      TallyCountBounds(recs, Bucket(Exact, k));
      EmptyIffAbsent(recs, Bucket(Exact, k));
    }
    assert gs[m].totalAmount <= gs[k].totalAmount by {
      EmptyIffAbsent(recs, Bucket(Exact, m));
      var i' :| 0 <= i' < |recs| && Selects(Bucket(Exact, m), recs[i']);
      ExactIndexIff(recs[i'].region, recs[i'].product, m);
      assert (RegionOf(m), ProductOf(m)) in KeysOf(recs);
      ExactBucketIsPair(recs, k);
      ExactBucketIsPair(recs, m);
    }
    ExactIndexIff(region, product, k);
    ExactBucketIsPair(recs, m);
  }
}
