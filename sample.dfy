/** The synthetic data every benchmark aggregates, and what aggregating it
    must give. Record i carries region i % 4, product i % 5, amount
    100 + 10 i and quantity 1 + i % 10; the list is then shuffled.

    Since (i % 4, i % 5) determines i % 20, every block of 20 consecutive
    records puts exactly one record in each bucket: bucket k receives the
    record whose residue is ResidueOf(k). So when 20 divides N, each bucket
    holds N/20 records, and the bucket of residue 19, West/Keyboard, has the
    strictly largest amount sum. */
module SampleData {
  import opened Common
  import opened Classify
  import opened Grouping
  import opened Shuffle

  /** Record i before shuffling. */
  function Gen(i: nat): (r: SalesRecord)
  {
    SalesRecord(Regions[i % 4], Products[i % 5], 100 + 10 * i, 1 + i % 10)
  }

  /** The list the generator loop pushes, before shuffling. */
  function Generated(n: nat): seq<SalesRecord>
  {
    seq(n, i requires 0 <= i < n => Gen(i))
  }

  /** The generated records in any shuffled order. */
  function Sample(n: nat, picks: seq<nat>): seq<SalesRecord>
    requires ValidDraws(picks, n)
  {
    Shuffled(Generated(n), picks)
  }

  /** The bucket the residue j (mod 20) falls in. */
  function Cell(j: nat): (k: nat)
    ensures k < 20
  {
    (j % 4) * 5 + j % 5
  }

  /** The residue (mod 20) that falls in bucket k: the Chinese-remainder
      inverse of Cell, (5 (k / 5) + 16 (k % 5)) % 20, tabulated. */
  const Residues: seq<nat> := [0, 16, 12, 8, 4, 5, 1, 17, 13, 9, 10, 6, 2, 18, 14, 15, 11, 7, 3, 19]

  function ResidueOf(k: nat): (j: nat)
    requires k < 20
    ensures j < 20
  {
    Residues[k]
  }

  /** Each bucket's residue falls in that bucket. */
  lemma CellOfResidue(k: nat)
    requires k < 20
    ensures Cell(ResidueOf(k)) == k
  {
    if k < 5 {
      assert k == 0 || k == 1 || k == 2 || k == 3 || k == 4;
    } else if k < 10 {
      assert k == 5 || k == 6 || k == 7 || k == 8 || k == 9;
    } else if k < 15 {
      assert k == 10 || k == 11 || k == 12 || k == 13 || k == 14;
    } else {
      assert k == 15 || k == 16 || k == 17 || k == 18 || k == 19;
    }
  }

  /** Each residue is the residue of its bucket. */
  lemma ResidueOfCell(j: nat)
    requires j < 20
    ensures ResidueOf(Cell(j)) == j
  {
    if j < 10 {
      ResidueOfCellLow(j);
    } else {
      ResidueOfCellHigh(j);
    }
  }

  lemma ResidueOfCellLow(j: nat)
    requires j < 10
    ensures ResidueOf(Cell(j)) == j
  {
    if j < 5 {
      assert j == 0 || j == 1 || j == 2 || j == 3 || j == 4;
    } else {
      assert j == 5 || j == 6 || j == 7 || j == 8 || j == 9;
    }
  }

  lemma ResidueOfCellHigh(j: nat)
    requires 10 <= j < 20
    ensures ResidueOf(Cell(j)) == j
  {
    if j < 15 {
      assert j == 10 || j == 11 || j == 12 || j == 13 || j == 14;
    } else {
      assert j == 15 || j == 16 || j == 17 || j == 18 || j == 19;
    }
  }

  /** Cell is a bijection on 0..19 and ResidueOf is its inverse. */
  lemma CellBijection(k: nat, j: nat)
    requires k < 20 && j < 20
    ensures Cell(ResidueOf(k)) == k
    ensures Cell(j) == k <==> j == ResidueOf(k)
  {
    CellOfResidue(k);
    ResidueOfCell(j);
  }

  // Remainders by a constant, from a quotient and remainder given outright.

  lemma ModOf4(x: int, q: int, r: int)
    requires x == 4 * q + r && 0 <= r < 4
    ensures x % 4 == r
  {
  }

  lemma ModOf5(x: int, q: int, r: int)
    requires x == 5 * q + r && 0 <= r < 5
    ensures x % 5 == r
  {
  }

  lemma ModOf10(x: int, q: int, r: int)
    requires x == 10 * q + r && 0 <= r < 10
    ensures x % 10 == r
  {
  }

  lemma ModOf20(x: int, q: int, r: int)
    requires x == 20 * q + r && 0 <= r < 20
    ensures x % 20 == r
  {
  }

  /** The residues mod 4, 5 and 10 are those of the residue mod 20. */
  lemma ModTwenty(i: nat)
    ensures i % 4 == (i % 20) % 4 && i % 5 == (i % 20) % 5 && i % 10 == (i % 20) % 10
  {
    var q, r := i / 20, i % 20;
    ModOf4(r, r / 4, r % 4);
    ModOf4(i, 5 * q + r / 4, r % 4);
    ModOf5(r, r / 5, r % 5);
    ModOf5(i, 4 * q + r / 5, r % 5);
    ModOf10(r, r / 10, r % 10);
    ModOf10(i, 2 * q + r / 10, r % 10);
  }

  /** Record i is classified into bucket Cell(i % 20). */
  lemma GenBucket(i: nat)
    ensures ClassifyBy(Exact, Gen(i)) == Ok(Cell(i % 20))
  {
    ExactIndexOf(i % 4, i % 5);
    ModTwenty(i);
  }

  /** The 20 records of block b. */
  function Block(b: nat): seq<SalesRecord>
  {
    seq(20, j requires 0 <= j < 20 => Gen(20 * b + j))
  }

  /** The data generated for p + 1 blocks is that for p blocks followed by block p. */
  lemma GeneratedSplit(p: nat)
    ensures Generated(20 * (p + 1)) == Generated(20 * p) + Block(p)
  {
  }

  /** A group that selects exactly one record holds just that record. */
  lemma TallyOne(s: seq<SalesRecord>, sel: Selector, r: nat)
    requires r < |s| && Selects(sel, s[r])
    requires forall j :: 0 <= j < |s| && j != r ==> !Selects(sel, s[j])
    ensures Tally(s, sel) == Add(Zero, s[r])
  {
    var front, back := s[..r], s[r + 1..];
    assert s == front + [s[r]] + back;
    forall i | 0 <= i < |front| ensures !Selects(sel, front[i]) {
      assert front[i] == s[i];
    }
    forall i | 0 <= i < |back| ensures !Selects(sel, back[i]) {
      assert back[i] == s[r + 1 + i];
    }
    EmptyIffAbsent(front, sel);
    EmptyIffAbsent(back, sel);
    TallyAppend(front, [s[r]], sel);
    TallyAppend(front + [s[r]], back, sel);
    TallyLast([s[r]], sel);
    assert [s[r]][..0] == [];
  }

  /** Record j of block b falls into bucket k exactly when j is the residue
      of k. */
  lemma BlockSelects(b: nat, k: nat, j: nat)
    requires k < 20 && j < 20
    ensures Selects(Bucket(Exact, k), Block(b)[j]) <==> j == ResidueOf(k)
  {
    var i := 20 * b + j;
    assert Block(b)[j] == Gen(i);
    ModOf20(i, b, j);
    assert i % 20 == j;
    GenBucket(i);
    CellBijection(k, j);
  }

  /** No record of block b other than that of residue ResidueOf(k) falls into
      bucket k. */
  lemma BlockOthersAbsent(b: nat, k: nat)
    requires k < 20
    ensures forall j :: 0 <= j < |Block(b)| && j != ResidueOf(k) ==> !Selects(Bucket(Exact, k), Block(b)[j])
  {
    forall j | 0 <= j < |Block(b)| && j != ResidueOf(k) {
      BlockSelects(b, k, j);
    }
  }

  /** Bucket k of a block holds just the block's record of residue
      ResidueOf(k). */
  lemma BlockTally(b: nat, k: nat)
    requires k < 20
    ensures Tally(Block(b), Bucket(Exact, k)) == Add(Zero, Block(b)[ResidueOf(k)])
  {
    var r := ResidueOf(k);
    BlockSelects(b, k, r);
    BlockOthersAbsent(b, k);
    TallyOne(Block(b), Bucket(Exact, k), r);
  }

  /** Record j of block b is record 20 b + j of the formula. */
  lemma BlockEntry(b: nat, j: nat)
    requires j < 20
    ensures Block(b)[j] == Gen(20 * b + j)
  {
  }

  /** Each block puts exactly one record, that of residue ResidueOf(k), in bucket k. */
  lemma BlockBucket(b: nat, k: nat)
    requires k < 20
    ensures Tally(Block(b), Bucket(Exact, k)) == Add(Zero, Gen(20 * b + ResidueOf(k)))
  {
    BlockTally(b, k);
    BlockEntry(b, ResidueOf(k));
  }

  /** Bucket k after m full blocks: one record per block, the one of
      residue ResidueOf(k). */
  function ExpectedBucket(m: nat, k: nat): AggResult
    requires k < 20
  {
    if m == 0 then Zero else Add(ExpectedBucket(m - 1, k), Gen(20 * (m - 1) + ResidueOf(k)))
  }

  /** The amount sum of m blocks for residue r, in closed form. */
  function ClosedAmount(m: nat, r: nat): int {
    m * (100 + 10 * r) + 100 * m * (m - 1)
  }

  /** A bucket of m blocks for residue r, in closed form: m records, amount
      ClosedAmount(m, r) and quantity m (1 + r % 10). */
  function ClosedBucket(m: nat, r: nat): AggResult {
    AggResult(m, ClosedAmount(m, r), m * (1 + r % 10))
  }

  lemma ExpectedBucketUnfold(p: nat, k: nat)
    requires k < 20
    ensures ExpectedBucket(p + 1, k) == Add(ExpectedBucket(p, k), Gen(20 * p + ResidueOf(k)))
  {
  }

  /** Adding block p's record of residue r moves the closed form from p to p + 1 blocks. */
  lemma ClosedBucketStep(p: nat, r: nat)
    requires r < 20
    ensures Add(ClosedBucket(p, r), Gen(20 * p + r)) == ClosedBucket(p + 1, r)
  {
    ModOf10(20 * p + r, 2 * p + r / 10, r % 10);
    var m := p + 1;
    assert m * (100 + 10 * r) == p * (100 + 10 * r) + (100 + 10 * r);
    assert 100 * m * p == 100 * p * p + 100 * p;
    assert 100 * p * (p - 1) == 100 * p * p - 100 * p;
    assert m * (1 + r % 10) == p * (1 + r % 10) + (1 + r % 10);
  }

  /** The record-by-record bucket equals its closed form. */
  lemma {:induction false} ExpectedBucketClosedForm(m: nat, k: nat)
    requires k < 20
    ensures ExpectedBucket(m, k) == ClosedBucket(m, ResidueOf(k))
    decreases m
  {
    if m > 0 {
      ExpectedBucketClosedForm(m - 1, k);
      ExpectedBucketUnfold(m - 1, k);
      ClosedBucketStep(m - 1, ResidueOf(k));
    }
  }

  lemma {:induction false} MulAtLeast(m: nat, d: nat)
    requires d >= 1
    ensures m * d >= m
    decreases d
  {
    if d > 1 {
      MulAtLeast(m, d - 1);
      assert m * d == m * (d - 1) + m;
    }
  }

  /** With at least one block, the amount sum grows strictly with the residue. */
  lemma AmountGrows(m: nat, r1: nat, r2: nat)
    requires m > 0 && r1 < r2
    ensures ClosedAmount(m, r1) < ClosedAmount(m, r2)
  {
    assert m * (100 + 10 * r1) == 100 * m + 10 * (m * r1);
    assert m * (100 + 10 * r2) == 100 * m + 10 * (m * r2);
    assert m * r2 == m * r1 + m * (r2 - r1);
    MulAtLeast(m, r2 - r1);
  }

  /** Counting p + 1 blocks is counting p blocks and then block p. */
  lemma TallyGeneratedStep(p: nat, sel: Selector)
    ensures Tally(Generated(20 * (p + 1)), sel) == Combine(Tally(Generated(20 * p), sel), Tally(Block(p), sel))
  {
    GeneratedSplit(p);
    TallyAppend(Generated(20 * p), Block(p), sel);
  }

  lemma GeneratedBucketsStep(p: nat, k: nat)
    requires k < 20
    requires Tally(Generated(20 * p), Bucket(Exact, k)) == ExpectedBucket(p, k)
    ensures Tally(Generated(20 * (p + 1)), Bucket(Exact, k)) == ExpectedBucket(p + 1, k)
  {
    BlockBucket(p, k);
    TallyGeneratedStep(p, Bucket(Exact, k));
    ExpectedBucketUnfold(p, k);
  }

  lemma GeneratedBucketsNone(k: nat)
    requires k < 20
    ensures Tally(Generated(20 * 0), Bucket(Exact, k)) == ExpectedBucket(0, k)
  {
  }

  /** Over the unshuffled data, every bucket is one record per block. */
  lemma {:induction false} GeneratedBuckets(m: nat, k: nat)
    requires k < 20
    ensures Tally(Generated(20 * m), Bucket(Exact, k)) == ExpectedBucket(m, k)
    decreases m
  {
    if m == 0 {
      GeneratedBucketsNone(k);
    } else {
      GeneratedBuckets(m - 1, k);
      GeneratedBucketsStep(m - 1, k);
    }
  }

  /** A run of a positive multiple of 20 records has m = n / 20 >= 1 records
      per residue. */
  lemma RunSize(n: nat)
    requires n > 0 && n % 20 == 0
    ensures n >= 20 && 20 * (n / 20) == n
  {
  }

  /** Every generated record carries valid labels, so exact matching accepts
      all of them. */
  lemma SampleClassified(n: nat, picks: seq<nat>)
    requires ValidDraws(picks, n)
    ensures |Sample(n, picks)| == n
    ensures AllClassified(Exact, Sample(n, picks))
    ensures forall i :: 0 <= i < n ==> Sample(n, picks)[i].amount > 0
  {
    var s := Sample(n, picks);
    ShuffledIsPermutation(Generated(n), picks);
    forall i | 0 <= i < n ensures ClassifyBy(Exact, s[i]).Ok? && s[i].amount > 0 {
      var j :| 0 <= j < n && Generated(n)[j] == s[i];
    }
  }

  /** The grid aggregating the shuffled sample yields: the closed form of
      each bucket, whatever the draws of the shuffle. */
  lemma SampleBuckets(m: nat, picks: seq<nat>, k: nat)
    requires ValidDraws(picks, 20 * m) && k < 20
    ensures Buckets(Exact, Sample(20 * m, picks))[k] == ExpectedBucket(m, k)
  {
    ShuffledIsPermutation(Generated(20 * m), picks);
    TallyPermutation(Sample(20 * m, picks), Generated(20 * m), Bucket(Exact, k));
    GeneratedBuckets(m, k);
  }

  /** Each bucket of the sample in closed form. */
  lemma SampleBucketClosed(m: nat, picks: seq<nat>, k: nat)
    requires ValidDraws(picks, 20 * m) && k < 20
    ensures Buckets(Exact, Sample(20 * m, picks))[k] == ClosedBucket(m, ResidueOf(k))
  {
    SampleBuckets(m, picks, k);
    ExpectedBucketClosedForm(m, k);
  }

  /** A last group with strictly the largest amount sum is the first maximum,
      and also the first maximum among non-empty groups when it is non-empty. */
  lemma LastStrictMax(gs: seq<AggResult>)
    requires |gs| == 20
    requires forall k :: 0 <= k < 19 ==> gs[k].totalAmount < gs[19].totalAmount
    ensures IsFirstMax(gs, 19)
    ensures gs[19].totalSales > 0 ==> IsFirstMaxPresent(gs, 19)
  {
  }

  /** The amount sum grows strictly with the residue, so West/Keyboard
      (bucket 19, residue 19) is the unique maximum once there is data, and
      with no data every bucket is zero and the first one, North/Laptop, is
      the first maximum. */
  lemma SampleWinner(m: nat, picks: seq<nat>)
    requires ValidDraws(picks, 20 * m)
    ensures m > 0 ==> IsFirstMax(Buckets(Exact, Sample(20 * m, picks)), 19)
    ensures m > 0 ==> IsFirstMaxPresent(Buckets(Exact, Sample(20 * m, picks)), 19)
    ensures m > 0 ==> forall k :: 0 <= k < 19 ==>
              Buckets(Exact, Sample(20 * m, picks))[k].totalAmount < Buckets(Exact, Sample(20 * m, picks))[19].totalAmount
    ensures m == 0 ==> IsFirstMax(Buckets(Exact, Sample(20 * m, picks)), 0)
    ensures RegionOf(19) == "West" && ProductOf(19) == "Keyboard"
    ensures Buckets(Exact, Sample(20 * m, picks))[19] == AggResult(m, ClosedAmount(m, 19), 10 * m)
  {
    var gs := Buckets(Exact, Sample(20 * m, picks));
    assert ResidueOf(19) == 19;
    SampleBucketClosed(m, picks, 19);
    if m > 0 {
      forall k | 0 <= k < 19 ensures gs[k].totalAmount < gs[19].totalAmount {
        SampleBucketClosed(m, picks, k);
        CellBijection(k, 19);
        AmountGrows(m, ResidueOf(k), 19);
      }
      LastStrictMax(gs);
    } else {
      forall k | 0 <= k < 20 ensures gs[k].totalAmount == 0 {
        SampleBucketClosed(m, picks, k);
      }
    }
  }

  /** Whatever first maximum an arg-max finds on a non-empty sample, it is
      West/Keyboard's bucket with m records, amount ClosedAmount(m, 19) and
      quantity 10 m. */
  lemma SampleFirstMax(m: nat, picks: seq<nat>, k: int)
    requires m > 0 && ValidDraws(picks, 20 * m)
    requires IsFirstMax(Buckets(Exact, Sample(20 * m, picks)), k) || IsFirstMaxPresent(Buckets(Exact, Sample(20 * m, picks)), k)
    ensures k == 19 && RegionOf(k) == "West" && ProductOf(k) == "Keyboard"
    ensures Buckets(Exact, Sample(20 * m, picks))[k] == AggResult(m, ClosedAmount(m, 19), 10 * m)
  {
    SampleWinner(m, picks);
    var gs := Buckets(Exact, Sample(20 * m, picks));
    forall j | 0 <= j < 20 ensures gs[j].totalSales > 0 {
      SampleBucketClosed(m, picks, j);
    }
    assert IsFirstMax(gs, k);
    FirstMaxUnique(gs, k, 19);
  }

  /** Whatever largest group a map-based scan picks on a non-empty sample, it
      is West/Keyboard with m records, amount ClosedAmount(m, 19) and
      quantity 10 m: the maximum is unique. */
  lemma SampleMaxGroup(m: nat, picks: seq<nat>, region: string, product: string)
    requires m > 0 && ValidDraws(picks, 20 * m)
    requires IsMaxGroup(Sample(20 * m, picks), region, product)
    ensures region == "West" && product == "Keyboard"
    ensures Tally(Sample(20 * m, picks), Pair(region, product)) == AggResult(m, ClosedAmount(m, 19), 10 * m)
  {
    var recs := Sample(20 * m, picks);
    SampleClassified(20 * m, picks);
    SampleWinner(m, picks);
    MapAndTunedAgreeOnUniqueMax(recs, region, product, 19);
  }

  /** The Go/Kotlin amount constants are those of the winning bucket of a
      100 000-record run: for TOTAL_RECORDS itself its sum is 250 009 500 000. */
  lemma WinnerAmounts()
    ensures ClosedAmount(100_000 / 20, 19) == ExpectedTotalAmount
    ensures ClosedAmount(100_000 / 20, 19) == ExpectedAvgAmount * (100_000 / 20)
    ensures ClosedAmount(TotalRecords / 20, 19) == 250_009_500_000
    ensures ClosedAmount(TotalRecords / 20, 19) != ExpectedTotalAmount
  {
  }

  /** Every label pair in a sample is one of the 20. */
  lemma SampleKeysWithin(n: nat, picks: seq<nat>)
    requires ValidDraws(picks, n)
    ensures KeysOf(Sample(n, picks)) <= LabelPairs()
  {
    var s := Sample(n, picks);
    SampleClassified(n, picks);
    forall key | key in KeysOf(s) ensures key in LabelPairs() {
      var i :| 0 <= i < |s| && (s[i].region, s[i].product) == key;
      assert ClassifyBy(Exact, s[i]).Ok?;
      var k := ExactIndex(s[i].region, s[i].product).value;
      assert key == (RegionOf(k), ProductOf(k));
    }
  }

  /** Each of the 20 label pairs occurs once there are at least 20 records. */
  lemma SampleKeyPresent(n: nat, picks: seq<nat>, k: nat)
    requires ValidDraws(picks, n) && n >= 20 && k < 20
    ensures (RegionOf(k), ProductOf(k)) in KeysOf(Sample(n, picks))
  {
    var s := Sample(n, picks);
    var j := ResidueOf(k);
    CellOfResidue(k);
    GenBucket(j);
    ModOf20(j, 0, j);
    ShuffledIsPermutation(Generated(n), picks);
    assert Generated(n)[j] == Gen(j);
    assert Gen(j) in multiset(s) by {
      assert Generated(n)[j] in multiset(Generated(n));
    }
    var i :| 0 <= i < |s| && s[i] == Gen(j);
    assert (s[i].region, s[i].product) in KeysOf(s);
  }

  /** The label pairs that occur in a sample of at least 20 records are
      exactly the 20 pairs. */
  lemma SampleKeys(n: nat, picks: seq<nat>)
    requires ValidDraws(picks, n) && n >= 20
    ensures KeysOf(Sample(n, picks)) == LabelPairs()
  {
    SampleKeysWithin(n, picks);
    forall key | key in LabelPairs() ensures key in KeysOf(Sample(n, picks)) {
      var k :| 0 <= k < 20 && key == (RegionOf(k), ProductOf(k));
      SampleKeyPresent(n, picks, k);
    }
  }

  /** Every one of the 20 label pairs. */
  function LabelPairs(): (ps: set<(string, string)>)
    ensures forall k :: 0 <= k < 20 ==> (RegionOf(k), ProductOf(k)) in ps
  {
    set k: nat | k < 20 :: (RegionOf(k), ProductOf(k))
  }
}
