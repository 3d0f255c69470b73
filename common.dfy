/** Shared vocabulary of the three benchmark ports (agggo/common_test.go):
    the sales record, the aggregate triple, the two closed label
    enumerations and the constants the benchmarks check against.

    Amounts are whole numbers by construction (100 + 10 i), so they are
    modelled as `int` rather than as IEEE doubles. */
module Common {

  /** One synthetic sale. */
  datatype SalesRecord = SalesRecord(region: string, product: string, amount: int, quantity: int)

  /** The per-group counters: number of sales, sum of amounts, sum of quantities. */
  datatype AggResult = AggResult(totalSales: int, totalAmount: int, totalQuantity: int)

  const Zero: AggResult := AggResult(0, 0, 0)

  datatype Option<T> = None | Some(value: T)

  /** The ways an aggregation can stop without a result. */
  datatype Failure =
    | InvalidRegion(region: string)    // Rust panic!, Go panic, Kotlin IllegalArgumentException
    | InvalidProduct(product: string)  // same, for the product label
    | IndexOutOfBounds                 // a JVM or Go index outside its array or string
    | NilDereference                   // Go dereferencing a nil *AggResult

  datatype Result<T> = Ok(value: T) | Err(error: Failure)

  const Regions: seq<string> := ["North", "South", "East", "West"]
  const Products: seq<string> := ["Laptop", "Phone", "Tablet", "Monitor", "Keyboard"]

  const TotalRecords: nat := 1_000_000
  const ExpectedTotalSales: nat := TotalRecords / 20
  const ExpectedTotalAmount: nat := 2_500_950_000
  const ExpectedAvgAmount: nat := 500_190
  const ExpectedTotalQuantity: nat := TotalRecords / 2
  const ExpectedAvgQuantity: nat := 10

  predicate Distinct<T(==)>(s: seq<T>) {
    forall i, j :: 0 <= i < j < |s| ==> s[i] != s[j]
  }

  /** The first character of every label (all labels are non-empty). */
  function FirstChars(labels: seq<string>): (cs: seq<char>)
    requires forall i :: 0 <= i < |labels| ==> |labels[i]| > 0
    ensures |cs| == |labels|
    ensures forall i :: 0 <= i < |labels| ==> cs[i] == labels[i][0]
  {
    seq(|labels|, i requires 0 <= i < |labels| => labels[i][0])
  }

  /** Four distinct regions and five distinct products; within each list the
      first characters are pairwise distinct, which the Kotlin first-character
      classification relies on. */
  lemma EnumerationsWellFormed()
    ensures |Regions| == 4 && |Products| == 5
    ensures Distinct(Regions) && Distinct(Products)
    ensures forall i :: 0 <= i < |Regions| ==> |Regions[i]| > 0
    ensures forall i :: 0 <= i < |Products| ==> |Products[i]| > 0
    ensures Distinct(FirstChars(Regions)) && Distinct(FirstChars(Products))
  {
    assert FirstChars(Regions) == ['N', 'S', 'E', 'W'];
    assert FirstChars(Products) == ['L', 'P', 'T', 'M', 'K'];
  }

  /** TOTAL_RECORDS is a multiple of 20, the expected count is exact, and the
      expected average quantity is the quotient of the two integer expectations.
      The amount expectations describe 5000 records per group, which is a
      100000-record run rather than TOTAL_RECORDS. */
  lemma ExpectedConstantsConsistent()
    ensures ExpectedTotalSales * 20 == TotalRecords
    ensures ExpectedTotalQuantity == ExpectedAvgQuantity * ExpectedTotalSales
    ensures ExpectedTotalAmount == ExpectedAvgAmount * 5000
    ensures 5000 * 20 == 100_000 && ExpectedTotalSales != 5000
  {
  }
}
