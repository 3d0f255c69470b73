/** The three rules the ports use to turn a (region, product) label pair into
    one of the 20 bucket indices `regionIdx * 5 + productIdx`:
    - exact string match (Rust `match`, Go `switch`), failing on an unknown label;
    - Kotlin's 256-entry first-character lookup tables, which never validate;
    - Kotlin's first-character `when`, failing on an unknown first character. */
module Classify {
  import opened Common

  /** Position of a region label, by exact match; anything else is invalid. */
  function RegionIndex(region: string): (idx: Result<nat>)
    ensures idx.Ok? <==> region in Regions
    ensures idx.Ok? ==> idx.value < |Regions| && Regions[idx.value] == region
    ensures idx.Err? ==> idx.error == InvalidRegion(region)
  {
    if region == "North" then Ok(0)
    else if region == "South" then Ok(1)
    else if region == "East" then Ok(2)
    else if region == "West" then Ok(3)
    else Err(InvalidRegion(region))
  }

  /** Position of a product label, by exact match; anything else is invalid. */
  function ProductIndex(product: string): (idx: Result<nat>)
    ensures idx.Ok? <==> product in Products
    ensures idx.Ok? ==> idx.value < |Products| && Products[idx.value] == product
    ensures idx.Err? ==> idx.error == InvalidProduct(product)
  {
    if product == "Laptop" then Ok(0)
    else if product == "Phone" then Ok(1)
    else if product == "Tablet" then Ok(2)
    else if product == "Monitor" then Ok(3)
    else if product == "Keyboard" then Ok(4)
    else Err(InvalidProduct(product))
  }

  /** The dense bucket encoding; `/ 5` and `% 5` decode it. */
  function BucketIndex(regionIdx: nat, productIdx: nat): (idx: nat)
    requires regionIdx < 4 && productIdx < 5
    ensures idx < 20 && idx / 5 == regionIdx && idx % 5 == productIdx
  {
    regionIdx * 5 + productIdx
  }

  /** Exact matching inverts the enumerations. */
  lemma RegionIndexOf(a: nat)
    requires a < |Regions|
    ensures RegionIndex(Regions[a]) == Ok(a)
  {
    assert a == 0 || a == 1 || a == 2 || a == 3;
  }

  lemma ProductIndexOf(b: nat)
    requires b < |Products|
    ensures ProductIndex(Products[b]) == Ok(b)
  {
    assert b == 0 || b == 1 || b == 2 || b == 3 || b == 4;
  }

  /** The label pair a bucket index decodes to. */
  function RegionOf(k: nat): string requires k < 20 { Regions[k / 5] }
  function ProductOf(k: nat): string requires k < 20 { Products[k % 5] }

  /** Exact classification; the region is checked before the product. */
  function ExactIndex(region: string, product: string): (idx: Result<nat>)
    ensures idx.Ok? <==> region in Regions && product in Products
    ensures idx.Ok? ==> idx.value < 20 && RegionOf(idx.value) == region && ProductOf(idx.value) == product
    ensures idx.Err? ==> idx.error == if region !in Regions then InvalidRegion(region) else InvalidProduct(product)
  {
    match RegionIndex(region)
    case Err(e) => Err(e)
    case Ok(ri) =>
      match ProductIndex(product)
      case Err(e) => Err(e)
      case Ok(pi) => Ok(BucketIndex(ri, pi))
  }

  /** The pair of region a and product b lands in bucket a * 5 + b. */
  lemma ExactIndexOf(a: nat, b: nat)
    requires a < 4 && b < 5
    ensures ExactIndex(Regions[a], Products[b]) == Ok(a * 5 + b)
  {
    RegionIndexOf(a);
    ProductIndexOf(b);
  }

  /** Encoding is a bijection between the 4 x 5 label pairs and 0..19:
      every bucket decodes to a label pair that encodes back to it, and a
      label pair lands in bucket k exactly when it is k's pair. */
  lemma ExactIndexIff(region: string, product: string, k: nat)
    requires k < 20
    ensures ExactIndex(region, product) == Ok(k) <==> (region == RegionOf(k) && product == ProductOf(k))
  {
    EnumerationsWellFormed();
    if region == RegionOf(k) && product == ProductOf(k) {
      var idx := ExactIndex(region, product);
      assert idx.Ok?;
      assert Regions[idx.value / 5] == Regions[k / 5];
      assert Products[idx.value % 5] == Products[k % 5];
      assert idx.value / 5 == k / 5 && idx.value % 5 == k % 5;
    }
  }

  /** What a Kotlin lookup table holds for a character code: the position of
      the label whose first character has that code, or -1. */
  function FirstCharIndex(labels: seq<string>, code: int): (i: int)
    ensures -1 <= i < |labels|
    ensures i >= 0 ==> |labels[i]| > 0 && labels[i][0] as int == code
    ensures i == -1 ==> forall j :: 0 <= j < |labels| && |labels[j]| > 0 ==> labels[j][0] as int != code
  {
    if |labels| == 0 then -1
    else if |labels[0]| > 0 && labels[0][0] as int == code then 0
    else
      var i := FirstCharIndex(labels[1..], code);
      if i < 0 then -1 else i + 1
  }

  /** Kotlin `aggregateSales`: index both lookup tables by the first
      character's code and add. A missing first character or a code of 256 or
      more is out of bounds; so is a sum outside 0..19. Nothing is validated. */
  function LookupIndex(region: string, product: string): (idx: Result<nat>)
    ensures idx.Err? ==> idx.error == IndexOutOfBounds
    ensures idx.Ok? ==> idx.value < 20 && |region| > 0 && |product| > 0
    ensures idx.Ok? && FirstCharIndex(Products, product[0] as int) >= 0 ==>
              RegionOf(idx.value)[0] == region[0] && ProductOf(idx.value)[0] == product[0]
  {
    if |region| == 0 || region[0] as int >= 256 then Err(IndexOutOfBounds)
    else if |product| == 0 || product[0] as int >= 256 then Err(IndexOutOfBounds)
    else
      var idx := FirstCharIndex(Regions, region[0] as int) * 5 + FirstCharIndex(Products, product[0] as int);
      if 0 <= idx < 20 then Ok(idx) else Err(IndexOutOfBounds)
  }

  /** Kotlin `when (r.region[0])`. */
  function WhenRegion(c: char): int {
    match c
    case 'N' => 0 case 'S' => 1 case 'E' => 2 case 'W' => 3
    case _ => -1
  }

  /** Kotlin `when (r.product[0])`. */
  function WhenProduct(c: char): int {
    match c
    case 'L' => 0 case 'P' => 1 case 'T' => 2 case 'M' => 3 case 'K' => 4
    case _ => -1
  }

  /** Kotlin `aggregateSalesWhen`: classify by first character, throwing on an
      unknown one (and on an empty label, whose `[0]` is out of bounds). */
  function WhenIndex(region: string, product: string): (idx: Result<nat>)
    ensures idx.Err? ==> idx.error in {IndexOutOfBounds, InvalidRegion(region), InvalidProduct(product)}
    ensures idx.Ok? ==> idx.value < 20 && |region| > 0 && |product| > 0
    ensures idx.Ok? ==> RegionOf(idx.value)[0] == region[0] && ProductOf(idx.value)[0] == product[0]
  {
    if |region| == 0 then Err(IndexOutOfBounds)
    else if WhenRegion(region[0]) < 0 then Err(InvalidRegion(region))
    else if |product| == 0 then Err(IndexOutOfBounds)
    else if WhenProduct(product[0]) < 0 then Err(InvalidProduct(product))
    else Ok(WhenRegion(region[0]) * 5 + WhenProduct(product[0]))
  }

  /** The `when` branches and the lookup tables agree on every character:
      'N','S','E','W' are 0..3, 'L','P','T','M','K' are 0..4, i.e. the
      positions of the labels in the enumerations, and every other character
      is -1. */
  lemma WhenMatchesTables(c: char)
    ensures WhenRegion(c) == FirstCharIndex(Regions, c as int)
    ensures WhenProduct(c) == FirstCharIndex(Products, c as int)
  {
    var fr, fp := FirstChars(Regions), FirstChars(Products);
    assert fr == ['N', 'S', 'E', 'W'];
    assert fp == ['L', 'P', 'T', 'M', 'K'];
    var ri := FirstCharIndex(Regions, c as int);
    if ri >= 0 {
      assert fr[ri] == c;
      assert ri == 0 || ri == 1 || ri == 2 || ri == 3;
    } else {
      assert fr[0] != c && fr[1] != c && fr[2] != c && fr[3] != c;
    }
    var pi := FirstCharIndex(Products, c as int);
    if pi >= 0 {
      assert fp[pi] == c;
      assert pi == 0 || pi == 1 || pi == 2 || pi == 3 || pi == 4;
    } else {
      assert fp[0] != c && fp[1] != c && fp[2] != c && fp[3] != c && fp[4] != c;
    }
  }

  /** A valid region's first character is below 256 and both first-character
      rules give the region's position. */
  lemma RegionFirstChar(region: string)
    requires region in Regions
    ensures |region| > 0 && region[0] as int < 256
    ensures FirstCharIndex(Regions, region[0] as int) == RegionIndex(region).value
    ensures WhenRegion(region[0]) == RegionIndex(region).value
  {
    WhenMatchesTables(region[0]);
  }

  /** A valid product's first character is below 256 and both first-character
      rules give the product's position. */
  lemma ProductFirstChar(product: string)
    requires product in Products
    ensures |product| > 0 && product[0] as int < 256
    ensures FirstCharIndex(Products, product[0] as int) == ProductIndex(product).value
    ensures WhenProduct(product[0]) == ProductIndex(product).value
  {
    WhenMatchesTables(product[0]);
  }

  /** On labels from the enumerations the three rules agree. */
  lemma RulesAgreeOnValidLabels(region: string, product: string)
    requires region in Regions && product in Products
    ensures LookupIndex(region, product) == ExactIndex(region, product)
    ensures WhenIndex(region, product) == ExactIndex(region, product)
  {
    RegionFirstChar(region);
    ProductFirstChar(product);
  }

  /** Whenever `when` accepts a pair, the lookup tables send it to the same bucket. */
  lemma WhenAcceptedMatchesLookup(region: string, product: string)
    requires WhenIndex(region, product).Ok?
    ensures LookupIndex(region, product) == WhenIndex(region, product)
  {
    WhenMatchesTables(region[0]);
    WhenMatchesTables(product[0]);
  }

  /** The lookup version never validates: a product whose first character has
      no table entry gives index `regionIdx * 5 - 1`, which for a region index
      of at least 1 is the previous region's Keyboard bucket, and is out of
      bounds for North. */
  lemma LookupMisroutesUnknownProduct(region: string, product: string)
    requires |region| > 0 && region[0] as int < 256 && FirstCharIndex(Regions, region[0] as int) >= 0
    requires |product| > 0 && product[0] as int < 256 && FirstCharIndex(Products, product[0] as int) == -1
    ensures var ri := FirstCharIndex(Regions, region[0] as int);
            if ri >= 1 then
              LookupIndex(region, product) == Ok(ri * 5 - 1)
              && RegionOf(ri * 5 - 1) == Regions[ri - 1] && ProductOf(ri * 5 - 1) == "Keyboard"
            else LookupIndex(region, product) == Err(IndexOutOfBounds)
  {
  }

  /** Some label of the list starts with character c. */
  predicate StartsLabel(labels: seq<string>, c: char) {
    exists j :: 0 <= j < |labels| && |labels[j]| > 0 && labels[j][0] == c
  }

  /** A table entry is set exactly for the first characters of the labels. */
  lemma FirstCharIndexStarts(labels: seq<string>, c: char)
    ensures FirstCharIndex(labels, c as int) >= 0 <==> StartsLabel(labels, c)
  {
    var i := FirstCharIndex(labels, c as int);
    if i >= 0 {
      assert labels[i][0] == c;
    }
  }

  /** The `when` on a region character gives position a exactly for the
      first character of region a; likewise for products. */
  lemma WhenRegionOf(c: char, a: nat)
    requires a < |Regions|
    ensures WhenRegion(c) == a <==> c == Regions[a][0]
  {
    assert Regions[0][0] == 'N' && Regions[1][0] == 'S' && Regions[2][0] == 'E' && Regions[3][0] == 'W';
  }

  lemma WhenProductOf(c: char, b: nat)
    requires b < |Products|
    ensures WhenProduct(c) == b <==> c == Products[b][0]
  {
    assert Products[0][0] == 'L' && Products[1][0] == 'P' && Products[2][0] == 'T';
    assert Products[3][0] == 'M' && Products[4][0] == 'K';
  }

  /** The first-character counterpart of ExactIndexIff for the `when` rule: a
      pair lands in bucket k exactly when both labels are non-empty and start
      with the first characters of k's region and product. */
  lemma WhenIndexIff(region: string, product: string, k: nat)
    requires k < 20
    ensures WhenIndex(region, product) == Ok(k) <==>
              (|region| > 0 && |product| > 0 && region[0] == RegionOf(k)[0] && product[0] == ProductOf(k)[0])
  {
    if |region| > 0 && |product| > 0 && region[0] == RegionOf(k)[0] && product[0] == ProductOf(k)[0] {
      var ri, pi := k / 5, k % 5;
      WhenRegionOf(region[0], ri);
      WhenProductOf(product[0], pi);
      assert ri * 5 + pi == k;
    }
  }

  /** The same for the lookup rule, among pairs whose product character is in
      the table (the others are misrouted, see LookupMisroutesUnknownProduct). */
  lemma LookupIndexIff(region: string, product: string, k: nat)
    requires k < 20
    ensures (LookupIndex(region, product) == Ok(k) && FirstCharIndex(Products, product[0] as int) >= 0) <==>
              (|region| > 0 && |product| > 0 && region[0] == RegionOf(k)[0] && product[0] == ProductOf(k)[0])
  {
    if |region| > 0 && |product| > 0 && region[0] == RegionOf(k)[0] && product[0] == ProductOf(k)[0] {
      WhenIndexIff(region, product, k);
      WhenAcceptedMatchesLookup(region, product);
      WhenMatchesTables(product[0]);
    }
  }

  /** Which pairs the `when` rule rejects, and with which error: an empty
      label is out of bounds; a region, then a product, whose first character
      starts no label of its list is the `IllegalArgumentException` naming
      it; every other pair is accepted. */
  lemma WhenIndexErrors(region: string, product: string)
    ensures |region| == 0 ==> WhenIndex(region, product) == Err(IndexOutOfBounds)
    ensures |region| > 0 && !StartsLabel(Regions, region[0]) ==>
              WhenIndex(region, product) == Err(InvalidRegion(region))
    ensures |region| > 0 && StartsLabel(Regions, region[0]) && |product| == 0 ==>
              WhenIndex(region, product) == Err(IndexOutOfBounds)
    ensures |region| > 0 && StartsLabel(Regions, region[0]) && |product| > 0 && !StartsLabel(Products, product[0]) ==>
              WhenIndex(region, product) == Err(InvalidProduct(product))
    ensures |region| > 0 && StartsLabel(Regions, region[0]) && |product| > 0 && StartsLabel(Products, product[0]) ==>
              WhenIndex(region, product).Ok?
  {
    if |region| > 0 {
      WhenMatchesTables(region[0]);
      FirstCharIndexStarts(Regions, region[0]);
    }
    if |product| > 0 {
      WhenMatchesTables(product[0]);
      FirstCharIndexStarts(Products, product[0]);
    }
  }

  /** Which pairs the lookup rule rejects: an empty label, a region whose
      first character starts no region, or a product character with a code
      of 256 or more is out of bounds; a pair whose two first characters both
      start labels is accepted. */
  lemma LookupIndexErrors(region: string, product: string)
    ensures |region| == 0 || |product| == 0 ==> LookupIndex(region, product) == Err(IndexOutOfBounds)
    ensures |region| > 0 && !StartsLabel(Regions, region[0]) ==>
              LookupIndex(region, product) == Err(IndexOutOfBounds)
    ensures |region| > 0 && StartsLabel(Regions, region[0]) && |product| > 0 && product[0] as int >= 256 ==>
              LookupIndex(region, product) == Err(IndexOutOfBounds)
    ensures |region| > 0 && StartsLabel(Regions, region[0]) && |product| > 0 && StartsLabel(Products, product[0]) ==>
              LookupIndex(region, product).Ok?
  {
    if |region| > 0 {
      FirstCharIndexStarts(Regions, region[0]);
    }
    if |product| > 0 {
      FirstCharIndexStarts(Products, product[0]);
    }
    if |region| > 0 && StartsLabel(Regions, region[0]) && |product| > 0 && StartsLabel(Products, product[0]) {
      var ri, pi := FirstCharIndex(Regions, region[0] as int), FirstCharIndex(Products, product[0] as int);
      RegionFirstChar(Regions[ri]);
      ProductFirstChar(Products[pi]);
    }
  }

  /** Concretely: ("South", "Xylophone") is counted as North/Keyboard by the
      lookup version, rejected by the `when` version and by exact matching;
      ("Nowhere", "Lamp") is North/Laptop for both first-character rules. */
  lemma FirstCharacterRulesExamples()
    ensures LookupIndex("South", "Xylophone") == Ok(4) && RegionOf(4) == "North" && ProductOf(4) == "Keyboard"
    ensures WhenIndex("South", "Xylophone") == Err(InvalidProduct("Xylophone"))
    ensures ExactIndex("South", "Xylophone") == Err(InvalidProduct("Xylophone"))
    ensures LookupIndex("Nowhere", "Lamp") == Ok(0) && WhenIndex("Nowhere", "Lamp") == Ok(0)
    ensures ExactIndex("Nowhere", "Lamp") == Err(InvalidRegion("Nowhere"))
  {
    EnumerationsWellFormed();
    assert FirstCharIndex(Regions, 'S' as int) == 1 by { WhenMatchesTables('S'); }
    assert FirstCharIndex(Products, 'X' as int) == -1 by { WhenMatchesTables('X'); }
    assert FirstCharIndex(Regions, 'N' as int) == 0 by { WhenMatchesTables('N'); }
    assert FirstCharIndex(Products, 'L' as int) == 0 by { WhenMatchesTables('L'); }
  }
}
