/** frontend/src/services/ocr.js: the confidence score of a parsed receipt and
    the matching of its item lines against the brand list. Prices are whole
    amounts; image handling and text extraction are outside this model. */
module Ocr {
  import opened Common
  import opened Helpers

  datatype OcrItem = OcrItem(name: string, price: int, quantity: nat)

  /** The fields of `parseReceiptData`'s result that the score reads. */
  datatype ParsedData = ParsedData(
    receiptNumber: Option<string>,
    total: Option<int>,
    items: seq<OcrItem>,
    date: Option<string>,
    store: Option<string>)

  function Bonus(present: bool, points: int): (b: int)
    ensures b == if present then points else 0
  {
    if present then points else 0
  }

  /** Ten per item line, at most forty. */
  function ItemsPoints(count: nat): (p: int)
    ensures 0 <= p <= 40
    ensures p == 40 <==> count >= 4
    ensures count < 4 ==> p == 10 * count
  {
    if count > 0 then (if count * 10 < 40 then count * 10 else 40) else 0
  }

  function TotalFound(d: ParsedData): bool
  {
    d.total.Some? && d.total.value > 0
  }

  /** The score as a sum of its parts, clamped at 100. */
  function ConfidenceScore(d: ParsedData): (s: int)
  {
    var raw := Bonus(Truthy(d.receiptNumber), 30) + Bonus(TotalFound(d), 30) + ItemsPoints(|d.items|)
               + Bonus(Truthy(d.date), 10) + Bonus(Truthy(d.store), 10);
    if raw < 100 then raw else 100
  }

  /** `calculateConfidenceScore`: adds each part in turn. */
  method CalculateConfidenceScore(d: ParsedData) returns (score: int)
    ensures score == ConfidenceScore(d)
    ensures 0 <= score <= 100
  {
    score := 0;
    if Truthy(d.receiptNumber) {
      score := score + 30;
    }
    if d.total.Some? && d.total.value > 0 {
      score := score + 30;
    }
    if |d.items| > 0 {
      score := score + Min(|d.items| * 10, 40);
    }
    if Truthy(d.date) {
      score := score + 10;
    }
    if Truthy(d.store) {
      score := score + 10;
    }
    score := Min(score, 100);
    ConfidenceBounds(d);
  }

  function Min(a: int, b: int): (m: int)
    ensures m <= a && m <= b && (m == a || m == b)
  {
    if a < b then a else b
  }

  /** The score lies in [0, 100]; the number, a positive total and four item
      lines already reach 100; without any part it is 0; losing the number or
      the total caps it at 90. */
  lemma ConfidenceBounds(d: ParsedData)
    ensures 0 <= ConfidenceScore(d) <= 100
    ensures Truthy(d.receiptNumber) && TotalFound(d) && |d.items| >= 4 ==> ConfidenceScore(d) == 100
    ensures (!Truthy(d.receiptNumber) && !TotalFound(d) && |d.items| == 0 && !Truthy(d.date) && !Truthy(d.store))
              ==> ConfidenceScore(d) == 0
    ensures !Truthy(d.receiptNumber) ==> ConfidenceScore(d) <= 90
    ensures !TotalFound(d) ==> ConfidenceScore(d) <= 90
  {
  }

  /** Scores of a few parsed receipts, part by part. */
  lemma ConfidenceExamples()
    ensures ConfidenceScore(ParsedData(Some("R1"), Some(100), [OcrItem("Milk", 50, 1), OcrItem("Bread", 50, 1)],
                                       None, None)) == 80
    ensures ConfidenceScore(ParsedData(Some(""), Some(0), [], Some("2024-01-01"), Some("Shop"))) == 20
    ensures ConfidenceScore(ParsedData(None, None, [OcrItem("Soap", 10, 1)], None, None)) == 10
  {
  }

  // ---------------------------------------------------------------------
  // Brand matching

  datatype OcrBrand = OcrBrand(id: nat, name: string)

  datatype MatchedItem = MatchedItem(item: OcrItem, brand: Option<OcrBrand>, brandId: Option<nat>)

  /** `s.includes(sub)`: `sub` is a prefix of some suffix of `s`. */
  predicate IsSubstring(sub: string, s: string)
  {
    exists i :: 0 <= i <= |s| && sub <= s[i..]
  }

  /** A brand fits an item when either lowercased name contains the other. */
  predicate Fits(brand: OcrBrand, lowerName: string)
  {
    var brandName := ToLower(brand.name);
    IsSubstring(brandName, lowerName) || IsSubstring(lowerName, brandName)
  }

  /** `brands.find(...)`: the index of the first fitting brand. */
  function FirstFit(brands: seq<OcrBrand>, lowerName: string): (r: Option<nat>)
    ensures r.Some? ==> r.value < |brands| && Fits(brands[r.value], lowerName)
                        && forall j :: 0 <= j < r.value ==> !Fits(brands[j], lowerName)
    ensures r.None? <==> forall j :: 0 <= j < |brands| ==> !Fits(brands[j], lowerName)
  {
    if brands == [] then None
    else if Fits(brands[0], lowerName) then Some(0)
    else
      var rest := FirstFit(brands[1..], lowerName);
      assert forall j :: 1 <= j < |brands| ==> brands[j] == brands[1..][j - 1];
      if rest.None? then None else Some(rest.value + 1)
  }

  function MatchItem(item: OcrItem, brands: seq<OcrBrand>): MatchedItem
  {
    var k := FirstFit(brands, ToLower(item.name));
    if k.None? then MatchedItem(item, None, None)
    else MatchedItem(item, Some(brands[k.value]), if brands[k.value].id != 0 then Some(brands[k.value].id) else None)
  }

  /** `matchBrands`: one result per item, in order. */
  function MatchBrands(items: seq<OcrItem>, brands: seq<OcrBrand>): (r: seq<MatchedItem>)
  {
    seq(|items|, k requires 0 <= k < |items| => MatchItem(items[k], brands))
  }

  /** Length and order are kept and every item keeps its fields; its brand is
      the first whose name fits, and no brand means a null brand and brand id;
      a zero id reads as null. */
  lemma MatchBrandsEffect(items: seq<OcrItem>, brands: seq<OcrBrand>)
    ensures var r := MatchBrands(items, brands);
            && |r| == |items|
            && forall k :: 0 <= k < |items| ==>
                 && r[k].item == items[k]
                 && (r[k].brand.None? <==> forall j :: 0 <= j < |brands| ==> !Fits(brands[j], ToLower(items[k].name)))
                 && (r[k].brand.None? ==> r[k].brandId.None?)
                 && (r[k].brand.Some? ==>
                       && (exists j :: 0 <= j < |brands| && brands[j] == r[k].brand.value
                                       && Fits(brands[j], ToLower(items[k].name))
                                       && forall i :: 0 <= i < j ==> !Fits(brands[i], ToLower(items[k].name)))
                       && (r[k].brandId.Some? <==> r[k].brand.value.id != 0)
                       && (r[k].brandId.Some? ==> r[k].brandId.value == r[k].brand.value.id))
  {
    var r := MatchBrands(items, brands);
    forall k | 0 <= k < |items|
      ensures r[k].brand.Some? ==>
                exists j :: 0 <= j < |brands| && brands[j] == r[k].brand.value
                            && Fits(brands[j], ToLower(items[k].name))
                            && forall i :: 0 <= i < j ==> !Fits(brands[i], ToLower(items[k].name))
    {
      var f := FirstFit(brands, ToLower(items[k].name));
      if f.Some? {
        assert brands[f.value] == r[k].brand.value;
      }
    }
  }

  /** An item named after a brand, in any letter case, gets a brand. */
  lemma BrandNameIsMatched(item: OcrItem, brands: seq<OcrBrand>, j: nat)
    requires j < |brands| && ToLower(item.name) == ToLower(brands[j].name)
    ensures MatchItem(item, brands).brand.Some?
  {
    var n := ToLower(item.name);
    assert n <= n[0..];
    assert Fits(brands[j], n);
  }
}
