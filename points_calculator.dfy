/** src/services/pointsCalculator.js: points per line item, the receipt total
    and the tier promotion check. The brand lookup `Brand.findById` becomes a
    snapshot of the brands table passed in as a map. */
module PointsCalculator {
  import opened Common
  import opened Helpers
  import opened Brands

  /** A line item as submitted for approval. */
  datatype LineItem = LineItem(brandId: nat, quantity: int, unitPrice: int, totalPrice: int)

  /** `{ ...item, pointsCalculated }` */
  datatype PricedItem = PricedItem(item: LineItem, pointsCalculated: int)

  function Min(a: int, b: int): int
  {
    if a <= b then a else b
  }

  /** `calculatePoints(brandId, totalPrice, tierMultiplier)` with the multiplier
      in percent: an unknown or inactive brand and a total below the minimum
      purchase give nothing; otherwise floor(price * rate), then floor(* the
      multiplier), capped per item by the brand's maximum. */
  function CalculatePoints(brands: map<nat, Brand>, brandId: nat, totalPrice: int, multiplier: int): (points: int)
    ensures brandId !in brands || !brands[brandId].isActive ==> points == 0
    ensures brandId in brands && totalPrice < brands[brandId].minPurchaseAmount ==> points == 0
    ensures brandId in brands && brands[brandId].isActive && totalPrice >= brands[brandId].minPurchaseAmount ==>
              points == Min(totalPrice * brands[brandId].pointsPerKes * multiplier / 100,
                            brands[brandId].maxPointsPerTransaction)
  {
    if brandId !in brands then 0
    else
      var brand := brands[brandId];
      if !brand.isActive then 0
      else if totalPrice < brand.minPurchaseAmount then 0
      else
        var basePoints := totalPrice * brand.pointsPerKes;
        var totalPoints := basePoints * multiplier / 100;
        if totalPoints > brand.maxPointsPerTransaction then brand.maxPointsPerTransaction else totalPoints
  }

  lemma MulMonotone(a: int, b: int, c: int)
    requires a <= b && 0 <= c
    ensures a * c <= b * c
  {
  }

  lemma DivMonotone(a: int, b: int)
    requires a <= b
    ensures a / 100 <= b / 100
  {
  }

  /** For a well-formed brand, a non-negative price and multiplier, the points
      of one line item are never negative and never above the brand's cap. */
  lemma PointsWithinCap(brands: map<nat, Brand>, brandId: nat, totalPrice: int, multiplier: int)
    requires brandId in brands ==> WellFormed(brands[brandId])
    requires 0 <= totalPrice && 0 <= multiplier
    ensures 0 <= CalculatePoints(brands, brandId, totalPrice, multiplier)
    ensures brandId in brands ==> CalculatePoints(brands, brandId, totalPrice, multiplier) <= brands[brandId].maxPointsPerTransaction
  {
    if brandId in brands {
      var b := brands[brandId];
      MulMonotone(0, totalPrice, b.pointsPerKes);
      MulMonotone(0, totalPrice * b.pointsPerKes, multiplier);
      DivMonotone(0, totalPrice * b.pointsPerKes * multiplier);
    }
  }

  /** A larger line total never earns fewer points (well-formed brand,
      non-negative multiplier). */
  lemma PointsMonotoneInPrice(brands: map<nat, Brand>, brandId: nat, a: int, b: int, multiplier: int)
    requires brandId in brands ==> WellFormed(brands[brandId])
    requires 0 <= a <= b && 0 <= multiplier
    ensures CalculatePoints(brands, brandId, a, multiplier) <= CalculatePoints(brands, brandId, b, multiplier)
  {
    PointsWithinCap(brands, brandId, b, multiplier);
    if brandId in brands && brands[brandId].isActive && a >= brands[brandId].minPurchaseAmount {
      var r := brands[brandId].pointsPerKes;
      MulMonotone(a, b, r);
      MulMonotone(a * r, b * r, multiplier);
      DivMonotone(a * r * multiplier, b * r * multiplier);
    }
  }

  /** A higher tier multiplier never earns fewer points. */
  lemma PointsMonotoneInMultiplier(brands: map<nat, Brand>, brandId: nat, price: int, m: int, n: int)
    requires brandId in brands ==> WellFormed(brands[brandId])
    requires 0 <= price && 0 <= m <= n
    ensures CalculatePoints(brands, brandId, price, m) <= CalculatePoints(brands, brandId, price, n)
  {
    if brandId in brands && brands[brandId].isActive && price >= brands[brandId].minPurchaseAmount {
      var base := price * brands[brandId].pointsPerKes;
      MulMonotone(0, price, brands[brandId].pointsPerKes);
      assert base * m <= base * n;
      DivMonotone(base * m, base * n);
    }
  }

  function TestBrand(min: int, cap: int, active: bool): Brand
  {
    Brand("Test", "Beverages", 10, min, cap, None, active, false, false)
  }

  /** The unit-test figures: 100 KES at 10 points per KES is 1000 at 1.00 and
      1500 at 1.50; 200 KES with a cap of 1000 is capped; 50 KES below a
      minimum of 100 and an inactive or missing brand earn nothing; a total
      equal to the minimum qualifies. */
  lemma CalculatePointsExamples()
    ensures CalculatePoints(map[1 := TestBrand(50, 5000, true)], 1, 100, 100) == 1000
    ensures CalculatePoints(map[1 := TestBrand(50, 5000, true)], 1, 100, 150) == 1500
    ensures CalculatePoints(map[1 := TestBrand(50, 1000, true)], 1, 200, 100) == 1000
    ensures CalculatePoints(map[1 := TestBrand(100, 5000, true)], 1, 50, 100) == 0
    ensures CalculatePoints(map[1 := TestBrand(100, 5000, true)], 1, 100, 100) == 1000
    ensures CalculatePoints(map[1 := TestBrand(50, 5000, false)], 1, 100, 100) == 0
    ensures CalculatePoints(map[1 := TestBrand(50, 5000, true)], 999, 100, 100) == 0
  {
  }

  // ---------------------------------------------------------------------
  // Receipt total

  /** Every item, in order, with its points. */
  function PriceItems(brands: map<nat, Brand>, items: seq<LineItem>, multiplier: int): (r: seq<PricedItem>)
    ensures |r| == |items|
    ensures forall i :: 0 <= i < |items| ==>
              r[i].item == items[i]
              && r[i].pointsCalculated == CalculatePoints(brands, items[i].brandId, items[i].totalPrice, multiplier)
  {
    if items == [] then []
    else [PricedItem(items[0], CalculatePoints(brands, items[0].brandId, items[0].totalPrice, multiplier))]
         + PriceItems(brands, items[1..], multiplier)
  }

  function SumPoints(priced: seq<PricedItem>): int
  {
    if priced == [] then 0 else priced[0].pointsCalculated + SumPoints(priced[1..])
  }

  lemma {:induction false} SumPointsAppend(priced: seq<PricedItem>, p: PricedItem)
    ensures SumPoints(priced + [p]) == SumPoints(priced) + p.pointsCalculated
  {
    if priced == [] {
      assert priced + [p] == [p];
    } else {
      assert (priced + [p])[1..] == priced[1..] + [p];
      SumPointsAppend(priced[1..], p);
    }
  }

  /** `calculateReceiptPoints(items, tierMultiplier)`: one priced entry per
      item in the same order, and the total is the sum of the entries. */
  method CalculateReceiptPoints(brands: map<nat, Brand>, items: seq<LineItem>, multiplier: int)
    returns (totalPoints: int, itemsWithPoints: seq<PricedItem>)
    ensures itemsWithPoints == PriceItems(brands, items, multiplier)
    ensures totalPoints == SumPoints(itemsWithPoints)
  {
    itemsWithPoints := [];
    totalPoints := 0;
    var i := 0;
    while i < |items|
      invariant 0 <= i <= |items|
      invariant itemsWithPoints == PriceItems(brands, items[..i], multiplier)
      invariant totalPoints == SumPoints(itemsWithPoints)
    {
      var item := items[i];
      var points := CalculatePoints(brands, item.brandId, item.totalPrice, multiplier);
      var p := PricedItem(item, points);
      SumPointsAppend(itemsWithPoints, p);
      PriceItemsAppend(brands, items[..i], item, multiplier);
      assert items[..i + 1] == items[..i] + [item];
      itemsWithPoints := itemsWithPoints + [p];
      totalPoints := totalPoints + points;
      i := i + 1;
    }
    assert items[..i] == items;
  }

  lemma PriceItemsAppend(brands: map<nat, Brand>, items: seq<LineItem>, item: LineItem, multiplier: int)
    ensures PriceItems(brands, items + [item], multiplier)
         == PriceItems(brands, items, multiplier) + [PricedItem(item, CalculatePoints(brands, item.brandId, item.totalPrice, multiplier))]
  {
    var l := PriceItems(brands, items + [item], multiplier);
    var r := PriceItems(brands, items, multiplier) + [PricedItem(item, CalculatePoints(brands, item.brandId, item.totalPrice, multiplier))];
    assert |l| == |r|;
    forall i | 0 <= i < |l| ensures l[i] == r[i] {
      assert (items + [item])[i] == if i < |items| then items[i] else item;
    }
  }

  /** The receipt total is bounded by the per-item cap times the number of
      items: each item is capped on its own, never the receipt as a whole. */
  lemma {:induction false} ReceiptTotalBounds(brands: map<nat, Brand>, items: seq<LineItem>, multiplier: int)
    requires forall id :: id in brands ==> WellFormed(brands[id])
    requires forall i :: 0 <= i < |items| ==> items[i].totalPrice >= 0
    requires 0 <= multiplier
    ensures 0 <= SumPoints(PriceItems(brands, items, multiplier)) <= 10000 * |items|
  {
    if items != [] {
      PointsWithinCap(brands, items[0].brandId, items[0].totalPrice, multiplier);
      ReceiptTotalBounds(brands, items[1..], multiplier);
      assert PriceItems(brands, items, multiplier)[1..] == PriceItems(brands, items[1..], multiplier);
    }
  }

  /** Two items of one brand that both reach the cap earn twice the cap: the
      "max points per transaction" does not bound the receipt. An empty
      receipt earns 0, and the unit-test receipt earns 1000 + 1200. */
  lemma CapIsPerItem()
    ensures var brands := map[1 := TestBrand(50, 5000, true)];
            var items := [LineItem(1, 1, 1000, 1000), LineItem(1, 1, 1000, 1000)];
            SumPoints(PriceItems(brands, items, 100)) == 10000
    ensures SumPoints(PriceItems(map[], [], 100)) == 0
    ensures var brands := map[1 := TestBrand(50, 5000, true), 2 := TestBrand(50, 5000, true).(pointsPerKes := 8)];
            var items := [LineItem(1, 1, 100, 100), LineItem(2, 1, 150, 150)];
            SumPoints(PriceItems(brands, items, 100)) == 2200
  {
    var brands := map[1 := TestBrand(50, 5000, true)];
    var items := [LineItem(1, 1, 1000, 1000), LineItem(1, 1, 1000, 1000)];
    var priced := PriceItems(brands, items, 100);
    assert priced == [PricedItem(items[0], 5000), PricedItem(items[1], 5000)];
    assert priced[1..][1..] == [];
    assert SumPoints(priced[1..]) == 5000 + SumPoints(priced[1..][1..]);
    var brands2 := map[1 := TestBrand(50, 5000, true), 2 := TestBrand(50, 5000, true).(pointsPerKes := 8)];
    var items2 := [LineItem(1, 1, 100, 100), LineItem(2, 1, 150, 150)];
    var priced2 := PriceItems(brands2, items2, 100);
    assert priced2 == [PricedItem(items2[0], 1000), PricedItem(items2[1], 1200)];
    assert priced2[1..][1..] == [];
    assert SumPoints(priced2[1..]) == 1200 + SumPoints(priced2[1..][1..]);
  }

  // ---------------------------------------------------------------------
  // Tier promotion

  datatype Promotion = Promotion(tier: TierName, multiplier: nat, promoted: bool)

  /** `checkTierPromotion(totalPointsEarned, currentTierName)`: the tier of the
      total, flagged as a promotion iff its name differs from the current one. */
  function CheckTierPromotion(totalPointsEarned: int, currentTierName: string): (r: Promotion)
    ensures r.tier == CalculateTier(totalPointsEarned).name
    ensures r.multiplier == CalculateTier(totalPointsEarned).multiplier
    ensures r.promoted <==> NameOf(r.tier) != currentTierName
  {
    var t := CalculateTier(totalPointsEarned);
    Promotion(t.name, t.multiplier, NameOf(t.name) != currentTierName)
  }

  /** When the current name is the tier of an earlier, not larger total, a
      reported promotion is always to a strictly higher tier: lifetime totals
      only grow, so the comparison never reports a demotion. */
  lemma PromotionIsUpward(before: int, after: int)
    requires before <= after
    ensures var r := CheckTierPromotion(after, NameOf(CalculateTier(before).name));
            r.promoted <==> Rank(CalculateTier(before).name) < Rank(r.tier)
  {
    CalculateTierMonotone(before, after);
    var r := CheckTierPromotion(after, NameOf(CalculateTier(before).name));
    NameOfInjective(r.tier, CalculateTier(before).name);
  }

  /** 9999 + 1 points crosses into silver (x1.25); 15000 and 55000 promote
      from bronze and silver; 5000 and 75000 stay where they are. */
  lemma CheckTierPromotionExamples()
    ensures CheckTierPromotion(9999 + 1, "bronze") == Promotion(Silver, 125, true)
    ensures CheckTierPromotion(15000, "bronze") == Promotion(Silver, 125, true)
    ensures CheckTierPromotion(55000, "silver") == Promotion(Gold, 150, true)
    ensures CheckTierPromotion(5000, "bronze") == Promotion(Bronze, 100, false)
    ensures CheckTierPromotion(75000, "gold") == Promotion(Gold, 150, false)
  {
  }
}
