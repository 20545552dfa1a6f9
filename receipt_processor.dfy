/** src/services/receiptProcessor.js: settling a submitted receipt. The
    processor reads the receipt and its shopper, prices the items with the
    shopper's current multiplier, then runs three gates in a fixed order:
    quality (flag), duplicate (reject), and finally stores the items,
    approves the receipt and credits the shopper in three separate steps. */
module ReceiptProcessor {
  import opened Common
  import opened Helpers
  import opened Brands
  import opened PointsCalculator
  import opened Shoppers
  import opened Receipts

  // ---------------------------------------------------------------------
  // Quality score

  const LowQualityThreshold: int := 50
  const AutoApproveThreshold: int := 80

  /** 100 minus 50 without a (truthy) image path, minus 20 without a
      (truthy) receipt number, minus 10 unless captured by phone, floored at 0. */
  function QualityScore(r: Receipt): int
  {
    var missingImage := if Truthy(r.receiptImagePath) then 0 else 50;
    var missingNumber := if Truthy(r.receiptNumber) then 0 else 20;
    var notPhone := if r.captureMethod == Some("phone") then 0 else 10;
    var score := 100 - missingImage - missingNumber - notPhone;
    if score < 0 then 0 else score
  }

  /** `validateReceiptQuality`: the deductions applied one after another to a
      running score. */
  method ValidateReceiptQuality(r: Receipt) returns (score: int)
    ensures score == QualityScore(r)
    ensures 20 <= score <= 100
  {
    score := 100;
    if !Truthy(r.receiptImagePath) {
      score := score - 50;
    }
    if !Truthy(r.receiptNumber) {
      score := score - 20;
    }
    if r.captureMethod != Some("phone") {
      score := score - 10;
    }
    if score < 0 {
      score := 0;
    }
  }

  /** The score lies in [20, 100], so the floor at 0 never applies; it is 100
      exactly for an image, a number and a phone capture, and it falls below
      the flagging threshold exactly when the image is missing and so is the
      number or the phone capture. */
  lemma QualityScoreFacts(r: Receipt)
    ensures 20 <= QualityScore(r) <= 100
    ensures QualityScore(r) == 100 <==> Truthy(r.receiptImagePath) && Truthy(r.receiptNumber) && r.captureMethod == Some("phone")
    ensures QualityScore(r) < LowQualityThreshold <==>
              !Truthy(r.receiptImagePath) && (!Truthy(r.receiptNumber) || r.captureMethod != Some("phone"))
    ensures Truthy(r.receiptImagePath) ==> QualityScore(r) >= 70
  {
  }

  /** The unit-test figures: 100, 50 without image, 80 without number, 90 by
      email, 20 with all three deductions. */
  lemma QualityScoreExamples(r: Receipt)
    requires r.receiptImagePath == Some("/path/to/image.jpg") && r.receiptNumber == Some("RCP12345")
    requires r.captureMethod == Some("phone")
    ensures QualityScore(r) == 100
    ensures QualityScore(r.(receiptImagePath := None)) == 50
    ensures QualityScore(r.(receiptNumber := None)) == 80
    ensures QualityScore(r.(captureMethod := Some("email"))) == 90
    ensures QualityScore(r.(receiptImagePath := None, receiptNumber := None, captureMethod := Some("email"))) == 20
  {
  }

  // ---------------------------------------------------------------------
  // Settlement

  /** What `processReceipt` returns when it does not throw. */
  datatype Settlement =
    | LowQuality(qualityScore: int)
    | DuplicateReceipt
    | Awarded(pointsAwarded: int, tierMultiplier: nat, qualityScore: int)

  const ReceiptNotFoundMessage: string := "Receipt not found"
  const ShopperNotFoundMessage: string := "Shopper not found"
  const LowQualityMessage: string := "Receipt flagged for manual review due to low quality"
  const DuplicateMessage: string := "Duplicate receipt detected"
  const DuplicateReason: string := "duplicate"

  predicate Success(s: Settlement)
  {
    s.Awarded?
  }

  /** The `message` of an unsuccessful result. */
  function Message(s: Settlement): (m: Option<string>)
    ensures m.Some? <==> !Success(s)
  {
    match s
    case LowQuality(_) => Some(LowQualityMessage)
    case DuplicateReceipt => Some(DuplicateMessage)
    case Awarded(_, _, _) => None
  }

  /** The tables processing reads and writes. */
  datatype Ledger = Ledger(receipts: seq<Receipt>, items: seq<ItemRow>, shoppers: seq<Shopper>)

  /** The outcome of processing and the tables afterwards. */
  datatype Processed = Processed(result: Result<Settlement>, after: Ledger)

  /** `processReceipt(receiptId, items)` as one function of the tables before
      it. The receipt's current status is never consulted. */
  function Settle(st: Ledger, brands: map<nat, Brand>, receiptId: int, items: seq<LineItem>, now: int): Processed
  {
    if At(st.receipts, receiptId).None? then Processed(Err(ReceiptNotFoundMessage), st)
    else
      var receipt := st.receipts[receiptId - 1];
      if At(st.shoppers, receipt.shopperId).None? then Processed(Err(ShopperNotFoundMessage), st)
      else
        var multiplier := st.shoppers[receipt.shopperId - 1].tierMultiplier;
        var priced := PriceItems(brands, items, multiplier);
        var total := SumPoints(priced);
        var q := QualityScore(receipt);
        if q < LowQualityThreshold then
          Processed(Ok(LowQuality(q)), st.(receipts := Put(st.receipts, receiptId, FlagRow(receipt))))
        else if CheckDuplicate(st.receipts, receipt.receiptNumber, receipt.storeId, receipt.totalAmount, now) then
          Processed(Ok(DuplicateReceipt), st.(receipts := Put(st.receipts, receiptId, RejectRow(receipt, now))))
        else if items == [] then Processed(Err(EmptyInsertMessage), st)
        else
          Processed(Ok(Awarded(total, multiplier, q)),
                    Ledger(Put(st.receipts, receiptId, ApproveRow(receipt, total, multiplier, now)),
                           st.items + ItemRows(receiptId, priced),
                           ApplyCredit(st.shoppers, receipt.shopperId, total)))
  }

  /** The receipt and shopper lookups that guard processing. */
  predicate Found(st: Ledger, receiptId: int)
  {
    1 <= receiptId <= |st.receipts| && 1 <= st.receipts[receiptId - 1].shopperId <= |st.shoppers|
  }

  /** The gates a receipt passes before its items are inserted. */
  predicate PassesGates(st: Ledger, receiptId: int, now: int)
    requires Found(st, receiptId)
  {
    var r := st.receipts[receiptId - 1];
    QualityScore(r) >= LowQualityThreshold
    && !CheckDuplicate(st.receipts, r.receiptNumber, r.storeId, r.totalAmount, now)
  }

  /** A missing receipt, then a missing shopper, throws before anything is
      written; past both gates an empty item list throws at the bulk insert,
      also before anything is written. No other case throws. */
  lemma SettleErrors(st: Ledger, brands: map<nat, Brand>, receiptId: int, items: seq<LineItem>, now: int)
    ensures var p := Settle(st, brands, receiptId, items, now);
            && (p.result.Err? <==> !Found(st, receiptId) || (PassesGates(st, receiptId, now) && items == []))
            && (!(1 <= receiptId <= |st.receipts|) ==> p.result == Err(ReceiptNotFoundMessage))
            && ((1 <= receiptId <= |st.receipts| && !(1 <= st.receipts[receiptId - 1].shopperId <= |st.shoppers|))
                ==> p.result == Err(ShopperNotFoundMessage))
            && (Found(st, receiptId) && PassesGates(st, receiptId, now) && items == []
                ==> p.result == Err(EmptyInsertMessage))
            && (p.result.Err? ==> p.after == st)
  {
  }

  /** The quality gate: a score below 50 flags the receipt and does nothing
      else — no items, no approval, no credit. */
  lemma LowQualityIsFlagged(st: Ledger, brands: map<nat, Brand>, receiptId: int, items: seq<LineItem>, now: int)
    requires 1 <= receiptId <= |st.receipts| && 1 <= st.receipts[receiptId - 1].shopperId <= |st.shoppers|
    requires QualityScore(st.receipts[receiptId - 1]) < LowQualityThreshold
    ensures var p := Settle(st, brands, receiptId, items, now);
            && p.result == Ok(LowQuality(QualityScore(st.receipts[receiptId - 1])))
            && !Success(p.result.value)
            && p.after.items == st.items && p.after.shoppers == st.shoppers
            && |p.after.receipts| == |st.receipts|
            && p.after.receipts[receiptId - 1] == FlagRow(st.receipts[receiptId - 1])
            && forall k :: 0 <= k < |st.receipts| && k != receiptId - 1 ==> p.after.receipts[k] == st.receipts[k]
  {
  }

  /** The duplicate gate runs only past the quality gate: a duplicate is
      rejected and nothing else is written. */
  lemma DuplicateIsRejected(st: Ledger, brands: map<nat, Brand>, receiptId: int, items: seq<LineItem>, now: int)
    requires 1 <= receiptId <= |st.receipts| && 1 <= st.receipts[receiptId - 1].shopperId <= |st.shoppers|
    requires QualityScore(st.receipts[receiptId - 1]) >= LowQualityThreshold
    requires var r := st.receipts[receiptId - 1]; CheckDuplicate(st.receipts, r.receiptNumber, r.storeId, r.totalAmount, now)
    ensures var p := Settle(st, brands, receiptId, items, now);
            && p.result == Ok(DuplicateReceipt)
            && p.after.items == st.items && p.after.shoppers == st.shoppers
            && p.after.receipts == Put(st.receipts, receiptId, RejectRow(st.receipts[receiptId - 1], now))
  {
  }

  /** The success path: the items are stored with their points, the receipt
      is approved with the total and the multiplier the shopper had before
      the credit, and the shopper is credited that total. */
  lemma AwardPath(st: Ledger, brands: map<nat, Brand>, receiptId: int, items: seq<LineItem>, now: int)
    requires 1 <= receiptId <= |st.receipts| && 1 <= st.receipts[receiptId - 1].shopperId <= |st.shoppers|
    requires QualityScore(st.receipts[receiptId - 1]) >= LowQualityThreshold
    requires var r := st.receipts[receiptId - 1]; !CheckDuplicate(st.receipts, r.receiptNumber, r.storeId, r.totalAmount, now)
    requires items != []
    ensures var r := st.receipts[receiptId - 1];
            var before := st.shoppers[r.shopperId - 1];
            var priced := PriceItems(brands, items, before.tierMultiplier);
            var p := Settle(st, brands, receiptId, items, now);
            && p.result == Ok(Awarded(SumPoints(priced), before.tierMultiplier, QualityScore(r)))
            && p.after.items == st.items + ItemRows(receiptId, priced)
            && SumItemPoints(ItemRows(receiptId, priced)) == SumPoints(priced)
            && p.after.receipts[receiptId - 1] == ApproveRow(r, SumPoints(priced), before.tierMultiplier, now)
            && p.after.shoppers[r.shopperId - 1] == Credit(before, SumPoints(priced))
  {
    ItemRowsPoints(receiptId, PriceItems(brands, items, st.shoppers[st.receipts[receiptId - 1].shopperId - 1].tierMultiplier));
  }

  /** Processing never looks at the status: the same receipt in any status
      settles the same way. */
  lemma SettleIgnoresStatus(st: Ledger, brands: map<nat, Brand>, receiptId: int, items: seq<LineItem>, now: int, s: Status)
    requires 1 <= receiptId <= |st.receipts|
    ensures var st' := st.(receipts := Put(st.receipts, receiptId, st.receipts[receiptId - 1].(status := s)));
            Settle(st', brands, receiptId, items, now).result == Settle(st, brands, receiptId, items, now).result
  {
    var r := st.receipts[receiptId - 1];
    var rows' := Put(st.receipts, receiptId, r.(status := s));
    var dup := CheckDuplicate(st.receipts, r.receiptNumber, r.storeId, r.totalAmount, now);
    var dup' := CheckDuplicate(rows', r.receiptNumber, r.storeId, r.totalAmount, now);
    if dup {
      var k :| 0 <= k < |st.receipts| && SameReceiptWithinHour(st.receipts[k], r.receiptNumber, r.storeId, r.totalAmount, now);
      assert SameReceiptWithinHour(rows'[k], r.receiptNumber, r.storeId, r.totalAmount, now);
    }
    if dup' {
      var k :| 0 <= k < |rows'| && SameReceiptWithinHour(rows'[k], r.receiptNumber, r.storeId, r.totalAmount, now);
      assert SameReceiptWithinHour(st.receipts[k], r.receiptNumber, r.storeId, r.totalAmount, now);
    }
  }

  /** A receipt with a number that is processed within an hour of its own
      creation is always rejected: the duplicate query finds the receipt
      itself. */
  lemma FreshReceiptIsOwnDuplicate(st: Ledger, brands: map<nat, Brand>, receiptId: int, items: seq<LineItem>, now: int)
    requires 1 <= receiptId <= |st.receipts| && 1 <= st.receipts[receiptId - 1].shopperId <= |st.shoppers|
    requires QualityScore(st.receipts[receiptId - 1]) >= LowQualityThreshold
    requires st.receipts[receiptId - 1].receiptNumber.Some?
    requires now < st.receipts[receiptId - 1].createdAt + DuplicateWindowSeconds
    ensures Settle(st, brands, receiptId, items, now).result == Ok(DuplicateReceipt)
  {
    ReceiptIsItsOwnDuplicate(st.receipts, receiptId, now);
  }

  /** Approval is not final: once every receipt is an hour old, processing an
      approved receipt again credits the shopper a second time. */
  lemma ReprocessingCreditsAgain(st: Ledger, brands: map<nat, Brand>, receiptId: int, items: seq<LineItem>, now: int, later: int)
    requires Settle(st, brands, receiptId, items, now).result.Ok?
    requires Settle(st, brands, receiptId, items, now).result.value.Awarded?
    requires forall k :: 0 <= k < |st.receipts| ==> st.receipts[k].createdAt <= later - DuplicateWindowSeconds
    ensures var mid := Settle(st, brands, receiptId, items, now).after;
            var again := Settle(mid, brands, receiptId, items, later);
            var sid := st.receipts[receiptId - 1].shopperId;
            && mid.receipts[receiptId - 1].status == Approved
            && again.result.Ok? && again.result.value.Awarded?
            && again.after.shoppers[sid - 1].pointsBalance
               == mid.shoppers[sid - 1].pointsBalance + again.result.value.pointsAwarded
  {
    var r := st.receipts[receiptId - 1];
    var mid := Settle(st, brands, receiptId, items, now).after;
    assert mid.receipts[receiptId - 1] == ApproveRow(r, mid.receipts[receiptId - 1].pointsAwarded.value,
                                                     mid.receipts[receiptId - 1].tierMultiplierApplied.value, now);
    assert QualityScore(mid.receipts[receiptId - 1]) == QualityScore(r);
    var m := mid.receipts[receiptId - 1];
    assert forall k :: 0 <= k < |mid.receipts| ==> mid.receipts[k].createdAt == st.receipts[k].createdAt;
    if m.receiptNumber.Some? {
      NoDuplicateWithoutNumberOrAfterHour(mid.receipts, m.storeId, m.totalAmount, later, m.receiptNumber.value);
    }
  }

  /** The processor's own rule for the result, as the controllers read it. */
  function ResultMessage(r: Result<Settlement>): Option<string>
  {
    if r.Ok? then Message(r.value) else Some(r.message)
  }

  /** `processReceipt` on the tables: each step is the model call the
      source makes, and the outcome and the new tables are those of `Settle`. */
  method ProcessReceipt(receipts: ReceiptTable, shoppers: ShopperTable, brands: map<nat, Brand>,
                        receiptId: int, items: seq<LineItem>, now: int)
    returns (r: Result<Settlement>)
    modifies receipts, shoppers
    ensures var p := Settle(old(Ledger(receipts.rows, receipts.items, shoppers.rows)), brands, receiptId, items, now);
            r == p.result && Ledger(receipts.rows, receipts.items, shoppers.rows) == p.after
  {
    var receipt := receipts.FindById(receiptId);
    if receipt.None? {
      return Err(ReceiptNotFoundMessage);
    }
    var shopper := shoppers.FindById(receipt.value.shopperId);
    if shopper.None? {
      return Err(ShopperNotFoundMessage);
    }
    var totalPoints, itemsWithPoints := CalculateReceiptPoints(brands, items, shopper.value.tierMultiplier);
    var qualityScore := ValidateReceiptQuality(receipt.value);
    if qualityScore < LowQualityThreshold {
      receipts.Flag(receiptId);
      return Ok(LowQuality(qualityScore));
    }
    var isDuplicate := receipts.CheckDuplicateAt(receipt.value.receiptNumber, receipt.value.storeId,
                                                 receipt.value.totalAmount, now);
    if isDuplicate {
      receipts.Reject(receiptId, now);
      return Ok(DuplicateReceipt);
    }
    var added := receipts.AddItems(receiptId, itemsWithPoints);
    if added.Fail? {
      return Err(added.message);
    }
    receipts.Approve(receiptId, totalPoints, shopper.value.tierMultiplier, now);
    shoppers.UpdatePoints(receipt.value.shopperId, totalPoints);
    r := Ok(Awarded(totalPoints, shopper.value.tierMultiplier, qualityScore));
  }

  // ---------------------------------------------------------------------
  // Auto-approval and PPG payment

  /** `autoApprove`: the processor's result with `autoApproved`, and
      `requiresManualReview` whenever it is not auto-approved. */
  datatype AutoApproval = AutoApproval(settlement: Settlement, autoApproved: bool, requiresManualReview: bool)

  function AutoApprove(s: Settlement): (a: AutoApproval)
    ensures a.settlement == s
    ensures a.autoApproved <==> s.Awarded? && s.qualityScore >= AutoApproveThreshold
    ensures a.requiresManualReview <==> !a.autoApproved
  {
    if Success(s) && s.qualityScore >= AutoApproveThreshold then AutoApproval(s, true, false)
    else AutoApproval(s, false, true)
  }

  /** A receipt can be approved and credited and still be sent to manual
      review: a score of 50 to 79 passes the processor's gate but not the
      auto-approval threshold. */
  lemma ApprovedYetManualReview(points: int, multiplier: nat, q: int)
    requires LowQualityThreshold <= q < AutoApproveThreshold
    ensures Success(Awarded(points, multiplier, q))
    ensures AutoApprove(Awarded(points, multiplier, q)).requiresManualReview
  {
  }

  /** `calculatePPGPayment(ppgId, ...)`: the PPG id plays no part. */
  function CalculatePpgPayment(ppgId: nat, activeItems: real, receiptsProcessed: real, target: real, dailyWage: real): (pay: real)
    ensures pay == PpgPayment(activeItems, receiptsProcessed, target, dailyWage)
  {
    PpgPayment(activeItems, receiptsProcessed, target, dailyWage)
  }

  lemma PpgPaymentIgnoresPpg(a: nat, b: nat, activeItems: real, receiptsProcessed: real, target: real, dailyWage: real)
    ensures CalculatePpgPayment(a, activeItems, receiptsProcessed, target, dailyWage)
         == CalculatePpgPayment(b, activeItems, receiptsProcessed, target, dailyWage)
    ensures CalculatePpgPayment(a, 5.0, 100.0, 200.0, 1000.0) == 2500.0
  {
    PpgPaymentExamples();
  }
}
