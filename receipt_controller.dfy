/** src/controllers/receiptController.js: the upload guards and the approval
    entry point. The stores table is a set of known store ids, the uploaded
    file is its stored filename, and the number `generateReceiptNumber`
    would draw is a parameter. */
module ReceiptController {
  import opened Common
  import opened Helpers
  import opened Http
  import opened Brands
  import opened PointsCalculator
  import opened Shoppers
  import opened Receipts
  import opened ReceiptProcessor

  const ShopperProfileNotFound: string := "Shopper profile not found"
  const StoreNotFound: string := "Store not found"
  const UploadedMessage: string := "Receipt uploaded successfully and is being processed"
  const ItemsRequired: string := "Receipt items are required"
  const ApprovedMessage: string := "Receipt approved successfully"
  const UploadDirectory: string := "/uploads/receipts/"

  /** The upload's provisional quality score: 90 with an image, 60 without. */
  function UploadQuality(imagePath: Option<string>): (q: int)
    ensures q == 90 <==> imagePath.Some?
    ensures q == 60 <==> imagePath.None?
  {
    if imagePath.Some? then 90 else 60
  }

  /** Where multer stored the file, or no path without a file. */
  function ImagePath(file: Option<string>): (p: Option<string>)
    ensures p.Some? <==> file.Some?
    ensures file.Some? ==> p.value == UploadDirectory + file.value
  {
    if file.Some? then Some(UploadDirectory + file.value) else None
  }

  /** The submitted form of `uploadReceipt`. */
  datatype Upload = Upload(
    storeId: nat,
    totalAmount: int,
    receiptNumber: Option<string>,
    captureMethod: Option<string>,
    file: Option<string>)

  datatype UploadView = UploadView(receiptId: nat, status: Status, message: string)

  /** The reply and the receipts table after an upload. */
  datatype Uploaded = Uploaded(reply: Reply<UploadView>, receipts: seq<Receipt>)

  /** The receipt an accepted upload creates: a missing or empty number is
      replaced by the generated one. */
  function UploadedReceipt(shopperId: nat, u: Upload, generatedNumber: string): ReceiptInput
  {
    var imagePath := ImagePath(u.file);
    ReceiptInput(shopperId, None, u.storeId,
                 Some(if Truthy(u.receiptNumber) then u.receiptNumber.value else generatedNumber),
                 u.totalAmount, imagePath, u.captureMethod, UploadQuality(imagePath))
  }

  /** `uploadReceipt` for the signed-in user: shopper, then store, then (only
      for a truthy number) the duplicate query, then the insert. */
  function UploadStep(receipts: seq<Receipt>, shoppers: seq<Shopper>, stores: set<nat>, userId: nat,
                      u: Upload, generatedNumber: string, now: int): Uploaded
  {
    var sid := FindUser(shoppers, userId, 0);
    if sid.None? then Uploaded(Refuse(StatusNotFound, ShopperProfileNotFound), receipts)
    else if u.storeId !in stores then Uploaded(Refuse(StatusNotFound, StoreNotFound), receipts)
    else if Truthy(u.receiptNumber) && CheckDuplicate(receipts, u.receiptNumber, u.storeId, u.totalAmount, now) then
      Uploaded(Refuse(StatusConflict, DuplicateMessage), receipts)
    else
      var created := receipts + [NewReceipt(UploadedReceipt(sid.value, u, generatedNumber), now)];
      Uploaded(Sent(StatusCreated, SuccessResponse(UploadView(|created|, Pending, UploadedMessage), DefaultSuccessMessage)),
               created)
  }

  /** A missing shopper or store answers 404, and a truthy number already
      seen within the hour for that store and amount answers 409; none of
      them creates a receipt. A missing number is never checked. */
  lemma UploadGuards(receipts: seq<Receipt>, shoppers: seq<Shopper>, stores: set<nat>, userId: nat,
                     u: Upload, generatedNumber: string, now: int)
    ensures var o := UploadStep(receipts, shoppers, stores, userId, u, generatedNumber, now);
            && (FindUser(shoppers, userId, 0).None? ==> o.reply == Refuse(StatusNotFound, ShopperProfileNotFound))
            && ((FindUser(shoppers, userId, 0).Some? && u.storeId !in stores)
                ==> o.reply == Refuse(StatusNotFound, StoreNotFound))
            && (o.reply.Sent? && o.reply.status != StatusCreated ==> o.receipts == receipts)
            && (o.reply == Refuse(StatusConflict, DuplicateMessage) <==>
                  FindUser(shoppers, userId, 0).Some? && u.storeId in stores && Truthy(u.receiptNumber)
                  && CheckDuplicate(receipts, u.receiptNumber, u.storeId, u.totalAmount, now))
  {
  }

  /** An accepted upload appends exactly one pending receipt for the user's
      shopper, with a number, the stored image path, and score 90 or 60. */
  lemma UploadCreatesPending(receipts: seq<Receipt>, shoppers: seq<Shopper>, stores: set<nat>, userId: nat,
                             u: Upload, generatedNumber: string, now: int)
    requires FindUser(shoppers, userId, 0).Some? && u.storeId in stores
    requires !(Truthy(u.receiptNumber) && CheckDuplicate(receipts, u.receiptNumber, u.storeId, u.totalAmount, now))
    ensures var o := UploadStep(receipts, shoppers, stores, userId, u, generatedNumber, now);
            var r := o.receipts[|receipts|];
            && o.reply.Sent? && o.reply.status == StatusCreated
            && o.reply.body.data == Some(UploadView(|receipts| + 1, Pending, UploadedMessage))
            && |o.receipts| == |receipts| + 1 && o.receipts[..|receipts|] == receipts
            && r.status == Pending && r.shopperId == FindUser(shoppers, userId, 0).value
            && r.receiptNumber.Some?
            && (Truthy(u.receiptNumber) ==> r.receiptNumber == u.receiptNumber)
            && r.receiptImagePath == ImagePath(u.file)
            && r.qualityScore == (if u.file.Some? then 90 else 60)
  {
    var o := UploadStep(receipts, shoppers, stores, userId, u, generatedNumber, now);
    assert o.receipts[..|receipts|] == receipts;
  }

  /** `uploadReceipt` on the tables. */
  method UploadReceipt(receiptTable: ReceiptTable, shopperTable: ShopperTable, stores: set<nat>, userId: nat,
                       u: Upload, generatedNumber: string, now: int)
    returns (reply: Reply<UploadView>)
    modifies receiptTable
    ensures var o := UploadStep(old(receiptTable.rows), shopperTable.rows, stores, userId, u, generatedNumber, now);
            reply == o.reply && receiptTable.rows == o.receipts
    ensures receiptTable.items == old(receiptTable.items)
  {
    var sid := shopperTable.FindByUserId(userId);
    if sid.None? {
      return Refuse(StatusNotFound, ShopperProfileNotFound);
    }
    if u.storeId !in stores {
      return Refuse(StatusNotFound, StoreNotFound);
    }
    var imagePath := ImagePath(u.file);
    if Truthy(u.receiptNumber) {
      var isDuplicate := receiptTable.CheckDuplicateAt(u.receiptNumber, u.storeId, u.totalAmount, now);
      if isDuplicate {
        return Refuse(StatusConflict, DuplicateMessage);
      }
    }
    var qualityScore := if imagePath.Some? then 90 else 60;
    var number := if Truthy(u.receiptNumber) then u.receiptNumber.value else generatedNumber;
    var receiptId := receiptTable.Create(ReceiptInput(sid.value, None, u.storeId, Some(number), u.totalAmount,
                                                      imagePath, u.captureMethod, qualityScore), now);
    reply := Sent(StatusCreated, SuccessResponse(UploadView(receiptId, Pending, UploadedMessage), DefaultSuccessMessage));
  }

  // ---------------------------------------------------------------------
  // Approval

  /** The reply and the tables after `approveReceipt`. `items` is `None`
      when the body holds no array. */
  datatype Approval = Approval(reply: Reply<Settlement>, after: Ledger)

  function ApproveStep(st: Ledger, brands: map<nat, Brand>, receiptId: int, items: Option<seq<LineItem>>, now: int): Approval
  {
    if items.None? || |items.value| == 0 then Approval(Refuse(StatusBadRequest, ItemsRequired), st)
    else
      var p := Settle(st, brands, receiptId, items.value, now);
      if p.result.Err? then Approval(Passed(p.result.message), p.after)
      else if !Success(p.result.value) then Approval(Refuse(StatusBadRequest, Message(p.result.value).value), p.after)
      else Approval(Sent(StatusOk, SuccessResponse(p.result.value, ApprovedMessage)), p.after)
  }

  /** Without items nothing is processed; an unsuccessful settlement is a 400
      carrying the processor's message (its flag or reject still stands); a
      thrown error is passed on; success is a 200 with the settlement. */
  lemma ApproveReplies(st: Ledger, brands: map<nat, Brand>, receiptId: int, items: Option<seq<LineItem>>, now: int)
    ensures var a := ApproveStep(st, brands, receiptId, items, now);
            && (items.None? || items == Some([]) ==> a == Approval(Refuse(StatusBadRequest, ItemsRequired), st))
            && (items.Some? && items.value != [] ==>
                  var p := Settle(st, brands, receiptId, items.value, now);
                  && a.after == p.after
                  && (p.result.Err? ==> a.reply == Passed(p.result.message))
                  && (p.result.Ok? && p.result.value.LowQuality? ==>
                        a.reply == Refuse(StatusBadRequest, LowQualityMessage))
                  && (p.result == Ok(DuplicateReceipt) ==> a.reply == Refuse(StatusBadRequest, DuplicateMessage))
                  && (a.reply.Sent? && a.reply.status == StatusOk <==> p.result.Ok? && Success(p.result.value)))
  {
  }

  /** `approveReceipt` on the tables. */
  method ApproveReceipt(receiptTable: ReceiptTable, shopperTable: ShopperTable, brands: map<nat, Brand>,
                        receiptId: int, items: Option<seq<LineItem>>, now: int)
    returns (reply: Reply<Settlement>)
    modifies receiptTable, shopperTable
    ensures var a := ApproveStep(old(Ledger(receiptTable.rows, receiptTable.items, shopperTable.rows)),
                                 brands, receiptId, items, now);
            reply == a.reply && Ledger(receiptTable.rows, receiptTable.items, shopperTable.rows) == a.after
  {
    if items.None? || |items.value| == 0 {
      return Refuse(StatusBadRequest, ItemsRequired);
    }
    var result := ProcessReceipt(receiptTable, shopperTable, brands, receiptId, items.value, now);
    if result.Err? {
      return Passed(result.message);
    }
    if !Success(result.value) {
      return Refuse(StatusBadRequest, Message(result.value).value);
    }
    reply := Sent(StatusOk, SuccessResponse(result.value, ApprovedMessage));
  }
}
