/** src/models/Receipt.js: submitted receipts, their status transitions, the
    stored line items, the duplicate query and the status listings. Time is
    a second counter; `now` stands for the database's NOW(). */
module Receipts {
  import opened Common
  import opened Helpers
  import opened Query
  import opened PointsCalculator

  datatype Status = Pending | Approved | Rejected | Flagged

  datatype Receipt = Receipt(
    shopperId: nat,
    ppgId: Option<nat>,
    storeId: nat,
    receiptNumber: Option<string>,
    totalAmount: int,
    receiptImagePath: Option<string>,
    captureMethod: Option<string>,
    qualityScore: int,
    status: Status,
    pointsAwarded: Option<int>,
    tierMultiplierApplied: Option<nat>,
    createdAt: int,
    processedAt: Option<int>)

  /** The submission `create` receives. */
  datatype ReceiptInput = ReceiptInput(
    shopperId: nat,
    ppgId: Option<nat>,
    storeId: nat,
    receiptNumber: Option<string>,
    totalAmount: int,
    receiptImagePath: Option<string>,
    captureMethod: Option<string>,
    qualityScore: int)

  /** One `receipt_items` row. */
  datatype ItemRow = ItemRow(
    receiptId: nat,
    brandId: nat,
    quantity: int,
    unitPrice: int,
    totalPrice: int,
    pointsCalculated: int)

  /** The submission part of a receipt: everything the status transitions
      below leave alone. */
  predicate SameSubmission(a: Receipt, b: Receipt)
  {
    && a.shopperId == b.shopperId && a.storeId == b.storeId
    && a.receiptNumber == b.receiptNumber && a.totalAmount == b.totalAmount
    && a.receiptImagePath == b.receiptImagePath && a.captureMethod == b.captureMethod
    && a.qualityScore == b.qualityScore && a.createdAt == b.createdAt
  }

  /** The row `create` inserts: always pending, not yet processed. */
  function NewReceipt(d: ReceiptInput, now: int): (r: Receipt)
    ensures r.status == Pending && r.processedAt.None? && r.createdAt == now
    ensures r.pointsAwarded.None? && r.tierMultiplierApplied.None?
    ensures r.shopperId == d.shopperId && r.ppgId == d.ppgId && r.storeId == d.storeId
    ensures r.receiptNumber == d.receiptNumber && r.totalAmount == d.totalAmount
    ensures r.receiptImagePath == d.receiptImagePath && r.captureMethod == d.captureMethod
    ensures r.qualityScore == d.qualityScore
  {
    Receipt(d.shopperId, d.ppgId, d.storeId, d.receiptNumber, d.totalAmount, d.receiptImagePath,
            d.captureMethod, d.qualityScore, Pending, None, None, now, None)
  }

  // ---------------------------------------------------------------------
  // Status transitions on one row; none of them looks at the prior status

  function ApproveRow(r: Receipt, points: int, multiplier: nat, now: int): Receipt
  {
    r.(status := Approved, pointsAwarded := Some(points), tierMultiplierApplied := Some(multiplier),
       processedAt := Some(now))
  }

  function RejectRow(r: Receipt, now: int): Receipt
  {
    r.(status := Rejected, processedAt := Some(now))
  }

  function FlagRow(r: Receipt): Receipt
  {
    r.(status := Flagged)
  }

  /** `updateStatus(status, processedBy)`: the processor, when truthy, is
      recorded as the receipt's PPG. */
  function UpdateStatusRow(r: Receipt, status: Status, processedBy: Option<nat>, now: int): Receipt
  {
    var r' := r.(status := status, processedAt := Some(now));
    if processedBy.Some? && processedBy.value != 0 then r'.(ppgId := processedBy) else r'
  }

  /** Approve, reject and flag reach their status from every status, keep the
      submission, and only approve and reject stamp `processed_at`; flag
      keeps the old stamp, and only approve records points and multiplier. */
  lemma StatusTransitions(r: Receipt, points: int, multiplier: nat, now: int)
    ensures var a := ApproveRow(r, points, multiplier, now);
            && a.status == Approved && a.processedAt == Some(now) && SameSubmission(a, r)
            && a.pointsAwarded == Some(points) && a.tierMultiplierApplied == Some(multiplier)
            && a.ppgId == r.ppgId
    ensures var j := RejectRow(r, now);
            && j.status == Rejected && j.processedAt == Some(now) && SameSubmission(j, r)
            && j.pointsAwarded == r.pointsAwarded && j.ppgId == r.ppgId
    ensures var f := FlagRow(r);
            && f.status == Flagged && f.processedAt == r.processedAt && SameSubmission(f, r)
            && f.pointsAwarded == r.pointsAwarded && f.ppgId == r.ppgId
  {
  }

  /** `updateStatus` sets the status and the stamp, and changes the PPG only
      for a truthy processor id. */
  lemma UpdateStatusEffect(r: Receipt, status: Status, processedBy: Option<nat>, now: int)
    ensures var u := UpdateStatusRow(r, status, processedBy, now);
            && u.status == status && u.processedAt == Some(now) && SameSubmission(u, r)
            && u.ppgId == if processedBy.Some? && processedBy.value != 0 then processedBy else r.ppgId
  {
  }

  // ---------------------------------------------------------------------
  // Line items

  /** `items.map(...)`: one row per priced item, in order, tagged with the receipt. */
  function ItemRows(receiptId: nat, priced: seq<PricedItem>): (rows: seq<ItemRow>)
    ensures |rows| == |priced|
    ensures forall k :: 0 <= k < |priced| ==>
      rows[k] == ItemRow(receiptId, priced[k].item.brandId, priced[k].item.quantity,
                         priced[k].item.unitPrice, priced[k].item.totalPrice, priced[k].pointsCalculated)
  {
    if priced == [] then []
    else
      var p := priced[0];
      [ItemRow(receiptId, p.item.brandId, p.item.quantity, p.item.unitPrice, p.item.totalPrice, p.pointsCalculated)]
      + ItemRows(receiptId, priced[1..])
  }

  /** The stored rows carry the points the calculator gave, so their points
      add up to the receipt total it reported. */
  lemma {:induction false} ItemRowsPoints(receiptId: nat, priced: seq<PricedItem>)
    ensures SumItemPoints(ItemRows(receiptId, priced)) == SumPoints(priced)
  {
    if priced != [] {
      ItemRowsPoints(receiptId, priced[1..]);
      assert ItemRows(receiptId, priced)[1..] == ItemRows(receiptId, priced[1..]);
    }
  }

  function SumItemPoints(rows: seq<ItemRow>): int
  {
    if rows == [] then 0 else rows[0].pointsCalculated + SumItemPoints(rows[1..])
  }

  /** The error a bulk insert with an empty VALUES list raises; the driver's
      exact wording is not modelled. */
  const EmptyInsertMessage: string := "ER_PARSE_ERROR"

  // ---------------------------------------------------------------------
  // Duplicate query

  const DuplicateWindowSeconds: int := 3600

  /** One row of `checkDuplicate`'s WHERE clause. A NULL number never equals
      anything in SQL, so a receipt without a number is never a duplicate. */
  predicate SameReceiptWithinHour(r: Receipt, receiptNumber: Option<string>, storeId: nat, totalAmount: int, now: int)
  {
    && receiptNumber.Some? && r.receiptNumber == receiptNumber
    && r.storeId == storeId && r.totalAmount == totalAmount
    && r.createdAt > now - DuplicateWindowSeconds
  }

  /** `checkDuplicate` over the rows from index `from` on: any status, any
      receipt, the one being processed included. */
  function AnyDuplicate(rows: seq<Receipt>, receiptNumber: Option<string>, storeId: nat, totalAmount: int, now: int, from: nat): (dup: bool)
    requires from <= |rows|
    ensures dup <==> exists k :: from <= k < |rows| && SameReceiptWithinHour(rows[k], receiptNumber, storeId, totalAmount, now)
    decreases |rows| - from
  {
    if from == |rows| then false
    else if SameReceiptWithinHour(rows[from], receiptNumber, storeId, totalAmount, now) then true
    else AnyDuplicate(rows, receiptNumber, storeId, totalAmount, now, from + 1)
  }

  function CheckDuplicate(rows: seq<Receipt>, receiptNumber: Option<string>, storeId: nat, totalAmount: int, now: int): (dup: bool)
  {
    AnyDuplicate(rows, receiptNumber, storeId, totalAmount, now, 0)
  }

  /** Any stored receipt with a number, checked against its own number, store
      and amount within the hour after it was created, counts as its own
      duplicate. */
  lemma ReceiptIsItsOwnDuplicate(rows: seq<Receipt>, id: nat, now: int)
    requires 1 <= id <= |rows| && rows[id - 1].receiptNumber.Some?
    requires now < rows[id - 1].createdAt + DuplicateWindowSeconds
    ensures CheckDuplicate(rows, rows[id - 1].receiptNumber, rows[id - 1].storeId, rows[id - 1].totalAmount, now)
  {
    assert SameReceiptWithinHour(rows[id - 1], rows[id - 1].receiptNumber, rows[id - 1].storeId, rows[id - 1].totalAmount, now);
  }

  /** No duplicate is ever found for a missing number, nor once every
      matching receipt is an hour old. */
  lemma NoDuplicateWithoutNumberOrAfterHour(rows: seq<Receipt>, storeId: nat, totalAmount: int, now: int, number: string)
    ensures !CheckDuplicate(rows, None, storeId, totalAmount, now)
    ensures (forall k :: 0 <= k < |rows| ==> rows[k].createdAt <= now - DuplicateWindowSeconds)
            ==> !CheckDuplicate(rows, Some(number), storeId, totalAmount, now)
  {
  }

  // ---------------------------------------------------------------------
  // Listings

  /** The filters of `findAll`; each applies only when truthy (an id of 0 is
      no filter). */
  datatype ReceiptFilters = ReceiptFilters(status: Option<Status>, shopperId: Option<nat>, storeId: Option<nat>, ppgId: Option<nat>)

  predicate Given(o: Option<nat>)
  {
    o.Some? && o.value != 0
  }

  predicate Matches(f: ReceiptFilters, r: Receipt)
  {
    && (f.status.Some? ==> r.status == f.status.value)
    && (Given(f.shopperId) ==> r.shopperId == f.shopperId.value)
    && (Given(f.storeId) ==> r.storeId == f.storeId.value)
    && (Given(f.ppgId) ==> r.ppgId == f.ppgId)
  }

  /** The rows with their ids, in id order. */
  function Numbered(rows: seq<Receipt>): (s: seq<(nat, Receipt)>)
    ensures |s| == |rows|
    ensures forall k :: 0 <= k < |rows| ==> s[k] == (k + 1, rows[k])
  {
    seq(|rows|, k requires 0 <= k < |rows| => (k + 1, rows[k]))
  }

  /** `ORDER BY created_at DESC` as an ascending order on the negated time. */
  function NewestFirst(row: (nat, Receipt)): int
  {
    -row.1.createdAt
  }

  datatype ReceiptPage = ReceiptPage(receipts: seq<(nat, Receipt)>, total: nat, page: int, perPage: int)

  /** `findAll(filters, page, perPage)`: one page of the matching receipts,
      newest first; `total` counts every receipt, whatever the filters. */
  function FindAll(rows: seq<Receipt>, f: ReceiptFilters, page: int, perPage: int): (p: ReceiptPage)
    requires perPage >= 0
    ensures p.total == |rows| && p.page == page
    ensures p.perPage <= 100 && |p.receipts| <= p.perPage
  {
    var selected := Where(Numbered(rows), (row: (nat, Receipt)) => Matches(f, row.1));
    var window := Paginate(page, perPage);
    ReceiptPage(Window(SortBy(selected, NewestFirst), window.offset, window.limit), |rows|, page, window.limit)
  }

  /** Every listed receipt is stored under its id and passes the filters, and
      the page runs from newest to oldest. */
  lemma FindAllSound(rows: seq<Receipt>, f: ReceiptFilters, page: int, perPage: int)
    requires perPage >= 0
    ensures var p := FindAll(rows, f, page, perPage);
            && (forall i, j :: 0 <= i < j < |p.receipts| ==> p.receipts[i].1.createdAt >= p.receipts[j].1.createdAt)
            && forall k :: 0 <= k < |p.receipts| ==>
                 At(rows, p.receipts[k].0) == Some(p.receipts[k].1) && Matches(f, p.receipts[k].1)
  {
    var numbered := Numbered(rows);
    var window := Paginate(page, perPage);
    ListingSound(numbered, (row: (nat, Receipt)) => Matches(f, row.1), NewestFirst, window.offset, window.limit);
    var p := FindAll(rows, f, page, perPage);
    forall i, j | 0 <= i < j < |p.receipts| ensures p.receipts[i].1.createdAt >= p.receipts[j].1.createdAt {
      assert NewestFirst(p.receipts[i]) <= NewestFirst(p.receipts[j]);
    }
    forall k | 0 <= k < |p.receipts| ensures At(rows, p.receipts[k].0) == Some(p.receipts[k].1) {
      var j :| 0 <= j < |numbered| && numbered[j] == p.receipts[k];
    }
  }

  /** With all matching receipts on the first page, the listing holds every
      stored receipt that passes the filters, under its id. */
  lemma FindAllFirstPageComplete(rows: seq<Receipt>, f: ReceiptFilters, perPage: int, id: nat)
    requires 100 >= perPage >= |Where(Numbered(rows), (row: (nat, Receipt)) => Matches(f, row.1))|
    requires 1 <= id <= |rows| && Matches(f, rows[id - 1])
    ensures (id, rows[id - 1]) in FindAll(rows, f, 1, perPage).receipts
  {
    var numbered := Numbered(rows);
    assert numbered[id - 1] == (id, rows[id - 1]);
    ListingComplete(numbered, (row: (nat, Receipt)) => Matches(f, row.1), NewestFirst, perPage, (id, rows[id - 1]));
  }

  const PendingOnly: ReceiptFilters := ReceiptFilters(Some(Pending), None, None, None)
  const FlaggedOnly: ReceiptFilters := ReceiptFilters(Some(Flagged), None, None, None)

  /** `getPending` / `getFlagged` list only pending / flagged receipts, while
      their total still counts every receipt. */
  lemma StatusListings(rows: seq<Receipt>, page: int, perPage: int)
    requires perPage >= 0
    ensures forall k :: 0 <= k < |FindAll(rows, PendingOnly, page, perPage).receipts| ==>
              FindAll(rows, PendingOnly, page, perPage).receipts[k].1.status == Pending
    ensures forall k :: 0 <= k < |FindAll(rows, FlaggedOnly, page, perPage).receipts| ==>
              FindAll(rows, FlaggedOnly, page, perPage).receipts[k].1.status == Flagged
    ensures FindAll(rows, PendingOnly, page, perPage).total == |rows|
    ensures FindAll(rows, FlaggedOnly, page, perPage).total == |rows|
  {
    FindAllSound(rows, PendingOnly, page, perPage);
    FindAllSound(rows, FlaggedOnly, page, perPage);
  }

  /** When the pending (flagged) receipts fit on the first page, `getPending`
      (`getFlagged`) lists each of them. */
  lemma StatusListingsComplete(rows: seq<Receipt>, perPage: int, id: nat)
    requires 1 <= id <= |rows|
    requires 100 >= perPage >= |rows|
    ensures rows[id - 1].status == Pending ==> (id, rows[id - 1]) in FindAll(rows, PendingOnly, 1, perPage).receipts
    ensures rows[id - 1].status == Flagged ==> (id, rows[id - 1]) in FindAll(rows, FlaggedOnly, 1, perPage).receipts
  {
    if rows[id - 1].status == Pending {
      FindAllFirstPageComplete(rows, PendingOnly, perPage, id);
    }
    if rows[id - 1].status == Flagged {
      FindAllFirstPageComplete(rows, FlaggedOnly, perPage, id);
    }
  }

  // ---------------------------------------------------------------------
  // The receipts and receipt_items tables

  class ReceiptTable {
    var rows: seq<Receipt>
    var items: seq<ItemRow>

    /** Every stored item belongs to a stored receipt. */
    ghost predicate Valid()
      reads this
    {
      forall k :: 0 <= k < |items| ==> 1 <= items[k].receiptId <= |rows|
    }

    constructor ()
      ensures Valid() && rows == [] && items == []
    {
      rows := [];
      items := [];
    }

    function FindById(id: int): (r: Option<Receipt>)
      reads this
      ensures r == At(rows, id)
    {
      At(rows, id)
    }

    method Create(d: ReceiptInput, now: int) returns (id: nat)
      modifies this
      ensures rows == old(rows) + [NewReceipt(d, now)] && items == old(items)
      ensures id == |rows| && FindById(id) == Some(NewReceipt(d, now))
      ensures old(Valid()) ==> Valid()
    {
      rows := rows + [NewReceipt(d, now)];
      id := |rows|;
    }

    method Approve(id: int, points: int, multiplier: nat, now: int)
      modifies this
      ensures items == old(items)
      ensures rows == if 1 <= id <= |old(rows)| then Put(old(rows), id, ApproveRow(old(rows)[id - 1], points, multiplier, now))
                      else old(rows)
      ensures old(Valid()) ==> Valid()
    {
      if 1 <= id <= |rows| {
        rows := Put(rows, id, ApproveRow(rows[id - 1], points, multiplier, now));
      }
    }

    method Reject(id: int, now: int)
      modifies this
      ensures items == old(items)
      ensures rows == if 1 <= id <= |old(rows)| then Put(old(rows), id, RejectRow(old(rows)[id - 1], now)) else old(rows)
      ensures old(Valid()) ==> Valid()
    {
      if 1 <= id <= |rows| {
        rows := Put(rows, id, RejectRow(rows[id - 1], now));
      }
    }

    method Flag(id: int)
      modifies this
      ensures items == old(items)
      ensures rows == if 1 <= id <= |old(rows)| then Put(old(rows), id, FlagRow(old(rows)[id - 1])) else old(rows)
      ensures old(Valid()) ==> Valid()
    {
      if 1 <= id <= |rows| {
        rows := Put(rows, id, FlagRow(rows[id - 1]));
      }
    }

    method UpdateStatus(id: int, status: Status, processedBy: Option<nat>, now: int)
      modifies this
      ensures items == old(items)
      ensures rows == if 1 <= id <= |old(rows)| then Put(old(rows), id, UpdateStatusRow(old(rows)[id - 1], status, processedBy, now))
                      else old(rows)
      ensures old(Valid()) ==> Valid()
    {
      if 1 <= id <= |rows| {
        rows := Put(rows, id, rows[id - 1].(status := status, processedAt := Some(now)));
        if processedBy.Some? && processedBy.value != 0 {
          rows := Put(rows, id, rows[id - 1].(ppgId := processedBy));
        }
      }
    }

    /** The bulk `INSERT ... VALUES ?`: with no rows the statement is an SQL
        syntax error, so it throws and inserts nothing. */
    method AddItems(receiptId: nat, priced: seq<PricedItem>) returns (r: Outcome)
      modifies this
      ensures r.Done? <==> priced != []
      ensures r.Fail? ==> r.message == EmptyInsertMessage
      ensures rows == old(rows)
      ensures items == old(items) + ItemRows(receiptId, priced)
      ensures old(Valid()) && 1 <= receiptId <= |rows| ==> Valid()
    {
      if priced == [] {
        return Fail(EmptyInsertMessage);
      }
      items := items + ItemRows(receiptId, priced);
      r := Done;
    }

    function CheckDuplicateAt(receiptNumber: Option<string>, storeId: nat, totalAmount: int, now: int): (dup: bool)
      reads this
      ensures dup <==> exists k :: 0 <= k < |rows| && SameReceiptWithinHour(rows[k], receiptNumber, storeId, totalAmount, now)
    {
      CheckDuplicate(rows, receiptNumber, storeId, totalAmount, now)
    }

    function GetPending(page: int, perPage: int): (p: ReceiptPage)
      requires perPage >= 0
      reads this
      ensures p == FindAll(rows, PendingOnly, page, perPage)
    {
      FindAll(rows, PendingOnly, page, perPage)
    }

    function GetFlagged(page: int, perPage: int): (p: ReceiptPage)
      requires perPage >= 0
      reads this
      ensures p == FindAll(rows, FlaggedOnly, page, perPage)
    {
      FindAll(rows, FlaggedOnly, page, perPage)
    }
  }
}
