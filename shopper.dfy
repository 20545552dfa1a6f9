/** src/models/Shopper.js: the points ledger. A shopper row holds the spendable
    balance, the lifetime total and the tier derived from it. */
module Shoppers {
  import opened Common
  import opened Helpers

  datatype Shopper = Shopper(
    userId: nat,
    pointsBalance: int,
    totalPointsEarned: int,
    loyaltyTier: TierName,
    tierMultiplier: nat)

  /** The ledger invariant: 0 <= balance <= lifetime total, and the stored
      tier and multiplier are those of the lifetime total. */
  predicate Consistent(s: Shopper)
  {
    && 0 <= s.pointsBalance <= s.totalPointsEarned
    && s.loyaltyTier == CalculateTier(s.totalPointsEarned).name
    && s.tierMultiplier == CalculateTier(s.totalPointsEarned).multiplier
  }

  /** The row `create(userId)` inserts. */
  function NewShopper(userId: nat): (s: Shopper)
    ensures s.userId == userId && s.pointsBalance == 0 && s.totalPointsEarned == 0
    ensures s.loyaltyTier == Bronze && s.tierMultiplier == 100
    ensures Consistent(s)
  {
    Shopper(userId, 0, 0, Bronze, 100)
  }

  /** `updatePoints(p)` on one row: the balance and the lifetime total both
      grow by p, then tier and multiplier are recomputed from the new total. */
  function Credit(s: Shopper, points: int): (r: Shopper)
    ensures r.userId == s.userId
    ensures r.pointsBalance == s.pointsBalance + points
    ensures r.totalPointsEarned == s.totalPointsEarned + points
    ensures Tier(r.loyaltyTier, r.tierMultiplier) == CalculateTier(r.totalPointsEarned)
  {
    var earned := s.totalPointsEarned + points;
    var tier := CalculateTier(earned);
    s.(pointsBalance := s.pointsBalance + points, totalPointsEarned := earned,
       loyaltyTier := tier.name, tierMultiplier := tier.multiplier)
  }

  /** `deductPoints(p)` on one row: `SET points_balance = points_balance - p
      WHERE points_balance >= p`, applied whole or not at all. */
  function Debit(s: Shopper, points: int): (r: Option<Shopper>)
    ensures r.Some? <==> s.pointsBalance >= points
    ensures r.Some? ==> r.value.pointsBalance == s.pointsBalance - points
    ensures r.Some? ==> r.value == s.(pointsBalance := r.value.pointsBalance)
  {
    if s.pointsBalance >= points then Some(s.(pointsBalance := s.pointsBalance - points)) else None
  }

  /** A non-negative credit keeps the ledger invariant and never lowers the tier. */
  lemma CreditKeepsConsistent(s: Shopper, points: int)
    requires Consistent(s) && points >= 0
    ensures Consistent(Credit(s, points))
    ensures Rank(s.loyaltyTier) <= Rank(Credit(s, points).loyaltyTier)
  {
    CalculateTierMonotone(s.totalPointsEarned, s.totalPointsEarned + points);
  }

  /** A successful non-negative debit keeps the invariant; it lowers only the
      balance, so the lifetime total and the tier stay. */
  lemma DebitKeepsConsistent(s: Shopper, points: int)
    requires Consistent(s) && points >= 0 && Debit(s, points).Some?
    ensures Consistent(Debit(s, points).value)
    ensures Debit(s, points).value.totalPointsEarned == s.totalPointsEarned
    ensures Debit(s, points).value.loyaltyTier == s.loyaltyTier
  {
  }

  /** Scenario: 9999 lifetime points credited 1 becomes silver at x1.25; a
      balance of 500 cannot pay 600 and stays 500. */
  lemma LedgerScenarios()
    ensures var s := Credit(Shopper(7, 9999, 9999, Bronze, 100), 1);
            s.totalPointsEarned == 10000 && s.loyaltyTier == Silver && s.tierMultiplier == 125
    ensures Debit(Shopper(7, 500, 800, Bronze, 100), 600).None?
  {
  }

  // ---------------------------------------------------------------------
  // Table-level steps (rows in id order, ids from 1)

  /** The shoppers table after `updatePoints(id, p)`; an unknown id changes nothing. */
  function ApplyCredit(rows: seq<Shopper>, id: int, points: int): (r: seq<Shopper>)
    ensures |r| == |rows|
    ensures forall k :: 0 <= k < |rows| ==> r[k] == if k == id - 1 then Credit(rows[k], points) else rows[k]
  {
    if 1 <= id <= |rows| then Put(rows, id, Credit(rows[id - 1], points)) else rows
  }

  /** The shoppers table after `deductPoints(id, p)`, or None when it throws
      (unknown id or balance below p, both reported as insufficient points). */
  function ApplyDebit(rows: seq<Shopper>, id: int, points: int): (r: Option<seq<Shopper>>)
    ensures r.Some? <==> 1 <= id <= |rows| && rows[id - 1].pointsBalance >= points
    ensures r.Some? ==> r.value == Put(rows, id, Debit(rows[id - 1], points).value)
  {
    if 1 <= id <= |rows| && Debit(rows[id - 1], points).Some? then Some(Put(rows, id, Debit(rows[id - 1], points).value))
    else None
  }

  predicate AllConsistent(rows: seq<Shopper>)
  {
    forall k :: 0 <= k < |rows| ==> Consistent(rows[k])
  }

  /** Both ledger steps preserve 0 <= balance <= total and the derived tier
      for every shopper, given non-negative amounts. */
  lemma LedgerStepsKeepConsistent(rows: seq<Shopper>, id: int, points: int)
    requires AllConsistent(rows) && points >= 0
    ensures AllConsistent(ApplyCredit(rows, id, points))
    ensures ApplyDebit(rows, id, points).Some? ==> AllConsistent(ApplyDebit(rows, id, points).value)
  {
    if 1 <= id <= |rows| {
      CreditKeepsConsistent(rows[id - 1], points);
      if Debit(rows[id - 1], points).Some? {
        DebitKeepsConsistent(rows[id - 1], points);
      }
    }
  }

  /** The first shopper id, from row `from` on, linked to `userId`. */
  function FindUser(rows: seq<Shopper>, userId: nat, from: nat): (r: Option<nat>)
    requires from <= |rows|
    ensures r.Some? ==> from < r.value <= |rows| && rows[r.value - 1].userId == userId
    ensures r.Some? ==> forall k :: from <= k < r.value - 1 ==> rows[k].userId != userId
    ensures r.None? ==> forall k :: from <= k < |rows| ==> rows[k].userId != userId
    decreases |rows| - from
  {
    if from == |rows| then None
    else if rows[from].userId == userId then Some(from + 1)
    else FindUser(rows, userId, from + 1)
  }

  const InsufficientPointsMessage: string := "Insufficient points balance"

  class ShopperTable {
    var rows: seq<Shopper>

    ghost predicate Valid()
      reads this
    {
      AllConsistent(rows)
    }

    constructor ()
      ensures Valid() && rows == []
    {
      rows := [];
    }

    method Create(userId: nat) returns (id: nat)
      modifies this
      ensures rows == old(rows) + [NewShopper(userId)]
      ensures id == |rows| && At(rows, id) == Some(NewShopper(userId))
      ensures old(Valid()) ==> Valid()
    {
      rows := rows + [NewShopper(userId)];
      id := |rows|;
    }

    function FindById(id: int): (r: Option<Shopper>)
      reads this
      ensures r == At(rows, id)
    {
      At(rows, id)
    }

    /** `findByUserId`: the first row linked to the user, as its id. */
    function FindByUserId(userId: nat): (r: Option<nat>)
      reads this
      ensures r.Some? ==> 1 <= r.value <= |rows| && rows[r.value - 1].userId == userId
      ensures r.None? <==> forall k :: 0 <= k < |rows| ==> rows[k].userId != userId
    {
      FindUser(rows, userId, 0)
    }

    method UpdatePoints(id: int, points: int)
      modifies this
      ensures rows == ApplyCredit(old(rows), id, points)
      ensures old(Valid()) && points >= 0 ==> Valid()
    {
      if 1 <= id <= |rows| {
        var s := rows[id - 1];
        rows := Put(rows, id, s.(pointsBalance := s.pointsBalance + points,
                                 totalPointsEarned := s.totalPointsEarned + points));
        var tier := CalculateTier(rows[id - 1].totalPointsEarned);
        rows := Put(rows, id, rows[id - 1].(loyaltyTier := tier.name, tierMultiplier := tier.multiplier));
      }
      if old(Valid()) && points >= 0 {
        LedgerStepsKeepConsistent(old(rows), id, points);
      }
    }

    method DeductPoints(id: int, points: int) returns (r: Outcome)
      modifies this
      ensures r.Done? <==> ApplyDebit(old(rows), id, points).Some?
      ensures r.Done? ==> rows == ApplyDebit(old(rows), id, points).value
      ensures r.Fail? ==> r.message == InsufficientPointsMessage && rows == old(rows)
      ensures old(Valid()) && points >= 0 ==> Valid()
    {
      if 1 <= id <= |rows| && rows[id - 1].pointsBalance >= points {
        rows := Put(rows, id, rows[id - 1].(pointsBalance := rows[id - 1].pointsBalance - points));
        r := Done;
      } else {
        r := Fail(InsufficientPointsMessage);
      }
      if old(Valid()) && points >= 0 {
        LedgerStepsKeepConsistent(old(rows), id, points);
      }
    }

    /** `getPointsBalance`: the stored balance, 0 for an unknown shopper
        (`rows[0]?.points_balance || 0`). */
    function GetPointsBalance(id: int): (balance: int)
      reads this
      ensures At(rows, id).Some? ==> balance == rows[id - 1].pointsBalance
      ensures At(rows, id).None? ==> balance == 0
    {
      if 1 <= id <= |rows| then rows[id - 1].pointsBalance else 0
    }
  }
}
