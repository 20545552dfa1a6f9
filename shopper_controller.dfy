/** src/controllers/shopperController.js: the points summary, the tier
    summary, the affordable-rewards listing and reward redemption. The
    authenticated user's id is a parameter. */
module ShopperController {
  import opened Common
  import opened Helpers
  import opened Http
  import opened Shoppers
  import opened Rewards
  import opened Query

  const ShopperNotFound: string := "Shopper not found"
  const RewardIdRequired: string := "Reward ID is required"
  const RewardNotFound: string := "Reward not found"
  const RewardNotActive: string := "Reward is not active"
  const RewardOutOfStock: string := "Reward out of stock"
  const RedeemedMessage: string := "Reward redeemed successfully"

  // ---------------------------------------------------------------------
  // Points and tier summaries

  /** `nextTierAt` of `getPoints`: the lifetime total at which the next tier starts. */
  function NextTierAt(t: TierName): Option<int>
  {
    match t
    case Bronze => Some(10000)
    case Silver => Some(50000)
    case Gold => None
  }

  /** `nextTier` of `getTierInfo`. */
  function NextTier(t: TierName): Option<TierName>
  {
    match t
    case Bronze => Some(Silver)
    case Silver => Some(Gold)
    case Gold => None
  }

  /** `pointsToNextTier` of `getTierInfo`. */
  function PointsToNextTier(t: TierName, totalPointsEarned: int): int
  {
    match t
    case Bronze => 10000 - totalPointsEarned
    case Silver => 50000 - totalPointsEarned
    case Gold => 0
  }

  /** The next tier is the one ranked just above, `nextTierAt` is exactly the
      lifetime total where the tier classifier starts giving it, and gold has
      neither. */
  lemma NextTierAtIsThreshold(t: TierName)
    ensures NextTierAt(t).None? <==> t == Gold
    ensures NextTier(t).None? <==> t == Gold
    ensures NextTier(t).Some? ==> Rank(NextTier(t).value) == Rank(t) + 1
    ensures NextTierAt(t).Some? ==>
              CalculateTier(NextTierAt(t).value).name == NextTier(t).value
              && Rank(CalculateTier(NextTierAt(t).value - 1).name) <= Rank(t)
  {
  }

  /** For a shopper whose stored tier matches the lifetime total, crediting
      `pointsToNextTier` reaches the next tier and any smaller credit does
      not leave the current tier; a gold shopper has 0 to go. */
  lemma PointsToNextTierPromotes(s: Shopper, p: int)
    requires Consistent(s)
    ensures s.loyaltyTier != Gold ==> PointsToNextTier(s.loyaltyTier, s.totalPointsEarned) > 0
    ensures s.loyaltyTier != Gold ==>
              Credit(s, PointsToNextTier(s.loyaltyTier, s.totalPointsEarned)).loyaltyTier == NextTier(s.loyaltyTier).value
    ensures 0 <= p < PointsToNextTier(s.loyaltyTier, s.totalPointsEarned) ==> Credit(s, p).loyaltyTier == s.loyaltyTier
    ensures s.loyaltyTier == Gold ==> PointsToNextTier(s.loyaltyTier, s.totalPointsEarned) == 0
  {
  }

  datatype PointsView = PointsView(pointsBalance: int, totalPointsEarned: int, loyaltyTier: TierName,
                                   tierMultiplier: nat, nextTierAt: Option<int>)

  /** `getPoints` for the signed-in user. */
  function GetPoints(shoppers: seq<Shopper>, userId: nat): (r: Reply<PointsView>)
    ensures FindUser(shoppers, userId, 0).None? ==> r == Refuse(StatusNotFound, ShopperNotFound)
    ensures FindUser(shoppers, userId, 0).Some? ==>
              var s := shoppers[FindUser(shoppers, userId, 0).value - 1];
              r == Sent(StatusOk, SuccessResponse(PointsView(s.pointsBalance, s.totalPointsEarned, s.loyaltyTier,
                                                       s.tierMultiplier, NextTierAt(s.loyaltyTier)), DefaultSuccessMessage))
  {
    var id := FindUser(shoppers, userId, 0);
    if id.None? then Refuse(StatusNotFound, ShopperNotFound)
    else
      var s := shoppers[id.value - 1];
      Sent(StatusOk, SuccessResponse(PointsView(s.pointsBalance, s.totalPointsEarned, s.loyaltyTier,
                                          s.tierMultiplier, NextTierAt(s.loyaltyTier)), DefaultSuccessMessage))
  }

  function Benefits(t: TierName): seq<string>
  {
    match t
    case Bronze => ["1.0x points multiplier", "Standard rewards access"]
    case Silver => ["1.25x points multiplier", "Priority support", "Exclusive offers"]
    case Gold => ["1.5x points multiplier", "VIP support", "Premium rewards", "Early access to campaigns"]
  }

  datatype TierView = TierView(loyaltyTier: TierName, tierMultiplier: nat, totalPointsEarned: int,
                               pointsBalance: int, benefits: seq<string>, nextTier: Option<TierName>,
                               pointsToNextTier: int)

  /** `getTierInfo` for the signed-in user. */
  function GetTierInfo(shoppers: seq<Shopper>, userId: nat): (r: Reply<TierView>)
    ensures FindUser(shoppers, userId, 0).None? <==> r == Refuse(StatusNotFound, ShopperNotFound)
    ensures FindUser(shoppers, userId, 0).Some? ==>
              var s := shoppers[FindUser(shoppers, userId, 0).value - 1];
              && r.Sent? && r.status == StatusOk && r.body.data.Some?
              && var v := r.body.data.value;
              && v.loyaltyTier == s.loyaltyTier && v.totalPointsEarned == s.totalPointsEarned
              && v.pointsBalance == s.pointsBalance && v.nextTier == NextTier(s.loyaltyTier)
              && v.tierMultiplier == s.tierMultiplier && v.benefits == Benefits(s.loyaltyTier)
              && v.pointsToNextTier == PointsToNextTier(s.loyaltyTier, s.totalPointsEarned)
  {
    var id := FindUser(shoppers, userId, 0);
    if id.None? then Refuse(StatusNotFound, ShopperNotFound)
    else
      var s := shoppers[id.value - 1];
      Sent(StatusOk, SuccessResponse(TierView(s.loyaltyTier, s.tierMultiplier, s.totalPointsEarned, s.pointsBalance,
                                        Benefits(s.loyaltyTier), NextTier(s.loyaltyTier),
                                        PointsToNextTier(s.loyaltyTier, s.totalPointsEarned)), DefaultSuccessMessage))
  }

  // ---------------------------------------------------------------------
  // Available rewards

  /** The filter `getAvailableRewards` passes to `findAll`. */
  function AffordableFilter(balance: int): RewardFilters
  {
    RewardFilters(None, Some(true), Some(balance))
  }

  datatype AvailableView = AvailableView(rewards: RewardPage, shopperPointsBalance: int)

  /** `parseInt(req.query.x) || fallback`: `None` is a missing or non-numeric
      parameter (NaN); NaN and 0 are falsy and give the fallback. */
  function QueryInt(raw: Option<int>, fallback: int): (n: int)
    ensures raw.Some? && raw.value != 0 ==> n == raw.value
    ensures raw.None? || raw.value == 0 ==> n == fallback
    ensures fallback != 0 ==> n != 0
  {
    if raw.Some? && raw.value != 0 then raw.value else fallback
  }

  const DefaultPage: int := 1
  const DefaultPerPage: int := 30

  /** The `findAll` call of `getAvailableRewards`: active rewards within the
      balance, with page and perPage defaulted to 1 and 30. */
  function AvailablePage(rewards: map<nat, Reward>, nextId: nat, balance: int,
                         page: Option<int>, perPage: Option<int>): RewardPage
    requires perPage.None? || perPage.value >= 0
  {
    FindAll(rewards, nextId, AffordableFilter(balance), QueryInt(page, DefaultPage), QueryInt(perPage, DefaultPerPage))
  }

  /** `getAvailableRewards` for the signed-in user. */
  function GetAvailableRewards(shoppers: seq<Shopper>, rewards: map<nat, Reward>, nextId: nat, userId: nat,
                               page: Option<int>, perPage: Option<int>): (r: Reply<AvailableView>)
    requires perPage.None? || perPage.value >= 0
    ensures FindUser(shoppers, userId, 0).None? <==> r == Refuse(StatusNotFound, ShopperNotFound)
    ensures FindUser(shoppers, userId, 0).Some? ==>
              var s := shoppers[FindUser(shoppers, userId, 0).value - 1];
              && r.Sent? && r.status == StatusOk
              && r.body.data == Some(AvailableView(AvailablePage(rewards, nextId, s.pointsBalance, page, perPage),
                                                   s.pointsBalance))
  {
    var id := FindUser(shoppers, userId, 0);
    if id.None? then Refuse(StatusNotFound, ShopperNotFound)
    else
      var s := shoppers[id.value - 1];
      Sent(StatusOk, SuccessResponse(AvailableView(AvailablePage(rewards, nextId, s.pointsBalance, page, perPage),
                                                   s.pointsBalance), DefaultSuccessMessage))
  }

  /** Without usable paging parameters the first page of 30 is shown, and
      when at most 30 rewards qualify every active reward within the
      shopper's balance is offered. */
  lemma AvailableRewardsDefaults(shoppers: seq<Shopper>, rewards: map<nat, Reward>, nextId: nat, userId: nat,
                                 page: Option<int>, perPage: Option<int>, id: nat)
    requires page.None? || page == Some(0)
    requires perPage.None? || perPage == Some(0)
    requires FindUser(shoppers, userId, 0).Some?
    ensures var s := shoppers[FindUser(shoppers, userId, 0).value - 1];
            var v := GetAvailableRewards(shoppers, rewards, nextId, userId, page, perPage).body.data.value;
            && v.rewards.page == 1 && v.rewards.perPage == 30
            && (|Selected(RowsBelow(rewards, nextId), AffordableFilter(s.pointsBalance))| <= 30
                && id in rewards && id < nextId && Matches(AffordableFilter(s.pointsBalance), rewards[id])
                ==> (id, rewards[id]) in v.rewards.rewards)
  {
    var s := shoppers[FindUser(shoppers, userId, 0).value - 1];
    var f := AffordableFilter(s.pointsBalance);
    if |Selected(RowsBelow(rewards, nextId), f)| <= 30 && id in rewards && id < nextId && Matches(f, rewards[id]) {
      FindAllFirstPageComplete(rewards, nextId, f, 30, id);
    }
  }

  /** Every reward offered is active and, for a positive balance, affordable.
      A balance of 0 is falsy, so it applies no cap: every active reward
      passes the filter whatever it costs. */
  lemma AvailableRewardsAffordable(rewards: map<nat, Reward>, nextId: nat, balance: int, page: int, perPage: int, r: Reward)
    requires perPage >= 0
    ensures var listed := FindAll(rewards, nextId, AffordableFilter(balance), page, perPage).rewards;
            forall k :: 0 <= k < |listed| ==>
              listed[k].1.isActive && (balance != 0 ==> listed[k].1.pointsCost <= balance)
    ensures balance == 0 ==> (Matches(AffordableFilter(balance), r) <==> r.isActive)
  {
    FindAllSound(rewards, nextId, AffordableFilter(balance), page, perPage);
  }

  // ---------------------------------------------------------------------
  // Redemption

  datatype Redemption = Redemption(rewardName: string, pointsSpent: int, newBalance: int)

  /** The reply and the two tables after `redeemReward`. */
  datatype Redeemed = Redeemed(reply: Reply<Redemption>, shoppers: seq<Shopper>, rewards: map<nat, Reward>)

  /** The two mutations of a redemption that passed its checks: debit the
      shopper, then take one item from stock. They are not undone when the
      second throws. */
  function Commit(shoppers: seq<Shopper>, rewards: map<nat, Reward>, shopperId: nat, rewardId: nat,
                  quotedBalance: int): Redeemed
    requires rewardId in rewards
  {
    var reward := rewards[rewardId];
    var debited := ApplyDebit(shoppers, shopperId, reward.pointsCost);
    if debited.None? then Redeemed(Passed(InsufficientPointsMessage), shoppers, rewards)
    else
      var taken := Decrement(reward, 1);
      if taken.None? then Redeemed(Passed(InsufficientInventoryMessage), debited.value, rewards)
      else
        Redeemed(Sent(StatusOk, SuccessResponse(Redemption(reward.name, reward.pointsCost, quotedBalance - reward.pointsCost),
                                          RedeemedMessage)),
                 debited.value, rewards[rewardId := taken.value])
  }

  /** `redeemReward(rewardId)` for the signed-in user: the checks in the
      source's order, each answering before anything is written, then the
      commit. */
  function Redeem(shoppers: seq<Shopper>, rewards: map<nat, Reward>, userId: nat, rewardId: Option<nat>): Redeemed
  {
    if rewardId.None? || rewardId.value == 0 then Redeemed(Refuse(StatusBadRequest, RewardIdRequired), shoppers, rewards)
    else
      var sid := FindUser(shoppers, userId, 0);
      if sid.None? then Redeemed(Refuse(StatusNotFound, ShopperNotFound), shoppers, rewards)
      else
        var shopper := shoppers[sid.value - 1];
        var rid := rewardId.value;
        if rid !in rewards then Redeemed(Refuse(StatusNotFound, RewardNotFound), shoppers, rewards)
        else if !rewards[rid].isActive then Redeemed(Refuse(StatusBadRequest, RewardNotActive), shoppers, rewards)
        else if shopper.pointsBalance < rewards[rid].pointsCost then
          Redeemed(Refuse(StatusBadRequest, InsufficientPointsMessage), shoppers, rewards)
        else if rewards[rid].inventoryCount < 1 then Redeemed(Refuse(StatusBadRequest, RewardOutOfStock), shoppers, rewards)
        else Commit(shoppers, rewards, sid.value, rid, shopper.pointsBalance)
  }

  /** The checks, in order, with their replies; each refusal leaves both
      tables exactly as they were. */
  lemma RedeemRefusals(shoppers: seq<Shopper>, rewards: map<nat, Reward>, userId: nat, rewardId: Option<nat>)
    ensures var o := Redeem(shoppers, rewards, userId, rewardId);
            && (o.reply.Sent? && o.reply.status != StatusOk ==> o.shoppers == shoppers && o.rewards == rewards)
            && (rewardId.None? || rewardId == Some(0) ==> o.reply == Refuse(StatusBadRequest, RewardIdRequired))
            && ((rewardId.Some? && rewardId.value != 0 && FindUser(shoppers, userId, 0).None?)
                ==> o.reply == Refuse(StatusNotFound, ShopperNotFound))
            && ((rewardId.Some? && rewardId.value != 0 && FindUser(shoppers, userId, 0).Some?
                 && rewardId.value !in rewards)
                ==> o.reply == Refuse(StatusNotFound, RewardNotFound))
            && ((rewardId.Some? && rewardId.value != 0 && FindUser(shoppers, userId, 0).Some?
                 && rewardId.value in rewards && !rewards[rewardId.value].isActive)
                ==> o.reply == Refuse(StatusBadRequest, RewardNotActive))
            && ((rewardId.Some? && rewardId.value != 0 && FindUser(shoppers, userId, 0).Some?
                 && rewardId.value in rewards && rewards[rewardId.value].isActive
                 && shoppers[FindUser(shoppers, userId, 0).value - 1].pointsBalance < rewards[rewardId.value].pointsCost)
                ==> o.reply == Refuse(StatusBadRequest, InsufficientPointsMessage))
            && ((rewardId.Some? && rewardId.value != 0 && FindUser(shoppers, userId, 0).Some?
                 && rewardId.value in rewards && rewards[rewardId.value].isActive
                 && shoppers[FindUser(shoppers, userId, 0).value - 1].pointsBalance >= rewards[rewardId.value].pointsCost
                 && rewards[rewardId.value].inventoryCount < 1)
                ==> o.reply == Refuse(StatusBadRequest, RewardOutOfStock))
  {
  }

  /** The checks the redemption passes once the reward is known. */
  predicate Redeemable(shoppers: seq<Shopper>, rewards: map<nat, Reward>, userId: nat, rewardId: nat)
  {
    && rewardId != 0
    && FindUser(shoppers, userId, 0).Some?
    && rewardId in rewards && rewards[rewardId].isActive
    && shoppers[FindUser(shoppers, userId, 0).value - 1].pointsBalance >= rewards[rewardId].pointsCost
    && rewards[rewardId].inventoryCount >= 1
  }

  /** A redemption succeeds iff every check passes; it then costs the
      shopper exactly `points_cost` (nothing else about the shopper changes),
      takes exactly one item from stock, and reports the balance less the cost. */
  lemma RedeemSuccess(shoppers: seq<Shopper>, rewards: map<nat, Reward>, userId: nat, rewardId: nat)
    ensures var o := Redeem(shoppers, rewards, userId, Some(rewardId));
            (o.reply.Sent? && o.reply.status == StatusOk) <==> Redeemable(shoppers, rewards, userId, rewardId)
    ensures Redeemable(shoppers, rewards, userId, rewardId) ==>
              var o := Redeem(shoppers, rewards, userId, Some(rewardId));
              var sid := FindUser(shoppers, userId, 0).value;
              var before := shoppers[sid - 1];
              var reward := rewards[rewardId];
              && o.reply.Sent? && o.reply.body.message == RedeemedMessage
              && o.reply.body.data == Some(Redemption(reward.name, reward.pointsCost, before.pointsBalance - reward.pointsCost))
              && o.shoppers == Put(shoppers, sid, before.(pointsBalance := before.pointsBalance - reward.pointsCost))
              && o.rewards == rewards[rewardId := reward.(inventoryCount := reward.inventoryCount - 1)]
  {
  }

  /** Run after the checks, the commit never reaches its second throw: the
      stock check already saw at least one item. */
  lemma RedeemNeverHalfDone(shoppers: seq<Shopper>, rewards: map<nat, Reward>, userId: nat, rewardId: Option<nat>)
    ensures !Redeem(shoppers, rewards, userId, rewardId).reply.Passed?
  {
  }

  /** The debit is not compensated: when taking the item fails after the
      points were deducted (the stock changed after it was checked), the
      request fails and the shopper stays debited. */
  lemma CommitIsUncompensated(shoppers: seq<Shopper>, rewards: map<nat, Reward>, shopperId: nat, rewardId: nat, quoted: int)
    requires rewardId in rewards
    requires ApplyDebit(shoppers, shopperId, rewards[rewardId].pointsCost).Some?
    requires rewards[rewardId].inventoryCount < 1
    ensures var o := Commit(shoppers, rewards, shopperId, rewardId, quoted);
            && o.reply == Passed(InsufficientInventoryMessage)
            && o.rewards == rewards
            && o.shoppers == ApplyDebit(shoppers, shopperId, rewards[rewardId].pointsCost).value
            && o.shoppers[shopperId - 1].pointsBalance == shoppers[shopperId - 1].pointsBalance - rewards[rewardId].pointsCost
  {
  }

  /** With positive reward costs and stocked rewards, redemption keeps the
      ledger invariant for every shopper and never takes stock below zero. */
  lemma RedeemKeepsInvariants(shoppers: seq<Shopper>, rewards: map<nat, Reward>, userId: nat, rewardId: Option<nat>)
    requires AllConsistent(shoppers)
    requires forall id :: id in rewards ==> WellFormed(rewards[id])
    ensures AllConsistent(Redeem(shoppers, rewards, userId, rewardId).shoppers)
    ensures forall id :: id in Redeem(shoppers, rewards, userId, rewardId).rewards ==>
              Redeem(shoppers, rewards, userId, rewardId).rewards[id].inventoryCount >= 0
  {
    if rewardId.Some? && rewardId.value in rewards {
      var sid := FindUser(shoppers, userId, 0);
      if sid.Some? {
        LedgerStepsKeepConsistent(shoppers, sid.value, rewards[rewardId.value].pointsCost);
      }
    }
  }

  /** `redeemReward` on the two tables, one model call per source call. */
  method RedeemReward(shopperTable: ShopperTable, rewardTable: RewardTable, userId: nat, rewardId: Option<nat>)
    returns (reply: Reply<Redemption>)
    modifies shopperTable, rewardTable
    ensures var o := Redeem(old(shopperTable.rows), old(rewardTable.rewards), userId, rewardId);
            && reply == o.reply && shopperTable.rows == o.shoppers && rewardTable.rewards == o.rewards
    ensures rewardTable.nextId == old(rewardTable.nextId)
  {
    if rewardId.None? || rewardId.value == 0 {
      return Refuse(StatusBadRequest, RewardIdRequired);
    }
    var sid := shopperTable.FindByUserId(userId);
    if sid.None? {
      return Refuse(StatusNotFound, ShopperNotFound);
    }
    var shopper := shopperTable.rows[sid.value - 1];
    var reward := rewardTable.FindById(rewardId.value);
    if reward.None? {
      return Refuse(StatusNotFound, RewardNotFound);
    }
    if !reward.value.isActive {
      return Refuse(StatusBadRequest, RewardNotActive);
    }
    if shopper.pointsBalance < reward.value.pointsCost {
      return Refuse(StatusBadRequest, InsufficientPointsMessage);
    }
    var inventory := rewardTable.CheckInventory(rewardId.value);
    if inventory < 1 {
      return Refuse(StatusBadRequest, RewardOutOfStock);
    }
    reply := CommitRedemption(shopperTable, rewardTable, sid.value, rewardId.value, shopper.pointsBalance);
  }

  /** The commit phase of `redeemReward`: `deductPoints`, then
      `decrementInventory`; an error from either is passed on. */
  method CommitRedemption(shopperTable: ShopperTable, rewardTable: RewardTable, shopperId: nat, rewardId: nat,
                          quotedBalance: int)
    returns (reply: Reply<Redemption>)
    requires rewardId in rewardTable.rewards
    modifies shopperTable, rewardTable
    ensures var o := Commit(old(shopperTable.rows), old(rewardTable.rewards), shopperId, rewardId, quotedBalance);
            && reply == o.reply && shopperTable.rows == o.shoppers && rewardTable.rewards == o.rewards
    ensures rewardTable.nextId == old(rewardTable.nextId)
  {
    var reward := rewardTable.rewards[rewardId];
    var debit := shopperTable.DeductPoints(shopperId, reward.pointsCost);
    if debit.Fail? {
      return Passed(debit.message);
    }
    var taken := rewardTable.DecrementInventory(rewardId, 1);
    if taken.Fail? {
      return Passed(taken.message);
    }
    reply := Sent(StatusOk, SuccessResponse(Redemption(reward.name, reward.pointsCost, quotedBalance - reward.pointsCost),
                                            RedeemedMessage));
  }
}
