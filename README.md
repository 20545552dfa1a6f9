# Bango Points loyalty backend: a Dafny model

This project models the core of the Bango Points loyalty system and proves
properties of that model. In the system, shoppers upload supermarket receipts,
and approved receipts credit points per brand line item, scaled by the
shopper's loyalty tier (bronze, silver or gold). Shoppers spend points on
rewards from a catalogue. PPG staff clock in and out of their shifts. A
frontend helper scores OCR results and matches item lines to brands, and a
mock API answers requests when there is no backend.

Each JavaScript module is a Dafny module:

- Tables that are only appended to, and whose ids are auto-increment from 1,
  are sequences: shoppers, receipts, receipt items and clock records.
- Tables that are also deleted from are maps with a next-id counter: brands
  and rewards.
- The models that update rows in place are classes. Their methods are
  specified by pure step functions, and the lemmas are about those functions.
- Decimal multipliers 1.00, 1.25 and 1.50 are integer percents 100, 125 and
  150. `Math.floor(x * m)` becomes `x * m / 100` on non-negative values.
- Time is a whole number of seconds for receipts. For clock records it is a
  day number plus milliseconds into the day.
- A controller's answer is `Http.Reply`: either a status code with a JSON
  envelope, or `Passed(message)` for an error handed on through `next(error)`.

Modules:

- `Common`: options and results, JavaScript truthiness, id-indexed rows, the
  update whitelist.
- `Query`: WHERE, ORDER BY and LIMIT/OFFSET.
- `Helpers`: the helpers in src/utils/helpers.js.
- `Http`: the reply type and status codes.
- `Brands`, `Rewards`, `Receipts`, `Shoppers`, `ClockRecords`: the models.
- `PointsCalculator`, `ReceiptProcessor`: the two services.
- `ShopperController`, `ReceiptController`: the two controllers.
- `RoleCheck`: the role middleware.
- `Ocr`, `MockApi`: the two frontend services.

## Model

| member | source | states |
|---|---|---|
| Common.At | src/models/Shopper.js:24-33 | `findById` on an auto-increment table: a row exists exactly for ids 1..n, and it is row id-1 |
| Common.Put | src/models/Shopper.js:60-66 | `UPDATE ... WHERE id = ?` overwrites exactly the row with that id; an id that matches no row changes nothing |
| Common.Whitelisted | src/models/Reward.js:78-88 | the fields kept from an update are allowed keys taken from the update, in order |
| Common.WhitelistedAppend | src/models/Reward.js:83-88 | the whitelist filter is applied key by key, in key order |
| Common.WhitelistedKeeps | src/models/Reward.js:83-88 | no allowed pair is dropped |
| Common.WhitelistedNames | src/models/Brand.js:100-107 | an allowed key is named after filtering iff it was named in the update |
| Common.LastWriteWhitelisted | src/models/Brand.js:100-116 | filtering does not change the value last written to an allowed column |
| Common.LastWriteUnnamed | src/models/Brand.js:109 | a column no key names keeps its old value |
| Common.CollectAllowed | src/models/Reward.js:83-88 | the `forEach` loop collects exactly the whitelisted pairs |
| Query.Where | src/models/Reward.js:24-40 | a WHERE clause keeps exactly the rows that satisfy it, and only stored rows |
| Query.Insert | src/models/Reward.js:42 | inserting into the ordered list keeps every row once more |
| Query.SortBy | src/models/Reward.js:42 | ORDER BY is a permutation of the selected rows |
| Query.InsertSorted | src/models/Reward.js:42 | inserting into a sorted list keeps it sorted |
| Query.SortBySorted | src/models/Reward.js:42 | ORDER BY yields rows sorted by the key, and it is a permutation |
| Query.Window | src/models/Reward.js:42-45 | LIMIT/OFFSET returns at most `limit` rows, exactly the rows starting at `offset` |
| Query.WindowSorted | src/models/Reward.js:42-45 | a page of a sorted listing is sorted |
| Query.ListingComplete | src/models/Reward.js:42-45 | when every match fits within the limit, the first page holds every stored row that passes the filter |
| Helpers.CalculateTier | src/utils/helpers.js:31-38 | gold iff the total is at least 50000, silver iff it is in [10000, 50000), bronze below; multipliers 100/125/150 |
| Helpers.CalculateTierMonotone | src/utils/helpers.js:31-38 | a larger total never gives a lower tier or a smaller multiplier |
| Helpers.NameOfInjective | src/utils/helpers.js:31-38 | the stored tier names are distinct, so comparing names compares tiers |
| Helpers.Paginate | src/utils/helpers.js:73-78 | limit = min(perPage, 100); offset = (max(page, 1) - 1) * limit; both are non-negative for a non-negative perPage |
| Helpers.PpgPayment | src/utils/helpers.js:115-119 | 0 for a zero target; otherwise pay * target = items * receipts * wage; 0 when any factor is 0 |
| Helpers.PpgPaymentExamples | src/utils/helpers.js:115-119 | the figures 2500, 7500 and 0 |
| Helpers.IsLateForShift | src/utils/helpers.js:41-49 | late iff the clock-in is strictly more than 15 minutes after the shift start |
| Helpers.DefaultShiftLateAfterQuarterPastEight | src/utils/helpers.js:41 | with the default '08:00:00' start, late iff strictly after 08:15 |
| Helpers.ToLower | src/utils/helpers.js:66 | lower-casing keeps the length and maps each character |
| Helpers.ReplaceDisallowed | src/utils/helpers.js:67 | every character outside `[a-z0-9.-]` becomes `_`; the others are kept |
| Helpers.CollapseUnderscores | src/utils/helpers.js:68 | collapsing runs of underscores never lengthens the name and keeps its first character |
| Helpers.CollapseKeepsChars | src/utils/helpers.js:68 | collapsing introduces no new character |
| Helpers.CollapseNoDouble | src/utils/helpers.js:68 | collapsing leaves no two consecutive underscores |
| Helpers.CollapseFixesClean | src/utils/helpers.js:68 | a name without `__` is left unchanged by collapsing |
| Helpers.SanitizeFilenameSafe | src/utils/helpers.js:65-71 | the output is lower case, uses only `[a-z0-9._-]`, has no `__`, is no longer than the input, and sanitising twice changes nothing |
| Helpers.SuccessResponse | src/utils/helpers.js:80-87 | success is true, with the message and the data, and no errors member |
| Helpers.ErrorResponse | src/utils/helpers.js:89-99 | success is false, with no data; `errors` is present iff it was given |
| Http.Refuse | src/controllers/shopperController.js:64-67 | `res.status(code).json(errorResponse(message))` sends that code with an unsuccessful envelope and that message |
| Brands.NewBrand | src/models/Brand.js:4-27 | an omitted isActive defaults to true, the rollover and seeding flags to false; the other columns are copied from the input |
| Brands.FieldNamed | src/models/Brand.js:94-98 | exactly the nine whitelisted keys name a column |
| Brands.SetColumnOther | src/models/Brand.js:109-116 | assigning one key leaves every other column as it was |
| Brands.SetColumnEffect | src/models/Brand.js:109-116 | one `key = ?` assignment changes exactly that column |
| Brands.SetColumnsEffect | src/models/Brand.js:109-116 | the SET list leaves each column at the last value assigned to it |
| Brands.WhitelistedWellTyped | src/models/Brand.js:100-107 | filtering keeps the values well typed |
| Brands.UpdatedBrandColumns | src/models/Brand.js:93-117 | for values of each column's type, `update` writes each of the nine allowed columns with the last value given for it; any other key is ignored |
| Brands.ColumnsDetermineBrand | src/models/Brand.js:94-98 | a brand is determined by its nine columns |
| Brands.UpdateWithoutAllowedKeysIsNoop | src/models/Brand.js:109 | an update naming no allowed key leaves the brand as it was |
| Brands.BrandTable.FindById | src/models/Brand.js:29-38 | a brand is found iff one is stored under that id |
| Brands.BrandTable.Create | src/models/Brand.js:4-27 | inserts `NewBrand` under a fresh id |
| Brands.BrandTable.Update | src/models/Brand.js:93-117 | the stored brand becomes `UpdatedBrand`; an unknown id changes nothing; the id invariant is kept |
| Brands.BrandTable.ToggleRollover | src/models/Brand.js:119-124 | changes only `rolloverEnabled`; the id invariant is kept |
| Brands.BrandTable.ToggleSeeding | src/models/Brand.js:126-131 | changes only `seedingEnabled`; the id invariant is kept |
| Brands.BrandTable.Delete | src/models/Brand.js:172-175 | removes the brand; `findById` finds nothing afterwards |
| PointsCalculator.CalculatePoints | src/services/pointsCalculator.js:12-42 | 0 for a missing or inactive brand and for a total below the minimum; otherwise min(floor(floor(price * rate) * multiplier), cap) |
| PointsCalculator.PointsWithinCap | src/services/pointsCalculator.js:31-33 | for a well-formed brand and non-negative inputs, the points are never negative and never exceed the cap |
| PointsCalculator.PointsMonotoneInPrice | src/services/pointsCalculator.js:25-35 | a larger line total never earns fewer points |
| PointsCalculator.PointsMonotoneInMultiplier | src/services/pointsCalculator.js:25-35 | a higher multiplier never earns fewer points |
| PointsCalculator.CalculatePointsExamples | src/services/pointsCalculator.js:12-42 | the unit-test figures 1000, 1500, the cap at 1000, and 0 below the minimum, for an inactive brand and for an unknown brand |
| PointsCalculator.PriceItems | src/services/pointsCalculator.js:48-58 | one entry per item, in order, each the item with its points |
| PointsCalculator.SumPointsAppend | src/services/pointsCalculator.js:60-62 | the running total adds each item's points |
| PointsCalculator.CalculateReceiptPoints | src/services/pointsCalculator.js:44-73 | the loop yields `PriceItems` and their sum |
| PointsCalculator.PriceItemsAppend | src/services/pointsCalculator.js:48-58 | pricing one more item appends its entry |
| PointsCalculator.ReceiptTotalBounds | src/services/pointsCalculator.js:60-66 | the total is non-negative and at most 10000 per item, the largest cap the brand schema accepts |
| PointsCalculator.CapIsPerItem | src/services/pointsCalculator.js:60-66 | the cap applies per item, so two capped items earn twice the cap; an empty list gives 0 |
| PointsCalculator.CheckTierPromotion | src/services/pointsCalculator.js:75-90 | the result is `calculateTier(total)`, promoted iff its name differs from the current name |
| PointsCalculator.PromotionIsUpward | src/services/pointsCalculator.js:75-90 | starting from the tier of a smaller total, a promotion only goes up |
| PointsCalculator.CheckTierPromotionExamples | src/services/pointsCalculator.js:75-90 | the unit-test figures: 10000 promotes bronze to silver, 55000 promotes silver to gold, and no promotion within a tier |
| Shoppers.NewShopper | src/models/Shopper.js:5-11 | a new shopper has balance 0, total 0, tier bronze and multiplier 1.00 |
| Shoppers.Credit | src/models/Shopper.js:35-58 | the balance and the lifetime total both rise by exactly p; the tier and multiplier are `calculateTier` of the new total |
| Shoppers.Debit | src/models/Shopper.js:60-71 | succeeds iff balance >= p, and then lowers only the balance by p |
| Shoppers.CreditKeepsConsistent | src/models/Shopper.js:35-58 | a non-negative credit keeps 0 <= balance <= total and the derived tier, and never lowers the tier |
| Shoppers.DebitKeepsConsistent | src/models/Shopper.js:60-71 | a successful debit keeps the invariant and leaves the total and the tier alone |
| Shoppers.LedgerScenarios | src/models/Shopper.js:35-71 | 9999 + 1 lifetime points becomes silver at x1.25; a debit above the balance fails |
| Shoppers.ApplyCredit | src/models/Shopper.js:35-58 | `updatePoints` on the table credits exactly that row |
| Shoppers.ApplyDebit | src/models/Shopper.js:60-71 | `deductPoints` on the table succeeds iff the row exists with enough balance, and then debits exactly that row |
| Shoppers.LedgerStepsKeepConsistent | src/models/Shopper.js:35-71 | both ledger steps preserve the invariant on every row |
| Shoppers.FindUser | src/models/Shopper.js:13-22 | the first shopper row linked to the user, or none when no row is |
| Shoppers.ShopperTable.Create | src/models/Shopper.js:5-11 | appends `NewShopper` under the next id |
| Shoppers.ShopperTable.FindById | src/models/Shopper.js:24-33 | the row with that id, if any |
| Shoppers.ShopperTable.FindByUserId | src/models/Shopper.js:13-22 | the found id is linked to the user; none iff no row is |
| Shoppers.ShopperTable.UpdatePoints | src/models/Shopper.js:35-58 | the table becomes `ApplyCredit`, keeping the invariant for p >= 0 |
| Shoppers.ShopperTable.DeductPoints | src/models/Shopper.js:60-71 | done iff `ApplyDebit` succeeds; otherwise 'Insufficient points balance' and no change |
| Shoppers.ShopperTable.GetPointsBalance | src/models/Shopper.js:73-79 | the stored balance, or 0 for an unknown shopper |
| Rewards.NewReward | src/models/Reward.js:4-13 | `isActive` defaults to true; the other columns are copied from the input |
| Rewards.SetColumnEffect | src/models/Reward.js:90-96 | one assignment changes exactly that column |
| Rewards.SetColumnsEffect | src/models/Reward.js:90-96 | the SET list leaves each column at the last value assigned to it |
| Rewards.UpdatedRewardColumns | src/models/Reward.js:78-97 | for values of each column's type, only name, type, points_cost, inventory_count and is_active are written, each with the last value given |
| Rewards.UpdateWithoutAllowedKeysIsNoop | src/models/Reward.js:90 | no allowed key: no change |
| Rewards.Decrement | src/models/Reward.js:99-108 | succeeds iff inventory >= n, and then lowers only the inventory, by exactly n |
| Rewards.DecrementNeverNegative | src/models/Reward.js:99-108 | a successful decrement never makes the inventory negative |
| Rewards.RowsBelow | src/models/Reward.js:24 | the scan lists exactly the stored rows |
| Rewards.FindAll | src/models/Reward.js:23-76 | a page of at most min(perPage, 100) rewards; the total counts every filtered row |
| Rewards.FindAllSound | src/models/Reward.js:23-76 | the listing is sorted by ascending cost; every listed reward is stored and passes the filters; a truthy maxPoints caps the cost (0 applies no cap) |
| Rewards.FindAllFirstPageComplete | src/models/Reward.js:23-76 | when the matches fit on the first page, every matching reward is listed |
| Rewards.RewardTable.FindById | src/models/Reward.js:15-21 | the reward stored under that id, if any |
| Rewards.RewardTable.Create | src/models/Reward.js:4-13 | inserts `NewReward` under a fresh id |
| Rewards.RewardTable.Update | src/models/Reward.js:78-97 | the stored reward becomes `UpdatedReward`; an unknown id changes nothing; the id invariant is kept |
| Rewards.RewardTable.DecrementInventory | src/models/Reward.js:99-108 | done iff the reward exists with inventory >= n; otherwise the error message and no change; inventory never goes negative; the id invariant is kept |
| Rewards.RewardTable.CheckInventory | src/models/Reward.js:110-116 | the stored count, or 0 for an unknown reward |
| Rewards.RewardTable.FindAllRewards | src/models/Reward.js:23-76 | `findAll` over the stored catalogue |
| Rewards.RewardTable.Delete | src/models/Reward.js:118-121 | removes the reward |
| Receipts.NewReceipt | src/models/Receipt.js:4-26 | a new receipt is always pending, unprocessed, with no points; the submitted columns are copied |
| Receipts.StatusTransitions | src/models/Receipt.js:110-138 | approve, reject and flag reach their status from any status; approve records the points, the multiplier and the time; reject records the time; flag does not touch `processed_at` |
| Receipts.UpdateStatusEffect | src/models/Receipt.js:95-108 | sets the status and the time, and records the processor only when it is truthy |
| Receipts.ItemRows | src/models/Receipt.js:140-156 | one row per item, in order, with the receipt id and its points |
| Receipts.ItemRowsPoints | src/models/Receipt.js:140-156 | the stored rows carry the calculator's points |
| Receipts.AnyDuplicate | src/models/Receipt.js:177-189 | a duplicate exists iff some row, in any status, has the same number, store and amount and was created strictly within the last hour |
| Receipts.ReceiptIsItsOwnDuplicate | src/models/Receipt.js:177-189 | a stored receipt under an hour old is a duplicate of itself |
| Receipts.NoDuplicateWithoutNumberOrAfterHour | src/models/Receipt.js:177-189 | a missing number never matches (NULL = NULL is not true); nothing matches once every row is an hour old |
| Receipts.Numbered | src/models/Receipt.js:44-60 | every row is paired with its id |
| Receipts.FindAll | src/models/Receipt.js:44-93 | a page of at most min(perPage, 100) receipts; the reported total is every row, whatever the filters |
| Receipts.FindAllSound | src/models/Receipt.js:44-93 | newest first; every listed receipt is stored under its id and passes the truthy filters |
| Receipts.FindAllFirstPageComplete | src/models/Receipt.js:44-93 | when the matches fit on the first page, every matching receipt is listed under its id |
| Receipts.StatusListings | src/models/Receipt.js:169-175 | `getPending` lists only pending receipts and `getFlagged` only flagged ones; their totals count every receipt |
| Receipts.StatusListingsComplete | src/models/Receipt.js:169-175 | when the receipts fit on the first page, every pending receipt is in `getPending` and every flagged one in `getFlagged` |
| Receipts.ReceiptTable.FindById | src/models/Receipt.js:28-42 | the row with that id, if any |
| Receipts.ReceiptTable.Create | src/models/Receipt.js:4-26 | appends `NewReceipt` under the next id |
| Receipts.ReceiptTable.Approve | src/models/Receipt.js:110-120 | the row becomes `ApproveRow`; an unknown id changes nothing |
| Receipts.ReceiptTable.Reject | src/models/Receipt.js:122-129 | the row becomes `RejectRow` |
| Receipts.ReceiptTable.Flag | src/models/Receipt.js:131-138 | the row becomes `FlagRow` |
| Receipts.ReceiptTable.UpdateStatus | src/models/Receipt.js:95-108 | the row becomes `UpdateStatusRow` |
| Receipts.ReceiptTable.AddItems | src/models/Receipt.js:140-156 | appends `ItemRows` and succeeds iff the list is non-empty; an empty list throws the SQL error and inserts nothing; the receipts are unchanged |
| Receipts.ReceiptTable.CheckDuplicateAt | src/models/Receipt.js:177-189 | the duplicate query over the stored receipts |
| Receipts.ReceiptTable.GetPending | src/models/Receipt.js:169-171 | `findAll` filtered to pending |
| Receipts.ReceiptTable.GetFlagged | src/models/Receipt.js:173-175 | `findAll` filtered to flagged |
| ReceiptProcessor.ValidateReceiptQuality | src/services/receiptProcessor.js:91-123 | the step-by-step deductions (50 for no image, 20 for no number, 10 for a capture method other than 'phone', floored at 0) equal `QualityScore`, which lies in [20, 100] |
| ReceiptProcessor.QualityScoreFacts | src/services/receiptProcessor.js:91-123 | the score is in [20, 100], so the floor never binds; 100 iff image, number and phone; below 50 iff there is no image and some other deduction applies |
| ReceiptProcessor.QualityScoreExamples | src/services/receiptProcessor.js:91-123 | the unit-test figures 100, 50, 80, 90 and 20 |
| ReceiptProcessor.Message | src/services/receiptProcessor.js:37-60 | an unsuccessful result carries a message; a success does not |
| ReceiptProcessor.SettleErrors | src/services/receiptProcessor.js:14-64 | a missing receipt, then a missing shopper, throws; past the quality and duplicate gates an empty item list throws at the insert; nothing else throws, and no throw changes a table |
| ReceiptProcessor.LowQualityIsFlagged | src/services/receiptProcessor.js:37-44 | a score below 50 flags the receipt and does nothing else: no items, no approval, no credit |
| ReceiptProcessor.DuplicateIsRejected | src/services/receiptProcessor.js:48-60 | past the quality gate, a duplicate is rejected with reason 'duplicate' and no credit |
| ReceiptProcessor.AwardPath | src/services/receiptProcessor.js:64-86 | otherwise, for a non-empty item list, the items are stored with their points, the receipt is approved with the total and the shopper's multiplier, and the shopper is credited the total |
| ReceiptProcessor.SettleIgnoresStatus | src/services/receiptProcessor.js:14-36 | processing never reads the prior status |
| ReceiptProcessor.FreshReceiptIsOwnDuplicate | src/services/receiptProcessor.js:48-50 | a numbered receipt processed within an hour of its upload matches itself and is rejected |
| ReceiptProcessor.ReprocessingCreditsAgain | src/services/receiptProcessor.js:48-79 | approval is not final: once every receipt is an hour old, processing an approved receipt again credits the shopper again |
| ReceiptProcessor.ProcessReceipt | src/services/receiptProcessor.js:14-89 | the method on the tables returns `Settle`'s result and leaves the tables as `Settle` says |
| ReceiptProcessor.AutoApprove | src/services/receiptProcessor.js:125-145 | auto-approved iff processing succeeded with a score of at least 80; otherwise it requires manual review |
| ReceiptProcessor.ApprovedYetManualReview | src/services/receiptProcessor.js:125-145 | a receipt scoring 50-79 is credited and still sent to manual review |
| ReceiptProcessor.CalculatePpgPayment | src/services/receiptProcessor.js:169-176 | the helper's payment |
| ReceiptProcessor.PpgPaymentIgnoresPpg | src/services/receiptProcessor.js:169-176 | the PPG id plays no part; the unit-test figure 2500 |
| ShopperController.NextTierAtIsThreshold | src/controllers/shopperController.js:76-77 | `nextTierAt` is 10000 for bronze, 50000 for silver and null for gold; `nextTier` is the tier ranked just above |
| ShopperController.QueryInt | src/controllers/shopperController.js:175-176 | a missing, non-numeric or zero parameter gives the fallback, any other number is kept; a non-zero fallback never yields 0 |
| ShopperController.PointsToNextTierPromotes | src/controllers/shopperController.js:153-156 | for a consistent shopper below gold, crediting exactly `pointsToNextTier` promotes and crediting less does not; gold gives 0 |
| ShopperController.GetPoints | src/controllers/shopperController.js:60-84 | 404 'Shopper not found' without a shopper; otherwise 200 with the balance, total, tier, multiplier and `nextTierAt` |
| ShopperController.GetTierInfo | src/controllers/shopperController.js:131-163 | 404 iff no shopper; otherwise the stored tier, multiplier, totals and the tier's benefits, with `nextTier` and `pointsToNextTier` |
| ShopperController.GetAvailableRewards | src/controllers/shopperController.js:165-193 | 404 iff no shopper; otherwise `findAll` for active rewards up to the balance, with page and perPage defaulted to 1 and 30, plus the balance |
| ShopperController.AvailableRewardsDefaults | src/controllers/shopperController.js:175-182 | without usable paging parameters the page is 1 of 30, and when at most 30 rewards qualify each one is offered |
| ShopperController.AvailableRewardsAffordable | src/controllers/shopperController.js:178-181 | every offered reward is active and, for a positive balance, affordable; with balance 0 the cap is not applied |
| ShopperController.RedeemRefusals | src/controllers/shopperController.js:197-241 | in order: no rewardId 400, no shopper 404, no reward 404, inactive 400, balance below cost 400, out of stock 400; each leaves both tables unchanged |
| ShopperController.RedeemSuccess | src/controllers/shopperController.js:195-262 | succeeds iff every check passes; then the debit comes first, inventory drops by 1, and newBalance = old balance - cost |
| ShopperController.RedeemNeverHalfDone | src/controllers/shopperController.js:243-247 | run after the checks, the commit never throws |
| ShopperController.CommitIsUncompensated | src/controllers/shopperController.js:243-247 | if taking the item fails after the debit, the debit is not undone |
| ShopperController.RedeemKeepsInvariants | src/controllers/shopperController.js:195-262 | redemption keeps the ledger invariant and non-negative inventory |
| ShopperController.RedeemReward | src/controllers/shopperController.js:195-262 | the method on the tables replies and updates as `Redeem` says |
| ShopperController.CommitRedemption | src/controllers/shopperController.js:243-257 | `deductPoints` then `decrementInventory`, as `Commit` says |
| ReceiptController.UploadQuality | src/controllers/receiptController.js:45 | 90 with an image, 60 without |
| ReceiptController.ImagePath | src/controllers/receiptController.js:32 | '/uploads/receipts/' + filename iff a file was uploaded |
| ReceiptController.UploadGuards | src/controllers/receiptController.js:16-42 | no shopper: 404; no store: 404; a 409 iff the number is truthy and a duplicate exists; no refusal creates a receipt |
| ReceiptController.UploadCreatesPending | src/controllers/receiptController.js:45-66 | otherwise exactly one pending receipt is appended for the user's shopper, with the given or a generated number, the image path and score 90 or 60, answered 201 with its id |
| ReceiptController.UploadReceipt | src/controllers/receiptController.js:11-71 | the method on the tables replies and appends as `UploadStep` says |
| ReceiptController.ApproveReplies | src/controllers/receiptController.js:135-163 | no items or an empty list: 400 with nothing processed; a thrown error is passed on; an unsuccessful result is a 400 with the processor's message; 200 iff processing succeeded |
| ReceiptController.ApproveReceipt | src/controllers/receiptController.js:135-163 | the method on the tables replies and updates as `ApproveStep` says |
| ClockRecords.LateAt | src/models/ClockRecord.js:19-20 | late iff strictly after 08:15 on the day |
| ClockRecords.LateAtAgreesWithHelper | src/models/ClockRecord.js:19-20 | agrees with `isLateForShift` on a 08:00 shift |
| ClockRecords.CloseOpen | src/models/ClockRecord.js:38-41 | the UPDATE closes exactly the PPG's open records for today, at `now` |
| ClockRecords.Affected | src/models/ClockRecord.js:43 | no row is affected iff there is no open record for today |
| ClockRecords.ClockInEffect | src/models/ClockRecord.js:4-32 | refused with 'Already clocked in for today' iff an open record for today exists, with no change; otherwise exactly one open record with the time, the date and the late flag, under the next id |
| ClockRecords.ClockOutEffect | src/models/ClockRecord.js:34-50 | 'No active clock-in found for today' iff no open record, with no change; otherwise every such record is closed at `now` and the others are untouched |
| ClockRecords.ClockInAgainAfterClockOut | src/models/ClockRecord.js:9-16 | after a clock-out, clocking in again the same day is allowed |
| ClockRecords.ClockInThenOut | src/models/ClockRecord.js:4-50 | after a clock-in, a second clock-in that day is refused and a clock-out succeeds |
| ClockRecords.StepsKeepInvariant | src/models/ClockRecord.js:4-50 | both steps keep at most one open record per PPG and day, and keep every record dated by its clock-in day |
| ClockRecords.TodayRecord | src/models/ClockRecord.js:52-61 | the first of the PPG's records for that date, open or closed, or none |
| ClockRecords.RecordsListings | src/models/ClockRecord.js:63-87 | `getRecords` and `getLateRecords` hold exactly the matching records, latest date first |
| ClockRecords.ClockRecordTable.ClockIn | src/models/ClockRecord.js:4-32 | replies and appends as `ClockInStep` says and keeps the invariant |
| ClockRecords.ClockRecordTable.ClockOut | src/models/ClockRecord.js:34-50 | replies and updates as `ClockOutStep` says and keeps the invariant |
| ClockRecords.ClockRecordTable.GetTodayRecord | src/models/ClockRecord.js:52-61 | `TodayRecord` over the stored records |
| RoleCheck.GuardDecision | src/middleware/roleCheck.js:8-30 | 401 iff no user; 'admin' always passes; any other role passes iff it is listed, otherwise 403 |
| RoleCheck.GuardReadsOnlyRole | src/middleware/roleCheck.js:8-30 | the decision depends only on the role |
| RoleCheck.GuardMonotone | src/middleware/roleCheck.js:22 | listing more roles refuses no one who passed before |
| Ocr.ItemsPoints | frontend/src/services/ocr.js:233-235 | the items add 10 each, at most 40 |
| Ocr.CalculateConfidenceScore | frontend/src/services/ocr.js:223-245 | the running score equals the sum of the parts clamped at 100, and lies in [0, 100] |
| Ocr.ConfidenceBounds | frontend/src/services/ocr.js:223-245 | the score lies in [0, 100]; the number, a positive total and four items already reach 100; no part gives 0; without the number or the total at most 90 |
| Ocr.ConfidenceExamples | frontend/src/services/ocr.js:223-245 | sample scores 80, 20 and 10 |
| Ocr.FirstFit | frontend/src/services/ocr.js:205-208 | the first brand whose lowercased name contains, or is contained in, the item's name; none iff no brand fits |
| Ocr.MatchBrandsEffect | frontend/src/services/ocr.js:201-216 | keeps length, order and each item's fields; the brand is the first that fits, otherwise brand and brandId are null; a zero id reads as null |
| Ocr.BrandNameIsMatched | frontend/src/services/ocr.js:205-208 | an item named after a brand, in any letter case, gets a brand |
| MockApi.Split | frontend/src/services/mockApi.js:454 | `split` always yields at least one piece |
| MockApi.SplitJoin | frontend/src/services/mockApi.js:454 | joining the pieces gives the string back; no piece holds the separator |
| MockApi.SplitFirst | frontend/src/services/mockApi.js:454 | the first piece is a prefix; a string with the separator splits into at least two pieces |
| MockApi.StripQueryEffect | frontend/src/services/mockApi.js:454-455 | the path is a prefix of the url without '?'; a url without '?' is kept whole |
| MockApi.FirstMatch | frontend/src/services/mockApi.js:463-484 | the first key, in table order, that fits the url |
| MockApi.Lookup | frontend/src/services/mockApi.js:459 | the entry stored under exactly that key |
| MockApi.MatchSegments | frontend/src/services/mockApi.js:466-479 | the inner loop reports a match exactly when every segment is a `:name` or equal, and then returns the bindings `Bind` collects |
| MockApi.MockApiInterceptor | frontend/src/services/mockApi.js:448-501 | the nested loops answer as `Interception` says |
| MockApi.DisabledFallsThrough | frontend/src/services/mockApi.js:449-451 | with mocking disabled the answer is null |
| MockApi.ExactKeyFirst | frontend/src/services/mockApi.js:455-459 | the exact "METHOD path" key wins, with no params; the query string is ignored |
| MockApi.ParamMatch | frontend/src/services/mockApi.js:463-484 | otherwise the first key with an equal segment count, equal literal segments and the same method wins, and its `:name` segments bind the url's segments |
| MockApi.BindKeeps | frontend/src/services/mockApi.js:470-471 | a binding survives unless a later segment reuses its name |
| MockApi.AnswerKinds | frontend/src/services/mockApi.js:487-500 | a handler that throws gives code 500 with 'Mock API error: ' and its message; no handler gives a success with empty data naming the request |

## Left out

- HTTP transport, routing, and authentication beyond the role check: a
  controller's answer is its status code and JSON envelope only.
- Joins and referential integrity: the model does not check foreign keys.
  Store lookup in `uploadReceipt` is a set of known store ids, because
  src/models/Store.js is not part of this model. The user join of
  `getLateRecords` is dropped.
- SQL collation: string comparison is exact, while MySQL's default collation
  ignores case.
- `updated_at = NOW()` is not modelled: `Brand.update`, `toggleRollover`,
  `toggleSeeding` and `Shopper.updatePoints` all set it.
- Ties: rows with equal sort keys are listed in id order, while SQL leaves
  their order unspecified.
- Rewards.FindAll, Receipts.FindAll, ShopperController.GetAvailableRewards:
  require perPage >= 0. A negative LIMIT is an SQL error that the model does
  not represent. In `getAvailableRewards` a missing or non-numeric parameter
  is `None`; the string parsing itself (`parseInt("2abc")` is 2) is not
  modelled, so a parameter arrives as an already parsed integer.
- The SQL error an empty bulk insert raises is the constant
  `EmptyInsertMessage`; the driver's wording is not modelled.
- Brands.UpdatedBrandColumns, Rewards.UpdatedRewardColumns: proved only for
  values of each column's type. The update routes do not validate the body,
  and MySQL coerces a mistyped value (`1` into a boolean column, `"12"` into
  a number). Brands.BrandTable.Update and Rewards.RewardTable.Update accept
  any body, but a value of the wrong type leaves its column as it was
  instead of being coerced.
- Shoppers.Debit: a negative amount is not rejected, just as in the source,
  and the invariant lemmas assume non-negative amounts.
- Helpers.ToLower: only ASCII letters are lowered. Full Unicode
  `toLowerCase` is not modelled.
- Time zones: `toISOString` dates are UTC while the 08:00 shift start is
  parsed as local time. The model uses one abstract day.
- Randomness: `generateReceiptNumber` is a parameter of the upload, and
  `randomFlag` is not modelled.
- `getPointsExpirationDate`, `shouldSendExpirationWarning`,
  `calculateExpiringPoints`, `getUnprocessedReceipts`, `formatCurrency` and
  `formatDateKenyaTime` are calendar, formatting or reporting code and are
  not modelled. So are `checkDuplicateReceipt` in helpers, which nothing in
  the core calls, and `generateToken`.
- Notifications and logging after an upload or approval are
  fire-and-forget and are not modelled.
- `getProfile`, `updateProfile`, `getReceipts`, `getEligibleBrands`,
  `listReceipts`, `getReceiptDetails`, and the reject and flag controllers are
  not modelled. Neither are `Shopper.findAll`, `Shopper.getTierInfo`
  (read as the stored shopper row), `Brand.findAll` and the
  `getAttendanceReport`/`getPerformance` aggregates, none of which
  carry the core's logic.
- OCR text extraction, `parseReceiptData` and image checks are I/O or
  floating-point parsing. Totals and prices are whole numbers.
- Mock API handler bodies and the simulated delay: a handler is an opaque
  value, and running it is the `run` parameter. MockApi routes must hold a
  space, as every key of the table does; a key without one would make the
  source throw a TypeError outside its try block.
- Concurrency: each guarded UPDATE is one atomic step, and steps do not
  interleave.
- Duplicates: the check matches receipts in any status, including the
  receipt being processed, so a numbered receipt processed within the hour
  of its upload is rejected as its own duplicate.
