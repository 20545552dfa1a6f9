/** src/models/Reward.js: the rewards catalogue, its whitelisted update, the
    guarded inventory decrement and the filtered, cost-ordered listing. */
module Rewards {
  import opened Common
  import opened Helpers
  import opened Query

  datatype Reward = Reward(
    name: string,
    rtype: string,
    pointsCost: int,
    inventoryCount: int,
    isActive: bool)

  /** The ranges the reward creation schema accepts (src/utils/validators.js). */
  predicate WellFormed(r: Reward)
  {
    r.pointsCost > 0 && r.inventoryCount >= 0
  }

  /** The creation payload; `isActive` is `None` when omitted. */
  datatype RewardInput = RewardInput(
    name: string,
    rtype: string,
    pointsCost: int,
    inventoryCount: int,
    isActive: Option<bool>)

  /** The row `create` inserts: an omitted `isActive` defaults to true. */
  function NewReward(d: RewardInput): (r: Reward)
    ensures r.isActive == (d.isActive != Some(false))
    ensures r.name == d.name && r.rtype == d.rtype
    ensures r.pointsCost == d.pointsCost && r.inventoryCount == d.inventoryCount
  {
    Reward(d.name, d.rtype, d.pointsCost, d.inventoryCount,
           if d.isActive.Some? then d.isActive.value else true)
  }

  // ---------------------------------------------------------------------
  // Whitelisted update

  const AllowedFields: set<string> := {"name", "type", "points_cost", "inventory_count", "is_active"}

  function Column(r: Reward, key: string): Value
  {
    if key == "name" then Text(r.name)
    else if key == "type" then Text(r.rtype)
    else if key == "points_cost" then Number(r.pointsCost)
    else if key == "inventory_count" then Number(r.inventoryCount)
    else if key == "is_active" then Flag(r.isActive)
    else Null
  }

  predicate Fits(key: string, v: Value)
  {
    if key in {"name", "type"} then v.Text?
    else if key in {"points_cost", "inventory_count"} then v.Number?
    else if key == "is_active" then v.Flag?
    else true
  }

  predicate WellTyped(updates: seq<(string, Value)>)
  {
    forall j :: 0 <= j < |updates| ==> Fits(updates[j].0, updates[j].1)
  }

  function SetColumn(r: Reward, key: string, v: Value): Reward
  {
    if key == "name" && v.Text? then r.(name := v.s)
    else if key == "type" && v.Text? then r.(rtype := v.s)
    else if key == "points_cost" && v.Number? then r.(pointsCost := v.n)
    else if key == "inventory_count" && v.Number? then r.(inventoryCount := v.n)
    else if key == "is_active" && v.Flag? then r.(isActive := v.b)
    else r
  }

  function SetColumns(r: Reward, fields: seq<(string, Value)>): Reward
    decreases |fields|
  {
    if fields == [] then r else SetColumns(SetColumn(r, fields[0].0, fields[0].1), fields[1..])
  }

  function UpdatedReward(r: Reward, updates: seq<(string, Value)>): Reward
  {
    SetColumns(r, Whitelisted(updates, AllowedFields))
  }

  lemma {:induction false} SetColumnEffect(r: Reward, key: string, v: Value, k: string)
    requires k in AllowedFields && Fits(key, v)
    ensures Column(SetColumn(r, key, v), k) == if k == key then v else Column(r, k)
  {
    if key == "name" {
    } else if key == "type" {
    } else if key == "points_cost" {
    } else if key == "inventory_count" {
    } else if key == "is_active" {
    } else {
      assert SetColumn(r, key, v) == r;
    }
  }

  lemma {:induction false} SetColumnsEffect(r: Reward, fields: seq<(string, Value)>, k: string)
    requires k in AllowedFields && WellTyped(fields)
    ensures Column(SetColumns(r, fields), k) == LastWrite(fields, k, Column(r, k))
    decreases |fields|
  {
    if fields != [] {
      SetColumnEffect(r, fields[0].0, fields[0].1, k);
      assert WellTyped(fields[1..]) by {
        forall j | 0 <= j < |fields[1..]| ensures Fits(fields[1..][j].0, fields[1..][j].1) {
          assert fields[1..][j] == fields[j + 1];
        }
      }
      SetColumnsEffect(SetColumn(r, fields[0].0, fields[0].1), fields[1..], k);
    }
  }

  /** `update` writes name, type, points_cost, inventory_count and is_active
      to the last value given for each, and leaves unnamed columns alone. */
  lemma UpdatedRewardColumns(r: Reward, updates: seq<(string, Value)>, k: string)
    requires k in AllowedFields && WellTyped(updates)
    ensures Column(UpdatedReward(r, updates), k) == LastWrite(updates, k, Column(r, k))
    ensures !Names(updates, k) ==> Column(UpdatedReward(r, updates), k) == Column(r, k)
  {
    var w := Whitelisted(updates, AllowedFields);
    assert WellTyped(w) by {
      forall j | 0 <= j < |w| ensures Fits(w[j].0, w[j].1) {
        assert w[j] in updates;
      }
    }
    SetColumnsEffect(r, w, k);
    LastWriteWhitelisted(updates, AllowedFields, k, Column(r, k));
    if !Names(updates, k) {
      LastWriteUnnamed(updates, k, Column(r, k));
    }
  }

  /** A reward is determined by its five columns, so an update that names no
      allowed key is a no-op. */
  lemma UpdateWithoutAllowedKeysIsNoop(r: Reward, updates: seq<(string, Value)>)
    requires forall j :: 0 <= j < |updates| ==> updates[j].0 !in AllowedFields
    ensures UpdatedReward(r, updates) == r
  {
  }

  // ---------------------------------------------------------------------
  // Inventory

  /** `decrementInventory(amount)` on one row: applied whole when
      inventory >= amount, otherwise not at all. */
  function Decrement(r: Reward, amount: int): (d: Option<Reward>)
    ensures d.Some? <==> r.inventoryCount >= amount
    ensures d.Some? ==> d.value.inventoryCount == r.inventoryCount - amount
    ensures d.Some? ==> d.value == r.(inventoryCount := d.value.inventoryCount)
  {
    if r.inventoryCount >= amount then Some(r.(inventoryCount := r.inventoryCount - amount)) else None
  }

  /** A non-negative inventory stays non-negative: a decrement that would go
      below zero is refused. */
  lemma DecrementNeverNegative(r: Reward, amount: int)
    requires Decrement(r, amount).Some?
    ensures Decrement(r, amount).value.inventoryCount >= 0
  {
  }

  const InsufficientInventoryMessage: string := "Insufficient inventory or reward not found"

  // ---------------------------------------------------------------------
  // Listing

  /** The filters of `findAll`. `rtype` applies only when truthy, `isActive`
      whenever given, `maxPoints` only when truthy (0 applies no cap). */
  datatype RewardFilters = RewardFilters(rtype: Option<string>, isActive: Option<bool>, maxPoints: Option<int>)

  predicate Matches(f: RewardFilters, r: Reward)
  {
    && (Truthy(f.rtype) ==> r.rtype == f.rtype.value)
    && (f.isActive.Some? ==> r.isActive == f.isActive.value)
    && (f.maxPoints.Some? && f.maxPoints.value != 0 ==> r.pointsCost <= f.maxPoints.value)
  }

  /** The rows with ids below `n`, in primary-key order. */
  function RowsBelow(m: map<nat, Reward>, n: nat): (rows: seq<(nat, Reward)>)
    ensures forall k :: 0 <= k < |rows| ==> rows[k].0 < n && rows[k].0 in m && m[rows[k].0] == rows[k].1
    ensures forall id :: id in m && id < n ==> (id, m[id]) in rows
  {
    if n == 0 then []
    else
      var prev := RowsBelow(m, n - 1);
      var rows := if n - 1 in m then prev + [(n - 1, m[n - 1])] else prev;
      assert forall x :: x in prev ==> x in rows;
      rows
  }

  /** The rows a query with filters `f` selects, in primary-key order. */
  function Selected(rows: seq<(nat, Reward)>, f: RewardFilters): seq<(nat, Reward)>
  {
    Where(rows, (row: (nat, Reward)) => Matches(f, row.1))
  }

  function Cost(row: (nat, Reward)): int
  {
    row.1.pointsCost
  }

  datatype RewardPage = RewardPage(rewards: seq<(nat, Reward)>, total: nat, page: int, perPage: int)

  /** `findAll(filters, page, perPage)` over the rewards with ids below `nextId`:
      the matching rows ordered by ascending cost, one page of them, and the
      count of all matching rows. */
  function FindAll(m: map<nat, Reward>, nextId: nat, f: RewardFilters, page: int, perPage: int): (p: RewardPage)
    requires perPage >= 0
    ensures p.perPage <= 100 && |p.rewards| <= p.perPage
    ensures p.total == |Selected(RowsBelow(m, nextId), f)|
    ensures p.page == page
  {
    var selected := Selected(RowsBelow(m, nextId), f);
    var window := Paginate(page, perPage);
    RewardPage(Window(SortBy(selected, Cost), window.offset, window.limit), |selected|, page, window.limit)
  }

  /** Every listed reward is a stored reward that passes the filters, and the
      page is in ascending cost order. */
  lemma FindAllSound(m: map<nat, Reward>, nextId: nat, f: RewardFilters, page: int, perPage: int)
    requires perPage >= 0
    ensures var p := FindAll(m, nextId, f, page, perPage);
            && SortedBy(p.rewards, Cost)
            && forall k :: 0 <= k < |p.rewards| ==>
                 p.rewards[k].0 in m && m[p.rewards[k].0] == p.rewards[k].1 && Matches(f, p.rewards[k].1)
  {
    var rows := RowsBelow(m, nextId);
    var window := Paginate(page, perPage);
    ListingSound(rows, (row: (nat, Reward)) => Matches(f, row.1), Cost, window.offset, window.limit);
  }

  /** With all matching rows on the first page, the listing holds every
      stored reward that passes the filters. */
  lemma FindAllFirstPageComplete(m: map<nat, Reward>, nextId: nat, f: RewardFilters, perPage: int, id: nat)
    requires 100 >= perPage >= |Selected(RowsBelow(m, nextId), f)|
    requires id in m && id < nextId && Matches(f, m[id])
    ensures (id, m[id]) in FindAll(m, nextId, f, 1, perPage).rewards
  {
    var rows := RowsBelow(m, nextId);
    var selected := Selected(rows, f);
    var sorted := SortBy(selected, Cost);
    var j :| 0 <= j < |rows| && rows[j] == (id, m[id]);
    assert (id, m[id]) in selected;
    assert (id, m[id]) in multiset(sorted);
    assert Window(sorted, 0, perPage) == sorted;
  }

  // ---------------------------------------------------------------------
  // The rewards table

  class RewardTable {
    var rewards: map<nat, Reward>
    var nextId: nat

    ghost predicate Valid()
      reads this
    {
      nextId >= 1 && forall id :: id in rewards ==> 1 <= id < nextId
    }

    /** Inventory is never negative. */
    ghost predicate Stocked()
      reads this
    {
      forall id :: id in rewards ==> rewards[id].inventoryCount >= 0
    }

    constructor ()
      ensures Valid() && Stocked() && rewards == map[] && nextId == 1
    {
      rewards := map[];
      nextId := 1;
    }

    function FindById(id: nat): (r: Option<Reward>)
      reads this
      ensures r.Some? <==> id in rewards
      ensures r.Some? ==> r.value == rewards[id]
    {
      if id in rewards then Some(rewards[id]) else None
    }

    method Create(d: RewardInput) returns (id: nat)
      requires Valid()
      modifies this
      ensures Valid()
      ensures id == old(nextId) && id !in old(rewards)
      ensures rewards == old(rewards)[id := NewReward(d)] && nextId == old(nextId) + 1
      ensures old(Stocked()) && d.inventoryCount >= 0 ==> Stocked()
    {
      id := nextId;
      rewards := rewards[id := NewReward(d)];
      nextId := nextId + 1;
    }

    method Update(id: nat, updates: seq<(string, Value)>)
      modifies this
      ensures old(Valid()) ==> Valid()
      ensures nextId == old(nextId)
      ensures rewards == if id in old(rewards) then old(rewards)[id := UpdatedReward(old(rewards)[id], updates)]
                         else old(rewards)
    {
      var fields := CollectAllowed(updates, AllowedFields);
      if |fields| == 0 {
        return;
      }
      if id in rewards {
        rewards := rewards[id := SetColumns(rewards[id], fields)];
      }
    }

    method DecrementInventory(id: nat, amount: int) returns (r: Outcome)
      modifies this
      ensures old(Valid()) ==> Valid()
      ensures nextId == old(nextId)
      ensures r.Done? <==> id in old(rewards) && old(rewards)[id].inventoryCount >= amount
      ensures r.Done? ==> rewards == old(rewards)[id := Decrement(old(rewards)[id], amount).value]
      ensures r.Fail? ==> r.message == InsufficientInventoryMessage && rewards == old(rewards)
      ensures old(Stocked()) ==> Stocked()
    {
      if id in rewards && rewards[id].inventoryCount >= amount {
        rewards := rewards[id := rewards[id].(inventoryCount := rewards[id].inventoryCount - amount)];
        r := Done;
      } else {
        r := Fail(InsufficientInventoryMessage);
      }
    }

    /** `checkInventory`: the stored count, 0 for an unknown reward. */
    function CheckInventory(id: nat): (count: int)
      reads this
      ensures id in rewards ==> count == rewards[id].inventoryCount
      ensures id !in rewards ==> count == 0
    {
      if id in rewards then rewards[id].inventoryCount else 0
    }

    function FindAllRewards(f: RewardFilters, page: int, perPage: int): (p: RewardPage)
      requires perPage >= 0
      reads this
      ensures p == FindAll(rewards, nextId, f, page, perPage)
    {
      FindAll(rewards, nextId, f, page, perPage)
    }

    method Delete(id: nat)
      requires Valid()
      modifies this
      ensures Valid()
      ensures rewards == old(rewards) - {id} && nextId == old(nextId)
      ensures FindById(id).None?
    {
      rewards := rewards - {id};
    }
  }
}
