/** src/models/Brand.js: brand rule records, their creation defaults, the
    whitelisted update and the two feature toggles. */
module Brands {
  import opened Common

  datatype Brand = Brand(
    name: string,
    category: string,
    pointsPerKes: int,
    minPurchaseAmount: int,
    maxPointsPerTransaction: int,
    brandManagerId: Option<int>,
    isActive: bool,
    rolloverEnabled: bool,
    seedingEnabled: bool)

  /** The ranges the brand creation schema accepts (src/utils/validators.js). */
  predicate WellFormed(b: Brand)
  {
    && 8 <= b.pointsPerKes <= 15
    && 50 <= b.minPurchaseAmount <= 200
    && 5000 <= b.maxPointsPerTransaction <= 10000
  }

  /** The creation payload; `None` is an omitted (undefined) flag. */
  datatype BrandInput = BrandInput(
    name: string,
    category: string,
    pointsPerKes: int,
    minPurchaseAmount: int,
    maxPointsPerTransaction: int,
    brandManagerId: Option<int>,
    isActive: Option<bool>,
    rolloverEnabled: Option<bool>,
    seedingEnabled: Option<bool>)

  function OrElse(o: Option<bool>, default: bool): bool
  {
    if o.Some? then o.value else default
  }

  /** The row `create` inserts: omitted flags default to active, no rollover,
      no seeding; every given field is stored as given. */
  function NewBrand(d: BrandInput): (b: Brand)
    ensures b.isActive == (d.isActive != Some(false))
    ensures b.rolloverEnabled == (d.rolloverEnabled == Some(true))
    ensures b.seedingEnabled == (d.seedingEnabled == Some(true))
    ensures b.name == d.name && b.category == d.category && b.pointsPerKes == d.pointsPerKes
    ensures b.minPurchaseAmount == d.minPurchaseAmount && b.maxPointsPerTransaction == d.maxPointsPerTransaction
    ensures b.brandManagerId == d.brandManagerId
  {
    Brand(d.name, d.category, d.pointsPerKes, d.minPurchaseAmount, d.maxPointsPerTransaction,
          d.brandManagerId, OrElse(d.isActive, true), OrElse(d.rolloverEnabled, false),
          OrElse(d.seedingEnabled, false))
  }

  // ---------------------------------------------------------------------
  // Whitelisted update

  const AllowedFields: set<string> := {
    "name", "category", "points_per_kes", "min_purchase_amount",
    "max_points_per_transaction", "brand_manager_id", "is_active",
    "rollover_enabled", "seeding_enabled"
  }

  /** The nine writable columns. */
  datatype Field =
    | NameField | CategoryField | PointsPerKesField | MinPurchaseField | MaxPointsField
    | ManagerField | ActiveField | RolloverField | SeedingField

  /** The column a key names, if it is one of the allowed ones. */
  function FieldNamed(key: string): (f: Option<Field>)
    ensures f.Some? <==> key in AllowedFields
  {
    if key == "name" then Some(NameField)
    else if key == "category" then Some(CategoryField)
    else if key == "points_per_kes" then Some(PointsPerKesField)
    else if key == "min_purchase_amount" then Some(MinPurchaseField)
    else if key == "max_points_per_transaction" then Some(MaxPointsField)
    else if key == "brand_manager_id" then Some(ManagerField)
    else if key == "is_active" then Some(ActiveField)
    else if key == "rollover_enabled" then Some(RolloverField)
    else if key == "seeding_enabled" then Some(SeedingField)
    else None
  }

  /** Distinct keys name distinct columns. */
  lemma FieldNamedInjective(k: string, key: string)
    requires FieldNamed(k).Some? && FieldNamed(k) == FieldNamed(key)
    ensures k == key
  {
  }

  /** The value column `f` holds, as bound to a placeholder. */
  function FieldValue(b: Brand, f: Field): Value
  {
    match f
    case NameField => Text(b.name)
    case CategoryField => Text(b.category)
    case PointsPerKesField => Number(b.pointsPerKes)
    case MinPurchaseField => Number(b.minPurchaseAmount)
    case MaxPointsField => Number(b.maxPointsPerTransaction)
    case ManagerField => if b.brandManagerId.Some? then Number(b.brandManagerId.value) else Null
    case ActiveField => Flag(b.isActive)
    case RolloverField => Flag(b.rolloverEnabled)
    case SeedingField => Flag(b.seedingEnabled)
  }

  /** The value column `key` holds; an unknown key reads as null. */
  function Column(b: Brand, key: string): Value
  {
    if FieldNamed(key).Some? then FieldValue(b, FieldNamed(key).value) else Null
  }

  /** True iff `v` has the type of column `key`; any value fits an unknown key. */
  predicate Fits(key: string, v: Value)
  {
    match FieldNamed(key)
    case None => true
    case Some(f) =>
      match f
      case NameField => v.Text?
      case CategoryField => v.Text?
      case PointsPerKesField => v.Number?
      case MinPurchaseField => v.Number?
      case MaxPointsField => v.Number?
      case ManagerField => v.Number? || v.Null?
      case ActiveField => v.Flag?
      case RolloverField => v.Flag?
      case SeedingField => v.Flag?
  }

  predicate WellTyped(updates: seq<(string, Value)>)
  {
    forall j :: 0 <= j < |updates| ==> Fits(updates[j].0, updates[j].1)
  }

  /** Writing `v` into column `f`; a value of the wrong type leaves the row as it is. */
  function SetField(b: Brand, f: Field, v: Value): Brand
  {
    match f
    case NameField => if v.Text? then b.(name := v.s) else b
    case CategoryField => if v.Text? then b.(category := v.s) else b
    case PointsPerKesField => if v.Number? then b.(pointsPerKes := v.n) else b
    case MinPurchaseField => if v.Number? then b.(minPurchaseAmount := v.n) else b
    case MaxPointsField => if v.Number? then b.(maxPointsPerTransaction := v.n) else b
    case ManagerField =>
      if v.Number? then b.(brandManagerId := Some(v.n))
      else if v.Null? then b.(brandManagerId := None)
      else b
    case ActiveField => if v.Flag? then b.(isActive := v.b) else b
    case RolloverField => if v.Flag? then b.(rolloverEnabled := v.b) else b
    case SeedingField => if v.Flag? then b.(seedingEnabled := v.b) else b
  }

  /** One `key = ?` assignment of the SET list; an unknown key changes nothing. */
  function SetColumn(b: Brand, key: string, v: Value): Brand
  {
    if FieldNamed(key).Some? then SetField(b, FieldNamed(key).value, v) else b
  }

  /** The SET list applied left to right. */
  function SetColumns(b: Brand, fields: seq<(string, Value)>): Brand
    decreases |fields|
  {
    if fields == [] then b else SetColumns(SetColumn(b, fields[0].0, fields[0].1), fields[1..])
  }

  /** The row after `update(id, updates)`: only the allowed keys are written. */
  function UpdatedBrand(b: Brand, updates: seq<(string, Value)>): Brand
  {
    SetColumns(b, Whitelisted(updates, AllowedFields))
  }

  /** Writing a column of its own type stores exactly that value. */
  lemma SetColumnSame(b: Brand, key: string, v: Value)
    requires key in AllowedFields && Fits(key, v)
    ensures Column(SetColumn(b, key, v), key) == v
  {
  }

  /** Writing one field leaves every other field as it was. */
  lemma SetFieldOther(b: Brand, f: Field, v: Value, g: Field)
    requires f != g
    ensures FieldValue(SetField(b, f, v), g) == FieldValue(b, g)
  {
  }

  /** Writing one column leaves every other column as it was. */
  lemma SetColumnOther(b: Brand, key: string, v: Value, k: string)
    requires k != key
    ensures Column(SetColumn(b, key, v), k) == Column(b, k)
  {
    if FieldNamed(k).Some? && FieldNamed(key).Some? {
      if FieldNamed(k) == FieldNamed(key) {
        FieldNamedInjective(k, key);
      } else {
        SetFieldOther(b, FieldNamed(key).value, v, FieldNamed(k).value);
      }
    }
  }

  lemma {:induction false} SetColumnEffect(b: Brand, key: string, v: Value, k: string)
    requires k in AllowedFields && Fits(key, v)
    ensures Column(SetColumn(b, key, v), k) == if k == key then v else Column(b, k)
  {
    if k == key {
      SetColumnSame(b, key, v);
    } else {
      SetColumnOther(b, key, v, k);
    }
  }

  lemma {:induction false} SetColumnsEffect(b: Brand, fields: seq<(string, Value)>, k: string)
    requires k in AllowedFields && WellTyped(fields)
    ensures Column(SetColumns(b, fields), k) == LastWrite(fields, k, Column(b, k))
    decreases |fields|
  {
    if fields != [] {
      var b' := SetColumn(b, fields[0].0, fields[0].1);
      SetColumnEffect(b, fields[0].0, fields[0].1, k);
      assert WellTyped(fields[1..]) by {
        forall j | 0 <= j < |fields[1..]| ensures Fits(fields[1..][j].0, fields[1..][j].1) {
          assert fields[1..][j] == fields[j + 1];
        }
      }
      SetColumnsEffect(b', fields[1..], k);
    }
  }

  lemma WhitelistedWellTyped(updates: seq<(string, Value)>)
    requires WellTyped(updates)
    ensures WellTyped(Whitelisted(updates, AllowedFields))
  {
    var w := Whitelisted(updates, AllowedFields);
    forall j | 0 <= j < |w| ensures Fits(w[j].0, w[j].1) {
      assert w[j] in updates;
    }
  }

  /** `update` writes every allowed column to the last value given for it and
      leaves every other column as it was; other keys are ignored. */
  lemma UpdatedBrandColumns(b: Brand, updates: seq<(string, Value)>, k: string)
    requires k in AllowedFields && WellTyped(updates)
    ensures Column(UpdatedBrand(b, updates), k) == LastWrite(updates, k, Column(b, k))
    ensures !Names(updates, k) ==> Column(UpdatedBrand(b, updates), k) == Column(b, k)
  {
    WhitelistedWellTyped(updates);
    SetColumnsEffect(b, Whitelisted(updates, AllowedFields), k);
    LastWriteWhitelisted(updates, AllowedFields, k, Column(b, k));
    if !Names(updates, k) {
      LastWriteUnnamed(updates, k, Column(b, k));
    }
  }

  /** A brand is determined by its nine columns. */
  lemma ColumnsDetermineBrand(a: Brand, b: Brand)
    requires forall k :: k in AllowedFields ==> Column(a, k) == Column(b, k)
    ensures a == b
  {
    assert Column(a, "name") == Column(b, "name");
    assert Column(a, "category") == Column(b, "category");
    assert Column(a, "points_per_kes") == Column(b, "points_per_kes");
    assert Column(a, "min_purchase_amount") == Column(b, "min_purchase_amount");
    assert Column(a, "max_points_per_transaction") == Column(b, "max_points_per_transaction");
    assert Column(a, "brand_manager_id") == Column(b, "brand_manager_id");
    assert Column(a, "is_active") == Column(b, "is_active");
    assert Column(a, "rollover_enabled") == Column(b, "rollover_enabled");
    assert Column(a, "seeding_enabled") == Column(b, "seeding_enabled");
  }

  /** An update that names no allowed key leaves the brand as it is. */
  lemma UpdateWithoutAllowedKeysIsNoop(b: Brand, updates: seq<(string, Value)>)
    requires forall j :: 0 <= j < |updates| ==> updates[j].0 !in AllowedFields
    ensures UpdatedBrand(b, updates) == b
  {
  }

  // ---------------------------------------------------------------------
  // The brands table

  class BrandTable {
    var brands: map<nat, Brand>
    var nextId: nat

    ghost predicate Valid()
      reads this
    {
      nextId >= 1 && forall id :: id in brands ==> 1 <= id < nextId
    }

    constructor ()
      ensures Valid() && brands == map[] && nextId == 1
    {
      brands := map[];
      nextId := 1;
    }

    function FindById(id: nat): (r: Option<Brand>)
      reads this
      ensures r.Some? <==> id in brands
      ensures r.Some? ==> r.value == brands[id]
    {
      if id in brands then Some(brands[id]) else None
    }

    method Create(d: BrandInput) returns (id: nat)
      requires Valid()
      modifies this
      ensures Valid()
      ensures id == old(nextId) && id !in old(brands)
      ensures brands == old(brands)[id := NewBrand(d)]
      ensures nextId == old(nextId) + 1
    {
      id := nextId;
      brands := brands[id := NewBrand(d)];
      nextId := nextId + 1;
    }

    method Update(id: nat, updates: seq<(string, Value)>)
      modifies this
      ensures old(Valid()) ==> Valid()
      ensures nextId == old(nextId)
      ensures brands == if id in old(brands) then old(brands)[id := UpdatedBrand(old(brands)[id], updates)]
                        else old(brands)
    {
      var fields := CollectAllowed(updates, AllowedFields);
      if |fields| == 0 {
        // nothing allowed to write: no statement is issued
        return;
      }
      if id in brands {
        brands := brands[id := SetColumns(brands[id], fields)];
      }
    }

    method ToggleRollover(id: nat, enabled: bool)
      modifies this
      ensures old(Valid()) ==> Valid()
      ensures nextId == old(nextId)
      ensures brands == if id in old(brands) then old(brands)[id := old(brands)[id].(rolloverEnabled := enabled)]
                        else old(brands)
    {
      if id in brands {
        brands := brands[id := brands[id].(rolloverEnabled := enabled)];
      }
    }

    method ToggleSeeding(id: nat, enabled: bool)
      modifies this
      ensures old(Valid()) ==> Valid()
      ensures nextId == old(nextId)
      ensures brands == if id in old(brands) then old(brands)[id := old(brands)[id].(seedingEnabled := enabled)]
                        else old(brands)
    {
      if id in brands {
        brands := brands[id := brands[id].(seedingEnabled := enabled)];
      }
    }

    method Delete(id: nat)
      requires Valid()
      modifies this
      ensures Valid()
      ensures brands == old(brands) - {id} && nextId == old(nextId)
      ensures FindById(id).None?
    {
      brands := brands - {id};
    }
  }
}
