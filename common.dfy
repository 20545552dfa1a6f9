/** Shared building blocks: optional values, auto-increment tables held in id
    order, JavaScript truthiness of nullable strings, loosely typed column
    values and the "allowed fields" filter that the models' update methods
    apply before they build an UPDATE statement. */
module Common {

  datatype Option<T> = None | Some(value: T)

  /** A value, or the message of the Error the source throws. */
  datatype Result<T> = Ok(value: T) | Err(message: string)

  /** Completion of a statement that returns nothing, or the message it throws. */
  datatype Outcome = Done | Fail(message: string)

  /** The row with primary key `id` of a table whose rows are kept in id
      order and whose ids start at 1 (MySQL AUTO_INCREMENT, never deleted). */
  function At<T>(rows: seq<T>, id: int): (r: Option<T>)
    ensures r.Some? <==> 1 <= id <= |rows|
    ensures r.Some? ==> r.value == rows[id - 1]
  {
    if 1 <= id <= |rows| then Some(rows[id - 1]) else None
  }

  /** `UPDATE ... WHERE id = ?`: overwrite row `id`; an id that matches no row
      leaves the table as it is. */
  function Put<T>(rows: seq<T>, id: int, v: T): (r: seq<T>)
    ensures |r| == |rows|
    ensures forall k :: 0 <= k < |rows| ==> r[k] == if k == id - 1 then v else rows[k]
  {
    if 1 <= id <= |rows| then rows[id - 1 := v] else rows
  }

  /** A nullable string is truthy in JavaScript when it is present and not empty. */
  predicate Truthy(o: Option<string>)
  {
    o.Some? && o.value != ""
  }

  /** A value bound to a `?` placeholder of an UPDATE statement. */
  datatype Value = Text(s: string) | Number(n: int) | Flag(b: bool) | Null

  /** The allowed-field pairs of `updates`, in key order. */
  function Whitelisted<V>(updates: seq<(string, V)>, allowed: set<string>): (r: seq<(string, V)>)
    ensures |r| <= |updates|
    ensures forall j :: 0 <= j < |r| ==> r[j].0 in allowed && r[j] in updates
  {
    if updates == [] then []
    else if updates[0].0 in allowed then [updates[0]] + Whitelisted(updates[1..], allowed)
    else Whitelisted(updates[1..], allowed)
  }

  lemma {:induction false} WhitelistedAppend<V>(updates: seq<(string, V)>, u: (string, V), allowed: set<string>)
    ensures Whitelisted(updates + [u], allowed)
         == Whitelisted(updates, allowed) + (if u.0 in allowed then [u] else [])
  {
    if updates == [] {
      assert updates + [u] == [u];
    } else {
      assert (updates + [u])[1..] == updates[1..] + [u];
      WhitelistedAppend(updates[1..], u, allowed);
    }
  }

  /** An allowed pair is kept: nothing allowed is dropped by the filter. */
  lemma {:induction false} WhitelistedKeeps<V>(updates: seq<(string, V)>, allowed: set<string>, u: (string, V))
    requires u in updates && u.0 in allowed
    ensures u in Whitelisted(updates, allowed)
  {
    if updates[0] != u {
      WhitelistedKeeps(updates[1..], allowed, u);
    }
  }

  /** True iff some pair of `updates` names `key`. */
  predicate Names<V>(updates: seq<(string, V)>, key: string)
  {
    exists j :: 0 <= j < |updates| && updates[j].0 == key
  }

  /** The filter keeps exactly the allowed keys: an allowed key is named after
      filtering iff it was named before. */
  lemma {:induction false} WhitelistedNames<V>(updates: seq<(string, V)>, allowed: set<string>, key: string)
    requires key in allowed
    ensures Names(Whitelisted(updates, allowed), key) <==> Names(updates, key)
  {
    var w := Whitelisted(updates, allowed);
    if Names(updates, key) {
      var j :| 0 <= j < |updates| && updates[j].0 == key;
      WhitelistedKeeps(updates, allowed, updates[j]);
      var k :| 0 <= k < |w| && w[k] == updates[j];
      assert w[k].0 == key;
    }
    if Names(w, key) {
      var k :| 0 <= k < |w| && w[k].0 == key;
      assert w[k] in updates;
      var j :| 0 <= j < |updates| && updates[j] == w[k];
      assert updates[j].0 == key;
    }
  }

  /** The value the last pair naming `key` assigns, if any. */
  function LastWrite<V>(updates: seq<(string, V)>, key: string, default: V): V
  {
    if updates == [] then default
    else LastWrite(updates[1..], key, if updates[0].0 == key then updates[0].1 else default)
  }

  /** Filtering does not change the last write to an allowed key. */
  lemma {:induction false} LastWriteWhitelisted<V>(updates: seq<(string, V)>, allowed: set<string>, k: string, default: V)
    requires k in allowed
    ensures LastWrite(Whitelisted(updates, allowed), k, default) == LastWrite(updates, k, default)
  {
    if updates != [] {
      var d' := if updates[0].0 == k then updates[0].1 else default;
      LastWriteWhitelisted(updates[1..], allowed, k, d');
      if updates[0].0 !in allowed {
        assert updates[0].0 != k;
      }
    }
  }

  /** A key no pair names keeps its old value. */
  lemma {:induction false} LastWriteUnnamed<V>(updates: seq<(string, V)>, k: string, default: V)
    requires !Names(updates, k)
    ensures LastWrite(updates, k, default) == default
  {
    if updates != [] {
      assert updates[0].0 != k;
      assert !Names(updates[1..], k) by {
        forall j | 0 <= j < |updates[1..]| ensures updates[1..][j].0 != k {
          assert updates[1..][j] == updates[j + 1];
        }
      }
      LastWriteUnnamed(updates[1..], k, default);
    }
  }

  /** The `forEach` over `Object.keys(updates)` that pushes every allowed
      field, in key order. */
  method CollectAllowed<V>(updates: seq<(string, V)>, allowed: set<string>) returns (fields: seq<(string, V)>)
    ensures fields == Whitelisted(updates, allowed)
  {
    fields := [];
    var i := 0;
    while i < |updates|
      invariant 0 <= i <= |updates|
      invariant fields == Whitelisted(updates[..i], allowed)
    {
      WhitelistedAppend(updates[..i], updates[i], allowed);
      assert updates[..i + 1] == updates[..i] + [updates[i]];
      if updates[i].0 in allowed {
        fields := fields + [updates[i]];
      }
      i := i + 1;
    }
    assert updates[..i] == updates;
  }
}
