/** The parts of a SELECT the models rely on, over rows first listed in
    primary-key order: `WHERE` as a filter, `ORDER BY <column> ASC` as a
    stable insertion sort by an integer key, `LIMIT ... OFFSET ...` as a
    window. */
module Query {

  /** `WHERE p`: the rows satisfying p, in their original order. */
  function Where<T>(rows: seq<T>, p: T -> bool): (s: seq<T>)
    ensures |s| <= |rows|
    ensures forall k :: 0 <= k < |s| ==> s[k] in rows && p(s[k])
    ensures forall k :: 0 <= k < |rows| && p(rows[k]) ==> rows[k] in s
  {
    if rows == [] then []
    else if p(rows[0]) then [rows[0]] + Where(rows[1..], p)
    else Where(rows[1..], p)
  }

  predicate SortedBy<T>(s: seq<T>, key: T -> int)
  {
    forall i, j :: 0 <= i < j < |s| ==> key(s[i]) <= key(s[j])
  }

  function Insert<T>(x: T, s: seq<T>, key: T -> int): (r: seq<T>)
    ensures multiset(r) == multiset(s) + multiset{x}
    ensures |r| == |s| + 1
  {
    if s == [] then [x]
    else if key(x) <= key(s[0]) then [x] + s
    else
      assert s == [s[0]] + s[1..];
      [s[0]] + Insert(x, s[1..], key)
  }

  function SortBy<T>(s: seq<T>, key: T -> int): (r: seq<T>)
    ensures multiset(r) == multiset(s)
    ensures |r| == |s|
  {
    if s == [] then []
    else
      assert s == [s[0]] + s[1..];
      Insert(s[0], SortBy(s[1..], key), key)
  }

  lemma {:induction false} InsertSorted<T>(x: T, s: seq<T>, key: T -> int)
    requires SortedBy(s, key)
    ensures SortedBy(Insert(x, s, key), key)
  {
    if s != [] && key(x) > key(s[0]) {
      InsertSorted(x, s[1..], key);
      var r := Insert(x, s, key);
      var t := Insert(x, s[1..], key);
      assert r == [s[0]] + t;
      forall j | 0 <= j < |t| ensures key(s[0]) <= key(t[j]) {
        assert t[j] in multiset(t);
        assert t[j] in multiset(s[1..]) + multiset{x};
        if t[j] != x {
          assert t[j] in s[1..];
        }
      }
    }
  }

  /** The sort orders by the key and keeps every row exactly once. */
  lemma {:induction false} SortBySorted<T>(s: seq<T>, key: T -> int)
    ensures SortedBy(SortBy(s, key), key)
    ensures multiset(SortBy(s, key)) == multiset(s)
  {
    if s != [] {
      SortBySorted(s[1..], key);
      InsertSorted(s[0], SortBy(s[1..], key), key);
    }
  }

  /** `LIMIT limit OFFSET offset`: at most `limit` rows, starting at row
      `offset`; an offset past the end gives no rows. */
  function Window<T>(s: seq<T>, offset: int, limit: int): (r: seq<T>)
    requires 0 <= offset && 0 <= limit
    ensures |r| <= limit
    ensures |r| == if offset >= |s| then 0 else if |s| - offset < limit then |s| - offset else limit
    ensures forall k :: 0 <= k < |r| ==> r[k] == s[offset + k]
  {
    if offset >= |s| then []
    else if |s| - offset < limit then s[offset..]
    else s[offset..offset + limit]
  }

  /** A window of a sorted sequence is sorted. */
  lemma WindowSorted<T>(s: seq<T>, offset: int, limit: int, key: T -> int)
    requires SortedBy(s, key) && 0 <= offset && 0 <= limit
    ensures SortedBy(Window(s, offset, limit), key)
  {
    var w := Window(s, offset, limit);
    forall i, j | 0 <= i < j < |w| ensures key(w[i]) <= key(w[j]) {
      assert w[i] == s[offset + i] && w[j] == s[offset + j];
    }
  }

  /** A page of a filtered, ordered listing is ordered by the key, and every
      row on it is a stored row that passes the filter. */
  lemma ListingSound<T>(rows: seq<T>, p: T -> bool, key: T -> int, offset: int, limit: int)
    requires 0 <= offset && 0 <= limit
    ensures SortedBy(Window(SortBy(Where(rows, p), key), offset, limit), key)
    ensures forall k :: 0 <= k < |Window(SortBy(Where(rows, p), key), offset, limit)| ==>
              Window(SortBy(Where(rows, p), key), offset, limit)[k] in rows
              && p(Window(SortBy(Where(rows, p), key), offset, limit)[k])
  {
    var selected := Where(rows, p);
    var sorted := SortBy(selected, key);
    SortBySorted(selected, key);
    WindowSorted(sorted, offset, limit, key);
    var w := Window(sorted, offset, limit);
    forall k | 0 <= k < |w| ensures w[k] in rows && p(w[k]) {
      assert w[k] == sorted[offset + k];
      assert w[k] in multiset(selected);
      var j :| 0 <= j < |selected| && selected[j] == w[k];
    }
  }

  /** When every match fits within the limit, the first page holds every
      stored row that passes the filter. */
  lemma ListingComplete<T>(rows: seq<T>, p: T -> bool, key: T -> int, limit: int, x: T)
    requires |Where(rows, p)| <= limit
    requires x in rows && p(x)
    ensures x in Window(SortBy(Where(rows, p), key), 0, limit)
  {
    var selected := Where(rows, p);
    var sorted := SortBy(selected, key);
    var j :| 0 <= j < |rows| && rows[j] == x;
    assert x in multiset(sorted);
    assert Window(sorted, 0, limit) == sorted;
  }
}
