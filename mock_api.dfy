/** frontend/src/services/mockApi.js: the route matcher of
    `mockApiInterceptor`. The handler table is a sequence of routes in the
    object's key order, each key of the form "METHOD path"; running a handler
    (with the request body it closes over) is the parameter `run`, which
    either returns the handler's response or reports the message it threw. */
module MockApi {
  import opened Common

  datatype Route<H> = Route(key: string, handler: H)

  datatype HandlerOutcome<P> = Returned(response: P) | Threw(message: string)

  /** What the interceptor resolves to: the handler's own response,
      `errorResponse(message, code)`, or `successResponse([], message)`. */
  datatype Answer<P> = Handled(response: P) | ErrorReply(message: string, code: int) | EmptySuccess(message: string)

  const MockErrorPrefix: string := "Mock API error: "
  const NoHandlerPrefix: string := "No mock handler for "
  const MockErrorCode: int := 500

  // ---------------------------------------------------------------------
  // String.prototype.split on one character

  /** `s.split(c)`: the pieces between occurrences of `c`; an empty string
      gives one empty piece. */
  function Split(s: string, c: char): (r: seq<string>)
    ensures |r| >= 1
    decreases |s|
  {
    if |s| == 0 then [""]
    else if s[0] == c then [""] + Split(s[1..], c)
    else
      var rest := Split(s[1..], c);
      [[s[0]] + rest[0]] + rest[1..]
  }

  /** `parts.join(c)`. */
  function Join(parts: seq<string>, c: char): string
    requires |parts| >= 1
    decreases |parts|
  {
    if |parts| == 1 then parts[0] else parts[0] + [c] + Join(parts[1..], c)
  }

  /** Splitting loses nothing: joining the pieces gives the string back, and
      no piece holds the separator. */
  lemma {:induction false} SplitJoin(s: string, c: char)
    ensures Join(Split(s, c), c) == s
    ensures forall k :: 0 <= k < |Split(s, c)| ==> c !in Split(s, c)[k]
    decreases |s|
  {
    if |s| == 0 {
    } else if s[0] == c {
      SplitJoin(s[1..], c);
      var rest := Split(s[1..], c);
      assert Split(s, c) == [""] + rest;
      assert Join(Split(s, c), c) == "" + [c] + Join(rest, c);
      assert [c] + s[1..] == s;
    } else {
      SplitJoin(s[1..], c);
      var rest := Split(s[1..], c);
      var r := Split(s, c);
      assert r == [[s[0]] + rest[0]] + rest[1..];
      if |rest| == 1 {
        assert Join(r, c) == [s[0]] + rest[0];
      } else {
        assert r[1..] == rest[1..];
        assert Join(r, c) == [s[0]] + rest[0] + [c] + Join(rest[1..], c);
        assert Join(rest, c) == rest[0] + [c] + Join(rest[1..], c);
      }
      assert [s[0]] + s[1..] == s;
      forall k | 0 <= k < |r| ensures c !in r[k] {
        if k == 0 {
          assert c !in rest[0];
        } else {
          assert r[k] == rest[k];
        }
      }
    }
  }

  /** The first piece is the prefix before the first `c`, and a string with a
      separator splits into at least two pieces. */
  lemma {:induction false} SplitFirst(s: string, c: char)
    ensures Split(s, c)[0] <= s
    ensures c !in s ==> Split(s, c) == [s]
    ensures c in s ==> |Split(s, c)| >= 2
    decreases |s|
  {
    if |s| > 0 && s[0] != c {
      SplitFirst(s[1..], c);
      assert c in s ==> c in s[1..];
      assert c !in s ==> s == [s[0]] + s[1..];
    }
  }

  /** `url.split('?')[0]`: the path without its query string. */
  function StripQuery(url: string): (path: string)
  {
    Split(url, '?')[0]
  }

  lemma StripQueryEffect(url: string)
    ensures StripQuery(url) <= url && '?' !in StripQuery(url)
    ensures '?' !in url ==> StripQuery(url) == url
  {
    SplitFirst(url, '?');
    SplitJoin(url, '?');
  }

  // ---------------------------------------------------------------------
  // Matching

  /** Every key is "METHOD path": it holds a space. */
  predicate WellFormedTable<H>(routes: seq<Route<H>>)
  {
    forall k :: 0 <= k < |routes| ==> ' ' in routes[k].key
  }

  /** `key.split(' ')[1]`. */
  function KeyPath(key: string): string
    requires ' ' in key
  {
    SplitFirst(key, ' ');
    Split(key, ' ')[1]
  }

  function KeyParts(key: string): seq<string>
    requires ' ' in key
  {
    Split(KeyPath(key), '/')
  }

  predicate IsParam(segment: string)
  {
    ":" <= segment
  }

  /** The first `i` segments agree: a `:name` segment takes anything, a literal
      must be equal. */
  predicate SegmentsMatch(keyParts: seq<string>, urlParts: seq<string>, i: nat)
    requires i <= |keyParts| && i <= |urlParts|
  {
    forall j :: 0 <= j < i ==> IsParam(keyParts[j]) || keyParts[j] == urlParts[j]
  }

  /** The params the first `i` segments bind, later bindings overwriting earlier ones. */
  function Bind(keyParts: seq<string>, urlParts: seq<string>, i: nat): map<string, string>
    requires i <= |keyParts| && i <= |urlParts|
  {
    if i == 0 then map[]
    else if IsParam(keyParts[i - 1]) then Bind(keyParts, urlParts, i - 1)[keyParts[i - 1][1..] := urlParts[i - 1]]
    else Bind(keyParts, urlParts, i - 1)
  }

  /** A parameterised key fits the url when the segment counts agree, every
      segment agrees, and the key begins with the verb and a space. */
  predicate RouteMatches(key: string, verb: string, urlParts: seq<string>)
    requires ' ' in key
  {
    var keyParts := KeyParts(key);
    |keyParts| == |urlParts| && SegmentsMatch(keyParts, urlParts, |keyParts|) && verb + " " <= key
  }

  /** The first route at or after `from` that fits, in table order. */
  function FirstMatch<H>(routes: seq<Route<H>>, verb: string, urlParts: seq<string>, from: nat): (r: Option<nat>)
    requires WellFormedTable(routes)
    ensures r.Some? ==> from <= r.value < |routes| && RouteMatches(routes[r.value].key, verb, urlParts)
                        && forall j :: from <= j < r.value ==> !RouteMatches(routes[j].key, verb, urlParts)
    ensures r.None? ==> forall j :: from <= j < |routes| ==> !RouteMatches(routes[j].key, verb, urlParts)
    decreases |routes| - from
  {
    if from >= |routes| then None
    else if RouteMatches(routes[from].key, verb, urlParts) then Some(from)
    else FirstMatch(routes, verb, urlParts, from + 1)
  }

  /** `mockHandlers[key]`: the route stored under exactly that key. */
  function Lookup<H>(routes: seq<Route<H>>, key: string, from: nat): (r: Option<nat>)
    ensures r.Some? ==> from <= r.value < |routes| && routes[r.value].key == key
                        && forall j :: from <= j < r.value ==> routes[j].key != key
    ensures r.None? ==> forall j :: from <= j < |routes| ==> routes[j].key != key
    decreases |routes| - from
  {
    if from >= |routes| then None
    else if routes[from].key == key then Some(from)
    else Lookup(routes, key, from + 1)
  }

  /** The handler chosen and the params it receives. */
  function Choose<H>(routes: seq<Route<H>>, verb: string, path: string): Option<(H, map<string, string>)>
    requires WellFormedTable(routes)
  {
    var exact := Lookup(routes, verb + " " + path, 0);
    if exact.Some? then Some((routes[exact.value].handler, map[]))
    else
      var urlParts := Split(path, '/');
      var k := FirstMatch(routes, verb, urlParts, 0);
      if k.None? then None
      else
        var keyParts := KeyParts(routes[k.value].key);
        Some((routes[k.value].handler, Bind(keyParts, urlParts, |keyParts|)))
  }

  function Outcome<P>(o: HandlerOutcome<P>): Answer<P>
  {
    match o
    case Returned(response) => Handled(response)
    case Threw(message) => ErrorReply(MockErrorPrefix + message, MockErrorCode)
  }

  /** The interceptor's answer; `None` falls through to the real API. */
  function Interception<H(!new), P>(routes: seq<Route<H>>, run: (H, map<string, string>) -> HandlerOutcome<P>,
                                    enabled: bool, verb: string, url: string): Option<Answer<P>>
    requires WellFormedTable(routes)
  {
    if !enabled then None
    else
      var chosen := Choose(routes, verb, StripQuery(url));
      if chosen.None? then Some(EmptySuccess(NoHandlerPrefix + verb + " " + url))
      else Some(Outcome(run(chosen.value.0, chosen.value.1)))
  }

  /** The inner loop of the scan: compares the segments left to right,
      collecting `:name` bindings, and stops at the first literal mismatch. */
  method MatchSegments(keyParts: seq<string>, urlParts: seq<string>) returns (matched: bool, tempParams: map<string, string>)
    requires |keyParts| == |urlParts|
    ensures matched == SegmentsMatch(keyParts, urlParts, |keyParts|)
    ensures matched ==> tempParams == Bind(keyParts, urlParts, |keyParts|)
  {
    matched := true;
    tempParams := map[];
    var i := 0;
    while i < |keyParts|
      invariant 0 <= i <= |keyParts|
      invariant matched && SegmentsMatch(keyParts, urlParts, i)
      invariant tempParams == Bind(keyParts, urlParts, i)
    {
      if IsParam(keyParts[i]) {
        tempParams := tempParams[keyParts[i][1..] := urlParts[i]];
      } else if keyParts[i] != urlParts[i] {
        matched := false;
        return;
      }
      i := i + 1;
    }
  }

  /** `mockApiInterceptor`: exact lookup, then the nested scan over the keys. */
  method MockApiInterceptor<H(!new), P>(routes: seq<Route<H>>, run: (H, map<string, string>) -> HandlerOutcome<P>,
                                        enabled: bool, verb: string, url: string)
    returns (answer: Option<Answer<P>>)
    requires WellFormedTable(routes)
    ensures answer == Interception(routes, run, enabled, verb, url)
  {
    if !enabled {
      return None;
    }
    var path := Split(url, '?')[0];
    var urlParts := Split(path, '/');
    var params: map<string, string> := map[];
    var exact := Lookup(routes, verb + " " + path, 0);
    var handler: Option<H> := if exact.Some? then Some(routes[exact.value].handler) else None;
    if handler.None? {
      var k := 0;
      while k < |routes|
        invariant 0 <= k <= |routes|
        invariant handler.None?
        invariant FirstMatch(routes, verb, urlParts, 0) == FirstMatch(routes, verb, urlParts, k)
      {
        var keyParts := Split(KeyPath(routes[k].key), '/');
        if |keyParts| == |urlParts| {
          var matched, tempParams := MatchSegments(keyParts, urlParts);
          if matched && verb + " " <= routes[k].key {
            handler := Some(routes[k].handler);
            params := tempParams;
            break;
          }
        }
        k := k + 1;
      }
    }
    if handler.None? {
      return Some(EmptySuccess(NoHandlerPrefix + verb + " " + url));
    }
    var outcome := run(handler.value, params);
    match outcome
    case Returned(response) =>
      answer := Some(Handled(response));
    case Threw(message) =>
      answer := Some(ErrorReply(MockErrorPrefix + message, MockErrorCode));
  }

  // ---------------------------------------------------------------------
  // Properties

  /** Disabled mocking always falls through. */
  lemma DisabledFallsThrough<H(!new), P>(routes: seq<Route<H>>, run: (H, map<string, string>) -> HandlerOutcome<P>,
                                         verb: string, url: string)
    requires WellFormedTable(routes)
    ensures Interception(routes, run, false, verb, url).None?
  {
  }

  /** The exact "METHOD path" key wins over every parameterised key, and its
      handler gets no params; the query string plays no part in the key. */
  lemma ExactKeyFirst<H>(routes: seq<Route<H>>, verb: string, url: string, k: nat)
    requires WellFormedTable(routes) && k < |routes| && routes[k].key == verb + " " + StripQuery(url)
    requires forall j :: 0 <= j < k ==> routes[j].key != routes[k].key
    ensures Choose(routes, verb, StripQuery(url)) == Some((routes[k].handler, map[]))
  {
    var e := Lookup(routes, verb + " " + StripQuery(url), 0);
    assert e.Some?;
    assert e.value == k;
  }

  /** Without an exact key, the chosen route is the first parameterised key
      in table order whose segment count and literal segments agree and whose
      verb is the request's; each `:name` segment whose name does not
      recur later binds its url segment. */
  lemma ParamMatch<H>(routes: seq<Route<H>>, verb: string, path: string)
    requires WellFormedTable(routes) && Lookup(routes, verb + " " + path, 0).None?
    ensures var c := Choose(routes, verb, path);
            var urlParts := Split(path, '/');
            && (c.None? <==> forall j :: 0 <= j < |routes| ==> !RouteMatches(routes[j].key, verb, urlParts))
            && (c.Some? ==>
                  exists k :: 0 <= k < |routes|
                    && RouteMatches(routes[k].key, verb, urlParts)
                    && (forall j :: 0 <= j < k ==> !RouteMatches(routes[j].key, verb, urlParts))
                    && c.value.0 == routes[k].handler
                    && var keyParts := KeyParts(routes[k].key);
                       && |keyParts| == |urlParts|
                       && (forall i :: 0 <= i < |keyParts| && !IsParam(keyParts[i]) ==> keyParts[i] == urlParts[i])
                       && (forall i :: 0 <= i < |keyParts| && IsParam(keyParts[i])
                             && (forall j :: i < j < |keyParts| && IsParam(keyParts[j]) ==> keyParts[j][1..] != keyParts[i][1..])
                             ==> keyParts[i][1..] in c.value.1 && c.value.1[keyParts[i][1..]] == urlParts[i]))
  {
    var urlParts := Split(path, '/');
    var f := FirstMatch(routes, verb, urlParts, 0);
    if f.Some? {
      var keyParts := KeyParts(routes[f.value].key);
      forall i | 0 <= i < |keyParts| && IsParam(keyParts[i])
        && (forall j :: i < j < |keyParts| && IsParam(keyParts[j]) ==> keyParts[j][1..] != keyParts[i][1..])
        ensures keyParts[i][1..] in Bind(keyParts, urlParts, |keyParts|)
                && Bind(keyParts, urlParts, |keyParts|)[keyParts[i][1..]] == urlParts[i]
      {
        BindKeeps(keyParts, urlParts, i, |keyParts|);
      }
    }
  }

  /** A binding made at segment `i` survives to segment `n` when no later
      `:name` segment reuses its name. */
  lemma {:induction false} BindKeeps(keyParts: seq<string>, urlParts: seq<string>, i: nat, n: nat)
    requires i < n <= |keyParts| && n <= |urlParts| && IsParam(keyParts[i])
    requires forall j :: i < j < n && IsParam(keyParts[j]) ==> keyParts[j][1..] != keyParts[i][1..]
    ensures keyParts[i][1..] in Bind(keyParts, urlParts, n)
    ensures Bind(keyParts, urlParts, n)[keyParts[i][1..]] == urlParts[i]
    decreases n
  {
    if n > i + 1 {
      BindKeeps(keyParts, urlParts, i, n - 1);
    }
  }

  /** A handler that throws is answered with code 500 and its message; no
      handler at all is a success with empty data naming the request. */
  lemma AnswerKinds<H(!new), P>(routes: seq<Route<H>>, run: (H, map<string, string>) -> HandlerOutcome<P>,
                                verb: string, url: string)
    requires WellFormedTable(routes)
    ensures var c := Choose(routes, verb, StripQuery(url));
            var a := Interception(routes, run, true, verb, url);
            && (c.None? ==> a == Some(EmptySuccess(NoHandlerPrefix + verb + " " + url)))
            && (c.Some? && run(c.value.0, c.value.1).Threw? ==>
                  a == Some(ErrorReply(MockErrorPrefix + run(c.value.0, c.value.1).message, 500)))
            && (c.Some? && run(c.value.0, c.value.1).Returned? ==>
                  a == Some(Handled(run(c.value.0, c.value.1).response)))
  {
  }
}
