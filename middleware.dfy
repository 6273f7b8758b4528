/**
 * The request middleware of middleware.ts: which paths are public, the
 * redirect decision from the path and the presence of a session token, the
 * session-refresh query parameter, and the paths the middleware runs on.
 *
 * The token lookup and the clock are inputs (`hasToken`, `now`).  A query
 * string is its list of name/value pairs, written out without
 * percent-encoding (the refresh parameter's name and a decimal timestamp
 * need none).
 */
module Middleware {
  import opened Text

  const PublicPaths: seq<string> := ["/login", "/register"]
  const RefreshParam := "_session_refresh"

  /** The paths of `config.matcher`. */
  const Matcher: seq<string> := ["/", "/connect-google", "/upload", "/login", "/register"]

  /** `publicPaths.includes(path)`. */
  predicate IsPublic(path: string) {
    path in PublicPaths
  }

  datatype Decision =
    | Redirect(location: string)
    | RedirectWithQuery(path: string, query: seq<(string, string)>)
    | Next

  /**
   * `url.searchParams.set(name, value)`: the first pair with that name takes
   * the value and later ones are removed; without one, the pair is appended.
   */
  function SetParam(query: seq<(string, string)>, name: string, value: string): (r: seq<(string, string)>)
    ensures (name, value) in r
    decreases |query|
  {
    if query == [] then [(name, value)]
    else if query[0].0 == name then [(name, value)] + RemoveParam(query[1..], name)
    else [query[0]] + SetParam(query[1..], name, value)
  }

  function RemoveParam(query: seq<(string, string)>, name: string): (r: seq<(string, string)>)
    ensures forall p :: p in r ==> p in query && p.0 != name
    decreases |query|
  {
    if query == [] then []
    else if query[0].0 == name then RemoveParam(query[1..], name)
    else [query[0]] + RemoveParam(query[1..], name)
  }

  /** After `set`, the name occurs once, with the new value. */
  lemma {:induction false} SetParamIsSingle(query: seq<(string, string)>, name: string, value: string)
    ensures forall p :: p in SetParam(query, name, value) && p.0 == name ==> p.1 == value
    ensures forall p :: p in query && p.0 != name ==> p in SetParam(query, name, value)
    decreases |query|
  {
    if query != [] {
      SetParamIsSingle(query[1..], name, value);
      if query[0].0 == name {
        KeepsOtherNames(query[1..], name);
      }
    }
  }

  lemma {:induction false} KeepsOtherNames(query: seq<(string, string)>, name: string)
    ensures forall p :: p in query && p.0 != name ==> p in RemoveParam(query, name)
    decreases |query|
  {
    if query != [] {
      KeepsOtherNames(query[1..], name);
    }
  }

  function Pair(p: (string, string)): string {
    p.0 + "=" + p.1
  }

  function JoinPairs(query: seq<(string, string)>): string
    decreases |query|
  {
    if query == [] then ""
    else if |query| == 1 then Pair(query[0])
    else Pair(query[0]) + "&" + JoinPairs(query[1..])
  }

  /** `url.search`: empty without parameters, otherwise '?' and the pairs joined by '&'. */
  function Search(query: seq<(string, string)>): string {
    if query == [] then "" else "?" + JoinPairs(query)
  }

  /** Each pair is written out somewhere in the joined query. */
  lemma {:induction false} PairWritten(query: seq<(string, string)>, p: (string, string)) returns (before: string, after: string)
    requires p in query
    ensures JoinPairs(query) == before + Pair(p) + after
    decreases |query|
  {
    if query[0] == p {
      before := "";
      after := if |query| == 1 then "" else "&" + JoinPairs(query[1..]);
    } else {
      var b, a := PairWritten(query[1..], p);
      before := Pair(query[0]) + "&" + b;
      after := a;
    }
  }

  /**
   * After `searchParams.set`, the path with its search string always
   * mentions the refresh parameter, so the check that would redirect to
   * add it never succeeds.
   */
  lemma RefreshParamAlwaysPresent(path: string, query: seq<(string, string)>, now: string)
    ensures Contains(path + Search(SetParam(query, RefreshParam, now)), RefreshParam)
  {
    var q := SetParam(query, RefreshParam, now);
    var before, after := PairWritten(q, (RefreshParam, now));
    var head, tail := path + "?" + before, "=" + now + after;
    assert Search(q) == "?" + JoinPairs(q);
    assert JoinPairs(q) == before + (RefreshParam + tail) by {
      assert Pair((RefreshParam, now)) + after == RefreshParam + tail;
    }
    assert path + Search(q) == head + RefreshParam + tail;
    ContainsInfix(head, RefreshParam, tail);
  }

  /**
   * middleware: the decision for a request to `path` with the given query,
   * token and clock.  The session-refresh redirect never fires: the
   * parameter it looks for was set just before.
   */
  function Decide(path: string, query: seq<(string, string)>, hasToken: bool, now: string): (r: Decision)
    ensures !r.RedirectWithQuery?
  {
    RefreshParamAlwaysPresent(path, query, now);
    var isPublicPath := IsPublic(path);
    if !hasToken && !isPublicPath then Redirect("/login")
    else if hasToken && isPublicPath then Redirect("/")
    else if hasToken && !isPublicPath then
      var url := SetParam(query, RefreshParam, now);
      var originalPath := path + Search(url);
      if !Contains(originalPath, RefreshParam) then RedirectWithQuery(path, url) else Next
    else Next
  }

  /** The public paths are exactly "/login" and "/register". */
  lemma PublicPathsExactly(path: string)
    ensures IsPublic(path) <==> path == "/login" || path == "/register"
  {
  }

  /**
   * The whole decision table: without a token only public paths pass and
   * the rest go to "/login"; with a token public paths go to "/" and every
   * other path passes, the refresh redirect never being taken.
   */
  lemma DecisionTable(path: string, query: seq<(string, string)>, hasToken: bool, now: string)
    ensures !hasToken && !IsPublic(path) ==> Decide(path, query, hasToken, now) == Redirect("/login")
    ensures hasToken && IsPublic(path) ==> Decide(path, query, hasToken, now) == Redirect("/")
    ensures !hasToken && IsPublic(path) ==> Decide(path, query, hasToken, now) == Next
    ensures hasToken && !IsPublic(path) ==> Decide(path, query, hasToken, now) == Next
  {
    RefreshParamAlwaysPresent(path, query, now);
  }

  /** `config.matcher`: the middleware runs on the matched paths only; every other request passes. */
  function Handle(path: string, query: seq<(string, string)>, hasToken: bool, now: string): (d: Decision)
    ensures path !in Matcher ==> d == Next
  {
    if path in Matcher then Decide(path, query, hasToken, now) else Next
  }

  /** Both public paths are matched, so a signed-in user is always sent away from them. */
  lemma PublicPathsAreMatched(path: string, query: seq<(string, string)>, now: string)
    requires IsPublic(path)
    ensures path in Matcher
    ensures Handle(path, query, true, now) == Redirect("/")
  {
  }

  /** Only matched, non-public paths can redirect to "/login". */
  lemma LoginRedirectOnlyForProtectedPaths(path: string, query: seq<(string, string)>, hasToken: bool, now: string)
    ensures Handle(path, query, hasToken, now) == Redirect("/login") <==>
      path in Matcher && !IsPublic(path) && !hasToken
  {
    RefreshParamAlwaysPresent(path, query, now);
  }
}
