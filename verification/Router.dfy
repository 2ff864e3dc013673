// internal/proxy/router.go and internal/proxy/rewrite.go: choosing the route of a request and
// the path its backend sees.

module Routing {
  import opened Options
  import opened Text

  datatype Route = Route(id: string, endpoint: string, path: string, host: string, protocol: string)

  // Matching ------------------------------------------------------------------------------

  // The prefix stops at the end of the path or at one of its slashes.
  predicate SegmentPrefix(prefix: string, path: string) {
    path == prefix || prefix + "/" <= path
  }

  predicate Covers(prefix: string, path: string) {
    prefix == "/" || SegmentPrefix(prefix, path)
  }

  // A path prefix as normalisation leaves it: the root, or without a slash at its end and,
  // unless it is empty, with one at its start.
  predicate Normal(prefix: string) {
    prefix == "/" || prefix == "" || (prefix[0] == '/' && prefix[|prefix| - 1] != '/')
  }

  ghost predicate Unambiguous(routes: seq<Route>) {
    && (forall r :: r in routes && r.host == "" ==> Normal(r.path))
    && (forall i, j :: 0 <= i < j < |routes| && routes[i].host == "" && routes[j].host == "" ==>
          routes[i].path != routes[j].path)
    && (forall i, j :: 0 <= i < j < |routes| && routes[i].host != "" && routes[j].host != ""
          ==> ToLower(routes[i].host) != ToLower(routes[j].host))
  }

  // The path route that answers a request: it covers the path, and no other route that
  // covers it has a prefix as long.
  ghost predicate Longest(routes: seq<Route>, path: string, r: Route) {
    && r in routes && r.host == "" && Covers(r.path, path)
    && forall q :: q in routes && q.host == "" && Covers(q.path, path) && q != r ==> |q.path| < |r.path|
  }

  // The host route of a name.
  ghost predicate Hosted(routes: seq<Route>, hostname: string, r: Route) {
    r in routes && r.host != "" && ToLower(r.host) == hostname
  }

  // A path route that covers the path, and no route that does has a longer prefix.
  ghost predicate NoneLonger(routes: seq<Route>, path: string, r: Route) {
    && r in routes && r.host == "" && Covers(r.path, path)
    && forall q :: q in routes && q.host == "" && Covers(q.path, path) ==> |q.path| <= |r.path|
  }

  // What the router may answer: a route of the host if there is one, else a longest path route
  // if one covers the path.
  ghost predicate Answers(routes: seq<Route>, hostname: string, path: string, r: Option<Route>) {
    if exists q :: Hosted(routes, hostname, q) then r.Some? && Hosted(routes, hostname, r.value)
    else if r.Some? then NoneLonger(routes, path, r.value)
    else forall q :: q in routes && q.host == "" ==> !Covers(q.path, path)
  }

  // requestHostname; splitHostPort is the library's, which fails on a name without a port.
  function RequestHostname(host: string, splitHostPort: string -> Option<string>): string {
    var h := TrimSpace(host);
    ToLower(match splitHostPort(h) case Some(name) => name case None => h)
  }

  // The host of a request, without its port if it has one, is this name in some case.
  predicate Names(host: string, splitHostPort: string -> Option<string>, name: string) {
    match splitHostPort(TrimSpace(host))
    case Some(bare) => ToLower(bare) == ToLower(name)
    case None => ToLower(TrimSpace(host)) == ToLower(name)
  }

  lemma SamePrefixLength(a: string, b: string, path: string)
    requires Normal(a) && Normal(b) && Covers(a, path) && Covers(b, path) && |a| == |b|
    ensures a == b
  {
    if a != "/" && b != "/" {
      assert a == path[..|a|] && b == path[..|b|];
    }
  }

  // Two lists of the same routes, in whatever order, send a request to the same route.
  lemma LongestIsUnique(routes: seq<Route>, reordered: seq<Route>, path: string, a: Route, b: Route)
    requires forall r :: r in routes <==> r in reordered
    requires Longest(routes, path, a) && Longest(reordered, path, b)
    ensures a == b
  {}

  // The router ----------------------------------------------------------------------------

  // The routes with a host by their lower-case host, later ones replacing earlier ones.
  function HostTable(routes: seq<Route>): map<string, Route> {
    if routes == [] then map[] else
    var r, before := routes[|routes| - 1], HostTable(routes[..|routes| - 1]);
    if r.host != "" then before[ToLower(r.host) := r] else before
  }

  function PathRoutes(routes: seq<Route>): seq<Route> {
    if routes == [] then [] else
    var r, before := routes[|routes| - 1], PathRoutes(routes[..|routes| - 1]);
    if r.host != "" then before else before + [r]
  }

  predicate SortedByLength(rs: seq<Route>) {
    forall i, j :: 0 <= i < j < |rs| ==> |rs[i].path| >= |rs[j].path|
  }

  lemma {:induction false} PathRoutesMeans(routes: seq<Route>, r: Route)
    ensures r in PathRoutes(routes) <==> r in routes && r.host == ""
  {
    if routes != [] {
      PathRoutesMeans(routes[..|routes| - 1], r);
      assert routes == routes[..|routes| - 1] + [routes[|routes| - 1]];
    }
  }

  lemma {:induction false} HostTableMeans(routes: seq<Route>, h: string)
    ensures h in HostTable(routes) <==> exists r :: Hosted(routes, h, r)
    ensures h in HostTable(routes) ==> Hosted(routes, h, HostTable(routes)[h])
  {
    if routes != [] {
      var before, r := routes[..|routes| - 1], routes[|routes| - 1];
      HostTableMeans(before, h);
      assert routes == before + [r];
      assert forall q :: Hosted(routes, h, q) <==>
        Hosted(before, h, q) || (q == r && r.host != "" && ToLower(r.host) == h);
    }
  }

  lemma HostedIsUnique(routes: seq<Route>, reordered: seq<Route>, h: string, a: Route, b: Route)
    requires forall r :: r in routes <==> r in reordered
    requires Unambiguous(routes) && Hosted(routes, h, a) && Hosted(reordered, h, b)
    ensures a == b
  {}

  // Sorts by falling length; routes of one length come out in any order.
  method SortByLength(rs: seq<Route>) returns (sorted: seq<Route>)
    ensures multiset(sorted) == multiset(rs) && SortedByLength(sorted)
  {
    sorted := [];
    for n := 0 to |rs|
      invariant multiset(sorted) == multiset(rs[..n]) && SortedByLength(sorted)
    {
      assert rs[..n + 1] == rs[..n] + [rs[n]];
      sorted := Insert(sorted, rs[n]);
    }
    assert rs[..|rs|] == rs;
  }

  method Insert(rs: seq<Route>, r: Route) returns (sorted: seq<Route>)
    requires SortedByLength(rs)
    ensures multiset(sorted) == multiset(rs) + multiset{r} && SortedByLength(sorted)
  {
    var k := 0;
    while k < |rs| && |rs[k].path| > |r.path|
      invariant k <= |rs|
      invariant forall i :: 0 <= i < k ==> |rs[i].path| > |r.path|
    {
      k := k + 1;
    }
    InsertSorted(rs[..k], r, rs[k..], rs);
    sorted := rs[..k] + [r] + rs[k..];
  }

  lemma InsertSorted(a: seq<Route>, r: Route, b: seq<Route>, rs: seq<Route>)
    requires rs == a + b && SortedByLength(rs)
    requires (forall q :: q in a ==> |q.path| >= |r.path|) && (b != [] ==> |r.path| >= |b[0].path|)
    ensures multiset(a + [r] + b) == multiset(rs) + multiset{r} && SortedByLength(a + [r] + b)
  {
    var sorted := a + [r] + b;
    forall i, j | 0 <= i < j < |sorted| ensures |sorted[i].path| >= |sorted[j].path| {
      if i < |a| { assert sorted[i] == rs[i] == a[i] && a[i] in a; }
      if i > |a| { assert sorted[i] == rs[i - 1]; }
      if j > |a| { assert sorted[j] == rs[j - 1] && |r.path| >= |rs[|a|].path| >= |rs[j - 1].path|; }
      if j < |a| { assert sorted[j] == rs[j]; }
    }
  }

  class Router {
    var hosts: map<string, Route>
    var paths: seq<Route>
    ghost const routes: seq<Route>

    ghost predicate Valid()
      reads this
    {
      && hosts == HostTable(routes)
      && multiset(paths) == multiset(PathRoutes(routes))
      && SortedByLength(paths)
    }

    constructor (routes: seq<Route>)
      ensures Valid() && this.routes == routes
    {
      this.routes := routes;
      hosts, paths := map[], [];
      new;
      for n := 0 to |routes|
        invariant hosts == HostTable(routes[..n]) && paths == PathRoutes(routes[..n])
        invariant this.routes == routes
      {
        assert routes[..n + 1][..n] == routes[..n];
        if routes[n].host != "" {
          hosts := hosts[ToLower(routes[n].host) := routes[n]];
        } else {
          paths := paths + [routes[n]];
        }
      }
      assert routes[..|routes|] == routes;
      paths := SortByLength(paths);
    }

    lemma HasPaths(r: Route)
      requires Valid()
      ensures r in paths <==> r in routes && r.host == ""
    {
      PathRoutesMeans(routes, r);
      assert r in paths <==> r in multiset(paths);
      assert r in PathRoutes(routes) <==> r in multiset(PathRoutes(routes));
    }

    // An exact host first; then the first path route, in the order of the table, that covers
    // the path.
    method Match(host: string, path: string, splitHostPort: string -> Option<string>) returns (r: Option<Route>)
      requires Valid()
      ensures Answers(routes, RequestHostname(host, splitHostPort), path, r)
      ensures Unambiguous(routes) ==>
                forall q :: q in routes && q.host != "" && Names(host, splitHostPort, q.host) ==> r == Some(q)
    {
      var hostname := RequestHostname(host, splitHostPort);
      r := Find(hostname, path);
      if Unambiguous(routes) {
        forall q | q in routes && q.host != "" && Names(host, splitHostPort, q.host) ensures r == Some(q) {
          HostIsFound(routes, q, host, splitHostPort, path, r);
        }
      }
    }

    method Find(hostname: string, path: string) returns (r: Option<Route>)
      requires Valid()
      ensures Answers(routes, hostname, path, r)
    {
      HostTableMeans(routes, hostname);
      if hostname in hosts { return Some(hosts[hostname]); }
      forall q ensures q in paths <==> q in routes && q.host == "" { HasPaths(q); }
      for n := 0 to |paths|
        invariant forall k :: 0 <= k < n ==> !Covers(paths[k].path, path)
      {
        var p := paths[n].path;
        if p == "/" || path == p || (|path| > |p| && path[..|p|] == p && path[|p|] == '/') {
          FirstIsLongest(routes, paths, n, path);
          return Some(paths[n]);
        }
      }
      r := None;
    }
  }

  lemma FirstIsLongest(routes: seq<Route>, paths: seq<Route>, n: nat, path: string)
    requires SortedByLength(paths) && n < |paths|
    requires forall q :: q in paths <==> q in routes && q.host == ""
    requires Covers(paths[n].path, path) && forall k :: 0 <= k < n ==> !Covers(paths[k].path, path)
    ensures NoneLonger(routes, path, paths[n])
  {
    assert paths[n] in paths;
    forall q | q in routes && q.host == "" && Covers(q.path, path) ensures |q.path| <= |paths[n].path| {
      assert q in paths;
    }
  }

  // In an unambiguous table no two routes answer one request, so the one found is the only
  // longest one.
  lemma NoneLongerIsLongest(routes: seq<Route>, path: string, r: Route)
    requires Unambiguous(routes) && NoneLonger(routes, path, r)
    ensures Longest(routes, path, r)
  {
    forall q | q in routes && q.host == "" && Covers(q.path, path) && q != r ensures |q.path| < |r.path| {
      if |q.path| == |r.path| { SamePrefixLength(q.path, r.path, path); }
    }
  }

  // Two unambiguous tables of the same routes, in whatever order, and however their paths were
  // sorted, give every request the same answer, be it a host route, a path route or none.
  lemma MatchIgnoresOrder(routes: seq<Route>, reordered: seq<Route>, hostname: string, path: string,
                          a: Option<Route>, b: Option<Route>)
    requires Unambiguous(routes) && Unambiguous(reordered) && forall r :: r in routes <==> r in reordered
    requires Answers(routes, hostname, path, a) && Answers(reordered, hostname, path, b)
    ensures a == b
  {
    assert forall q :: Hosted(routes, hostname, q) <==> Hosted(reordered, hostname, q);
    if q :| Hosted(routes, hostname, q) {
      HostedIsUnique(routes, reordered, hostname, a.value, b.value);
    } else if a.Some? && b.Some? {
      NoneLongerIsLongest(routes, path, a.value);
      NoneLongerIsLongest(reordered, path, b.value);
      LongestIsUnique(routes, reordered, path, a.value, b.value);
    }
  }

  // A request that names the host of a route, with or without a port, in capitals or not, is
  // answered by that route.
  lemma HostIsFound(routes: seq<Route>, q: Route, host: string, splitHostPort: string -> Option<string>,
                    path: string, r: Option<Route>)
    requires Unambiguous(routes) && q in routes && q.host != "" && Names(host, splitHostPort, q.host)
    requires Answers(routes, RequestHostname(host, splitHostPort), path, r)
    ensures r == Some(q)
  {
    var name := RequestHostname(host, splitHostPort);
    assert Hosted(routes, name, q);
    HostedIsUnique(routes, routes, name, q, r.value);
  }

  // And one that names no route's host is answered by a path, if any covers it.
  lemma OtherHostsUsePaths(routes: seq<Route>, host: string, splitHostPort: string -> Option<string>,
                           path: string, r: Option<Route>)
    requires forall q :: q in routes && q.host != "" ==> !Names(host, splitHostPort, q.host)
    requires Answers(routes, RequestHostname(host, splitHostPort), path, r)
    ensures match r
      case Some(q) => q in routes && q.host == "" && Covers(q.path, path)
      case None => forall q :: q in routes && q.host == "" ==> !Covers(q.path, path)
  {
    var name := RequestHostname(host, splitHostPort);
    forall q ensures !Hosted(routes, name, q) {}
  }

  // Rewriting -----------------------------------------------------------------------------

  // What rewrite leaves of a path without its prefix.
  function Stripped(path: string, prefix: string): string {
    var p := TrimPrefix(path, prefix);
    if p == "" || p == "/" then "/" else p
  }

  // The URL of an outgoing request: its path and, when it had an encoding of its own, that.
  class OutgoingURL {
    var path: string
    var rawPath: string

    method Rewrite(prefix: string, includePrefix: bool)
      modifies this
      ensures path == if includePrefix then old(path) else Stripped(old(path), prefix)
      ensures rawPath == if includePrefix || old(rawPath) == "" then old(rawPath) else Stripped(old(rawPath), prefix)
    {
      if includePrefix { return; }
      var p := TrimPrefix(path, prefix);
      if p == "" || p == "/" { p := "/"; }
      path := p;
      if rawPath != "" {
        var rp := TrimPrefix(rawPath, prefix);
        if rp == "" || rp == "/" { rp := "/"; }
        rawPath := rp;
      }
    }
  }

  predicate SlashLed(s: string) { s != "" && s[0] == '/' }

  // The route of a request under a prefix other than the root: the backend sees a path that
  // starts with a slash and that, put behind the prefix, is the requested path; only the
  // prefix itself, which the backend sees as the root, has no such ending.
  lemma RewriteUndoes(prefix: string, path: string)
    requires prefix != "/" && Covers(prefix, path)
    ensures SlashLed(Stripped(path, prefix))
    ensures if path == prefix then Stripped(path, prefix) == "/" else prefix + Stripped(path, prefix) == path
  {}

  // Under one such prefix the backend can tell two requests apart unless they are for the
  // prefix with and without a slash behind it.
  lemma RewriteSeparates(prefix: string, a: string, b: string)
    requires prefix != "/" && Covers(prefix, a) && Covers(prefix, b)
    ensures Stripped(a, prefix) == Stripped(b, prefix) <==> a == b || {a, b} == {prefix, prefix + "/"}
  {
    RewriteUndoes(prefix, a);
    RewriteUndoes(prefix, b);
  }

  // The root prefix takes the slash away: the result starts with one exactly when nothing
  // else was there or a second one followed.
  lemma RootStripsTheSlash(path: string)
    ensures SlashLed(Stripped(path, "/")) <==> path == "" || path == "/" || "//" <= path
    ensures SlashLed(path) && path != "/" ==> "/" + Stripped(path, "/") == path
  {}

  // Percent decoding, of which None stands for malformed escapes.
  predicate IsHex(c: char) { '0' <= c <= '9' || 'a' <= c <= 'f' || 'A' <= c <= 'F' }

  function HexValue(c: char): (n: nat)
    requires IsHex(c)
    ensures n < 16
  {
    if c <= '9' then c as int - '0' as int
    else if c >= 'a' then c as int - 'a' as int + 10
    else c as int - 'A' as int + 10
  }

  function Unescape(s: string): Option<string> {
    if s == "" then Some("")
    else if s[0] != '%' then
      match Unescape(s[1..]) case None => None case Some(r) => Some([s[0]] + r)
    else if |s| < 3 || !IsHex(s[1]) || !IsHex(s[2]) then None
    else
      match Unescape(s[3..])
      case None => None
      case Some(r) => Some([(16 * HexValue(s[1]) + HexValue(s[2])) as char] + r)
  }

  // Decoding undoes the escaping of every character, with digits of either case.
  function Escaped(s: string, digits: string): string
    requires |digits| == 16 && forall i :: 0 <= i < |s| ==> s[i] as int < 256
  {
    if s == "" then "" else ['%', digits[s[0] as int / 16], digits[s[0] as int % 16]] + Escaped(s[1..], digits)
  }

  lemma {:induction false} UnescapeEscaped(s: string, digits: string)
    requires digits == "0123456789ABCDEF" || digits == "0123456789abcdef"
    requires forall i :: 0 <= i < |s| ==> s[i] as int < 256
    ensures Unescape(Escaped(s, digits)) == Some(s)
  {
    if s != "" {
      UnescapeEscaped(s[1..], digits);
      EscapedFirst(s[0], digits, Escaped(s[1..], digits));
      assert [s[0]] + s[1..] == s;
    }
  }

  lemma EscapedFirst(c: char, digits: string, rest: string)
    requires digits == "0123456789ABCDEF" || digits == "0123456789abcdef"
    requires c as int < 256 && Unescape(rest).Some?
    ensures Unescape(['%', digits[c as int / 16], digits[c as int % 16]] + rest) == Some([c] + Unescape(rest).value)
  {
    hide IsHex, HexValue;
    var high, low := digits[c as int / 16], digits[c as int % 16];
    HexDigits(digits, c as int / 16);
    HexDigits(digits, c as int % 16);
    assert (['%', high, low] + rest)[3..] == rest;
  }

  lemma HexDigits(digits: string, n: nat)
    requires n < 16 && (digits == "0123456789ABCDEF" || digits == "0123456789abcdef")
    ensures IsHex(digits[n]) && HexValue(digits[n]) == n
  {}

  lemma {:induction false} UnescapePrefix(prefix: string, rest: string)
    requires '%' !in prefix
    ensures Unescape(prefix + rest) ==
      match Unescape(rest) case None => None case Some(r) => Some(prefix + r)
  {
    if prefix == "" {
      assert prefix + rest == rest;
      assert Unescape(rest).Some? ==> "" + Unescape(rest).value == Unescape(rest).value;
    } else {
      assert (prefix + rest)[0] == prefix[0] && (prefix + rest)[1..] == prefix[1..] + rest;
      UnescapePrefix(prefix[1..], rest);
      if Unescape(rest).Some? {
        assert [prefix[0]] + (prefix[1..] + Unescape(rest).value) == prefix + Unescape(rest).value;
      }
    }
  }

  // Stripping the encoded path alongside the path keeps the two in step exactly when the
  // request had not escaped a character of the prefix.
  lemma EncodingsStayInStep(prefix: string, path: string, raw: string)
    requires prefix != "/" && prefix != "" && '%' !in prefix && Covers(prefix, path)
    requires raw != "" && Unescape(raw) == Some(path)
    ensures Unescape(Stripped(raw, prefix)) == Some(Stripped(path, prefix)) <==> prefix <= raw
  {
    RewriteUndoes(prefix, path);
    if prefix <= raw {
      var rest := raw[|prefix|..];
      assert prefix + rest == raw;
      UnescapePrefix(prefix, rest);
      var tail := Unescape(rest).value;
      assert path == prefix + tail && path[|prefix|..] == tail;
      UnescapePrefix("/", "");
      assert "/" + "" == "/";
      if rest != "" { UnescapedIsNotEmpty(rest); }
    } else {
      assert Stripped(raw, prefix) == if raw == "/" then "/" else raw;
    }
  }

  lemma UnescapedIsNotEmpty(s: string)
    requires s != "" && Unescape(s).Some?
    ensures Unescape(s).value != ""
  {}
}
