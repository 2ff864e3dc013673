// What an accepted configuration guarantees its users: the shape of normalised endpoints, and
// a routing table (NewHandler of internal/proxy/handler.go) in which no request is ambiguous.

module Routes {
  import opened Maps
  import opened Options
  import opened Text
  import opened Endpoints
  import opened Normalize
  import Routing

  // Claims in words -------------------------------------------------------------------------

  predicate UsesPort(r: RuntimeEndpoint, n: int) { n == r.port || (r.protocol == TCP && n == r.listenPort) }

  predicate UsesHost(r: RuntimeEndpoint, h: string) {
    r.protocol != TCP && r.host != "" && (h == r.host || (r.aliases != [] && h == r.aliases[0]))
  }

  predicate UsesPath(r: RuntimeEndpoint, p: string) { r.protocol != TCP && r.host == "" && p == r.path }

  lemma ClaimsInWords(r: RuntimeEndpoint, c: Claim)
    ensures c in Claims(r) <==>
      match c
      case Port(n) => UsesPort(r, n)
      case Host(h) => UsesHost(r, h)
      case Path(p) => UsesPath(r, p)
  {
    ClaimsMean(r);
    RouteClaimsMean(r);
    assert HostsOf(r)[0] == r.host;
  }

  predicate ShareNothing(r: RuntimeEndpoint, s: RuntimeEndpoint) {
    && !UsesPort(s, r.port) && (r.protocol == TCP ==> !UsesPort(s, r.listenPort))
    && (r.protocol != TCP && r.host != "" ==> !UsesHost(s, r.host) && (r.aliases != [] ==> !UsesHost(s, r.aliases[0])))
    && (r.protocol != TCP && r.host == "" ==> !UsesPath(s, r.path))
  }

  lemma DisjointInWords(r: RuntimeEndpoint, s: RuntimeEndpoint)
    ensures Disjoint(Claims(r), Claims(s)) <==> ShareNothing(r, s)
  {
    if Disjoint(Claims(r), Claims(s)) {
      ClaimsInWords(r, Port(r.port));
      ClaimsInWords(s, Port(r.port));
      ClaimsInWords(r, Port(r.listenPort));
      ClaimsInWords(s, Port(r.listenPort));
      ClaimsInWords(r, Host(r.host));
      ClaimsInWords(s, Host(r.host));
      if r.aliases != [] {
        ClaimsInWords(r, Host(r.aliases[0]));
        ClaimsInWords(s, Host(r.aliases[0]));
      }
      ClaimsInWords(r, Path(r.path));
      ClaimsInWords(s, Path(r.path));
    }
    if ShareNothing(r, s) {
      forall c | c in Claims(r) ensures c !in Claims(s) {
        ClaimsInWords(r, c);
        ClaimsInWords(s, c);
      }
    }
  }

  // Two endpoints of an accepted configuration share no port, be it of a backend or of a
  // listener, no host or alias and no path, and none has the wrapper's port.
  lemma AcceptedShareNothing(c: Config, k: Key, l: Key)
    requires Accepted(c) && k in SpecsOf(c) && l in SpecsOf(c) && k != l
    ensures SpecsOf(c)[k].Some? && SpecsOf(c)[l].Some? && ShareNothing(SpecsOf(c)[k].value, SpecsOf(c)[l].value)
    ensures !UsesPort(SpecsOf(c)[k].value, c.port)
  {
    hide Local;
    NotTheWrapper(c, k);
    DisjointInWords(SpecsOf(c)[k].value, SpecsOf(c)[l].value);
  }

  lemma NotTheWrapper(c: Config, k: Key)
    requires k in SpecsOf(c) && SpecsOf(c)[k].Some?
    ensures forall n :: UsesPort(SpecsOf(c)[k].value, n) ==> n != c.port
  {
    var e := Inputs(c.apps[k.0])[k.1];
    RoutedShape(k.0, k.1, e, c.port, Protocol(e), TrimSpace(e.path), TrimSpace(e.host));
  }

  // Shapes ----------------------------------------------------------------------------------

  // A path that starts with a slash loses those at its end, all of them when it has nothing
  // else, unless it is the root itself.
  lemma PathIsNormal(path: string)
    requires path != "" && path[0] == '/'
    ensures Routing.Normal(PathOf(path))
    ensures PathOf(path) == "" <==> path != "/" && forall i :: 0 <= i < |path| ==> path[i] == '/'
  {
    if path != "/" && PathOf(path) != "" { assert PathOf(path)[0] == path[0]; }
  }

  // So a normalised path need not start with a slash, although its path did.
  lemma SlashesVanish()
    ensures PathOf("//") == "" && PathOf("/") == "/"
  {
    PathIsNormal("//");
  }

  predicate Lower(s: string) { ToLower(s) == s }

  // What a normalised endpoint looks like.
  predicate Shaped(r: RuntimeEndpoint, wrapper: int) {
    && |r.aliases| <= 1 && (r.aliases != [] ==> r.host != "")
    && (r.protocol == TCP ==> r.host == "" && r.aliases == [] && r.listenPort != wrapper)
    && (r.protocol == GRPC ==> r.host != "")
    && (r.protocol != TCP && r.host == "" ==> Routing.Normal(r.path))
    && (r.host != "" ==>
          r.path == "" && Lower(r.host) && (r.aliases != [] ==> r.aliases[0] != "" && Lower(r.aliases[0])))
  }

  lemma HostNameIsLower(host: string)
    ensures HostName(host).Some? ==> Lower(HostName(host).value)
  {
    LowerTwice(TrimSpace(host));
  }

  lemma WithHostShape(r: RuntimeEndpoint, host: string, aliases: seq<string>)
    requires |aliases| <= 1 && r.aliases == [] && r.path == "" && WithHost(r, host, aliases).Some?
    ensures var s := WithHost(r, host, aliases).value;
      && s.protocol == r.protocol && s.path == "" && s.host != "" && Lower(s.host) && s.listenPort == r.listenPort
      && |s.aliases| == |aliases| && (aliases != [] ==> s.aliases[0] != "" && Lower(s.aliases[0]))
  {
    HostNameIsLower(host);
    if aliases != [] { HostNameIsLower(aliases[0]); }
  }

  lemma RoutedShape(id: string, name: string, e: Endpoint, wrapper: int, protocol: string, path: string, host: string)
    requires Ported(id, name, e, wrapper, protocol, path, host).Some?
    ensures Shaped(Ported(id, name, e, wrapper, protocol, path, host).value, wrapper)
    ensures Ported(id, name, e, wrapper, protocol, path, host).value.port != wrapper
  {
    var r := Basic(name, e, protocol);
    var lazy, aliases := LazyHost(id, name, e.primary), LazyAliases(id, name, e.primary);
    if protocol == HTTP && path != "" {
      PathIsNormal(path);
    } else if protocol != TCP && host == "" {
      WithHostShape(r, lazy, aliases);
    } else if protocol != TCP {
      WithHostShape(r, host, []);
    }
  }

  // Names -----------------------------------------------------------------------------------

  predicate NameShape(name: string) { name != "" && !IsSpace(name[0]) }

  lemma InputNames(id: string, app: App, name: string)
    requires InputsOk(id, app) && name in Inputs(app)
    ensures NameShape(name)
  {
    if app.endpoints != map[] {
      InputsAreLower(app, name);
      var n := LabelOf(app, name);
      LowerLabel(n);
    }
  }

  lemma InputsAreLower(app: App, name: string)
    requires app.endpoints != map[] && name in Inputs(app)
    ensures name in LowerNames(app)
  {}

  lemma LabelOf(app: App, name: string) returns (n: string)
    requires NamesOk(app) && name in LowerNames(app)
    ensures ValidDNSLabel(n) && ToLower(n) == name
  {
    n :| n in app.endpoints && ToLower(n) == name;
  }

  lemma LowerLabel(n: string)
    requires ValidDNSLabel(n)
    ensures NameShape(ToLower(n))
  {
    assert LabelChar(n[0]) && ToLower(n)[0] == LowerChar(n[0]);
  }

  lemma HostNameLength(host: string)
    requires HostName(host).Some?
    ensures |HostName(host).value| == |TrimSpace(host)| <= |host|
  {}

  // The alias of an endpoint is longer than its host.
  lemma AliasIsNotHost(id: string, name: string)
    requires NameShape(name) && HostName(EndpointHost(id, name)).Some? && HostName(AppHost(id)).Some?
    ensures HostName(EndpointHost(id, name)).value != HostName(AppHost(id)).value
  {
    hide HostName, TrimSpace;
    var alias := EndpointHost(id, name);
    HostNameLength(alias);
    HostNameLength(AppHost(id));
    AliasIsTrimmed(alias, id, name);
  }

  lemma AliasIsTrimmed(alias: string, id: string, name: string)
    requires NameShape(name) && alias == EndpointHost(id, name)
    ensures TrimSpace(alias) == alias
  {
    assert alias[0] == name[0] && alias[|alias| - 1] == 't';
    TrimTrimmed(alias);
  }

  lemma AliasDiffers(id: string, name: string, e: Endpoint, wrapper: int, protocol: string, path: string, host: string)
    requires NameShape(name) && Ported(id, name, e, wrapper, protocol, path, host).Some?
    ensures var r := Ported(id, name, e, wrapper, protocol, path, host).value;
      r.aliases != [] ==> r.aliases[0] != r.host
  {
    hide HostName;
    if Ported(id, name, e, wrapper, protocol, path, host).value.aliases != [] {
      AliasIsNotHost(id, name);
    }
  }

  // Lazy hosts ------------------------------------------------------------------------------

  predicate Labels(host: string) {
    host != "" && !IsSpace(host[0]) && !IsSpace(host[|host| - 1]) && forall i :: 0 <= i < |host| ==> HostChar(host[i])
  }

  lemma HostOfLabels(host: string, id: string, name: string)
    requires ValidDNSLabel(id) && ValidDNSLabel(name) && (host == AppHost(id) || host == EndpointHost(id, name))
    ensures Labels(host)
  {
    assert forall i :: 0 <= i < |id| ==> LabelChar(id[i]);
    assert forall i :: 0 <= i < |name| ==> LabelChar(name[i]);
    assert forall i :: 0 <= i < |host| ==> LabelChar(host[i]) || host[i] == '.';
    assert host[|host| - 1] == 't' && LabelChar(host[0]);
  }

  // A host made of labels is taken as it is, in lower case.
  lemma LabelHost(host: string, id: string, name: string)
    requires ValidDNSLabel(id) && ValidDNSLabel(name) && (host == AppHost(id) || host == EndpointHost(id, name))
    ensures HostName(host) == Some(ToLower(host))
  {
    hide TrimSpace, ToLower, ValidDNSLabel, AppHost, EndpointHost;
    HostOfLabels(host, id, name);
    TrimTrimmed(host);
  }

  // An HTTP or gRPC endpoint that gives neither path nor host is never refused: a primary one
  // gets the host of its app and one alias, another one a host of its own.
  lemma LazyHosts(id: string, name: string, e: Endpoint, wrapper: int, protocol: string)
    requires ValidDNSLabel(id) && ValidDNSLabel(name)
    requires ValidPort(e.port) && e.port != wrapper && e.listenPort == 0 && !e.includePrefix
    requires protocol == GRPC || (protocol == HTTP && !e.grpcHealth)
    ensures Ported(id, name, e, wrapper, protocol, "", "").Some?
    ensures var r := Ported(id, name, e, wrapper, protocol, "", "").value;
      if e.primary then r.host == ToLower(AppHost(id)) && r.aliases == [ToLower(EndpointHost(id, name))]
      else r.host == ToLower(EndpointHost(id, name)) && r.aliases == []
  {
    LabelHost(AppHost(id), id, name);
    LabelHost(EndpointHost(id, name), id, name);
    hide HostName, ToLower;
  }

  // The table of routes ---------------------------------------------------------------------

  // The routes of an endpoint: for its path or host, and for its alias.
  function RoutesOf(id: string, r: RuntimeEndpoint): seq<Routing.Route> {
    if r.protocol == TCP then [] else
    [Routing.Route(id, r.name, r.path, r.host, r.protocol)]
      + seq(|r.aliases|, i requires 0 <= i < |r.aliases| => Routing.Route(id, r.name, "", r.aliases[i], r.protocol))
  }

  // The routes of the endpoints with these keys, one after the other.
  ghost function Flat(endpoints: map<Key, RuntimeEndpoint>, order: seq<Key>): seq<Routing.Route>
    requires forall k :: k in order ==> k in endpoints
  {
    if order == [] then [] else
    var last := order[|order| - 1];
    Flat(endpoints, order[..|order| - 1]) + RoutesOf(last.0, endpoints[last])
  }

  lemma RoutesOfMean(id: string, r: RuntimeEndpoint, x: Routing.Route)
    requires x in RoutesOf(id, r) && |r.aliases| <= 1
    ensures r.protocol != TCP
    ensures (x.path == r.path && x.host == r.host) || (r.aliases != [] && x.path == "" && x.host == r.aliases[0])
  {}

  // No two routes of two endpoints that share nothing can be confused.
  lemma AcrossEndpoints(a: string, r: RuntimeEndpoint, b: string, s: RuntimeEndpoint, wrapper: int,
                        x: Routing.Route, y: Routing.Route)
    requires ShareNothing(r, s) && Shaped(r, wrapper) && Shaped(s, wrapper) && x in RoutesOf(a, r)
    requires y in RoutesOf(b, s)
    ensures Apart(x, y)
  {
    RoutesOfMean(a, r, x);
    RoutesOfMean(b, s, y);
  }

  ghost predicate Apart(x: Routing.Route, y: Routing.Route) {
    && (x.host == "" && y.host == "" ==> x.path != y.path)
    && (x.host != "" && y.host != "" ==> ToLower(x.host) != ToLower(y.host))
  }

  lemma UnambiguousSum(xs: seq<Routing.Route>, ys: seq<Routing.Route>)
    requires Routing.Unambiguous(xs) && Routing.Unambiguous(ys)
    requires forall x, y :: x in xs && y in ys ==> Apart(x, y)
    ensures Routing.Unambiguous(xs + ys)
  {
    var both := xs + ys;
    forall i, j | 0 <= i < j < |both| ensures Apart(both[i], both[j]) {
      if i < |xs| <= j {
        assert both[i] in xs && both[j] in ys;
      } else if j < |xs| {
        assert both[i] == xs[i] && both[j] == xs[j];
      } else {
        assert both[i] == ys[i - |xs|] && both[j] == ys[j - |xs|];
      }
    }
  }

  lemma OneEndpoint(id: string, r: RuntimeEndpoint, wrapper: int)
    requires Shaped(r, wrapper) && (r.aliases != [] ==> r.aliases[0] != r.host)
    ensures Routing.Unambiguous(RoutesOf(id, r))
  {
    var xs := RoutesOf(id, r);
    forall x | x in xs && x.host == "" ensures Routing.Normal(x.path) { RoutesOfMean(id, r, x); }
  }

  // The endpoints of a configuration, which a table of routes lists in some order.
  ghost predicate Listing(endpoints: map<Key, RuntimeEndpoint>, order: seq<Key>) {
    && (forall i, j :: 0 <= i < j < |order| ==> order[i] != order[j])
    && forall k :: k in order ==> k in endpoints
  }

  ghost predicate Clean(endpoints: map<Key, RuntimeEndpoint>, wrapper: int) {
    AllShaped(endpoints, wrapper) && AllApart(endpoints)
  }

  ghost predicate AllShaped(endpoints: map<Key, RuntimeEndpoint>, wrapper: int) {
    forall k :: k in endpoints ==>
      && Shaped(endpoints[k], wrapper)
      && (endpoints[k].aliases != [] ==> endpoints[k].aliases[0] != endpoints[k].host)
  }

  ghost predicate AllApart(endpoints: map<Key, RuntimeEndpoint>) {
    forall k, l :: k in endpoints && l in endpoints && k != l ==> ShareNothing(endpoints[k], endpoints[l])
  }

  lemma {:induction false} FlatFrom(endpoints: map<Key, RuntimeEndpoint>, order: seq<Key>, x: Routing.Route)
    returns (k: Key)
    requires Listing(endpoints, order) && x in Flat(endpoints, order)
    ensures k in order && x in RoutesOf(k.0, endpoints[k])
  {
    var before, last := order[..|order| - 1], order[|order| - 1];
    if x in RoutesOf(last.0, endpoints[last]) { k := last; } else { k := FlatFrom(endpoints, before, x); }
  }

  // The table of an accepted configuration is unambiguous in whatever order it is listed.
  lemma {:induction false} FlatIsUnambiguous(endpoints: map<Key, RuntimeEndpoint>, order: seq<Key>, wrapper: int)
    requires Clean(endpoints, wrapper) && Listing(endpoints, order)
    ensures Routing.Unambiguous(Flat(endpoints, order))
  {
    if order != [] {
      var before, last := order[..|order| - 1], order[|order| - 1];
      FlatIsUnambiguous(endpoints, before, wrapper);
      OneEndpoint(last.0, endpoints[last], wrapper);
      var xs, ys := Flat(endpoints, before), RoutesOf(last.0, endpoints[last]);
      forall x, y | x in xs && y in ys ensures Apart(x, y) {
        var k := FlatFrom(endpoints, before, x);
        assert k != last;
        AcrossEndpoints(k.0, endpoints[k], last.0, endpoints[last], wrapper, x, y);
      }
      UnambiguousSum(xs, ys);
    }
  }

  ghost function EndpointsOf(c: Config): map<Key, RuntimeEndpoint>
    requires Accepted(c)
  {
    Tabulate(SpecsOf(c).Keys, k requires k in SpecsOf(c) && SpecsOf(c)[k].Some? => SpecsOf(c)[k].value)
  }

  lemma AcceptedIsClean(c: Config)
    requires Accepted(c)
    ensures Clean(EndpointsOf(c), c.port)
  {
    AcceptedIsShaped(c);
    AcceptedIsApart(c);
  }

  lemma AcceptedIsShaped(c: Config)
    requires Accepted(c)
    ensures AllShaped(EndpointsOf(c), c.port)
  {
    var specs := SpecsOf(c);
    forall k | k in specs
      ensures Shaped(specs[k].value, c.port)
      ensures specs[k].value.aliases != [] ==> specs[k].value.aliases[0] != specs[k].value.host
    {
      SpecIsClean(c, k);
    }
  }

  lemma AcceptedIsApart(c: Config)
    requires Accepted(c)
    ensures AllApart(EndpointsOf(c))
  {
    var specs := SpecsOf(c);
    forall k, l | k in specs && l in specs && k != l ensures ShareNothing(specs[k].value, specs[l].value) {
      AcceptedShareNothing(c, k, l);
    }
  }

  lemma SpecIsClean(c: Config, k: Key)
    requires k in SpecsOf(c) && SpecsOf(c)[k].Some? && InputsOk(k.0, c.apps[k.0])
    ensures var r := SpecsOf(c)[k].value;
      Shaped(r, c.port) && (r.aliases != [] ==> r.aliases[0] != r.host)
  {
    hide Ported;
    var e := Inputs(c.apps[k.0])[k.1];
    InputNames(k.0, c.apps[k.0], k.1);
    RoutedShape(k.0, k.1, e, c.port, Protocol(e), TrimSpace(e.path), TrimSpace(e.host));
    AliasDiffers(k.0, k.1, e, c.port, Protocol(e), TrimSpace(e.path), TrimSpace(e.host));
  }

  // Normalisation and routing together: the table NewHandler makes of an accepted configuration
  // has, for every request, at most one host route and at most one longest path route.
  lemma AcceptedRoutesUnambiguously(c: Config, order: seq<Key>)
    requires Accepted(c) && Listing(EndpointsOf(c), order)
    ensures Routing.Unambiguous(Flat(EndpointsOf(c), order))
  {
    AcceptedIsClean(c);
    FlatIsUnambiguous(EndpointsOf(c), order, c.port);
  }
}
