// normalizeEndpoint and appEndpointInputs of internal/config/config.go without their shared
// tables: what one endpoint becomes by itself, and what it claims for itself alone.

module Endpoints {
  import opened Maps
  import opened Options
  import opened Sets
  import opened Text
  import Environment

  datatype Endpoint = Endpoint(
    port: int, protocol: string, path: string, host: string, listenPort: int,
    includePrefix: bool, grpcHealth: bool, primary: bool)

  datatype RuntimeEndpoint = RuntimeEndpoint(
    name: string, protocol: string, path: string, host: string, aliases: seq<string>,
    port: int, listenPort: int, includePrefix: bool, grpcHealth: bool, primary: bool)

  const HTTP := "http"
  const GRPC := "grpc"
  const TCP := "tcp"

  predicate ValidPort(port: int) { 1 <= port <= 65535 }

  // Hosts ---------------------------------------------------------------------------------

  predicate HostChar(c: char) { c != ' ' && c != '/' && c != '\\' && c != '@' && c != ':' }

  // normalizeHost.
  function HostName(host: string): (r: Option<string>)
    ensures r.Some? ==> r.value != ""
  {
    var h := TrimSpace(host);
    if h == "" || exists i :: 0 <= i < |h| && !HostChar(h[i]) then None else Some(ToLower(h))
  }

  function AppHost(id: string): string { id + ".localhost" }

  function EndpointHost(id: string, name: string): string { name + "." + id + ".localhost" }

  // One endpoint by itself ------------------------------------------------------------------

  function Protocol(e: Endpoint): string {
    var p := ToLower(TrimSpace(e.protocol));
    if p == "" then HTTP else p
  }

  // The host and the further names of an endpoint that gives neither path nor host.
  function LazyHost(id: string, name: string, primary: bool): string {
    if primary then AppHost(id) else EndpointHost(id, name)
  }

  function LazyAliases(id: string, name: string, primary: bool): seq<string> {
    if primary then [EndpointHost(id, name)] else []
  }

  function Basic(name: string, e: Endpoint, protocol: string): RuntimeEndpoint {
    RuntimeEndpoint(name, protocol, "", "", [], e.port, e.listenPort, e.includePrefix, e.grpcHealth, e.primary)
  }

  function WithHost(r: RuntimeEndpoint, host: string, aliases: seq<string>): Option<RuntimeEndpoint>
    requires |aliases| <= 1
  {
    WithNames(r, HostName(host), if aliases == [] then [] else [HostName(aliases[0])])
  }

  function WithNames(r: RuntimeEndpoint, host: Option<string>, aliases: seq<Option<string>>): Option<RuntimeEndpoint>
    requires |aliases| <= 1
  {
    if host.None? then None
    else if aliases == [] then Some(r.(host := host.value))
    else if aliases[0].None? then None
    else Some(r.(host := host.value, aliases := [aliases[0].value]))
  }

  function PathOf(path: string): string { if path == "/" then path else TrimSlashes(path) }

  function Http(id: string, name: string, e: Endpoint, path: string, host: string): Option<RuntimeEndpoint> {
    var r := Basic(name, e, HTTP);
    if e.listenPort != 0 then None
    else if path == "" && host == "" then
      if e.includePrefix then None else WithHost(r, LazyHost(id, name, e.primary), LazyAliases(id, name, e.primary))
    else if path != "" && host != "" then None
    else if host != "" then if e.includePrefix then None else WithHost(r, host, [])
    else if path[0] != '/' then None
    else Some(r.(path := PathOf(path)))
  }

  function Grpc(id: string, name: string, e: Endpoint, path: string, host: string): Option<RuntimeEndpoint> {
    var r := Basic(name, e, GRPC);
    if e.listenPort != 0 || path != "" || e.includePrefix then None
    else if host == "" then WithHost(r, LazyHost(id, name, e.primary), LazyAliases(id, name, e.primary))
    else WithHost(r, host, [])
  }

  function Tcp(name: string, e: Endpoint, path: string, host: string, wrapper: int): Option<RuntimeEndpoint> {
    if path != "" || host != "" || e.includePrefix || !ValidPort(e.listenPort) || e.listenPort == wrapper then None
    else Some(Basic(name, e, TCP))
  }

  function Routed(id: string, name: string, e: Endpoint, wrapper: int, protocol: string, path: string,
                  host: string): (r: Option<RuntimeEndpoint>)
    ensures r.Some? ==> r.value.protocol == protocol && r.value.name == name
    ensures r.Some? ==> r.value.primary == e.primary && r.value.port == e.port
  {
    if e.grpcHealth && protocol != GRPC then None
    else if protocol == HTTP then Http(id, name, e, path, host)
    else if protocol == GRPC then Grpc(id, name, e, path, host)
    else if protocol == TCP then Tcp(name, e, path, host, wrapper)
    else None
  }

  function Ported(id: string, name: string, e: Endpoint, wrapper: int, protocol: string, path: string,
                  host: string): (r: Option<RuntimeEndpoint>)
    ensures r.Some? ==> r.value.name == name && r.value.primary == e.primary && r.value.port == e.port
  {
    if !ValidPort(e.port) || e.port == wrapper then None else Routed(id, name, e, wrapper, protocol, path, host)
  }

  function Local(id: string, name: string, e: Endpoint, wrapper: int): (r: Option<RuntimeEndpoint>)
    ensures r.Some? ==> r.value.name == name && r.value.primary == e.primary
  {
    Ported(id, name, e, wrapper, Protocol(e), TrimSpace(e.path), TrimSpace(e.host))
  }

  // Claims ----------------------------------------------------------------------------------

  // What only one endpoint may have.  Backend and listening ports are ports alike.
  datatype Claim = Port(number: int) | Host(host: string) | Path(path: string)

  // The names an endpoint registers: a gRPC endpoint does not register an alias that is its host.
  function HostsOf(r: RuntimeEndpoint): seq<string> {
    if r.aliases == [] || (r.protocol == GRPC && r.aliases[0] == r.host) then [r.host] else [r.host, r.aliases[0]]
  }

  function Claims(r: RuntimeEndpoint): seq<Claim> {
    [Port(r.port)] + RouteClaims(r)
  }

  function RouteClaims(r: RuntimeEndpoint): seq<Claim> {
    if r.protocol == TCP then [Port(r.listenPort)]
    else if r.host == "" then [Path(r.path)]
    else seq(|HostsOf(r)|, i requires 0 <= i < |HostsOf(r)| => Host(HostsOf(r)[i]))
  }

  // Endpoints of an app ---------------------------------------------------------------------

  // The fields that give an app a single endpoint are those of `single`.  `directory` is what
  // the file system says of pwd: that it can be expanded and names a directory.
  datatype App = App(
    launch: string, pwd: string, directory: bool, envFiles: seq<Environment.Source>, env: Environment.Variables,
    idle: Option<int>, single: Endpoint, endpoints: map<string, Endpoint>)

  predicate LabelChar(c: char) { 'a' <= c <= 'z' || 'A' <= c <= 'Z' || '0' <= c <= '9' || c == '-' }

  predicate ValidDNSLabel(s: string) {
    && s != "" && |s| <= 63 && s[0] != '-' && s[|s| - 1] != '-'
    && forall i :: 0 <= i < |s| ==> LabelChar(s[i])
  }

  predicate Routes(e: Endpoint) {
    e.protocol != "" || e.path != "" || e.host != "" || e.listenPort != 0 || e.includePrefix || e.grpcHealth
  }

  ghost function Primaries(app: App): set<string> { set n | n in app.endpoints && app.endpoints[n].primary }

  // Names differ in more than the case of their letters.
  ghost predicate NamesDiffer(app: App) {
    forall a, b :: a in app.endpoints && b in app.endpoints && ToLower(a) == ToLower(b) ==> a == b
  }

  ghost predicate InputsOk(id: string, app: App) {
    if app.endpoints == map[] then app.single.port == 0 ==> !Routes(app.single)
    else
      && app.single.port == 0 && !Routes(app.single)
      && ValidDNSLabel(id) && NamesOk(app) && PrimaryOk(app)
  }

  ghost predicate NamesOk(app: App) {
    (forall n :: n in app.endpoints ==> ValidDNSLabel(n)) && NamesDiffer(app)
  }

  // Exactly one endpoint is primary, or there is only one and it does not say.
  ghost predicate PrimaryOk(app: App) {
    |Primaries(app)| == 1 || (|Primaries(app)| == 0 && |app.endpoints| == 1)
  }

  // The endpoint a lower-case name stands for.
  ghost function Named(app: App, k: string): Endpoint
    requires exists n :: n in app.endpoints && ToLower(n) == k
  {
    var n :| n in app.endpoints && ToLower(n) == k;
    app.endpoints[n]
  }

  ghost function LowerNames(app: App): set<string> { set n | n in app.endpoints :: ToLower(n) }

  // A lone endpoint is the primary one.
  function Promoted(app: App, e: Endpoint): Endpoint { if |app.endpoints| == 1 then e.(primary := true) else e }

  ghost function Inputs(app: App): map<string, Endpoint> {
    if app.endpoints == map[] then
      if app.single.port == 0 then map[] else map["default" := app.single.(primary := true)]
    else Tabulate(LowerNames(app), k requires k in LowerNames(app) => Promoted(app, Named(app, k)))
  }

  datatype Error =
    | SingleAndEndpoints | InvalidName(name: string) | DuplicateName(name: string) | PrimaryMissing | NoPort
    | Unfit | Taken(claim: Claim, prior: string, claimant: string)

  method AppEndpointInputs(id: string, app: App) returns (r: Result<map<string, Endpoint>, Error>)
    ensures r.Ok? <==> InputsOk(id, app)
    ensures r.Ok? ==> r.value == Inputs(app)
  {
    if |app.endpoints| == 0 {
      if app.single.port == 0 {
        if Routes(app.single) { return Err(NoPort); }
        return Ok(map[]);
      }
      return Ok(map["default" := app.single.(primary := true)]);
    }
    if app.single.port != 0 || Routes(app.single) { return Err(SingleAndEndpoints); }
    if !ValidDNSLabel(id) { return Err(InvalidName(id)); }
    r := NamedEndpoints(app);
  }

  // The part for an app with an `endpoints` table.
  method NamedEndpoints(app: App) returns (r: Result<map<string, Endpoint>, Error>)
    requires app.endpoints != map[]
    ensures r.Ok? <==> NamesOk(app) && PrimaryOk(app)
    ensures r.Ok? ==> r.value == Inputs(app)
  {
    var err, result, primary := EnterEndpoints(app);
    hide Inputs, NamesOk, Primaries, LowerNames, Named;
    if err.Some? { return Err(err.value); }
    PromotedAll(app, result);
    if |result| == 1 && primary == 0 {
      var name :| name in result;
      PromotedLone(app, result, name);
      result := result[name := result[name].(primary := true)];
      primary := 1;
    }
    if primary != 1 { return Err(PrimaryMissing); }
    r := Ok(result);
  }

  // The loop over the table, in any order.
  method EnterEndpoints(app: App) returns (err: Option<Error>, result: map<string, Endpoint>, primary: nat)
    ensures err.None? <==> NamesOk(app)
    ensures err.None? ==> primary == |Primaries(app)| && |result| == |app.endpoints| && result.Keys == LowerNames(app)
    ensures err.None? ==> forall k :: k in result ==> result[k] == Named(app, k)
  {
    primary, result := 0, map[];
    var names := app.endpoints.Keys;
    ghost var origin: map<string, string> := map[];
    EnterNone(app);
    while names != {}
      invariant Entering(app, names, result, origin, primary)
      decreases |names|
    {
      var name :| name in names;
      if !ValidDNSLabel(name) { return Some(InvalidName(name)), result, primary; }
      var lower := ToLower(name);
      if lower in result {
        NameClash(app, names, result, origin, primary, name);
        return Some(DuplicateName(lower)), result, primary;
      }
      EnterNext(app, names, result, origin, primary, name);
      if app.endpoints[name].primary { primary := primary + 1; }
      result, origin := result[lower := app.endpoints[name]], origin[lower := name];
      names := names - {name};
    }
    EnteredAll(app, result, origin, primary);
    err := None;
  }

  // All but names have been entered.
  ghost predicate Entering(app: App, names: set<string>, result: map<string, Endpoint>,
                           origin: map<string, string>, primary: nat) {
    && names <= app.endpoints.Keys
    && (forall n :: n in app.endpoints.Keys - names ==> ValidDNSLabel(n))
    && Entered(app.endpoints, LowerMap(app), app.endpoints.Keys - names, result, origin)
    && primary == |PrimariesAmong(app, app.endpoints.Keys - names)|
  }

  lemma EnterNone(app: App)
    ensures Entering(app, app.endpoints.Keys, map[], map[], 0)
  {
    assert app.endpoints.Keys - app.endpoints.Keys == {};
    assert PrimariesAmong(app, {}) == {};
  }

  lemma EnterNext(app: App, names: set<string>, result: map<string, Endpoint>, origin: map<string, string>,
                  primary: nat, name: string)
    requires Entering(app, names, result, origin, primary) && name in names && ValidDNSLabel(name)
    requires ToLower(name) !in result
    ensures Entering(app, names - {name}, result[ToLower(name) := app.endpoints[name]], origin[ToLower(name) := name],
                     if app.endpoints[name].primary then primary + 1 else primary)
  {
    var done := app.endpoints.Keys - names;
    assert app.endpoints.Keys - (names - {name}) == done + {name};
    assert LowerMap(app)[name] == ToLower(name);
    EnterOne(app.endpoints, LowerMap(app), done, result, origin, name);
    CountOne(app, done, name);
  }

  ghost function PrimariesAmong(app: App, done: set<string>): set<string>
    requires done <= app.endpoints.Keys
  {
    set n | n in done && app.endpoints[n].primary
  }

  lemma CountOne(app: App, done: set<string>, name: string)
    requires done <= app.endpoints.Keys && name in app.endpoints && name !in done
    ensures |PrimariesAmong(app, done + {name})| ==
            |PrimariesAmong(app, done)| + if app.endpoints[name].primary then 1 else 0
  {
    var before, after := PrimariesAmong(app, done), PrimariesAmong(app, done + {name});
    assert after == if app.endpoints[name].primary then before + {name} else before;
  }

  ghost function LowerMap(app: App): map<string, string> { Tabulate(app.endpoints.Keys, n => ToLower(n)) }

  // The loop has entered the endpoints in done under their lower-case names; origin tells
  // which endpoint a lower-case name came from.
  ghost predicate Entered(endpoints: map<string, Endpoint>, lower: map<string, string>, done: set<string>,
                          result: map<string, Endpoint>, origin: map<string, string>) {
    && done <= endpoints.Keys == lower.Keys && |result| == |done| && origin.Keys == result.Keys
    && (forall n :: n in done ==> lower[n] in origin && origin[lower[n]] == n)
    && (forall k :: k in origin ==> origin[k] in done && lower[origin[k]] == k && result[k] == endpoints[origin[k]])
  }

  lemma EnterOne(endpoints: map<string, Endpoint>, lower: map<string, string>, done: set<string>,
                 result: map<string, Endpoint>, origin: map<string, string>, name: string)
    requires Entered(endpoints, lower, done, result, origin) && name in endpoints && name !in done
    requires lower[name] !in result
    ensures Entered(endpoints, lower, done + {name},
                    result[lower[name] := endpoints[name]], origin[lower[name] := name])
  {
    OneMoreKey(result, lower[name], endpoints[name]);
  }

  lemma OneMoreKey(m: map<string, Endpoint>, k: string, e: Endpoint)
    requires k !in m
    ensures |m[k := e]| == |m| + 1
  {
    assert m[k := e].Keys == m.Keys + {k};
    assert |m[k := e]| == |m[k := e].Keys| && |m| == |m.Keys|;
  }

  lemma NameClash(app: App, names: set<string>, result: map<string, Endpoint>, origin: map<string, string>,
                  primary: nat, name: string)
    requires Entering(app, names, result, origin, primary) && name in names && ToLower(name) in result
    ensures !NamesDiffer(app)
  {
    var other := origin[ToLower(name)];
    assert other in app.endpoints.Keys - names && LowerMap(app)[other] == ToLower(other);
  }

  lemma EnteredAll(app: App, result: map<string, Endpoint>, origin: map<string, string>, primary: nat)
    requires Entering(app, {}, result, origin, primary)
    ensures NamesOk(app) && |result| == |app.endpoints| && result.Keys == LowerNames(app) && primary == |Primaries(app)|
    ensures forall k :: k in result ==> result[k] == Named(app, k)
  {
    hide ToLower;
    var lower := LowerMap(app);
    assert app.endpoints.Keys - {} == app.endpoints.Keys && PrimariesAmong(app, app.endpoints.Keys) == Primaries(app);
    forall a, b | a in app.endpoints && b in app.endpoints && ToLower(a) == ToLower(b) ensures a == b {
      assert a == origin[lower[a]] && b == origin[lower[b]];
    }
    forall n | n in app.endpoints ensures ToLower(n) in result && result[ToLower(n)] == app.endpoints[n] {
      assert lower[n] in origin;
    }
  }

  lemma PromotedAll(app: App, result: map<string, Endpoint>)
    requires app.endpoints != map[] && |result| == |app.endpoints| && result.Keys == LowerNames(app)
    requires forall k :: k in result ==> result[k] == Named(app, k)
    ensures |result| != 1 || |Primaries(app)| == 1 ==> result == Inputs(app)
  {
    if |result| == 1 && |Primaries(app)| == 1 {
      SameSize(Primaries(app), app.endpoints.Keys);
      assert forall k :: k in result ==> result[k].primary;
    }
  }

  lemma PromotedLone(app: App, result: map<string, Endpoint>, name: string)
    requires |result| == |app.endpoints| == 1 && result.Keys == LowerNames(app) && name in result
    requires forall k :: k in result ==> result[k] == Named(app, k)
    ensures result[name := result[name].(primary := true)] == Inputs(app)
  {
    SameSize({name}, result.Keys);
  }

  // Every accepted app with endpoints has exactly one primary endpoint.
  ghost predicate OnlyPrimary(inputs: map<string, Endpoint>, p: string) {
    p in inputs && forall k :: k in inputs ==> (inputs[k].primary <==> k == p)
  }

  lemma OnePrimary(id: string, app: App) returns (p: string)
    requires InputsOk(id, app) && Inputs(app) != map[]
    ensures OnlyPrimary(Inputs(app), p)
  {
    if app.endpoints == map[] {
      p := "default";
    } else if |app.endpoints| == 1 {
      p := LonePrimary(app);
    } else {
      var n :| n in Primaries(app);
      p := ToLower(n);
      MarkedPrimary(app, n);
    }
  }

  lemma LoneKey(app: App) returns (n: string)
    requires |app.endpoints| == 1
    ensures app.endpoints.Keys == {n}
  {
    n :| n in app.endpoints;
    SameSize({n}, app.endpoints.Keys);
  }

  lemma LonePrimary(app: App) returns (p: string)
    requires |app.endpoints| == 1
    ensures OnlyPrimary(Inputs(app), p)
  {
    var n := LoneKey(app);
    p := ToLower(n);
    LoneName(app, n, p);
    PromotedIsPrimary(app);
  }

  lemma PromotedIsPrimary(app: App)
    requires |app.endpoints| == 1
    ensures Inputs(app).Keys == LowerNames(app) && forall k :: k in Inputs(app) ==> Inputs(app)[k].primary
  {}

  lemma LoneName(app: App, n: string, p: string)
    requires app.endpoints.Keys == {n} && p == ToLower(n)
    ensures LowerNames(app) == {p}
  {}

  lemma MarkedPrimary(app: App, n: string)
    requires NamesOk(app) && |app.endpoints| > 1 && |Primaries(app)| == 1 && n in Primaries(app)
    ensures OnlyPrimary(Inputs(app), ToLower(n))
  {
    SameSize({n}, Primaries(app));
    assert ToLower(n) in LowerNames(app);
    forall k | k in Inputs(app) ensures Inputs(app)[k].primary <==> k == ToLower(n) {
      var m := OriginOf(app, k);
      assert app.endpoints[m].primary <==> m in Primaries(app);
      assert m in Primaries(app) <==> m == n;
      assert ToLower(m) == ToLower(n) ==> m == n;
    }
  }

  lemma OriginOf(app: App, k: string) returns (n: string)
    requires NamesDiffer(app) && |app.endpoints| > 1 && k in Inputs(app)
    ensures n in app.endpoints && ToLower(n) == k && Inputs(app)[k] == app.endpoints[n]
  {
    n :| n in app.endpoints && ToLower(n) == k;
  }
}
