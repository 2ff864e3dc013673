// Config.Normalize of internal/config/config.go: every endpoint of every app, in any order,
// against four shared tables.

module Normalize {
  import opened Maps
  import opened Options
  import opened Text
  import opened Endpoints
  import EnvFile
  import Environment

  // Registering one endpoint ----------------------------------------------------------------

  ghost predicate NoDup(claims: seq<Claim>) { forall i, j :: 0 <= i < j < |claims| ==> claims[i] != claims[j] }

  predicate FreshHosts(hs: seq<string>, hosts: set<string>)
    requires 1 <= |hs| <= 2
  {
    hs[0] !in hosts && (|hs| == 2 ==> hs[1] !in hosts && hs[1] != hs[0])
  }

  predicate FreshRoute(r: RuntimeEndpoint, paths: set<string>, hosts: set<string>) {
    if r.host == "" then r.path !in paths else FreshHosts(HostsOf(r), hosts)
  }

  predicate TakenIn(paths: set<string>, hosts: set<string>, ports: set<int>, c: Claim) {
    match c
    case Port(n) => n in ports
    case Host(h) => h in hosts
    case Path(p) => p in paths
  }

  function Label(id: string, name: string, count: nat): string {
    if count > 1 || name != "default" then id + "." + name else id
  }

  class Tables {
    var paths: map<string, string>
    var hosts: map<string, string>
    var ports: map<int, string>
    var listenPorts: map<int, string>

    constructor ()
      ensures forall c :: !IsTaken(c)
    {
      paths, hosts, ports, listenPorts := map[], map[], map[], map[];
    }

    predicate IsTaken(c: Claim)
      reads this
    {
      TakenIn(paths.Keys, hosts.Keys, ports.Keys + listenPorts.Keys, c)
    }

    // The claims are all different and all free.
    ghost predicate Grantable(claims: seq<Claim>)
      reads this
    {
      NoDup(claims) && forall c :: c in claims ==> !IsTaken(c)
    }

    method RegisterHost(value: string, owner: string) returns (err: Option<Error>)
      modifies this`hosts
      ensures err.None? <==> value !in old(hosts)
      ensures err.None? ==> hosts == old(hosts)[value := owner]
    {
      if value in hosts { return Some(Taken(Host(value), hosts[value], owner)); }
      hosts := hosts[value := owner];
      err := None;
    }

    // The host of an endpoint, then its alias.
    method RegisterHosts(r: RuntimeEndpoint, host: string, aliases: seq<string>, owner: string)
      returns (s: Result<RuntimeEndpoint, Error>)
      requires |aliases| <= 1 && r.aliases == []
      modifies this`hosts
      ensures s.Ok? <==>
                && WithHost(r, host, aliases).Some?
                && FreshHosts(HostsOf(WithHost(r, host, aliases).value), old(hosts.Keys))
      ensures s.Ok? ==>
                && s.value == WithHost(r, host, aliases).value
                && hosts.Keys == old(hosts.Keys) + set h | h in HostsOf(s.value)
    {
      s := RegisterNames(r, HostName(host), if aliases == [] then [] else [HostName(aliases[0])], owner);
    }

    method RegisterNames(r: RuntimeEndpoint, host: Option<string>, aliases: seq<Option<string>>, owner: string)
      returns (s: Result<RuntimeEndpoint, Error>)
      requires |aliases| <= 1 && r.aliases == []
      modifies this`hosts
      ensures s.Ok? <==>
                && WithNames(r, host, aliases).Some?
                && FreshHosts(HostsOf(WithNames(r, host, aliases).value), old(hosts.Keys))
      ensures s.Ok? ==>
                && s.value == WithNames(r, host, aliases).value
                && hosts.Keys == old(hosts.Keys) + set h | h in HostsOf(s.value)
    {
      if host.None? { return Err(Unfit); }
      var err := RegisterHost(host.value, owner);
      if err.Some? { return Err(err.value); }
      if |aliases| == 0 {
        return Ok(r.(host := host.value));
      }
      var alias := aliases[0];
      if alias.None? { return Err(Unfit); }
      if !(r.protocol == GRPC && alias.value == host.value) {
        err := RegisterHost(alias.value, owner);
        if err.Some? { return Err(err.value); }
      }
      s := Ok(r.(host := host.value, aliases := [alias.value]));
    }

    method NormalizeHttp(id: string, name: string, e: Endpoint, pathText: string, hostText: string, owner: string)
      returns (r: Result<RuntimeEndpoint, Error>)
      modifies this`hosts, this`paths
      ensures var spec := Http(id, name, e, pathText, hostText);
        && (r.Ok? <==> spec.Some? && FreshRoute(spec.value, old(paths.Keys), old(hosts.Keys)))
        && (r.Ok? ==> r.value == spec.value && RouteEntered(r.value, old(paths.Keys), old(hosts.Keys)))
    {
      hide HostName;
      if e.listenPort != 0 { return Err(Unfit); }
      var path, host, aliases := pathText, hostText, [];
      if path == "" && host == "" {
        if e.primary {
          host := AppHost(id);
          var alias := EndpointHost(id, name);
          if alias != host { aliases := [alias]; }
        } else {
          host := EndpointHost(id, name);
        }
      }
      if (path == "") == (host == "") { return Err(Unfit); }
      var basic := Basic(name, e, HTTP);
      if host != "" {
        if e.includePrefix { return Err(Unfit); }
        assert e.primary && pathText == "" && hostText == "" ==> |EndpointHost(id, name)| > |AppHost(id)|;
        r := RegisterHosts(basic, host, aliases, owner);
      } else {
        if path[0] != '/' { return Err(Unfit); }
        if path != "/" { path := TrimSlashes(path); }
        if path in paths { return Err(Taken(Path(path), paths[path], owner)); }
        paths := paths[path := owner];
        r := Ok(basic.(path := path));
      }
    }

    method NormalizeGrpc(id: string, name: string, e: Endpoint, path: string, hostText: string, owner: string)
      returns (r: Result<RuntimeEndpoint, Error>)
      modifies this`hosts
      ensures var spec := Grpc(id, name, e, path, hostText);
        && (r.Ok? <==> spec.Some? && FreshRoute(spec.value, paths.Keys, old(hosts.Keys)))
        && (r.Ok? ==> r.value == spec.value && RouteEntered(r.value, paths.Keys, old(hosts.Keys)))
    {
      if e.listenPort != 0 { return Err(Unfit); }
      if path != "" || e.includePrefix { return Err(Unfit); }
      var host, aliases := hostText, [];
      if host == "" {
        if e.primary {
          host := AppHost(id);
          aliases := [EndpointHost(id, name)];
        } else {
          host := EndpointHost(id, name);
        }
      }
      r := RegisterHosts(Basic(name, e, GRPC), host, aliases, owner);
    }

    method NormalizeTcp(name: string, e: Endpoint, path: string, host: string, wrapper: int, owner: string)
      returns (r: Result<RuntimeEndpoint, Error>)
      modifies this`listenPorts
      ensures var spec := Endpoints.Tcp(name, e, path, host, wrapper);
        && (r.Ok? <==> spec.Some? && e.listenPort !in ports && e.listenPort !in old(listenPorts))
        && (r.Ok? ==> r.value == spec.value && listenPorts.Keys == old(listenPorts.Keys) + {e.listenPort})
    {
      if path != "" || host != "" || e.includePrefix { return Err(Unfit); }
      if e.listenPort < 1 || e.listenPort > 65535 { return Err(Unfit); }
      if e.listenPort == wrapper { return Err(Unfit); }
      if e.listenPort in ports { return Err(Taken(Port(e.listenPort), ports[e.listenPort], owner)); }
      if e.listenPort in listenPorts { return Err(Taken(Port(e.listenPort), listenPorts[e.listenPort], owner)); }
      listenPorts := listenPorts[e.listenPort := owner];
      r := Ok(Basic(name, e, TCP));
    }

    ghost predicate RouteEntered(r: RuntimeEndpoint, oldPaths: set<string>, oldHosts: set<string>)
      reads this`paths, this`hosts
    {
      if r.host == "" then paths.Keys == oldPaths + {r.path} && hosts.Keys == oldHosts
      else paths.Keys == oldPaths && hosts.Keys == oldHosts + set h | h in HostsOf(r)
    }

    method TakeHttp(id: string, name: string, e: Endpoint, path: string, host: string, owner: string)
      returns (r: Result<RuntimeEndpoint, Error>)
      modifies this`hosts, this`paths
      ensures var spec := Http(id, name, e, path, host);
        && (r.Ok? <==> spec.Some? && old(Grantable(RouteClaims(spec.value))))
        && (r.Ok? ==> r.value == spec.value && forall c :: IsTaken(c) <==> old(IsTaken(c)) || c in RouteClaims(r.value))
    {
      ghost var spec := Http(id, name, e, path, host);
      ghost var oldPaths, oldHosts, used := paths.Keys, hosts.Keys, ports.Keys + listenPorts.Keys;
      if spec.Some? { RouteIsFresh(spec.value, oldPaths, oldHosts, used); }
      r := NormalizeHttp(id, name, e, path, host, owner);
      if r.Ok? { RouteIsTaken(spec.value, oldPaths, oldHosts, used, paths.Keys, hosts.Keys); }
    }

    method TakeGrpc(id: string, name: string, e: Endpoint, path: string, host: string, owner: string)
      returns (r: Result<RuntimeEndpoint, Error>)
      modifies this`hosts
      ensures var spec := Grpc(id, name, e, path, host);
        && (r.Ok? <==> spec.Some? && old(Grantable(RouteClaims(spec.value))))
        && (r.Ok? ==> r.value == spec.value && forall c :: IsTaken(c) <==> old(IsTaken(c)) || c in RouteClaims(r.value))
    {
      ghost var spec, oldHosts, used := Grpc(id, name, e, path, host), hosts.Keys, ports.Keys + listenPorts.Keys;
      if spec.Some? { RouteIsFresh(spec.value, paths.Keys, oldHosts, used); }
      r := NormalizeGrpc(id, name, e, path, host, owner);
      if r.Ok? { RouteIsTaken(spec.value, paths.Keys, oldHosts, used, paths.Keys, hosts.Keys); }
    }

    method TakeTcp(name: string, e: Endpoint, path: string, host: string, wrapper: int, owner: string)
      returns (r: Result<RuntimeEndpoint, Error>)
      modifies this`listenPorts
      ensures var spec := Endpoints.Tcp(name, e, path, host, wrapper);
        && (r.Ok? <==> spec.Some? && old(Grantable(RouteClaims(spec.value))))
        && (r.Ok? ==> r.value == spec.value && forall c :: IsTaken(c) <==> old(IsTaken(c)) || c in RouteClaims(r.value))
    {
      ghost var spec := Endpoints.Tcp(name, e, path, host, wrapper);
      if spec.Some? { RouteClaimsMean(spec.value); }
      r := NormalizeTcp(name, e, path, host, wrapper, owner);
    }

    // The protocol's part of normalizeEndpoint.
    method NormalizeRoute(id: string, name: string, e: Endpoint, wrapper: int, protocol: string, path: string,
                          host: string, owner: string)
      returns (r: Result<RuntimeEndpoint, Error>)
      modifies this`hosts, this`paths, this`listenPorts
      ensures var spec := Routed(id, name, e, wrapper, protocol, path, host);
        && (r.Ok? <==> spec.Some? && old(Grantable(RouteClaims(spec.value))))
        && (r.Ok? ==> r.value == spec.value && forall c :: IsTaken(c) <==> old(IsTaken(c)) || c in RouteClaims(r.value))
    {
      if protocol == HTTP {
        r := TakeHttp(id, name, e, path, host, owner);
      } else if protocol == GRPC {
        r := TakeGrpc(id, name, e, path, host, owner);
      } else if protocol == TCP {
        r := TakeTcp(name, e, path, host, wrapper, owner);
      } else {
        return Err(Unfit);
      }
      if r.Ok? && e.grpcHealth && protocol != GRPC { return Err(Unfit); }
    }

    // An endpoint is accepted exactly when it is sound by itself and claims nothing twice
    // and nothing that is taken; then it has taken what it claims.
    method NormalizeEndpoint(id: string, name: string, e: Endpoint, count: nat, wrapper: int)
      returns (r: Result<RuntimeEndpoint, Error>)
      modifies this
      ensures var spec := Local(id, name, e, wrapper);
        && (r.Ok? <==> spec.Some? && old(Grantable(Claims(spec.value))))
        && (r.Ok? ==> r.value == spec.value && forall c :: IsTaken(c) <==> old(IsTaken(c)) || c in Claims(r.value))
    {
      r := NormalizePorts(id, name, e, wrapper, Protocol(e),
                          TrimSpace(e.path), TrimSpace(e.host), Label(id, name, count));
    }

    // The same behind the trimming of protocol, path and host.
    method NormalizePorts(id: string, name: string, e: Endpoint, wrapper: int, protocol: string, path: string,
                          host: string, owner: string)
      returns (r: Result<RuntimeEndpoint, Error>)
      modifies this
      ensures var spec := Ported(id, name, e, wrapper, protocol, path, host);
        && (r.Ok? <==> spec.Some? && old(Grantable(Claims(spec.value))))
        && (r.Ok? ==> r.value == spec.value && forall c :: IsTaken(c) <==> old(IsTaken(c)) || c in Claims(r.value))
    {
      ghost var spec := Routed(id, name, e, wrapper, protocol, path, host);
      if spec.Some? { ClaimsMean(spec.value); }
      if e.port < 1 || e.port > 65535 { return Err(Unfit); }
      if e.port == wrapper { return Err(Unfit); }
      if e.port in listenPorts { return Err(Taken(Port(e.port), listenPorts[e.port], owner)); }
      if e.port in ports { return Err(Taken(Port(e.port), ports[e.port], owner)); }
      ports := ports[e.port := owner];
      assert forall c :: IsTaken(c) <==> old(IsTaken(c)) || c == Port(e.port);
      r := NormalizeRoute(id, name, e, wrapper, protocol, path, host, owner);
    }
  }

  lemma RouteIsFresh(r: RuntimeEndpoint, paths: set<string>, hosts: set<string>, ports: set<int>)
    requires r.protocol != TCP
    ensures FreshRoute(r, paths, hosts) <==>
              NoDup(RouteClaims(r)) && forall c :: c in RouteClaims(r) ==> !TakenIn(paths, hosts, ports, c)
  {
    RouteClaimsMean(r);
  }

  lemma RouteIsTaken(r: RuntimeEndpoint, paths: set<string>, hosts: set<string>, ports: set<int>,
                     newPaths: set<string>, newHosts: set<string>)
    requires r.protocol != TCP
    requires newPaths == (if r.host == "" then paths + {r.path} else paths)
    requires newHosts == (if r.host == "" then hosts else hosts + set h | h in HostsOf(r))
    ensures forall c :: TakenIn(newPaths, newHosts, ports, c) <==>
              TakenIn(paths, hosts, ports, c) || c in RouteClaims(r)
  {
    RouteClaimsMean(r);
  }

  lemma RouteClaimsMean(r: RuntimeEndpoint)
    ensures r.protocol == TCP ==>
              RouteClaims(r) == [Port(r.listenPort)] && Port(r.listenPort) in RouteClaims(r) && NoDup(RouteClaims(r))
    ensures r.protocol != TCP && r.host == "" ==>
              RouteClaims(r) == [Path(r.path)] && Path(r.path) in RouteClaims(r) && NoDup(RouteClaims(r))
    ensures r.protocol != TCP && r.host != "" ==>
      && (forall c :: c in RouteClaims(r) <==> c.Host? && c.host in HostsOf(r))
      && (forall i :: 0 <= i < |HostsOf(r)| ==> Host(HostsOf(r)[i]) in RouteClaims(r))
      && (NoDup(RouteClaims(r)) <==> |HostsOf(r)| == 2 ==> HostsOf(r)[0] != HostsOf(r)[1])
  {
    if r.protocol != TCP && r.host != "" {
      var hs, cs := HostsOf(r), RouteClaims(r);
      assert forall i :: 0 <= i < |hs| ==> cs[i] == Host(hs[i]);
      forall c ensures c in cs <==> c.Host? && c.host in hs {
        if c.Host? && c.host in hs {
          var i :| 0 <= i < |hs| && hs[i] == c.host;
          assert cs[i] == c;
        }
      }
    }
  }

  lemma ClaimsMean(r: RuntimeEndpoint)
    ensures Port(r.port) in Claims(r) && forall c :: c in Claims(r) <==> c == Port(r.port) || c in RouteClaims(r)
    ensures NoDup(Claims(r)) <==> Port(r.port) !in RouteClaims(r) && NoDup(RouteClaims(r))
  {
    var cs, rest := Claims(r), RouteClaims(r);
    assert cs[0] == Port(r.port) && forall i :: 0 < i < |cs| ==> cs[i] == rest[i - 1];
    assert forall i :: 0 <= i < |rest| ==> rest[i] == cs[i + 1];
  }

  // The configuration -----------------------------------------------------------------------

  const SECOND := 1_000_000_000

  // A duration in nanoseconds, and whether the file gave it.
  datatype Duration = Duration(value: int, given: bool)

  // `inherited` is the environment of the process, which normalisation reads.
  datatype Config = Config(
    port: int, logLevel: string, idle: Duration, startTimeout: Duration, stopTimeout: Duration,
    inherited: Environment.Variables, apps: map<string, App>)

  datatype RuntimeApp = RuntimeApp(
    id: string, env: Environment.Variables, idle: int, primary: Option<RuntimeEndpoint>,
    endpoints: map<string, RuntimeEndpoint>)

  datatype Runtime = Runtime(port: int, logLevel: string, startTimeout: int, stopTimeout: int,
                             apps: map<string, RuntimeApp>)

  function OrElse(d: Duration, value: int): Duration { if !d.given && d.value == 0 then d.(value := value) else d }

  function WithDefaults(c: Config): Config {
    c.(
      port := if c.port == 0 then 3000 else c.port,
      logLevel := if c.logLevel == "" then "info" else c.logLevel,
      idle := OrElse(c.idle, 30 * 60 * SECOND),
      startTimeout := OrElse(c.startTimeout, 30 * SECOND),
      stopTimeout := OrElse(c.stopTimeout, 10 * SECOND))
  }

  predicate GlobalsOk(c: Config) {
    && ValidPort(c.port)
    && c.logLevel in ["debug", "info", "warning", "warn", "error"]
    && c.idle.value > 0 && c.startTimeout.value > 0 && c.stopTimeout.value > 0
  }

  function IdleOf(c: Config, app: App): int { if app.idle.Some? then app.idle.value else c.idle.value }

  // What an app needs besides sound endpoints.
  ghost predicate AppOk(c: Config, id: string)
    requires id in c.apps
  {
    var app := c.apps[id];
    && TrimSpace(app.launch) != "" && InputsOk(id, app) && app.pwd != "" && app.directory && IdleOf(c, app) >= 0
    && EnvFile.ValidEnvironment(app.env) && EnvironmentOf(app, c.inherited).Some?
  }

  // The environment of an app, if its files and templates can be resolved to a valid one.
  ghost function EnvironmentOf(app: App, inherited: Environment.Variables): Option<Environment.Variables> {
    var r := Environment.Resolved(Environment.Parsed(app.envFiles), inherited, app.env);
    if r.Some? && EnvFile.ValidEnvironment(r.value) then r else None
  }

  // The endpoints of all apps by app and name, each by itself.
  type Key = (string, string)
  type Specs = map<Key, Option<RuntimeEndpoint>>

  ghost function AllKeys(c: Config): set<Key> {
    set id, name | id in c.apps && name in Inputs(c.apps[id]) :: (id, name)
  }

  ghost function SpecsOf(c: Config): (specs: Specs)
    ensures specs.Keys == AllKeys(c)
    ensures forall k :: k in specs ==> specs[k] == Local(k.0, k.1, Inputs(c.apps[k.0])[k.1], c.port)
  {
    Tabulate(AllKeys(c), (k: Key) requires k.0 in c.apps && k.1 in Inputs(c.apps[k.0]) =>
      Local(k.0, k.1, Inputs(c.apps[k.0])[k.1], c.port))
  }

  // These endpoints are all sound, and no claim is made twice among them.
  ghost predicate Compatible(specs: Specs, keys: set<Key>) {
    && (forall k :: k in keys ==> k in specs && specs[k].Some? && NoDup(Claims(specs[k].value)))
    && (forall k, l :: k in keys && l in keys && k != l ==> Disjoint(Claims(specs[k].value), Claims(specs[l].value)))
  }

  ghost predicate Disjoint(a: seq<Claim>, b: seq<Claim>) { forall c :: c in a ==> c !in b }

  // A configuration is accepted exactly when its globals and its apps are in order and no two
  // endpoints claim the same port, host or path.  No order of apps or endpoints occurs here.
  ghost predicate Accepted(c: Config) {
    && GlobalsOk(c)
    && (forall id :: id in c.apps ==> AppOk(c, id))
    && Compatible(SpecsOf(c), SpecsOf(c).Keys)
  }

  ghost predicate InUse(specs: Specs, keys: set<Key>, c: Claim) {
    exists k :: k in keys && k in specs && specs[k].Some? && c in Claims(specs[k].value)
  }

  ghost predicate Holds(tables: Tables, specs: Specs, done: set<Key>)
    reads tables
  {
    forall c :: tables.IsTaken(c) <==> InUse(specs, done, c)
  }

  lemma OneMore(specs: Specs, done: set<Key>, k: Key)
    requires Compatible(specs, done) && k in specs && k !in done && specs[k].Some?
    ensures Compatible(specs, done + {k}) <==>
      NoDup(Claims(specs[k].value)) && forall c :: c in Claims(specs[k].value) ==> !InUse(specs, done, c)
    ensures forall c :: InUse(specs, done + {k}, c) <==> InUse(specs, done, c) || c in Claims(specs[k].value)
  {
    var claims := Claims(specs[k].value);
    assert k in done + {k};
    if Compatible(specs, done + {k}) {
      forall c | c in claims ensures !InUse(specs, done, c) {
        forall l | l in done ensures c !in Claims(specs[l].value) {
          assert Disjoint(claims, Claims(specs[l].value));
        }
      }
    }
    if NoDup(claims) && forall c :: c in claims ==> !InUse(specs, done, c) {
      forall l | l in done
        ensures Disjoint(claims, Claims(specs[l].value)) && Disjoint(Claims(specs[l].value), claims)
      {}
    }
  }

  lemma FewerAreCompatible(specs: Specs, few: set<Key>, many: set<Key>)
    requires few <= many && Compatible(specs, many)
    ensures Compatible(specs, few)
  {}

  // One endpoint against the tables.
  method TakeOne(tables: Tables, id: string, name: string, e: Endpoint, count: nat, wrapper: int,
                 ghost specs: Specs, ghost done: set<Key>)
    returns (r: Result<RuntimeEndpoint, Error>)
    requires Holds(tables, specs, done) && Compatible(specs, done)
    requires (id, name) in specs && (id, name) !in done && specs[(id, name)] == Local(id, name, e, wrapper)
    modifies tables
    ensures r.Ok? <==> Compatible(specs, done + {(id, name)})
    ensures r.Ok? ==> specs[(id, name)] == Some(r.value) && Holds(tables, specs, done + {(id, name)})
  {
    ghost var k := (id, name);
    if specs[k].Some? { OneMore(specs, done, k); }
    r := tables.NormalizeEndpoint(id, name, e, count, wrapper);
    assert k in done + {k};
  }

  ghost function KeysOf(specs: Specs, id: string): set<Key> { set k | k in specs && k.0 == id }

  ghost function Pairs(id: string, names: set<string>): set<Key> { set name | name in names :: (id, name) }

  // The endpoints of one app are those of specs.
  ghost predicate Given(specs: Specs, id: string, inputs: map<string, Endpoint>, wrapper: int) {
    forall name :: name in inputs ==> SpecOf(specs, id, name, inputs[name], wrapper)
  }

  ghost predicate SpecOf(specs: Specs, id: string, name: string, e: Endpoint, wrapper: int) {
    (id, name) in specs && specs[(id, name)] == Local(id, name, e, wrapper)
  }

  ghost predicate Chosen(specs: Specs, id: string, endpoints: map<string, RuntimeEndpoint>) {
    forall name :: name in endpoints ==> (id, name) in specs && specs[(id, name)] == Some(endpoints[name])
  }

  // All endpoints of the app but names have been taken.
  ghost predicate Taking(tables: Tables, specs: Specs, done: set<Key>, id: string, inputs: map<string, Endpoint>,
                         names: set<string>,
                         result: map<string, RuntimeEndpoint>)
    reads tables
  {
    && names <= inputs.Keys && result.Keys == inputs.Keys - names && Chosen(specs, id, result)
    && Holds(tables, specs, done + Pairs(id, inputs.Keys - names))
    && Compatible(specs, done + Pairs(id, inputs.Keys - names))
  }

  // The loop over the endpoints of an app, in any order.
  method NormalizeEndpoints(tables: Tables, id: string, inputs: map<string, Endpoint>, wrapper: int,
                            ghost specs: Specs, ghost done: set<Key>)
    returns (r: Result<map<string, RuntimeEndpoint>, Error>)
    requires Holds(tables, specs, done) && Compatible(specs, done) && Given(specs, id, inputs, wrapper)
    requires forall k :: k in done ==> k.0 != id
    modifies tables
    ensures r.Ok? <==> Compatible(specs, done + Pairs(id, inputs.Keys))
    ensures r.Ok? ==> Holds(tables, specs, done + Pairs(id, inputs.Keys))
    ensures r.Ok? ==> r.value.Keys == inputs.Keys && Chosen(specs, id, r.value)
  {
    hide Compatible, Holds, Local;
    var result: map<string, RuntimeEndpoint> := map[];
    var names := inputs.Keys;
    assert done + Pairs(id, inputs.Keys - names) == done;
    while names != {}
      invariant Taking(tables, specs, done, id, inputs, names, result)
      decreases |names|
    {
      var name :| name in names;
      var e := TakeNext(tables, id, inputs, wrapper, specs, done, names, result, name);
      if e.Err? { return Err(e.error); }
      result := result[name := e.value];
      names := names - {name};
    }
    assert inputs.Keys - {} == inputs.Keys;
    r := Ok(result);
  }

  method TakeNext(tables: Tables, id: string, inputs: map<string, Endpoint>, wrapper: int, ghost specs: Specs,
                  ghost done: set<Key>,
                  ghost names: set<string>, ghost result: map<string, RuntimeEndpoint>, name: string)
    returns (r: Result<RuntimeEndpoint, Error>)
    requires Taking(tables, specs, done, id, inputs, names, result) && name in names
    requires Given(specs, id, inputs, wrapper) && forall k :: k in done ==> k.0 != id
    modifies tables
    ensures r.Ok? ==> Taking(tables, specs, done, id, inputs, names - {name}, result[name := r.value])
    ensures r.Err? ==> !Compatible(specs, done + Pairs(id, inputs.Keys))
  {
    hide Compatible, Holds, Local;
    ghost var taken := done + Pairs(id, inputs.Keys - names);
    NextPair(id, inputs.Keys, names, done, name);
    assert SpecOf(specs, id, name, inputs[name], wrapper);
    r := TakeOne(tables, id, name, inputs[name], |inputs|, wrapper, specs, taken);
    if r.Err? {
      if Compatible(specs, done + Pairs(id, inputs.Keys)) {
        FewerAreCompatible(specs, taken + {(id, name)}, done + Pairs(id, inputs.Keys));
      }
    }
  }

  lemma NextPair(id: string, all: set<string>, names: set<string>, done: set<Key>, name: string)
    requires names <= all && name in names && forall k :: k in done ==> k.0 != id
    ensures (id, name) !in done + Pairs(id, all - names)
    ensures done + Pairs(id, all - names) + {(id, name)} == done + Pairs(id, all - (names - {name}))
    ensures done + Pairs(id, all - names) + {(id, name)} <= done + Pairs(id, all)
  {
    assert all - (names - {name}) == (all - names) + {name};
  }

  // The loop that copies the primary endpoint to its app.
  method PickPrimary(endpoints: map<string, RuntimeEndpoint>) returns (r: Option<RuntimeEndpoint>)
    ensures r.Some? ==> Offers(endpoints, r.value) && r.value.primary
    ensures r.None? ==> forall name :: name in endpoints ==> !endpoints[name].primary
  {
    var names := endpoints.Keys;
    while names != {}
      invariant names <= endpoints.Keys && forall name :: name in endpoints.Keys - names ==> !endpoints[name].primary
      decreases |names|
    {
      var name :| name in names;
      if endpoints[name].primary { return Some(endpoints[name]); }
      names := names - {name};
    }
    r := None;
  }

  // What an app becomes: its endpoints each by itself, and the only primary one picked out.
  ghost predicate AppOf(c: Config, specs: Specs, id: string, a: RuntimeApp)
    requires id in c.apps
  {
    && a.id == id && a.idle == IdleOf(c, c.apps[id]) && EnvironmentOf(c.apps[id], c.inherited) == Some(a.env)
    && a.endpoints.Keys == Inputs(c.apps[id]).Keys && Chosen(specs, id, a.endpoints)
    && (a.primary.None? <==> a.endpoints == map[])
    && (a.primary.Some? ==> Offers(a.endpoints, a.primary.value))
    && forall name :: name in a.endpoints ==> (a.endpoints[name].primary <==> a.primary == Some(a.endpoints[name]))
  }

  ghost predicate Offers(endpoints: map<string, RuntimeEndpoint>, e: RuntimeEndpoint) {
    exists name :: name in endpoints && endpoints[name] == e
  }

  lemma SpecsGiven(c: Config, id: string)
    requires id in c.apps
    ensures Given(SpecsOf(c), id, Inputs(c.apps[id]), c.port)
    ensures KeysOf(SpecsOf(c), id) == Pairs(id, Inputs(c.apps[id]).Keys)
  {
    var specs, inputs := SpecsOf(c), Inputs(c.apps[id]);
    forall name | name in inputs ensures SpecOf(specs, id, name, inputs[name], c.port) {
      assert (id, name) in specs;
    }
  }

  lemma PrimaryPicked(c: Config, id: string, specs: Specs, endpoints: map<string, RuntimeEndpoint>,
                      primary: Option<RuntimeEndpoint>)
    requires id in c.apps && InputsOk(id, c.apps[id]) && Given(specs, id, Inputs(c.apps[id]), c.port)
    requires endpoints.Keys == Inputs(c.apps[id]).Keys && Chosen(specs, id, endpoints)
    requires primary.Some? ==> Offers(endpoints, primary.value) && primary.value.primary
    requires primary.None? ==> forall name :: name in endpoints ==> !endpoints[name].primary
    ensures primary.None? <==> endpoints == map[]
    ensures forall name :: name in endpoints ==> (endpoints[name].primary <==> primary == Some(endpoints[name]))
  {
    var inputs := Inputs(c.apps[id]);
    if inputs != map[] {
      var p := OnePrimary(id, c.apps[id]);
      forall name | name in endpoints ensures endpoints[name].primary <==> name == p {
        assert SpecOf(specs, id, name, inputs[name], c.port);
      }
    }
  }

  method ResolveApp(app: App, inherited: Environment.Variables) returns (r: Option<Environment.Variables>)
    ensures r == EnvironmentOf(app, inherited)
  {
    var env := Environment.ResolveEnvironment(app.envFiles, inherited, app.env);
    r := if env.Ok? then Some(env.value) else None;
  }

  // The body of the loop over the apps.
  method NormalizeApp(tables: Tables, c: Config, id: string, ghost specs: Specs, ghost done: set<Key>)
    returns (r: Result<RuntimeApp, Error>)
    requires id in c.apps && specs == SpecsOf(c)
    requires Holds(tables, specs, done) && Compatible(specs, done) && forall k :: k in done ==> k.0 != id
    modifies tables
    ensures r.Ok? <==> AppOk(c, id) && Compatible(specs, done + KeysOf(specs, id))
    ensures r.Ok? ==> Holds(tables, specs, done + KeysOf(specs, id)) && AppOf(c, specs, id, r.value)
  {
    hide Compatible, Holds, Local, InputsOk, Inputs, TrimSpace, EnvFile.ValidEnvironment, EnvironmentOf;
    var app := c.apps[id];
    SpecsGiven(c, id);
    if TrimSpace(app.launch) == "" { return Err(Unfit); }
    var inputs := AppEndpointInputs(id, app);
    if inputs.Err? { return Err(inputs.error); }
    var endpoints := NormalizeEndpoints(tables, id, inputs.value, c.port, specs, done);
    if endpoints.Err? { return Err(endpoints.error); }
    if !EnvFile.ValidEnvironment(app.env) { return Err(Unfit); }
    if app.pwd == "" { return Err(Unfit); }
    if !app.directory { return Err(Unfit); }
    var env := ResolveApp(app, c.inherited);
    if env.None? { return Err(Unfit); }
    var idle := c.idle.value;
    if app.idle.Some? { idle := app.idle.value; }
    if idle < 0 { return Err(Unfit); }
    var primary := PickPrimary(endpoints.value);
    PrimaryPicked(c, id, specs, endpoints.value, primary);
    r := Ok(RuntimeApp(id, env.value, idle, primary, endpoints.value));
  }

  ghost predicate RuntimeOf(c: Config, r: Runtime) {
    && r.port == c.port && r.logLevel == c.logLevel
    && r.startTimeout == c.startTimeout.value && r.stopTimeout == c.stopTimeout.value
    && r.apps.Keys == c.apps.Keys && forall id :: id in c.apps ==> AppOf(c, SpecsOf(c), id, r.apps[id])
  }

  // So two normalisations of one configuration, in whatever orders, have one result.
  lemma OrderDoesNotShow(c: Config, r: Runtime, s: Runtime)
    requires RuntimeOf(c, r) && RuntimeOf(c, s)
    ensures r == s
  {
    forall id | id in c.apps ensures r.apps[id] == s.apps[id] { SameApp(c, SpecsOf(c), id, r.apps[id], s.apps[id]); }
    assert r.apps == s.apps;
  }

  lemma SameApp(c: Config, specs: Specs, id: string, a: RuntimeApp, b: RuntimeApp)
    requires id in c.apps && AppOf(c, specs, id, a) && AppOf(c, specs, id, b)
    ensures a == b
  {
    assert a.endpoints == b.endpoints by {
      forall name | name in a.endpoints ensures a.endpoints[name] == b.endpoints[name] {
        assert specs[(id, name)] == Some(a.endpoints[name]);
      }
    }
    if a.primary.Some? {
      var name :| name in a.endpoints && a.endpoints[name] == a.primary.value;
      assert a.endpoints[name].primary;
    }
  }

  // A service of an accepted configuration is given the names of its environment files and of
  // its inline entries and no others; inline entries, interpolated against the inherited
  // variables and the files, win over files, and later files over earlier ones.
  lemma ServiceEnvironment(c: Config, r: Runtime, id: string, k: string)
    requires RuntimeOf(c, r) && id in c.apps
    ensures var env, app := r.apps[id].env, c.apps[id];
      var tables := Environment.Parsed(app.envFiles);
      && EnvFile.ValidEnvironment(env)
      && (k in env <==> k in app.env || exists i: nat :: Environment.SetBy(tables, i, k))
      && Environment.Merged(tables, 0, c.inherited).Ok?
      && (k in app.env ==>
            Environment.Fill(app.env, Environment.Merged(tables, 0, c.inherited).value)[k] == Ok(env[k]))
      && (k !in app.env ==> forall i: nat :: Environment.LastSetBy(tables, i, k) ==> env[k] == tables[i].value[k])
  {
    Environment.ResolvedMeans(Environment.Parsed(c.apps[id].envFiles), c.inherited, c.apps[id].env, k);
  }

  // Normalize: whatever the order of its loops, it accepts exactly the configurations
  // described by Accepted.
  method Normalize(config: Config) returns (r: Result<Runtime, Error>)
    ensures r.Ok? <==> Accepted(WithDefaults(config))
    ensures r.Ok? ==> RuntimeOf(WithDefaults(config), r.value)
  {
    var c := WithDefaults(config);
    if !ValidPort(c.port) { return Err(Unfit); }
    if c.logLevel !in ["debug", "info", "warning", "warn", "error"] { return Err(Unfit); }
    if c.idle.value <= 0 || c.startTimeout.value <= 0 || c.stopTimeout.value <= 0 { return Err(Unfit); }
    var apps := NormalizeApps(c, SpecsOf(c));
    if apps.Err? { return Err(apps.error); }
    r := Ok(Runtime(c.port, c.logLevel, c.startTimeout.value, c.stopTimeout.value, apps.value));
  }

  ghost function KeysWithout(specs: Specs, ids: set<string>): set<Key> { set k | k in specs && k.0 !in ids }

  // All apps but ids have been normalised.
  ghost predicate Normalizing(tables: Tables, c: Config, specs: Specs, ids: set<string>,
                              result: map<string, RuntimeApp>)
    reads tables
  {
    && ids <= c.apps.Keys && result.Keys == c.apps.Keys - ids
    && (forall id :: id in result ==> AppOk(c, id) && AppOf(c, specs, id, result[id]))
    && Holds(tables, specs, KeysWithout(specs, ids)) && Compatible(specs, KeysWithout(specs, ids))
  }

  // The loop over the apps, in any order.
  method NormalizeApps(c: Config, ghost specs: Specs) returns (r: Result<map<string, RuntimeApp>, Error>)
    requires specs == SpecsOf(c)
    ensures r.Ok? <==> (forall id :: id in c.apps ==> AppOk(c, id)) && Compatible(specs, specs.Keys)
    ensures r.Ok? ==> r.value.Keys == c.apps.Keys && forall id :: id in c.apps ==> AppOf(c, specs, id, r.value[id])
  {
    hide Compatible, Normalizing, AppOk, AppOf, SpecsOf;
    var tables := new Tables();
    var result: map<string, RuntimeApp> := map[];
    var ids := c.apps.Keys;
    NoneDone(tables, c, specs);
    while ids != {}
      invariant Normalizing(tables, c, specs, ids, result) && ids <= c.apps.Keys && fresh(tables)
      decreases |ids|
    {
      var id :| id in ids;
      var app := NormalizeNext(tables, c, specs, ids, result, id);
      if app.Err? { return Err(app.error); }
      result := result[id := app.value];
      ids := ids - {id};
    }
    AllDone(tables, c, specs, result);
    r := Ok(result);
  }

  method NormalizeNext(tables: Tables, c: Config, ghost specs: Specs, ghost ids: set<string>,
                       ghost result: map<string, RuntimeApp>, id: string)
    returns (r: Result<RuntimeApp, Error>)
    requires specs == SpecsOf(c) && Normalizing(tables, c, specs, ids, result) && id in ids
    modifies tables
    ensures r.Ok? ==> Normalizing(tables, c, specs, ids - {id}, result[id := r.value])
    ensures r.Err? ==> !AppOk(c, id) || !Compatible(specs, specs.Keys)
  {
    hide Compatible, Holds, Local, AppOk, AppOf;
    OneAppMore(specs, ids, id);
    r := NormalizeApp(tables, c, id, specs, KeysWithout(specs, ids));
    if r.Err? && Compatible(specs, specs.Keys) {
      FewerAreCompatible(specs, KeysWithout(specs, ids) + KeysOf(specs, id), specs.Keys);
    }
  }

  lemma NoneDone(tables: Tables, c: Config, specs: Specs)
    requires specs == SpecsOf(c) && forall x :: !tables.IsTaken(x)
    ensures Normalizing(tables, c, specs, c.apps.Keys, map[])
  {
    assert KeysWithout(specs, c.apps.Keys) == {};
  }

  lemma AllDone(tables: Tables, c: Config, specs: Specs, result: map<string, RuntimeApp>)
    requires Normalizing(tables, c, specs, {}, result)
    ensures (forall id :: id in c.apps ==> AppOk(c, id)) && Compatible(specs, specs.Keys)
    ensures result.Keys == c.apps.Keys && forall id :: id in c.apps ==> AppOf(c, specs, id, result[id])
  {
    hide Compatible, Holds, AppOk, AppOf;
    assert KeysWithout(specs, {}) == specs.Keys;
  }

  lemma OneAppMore(specs: Specs, ids: set<string>, id: string)
    requires id in ids
    ensures KeysWithout(specs, ids) + KeysOf(specs, id) == KeysWithout(specs, ids - {id})
    ensures KeysWithout(specs, ids) + KeysOf(specs, id) <= specs.Keys
  {}
}
