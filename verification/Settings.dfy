// What the settings of a configuration become, field by field, in the terms of the file alone.

module Settings {
  import opened Options
  import opened Text
  import opened Endpoints
  import opened Normalize
  import EnvFile
  import Environment

  // One endpoint ----------------------------------------------------------------------------

  function Kind(protocol: string): string {
    if TrimSpace(protocol) == "" then "http" else ToLower(TrimSpace(protocol))
  }

  // Something is left without the white space around it, and nothing in it belongs to a URL.
  predicate Usable(host: string) { Bare(TrimSpace(host)) }

  predicate Bare(host: string) { host != "" && forall i :: 0 <= i < |host| ==> host[i] !in " /\\@:" }

  predicate Rooted(path: string) { path != "" && path[0] == '/' }

  predicate Lazy(e: Endpoint) {
    Kind(e.protocol) != "tcp" && TrimSpace(e.path) == "" && TrimSpace(e.host) == ""
  }

  // An endpoint that can stand by itself.
  predicate Sound(id: string, name: string, e: Endpoint, wrapper: int) {
    var kind, path, host := Kind(e.protocol), TrimSpace(e.path), TrimSpace(e.host);
    && 1 <= e.port <= 65535 && e.port != wrapper
    && (kind == "http" || kind == "grpc" || kind == "tcp")
    && (kind == "tcp" ==> 1 <= e.listenPort <= 65535 && e.listenPort != wrapper)
    && (e.listenPort != 0 ==> kind == "tcp")
    && (e.grpcHealth ==> kind == "grpc")
    && (e.includePrefix ==> kind == "http" && path != "")
    && (path != "" ==> kind == "http" && host == "" && Rooted(path))
    && (host != "" ==> kind != "tcp" && Usable(host))
    && (Lazy(e) && e.primary ==> Usable(id + ".localhost"))
    && (Lazy(e) ==> Usable(name + "." + id + ".localhost"))
  }

  // The path without the slashes at its end, but for the root.
  predicate Stripped(path: string, p: string) {
    if path == "/" then p == "/"
    else p <= path && (p == "" || p[|p| - 1] != '/') && forall i :: |p| <= i < |path| ==> path[i] == '/'
  }

  // What is taken over, what is put in lower case, and what is made up.
  predicate Becomes(id: string, name: string, e: Endpoint, x: RuntimeEndpoint) {
    && x.name == name && x.protocol == Kind(e.protocol)
    && x.port == e.port && x.listenPort == e.listenPort
    && x.includePrefix == e.includePrefix && x.grpcHealth == e.grpcHealth && x.primary == e.primary
    && (TrimSpace(e.path) != "" ==> x.host == "" && x.aliases == [] && Stripped(TrimSpace(e.path), x.path))
    && (TrimSpace(e.path) == "" ==> x.path == "")
    && (TrimSpace(e.host) != "" ==> x.host == ToLower(TrimSpace(e.host)) && x.aliases == [])
    && (Lazy(e) ==>
          var app, own := ToLower(TrimSpace(id + ".localhost")), ToLower(TrimSpace(name + "." + id + ".localhost"));
          if e.primary then x.host == app && x.aliases == [own] else x.host == own && x.aliases == [])
    && (x.protocol == "tcp" ==> x.host == "" && x.aliases == [])
  }

  lemma HostNameMeans(host: string)
    ensures HostName(host) == if Usable(host) then Some(ToLower(TrimSpace(host))) else None
  {
    hide TrimSpace, ToLower, HostChar;
    var h := TrimSpace(host);
    forall i | 0 <= i < |h| ensures HostChar(h[i]) <==> h[i] !in " /\\@:" { HostCharMeans(h[i]); }
  }

  lemma HostCharMeans(c: char)
    ensures HostChar(c) <==> c !in " /\\@:"
  {}

  // By itself an endpoint is accepted exactly if it is sound.
  lemma SoundIff(id: string, name: string, e: Endpoint, wrapper: int)
    ensures Local(id, name, e, wrapper).Some? <==> Sound(id, name, e, wrapper)
  {
    hide TrimSpace, ToLower, HostName, Usable;
    TrimTrimmed(TrimSpace(e.host));
    HostNameMeans(TrimSpace(e.host));
    HostNameMeans(id + ".localhost");
    HostNameMeans(name + "." + id + ".localhost");
  }

  lemma LocalBecomes(id: string, name: string, e: Endpoint, wrapper: int)
    requires Local(id, name, e, wrapper).Some?
    ensures Becomes(id, name, e, Local(id, name, e, wrapper).value)
  {
    hide TrimSpace, ToLower, HostName, Usable, Becomes, Http, Grpc, Tcp;
    var path, host := TrimSpace(e.path), TrimSpace(e.host);
    TrimTrimmed(host);
    HostNameMeans(host);
    HostNameMeans(id + ".localhost");
    HostNameMeans(name + "." + id + ".localhost");
    if Protocol(e) == HTTP {
      HttpBecomes(id, name, e, path, host);
    } else if Protocol(e) == GRPC {
      GrpcBecomes(id, name, e, path, host);
    } else {
      TcpBecomes(id, name, e, path, host, wrapper);
    }
  }

  // What the names of an endpoint are taken to be.
  predicate NamesKnown(id: string, name: string, e: Endpoint) {
    var host, app, own := TrimSpace(e.host), id + ".localhost", name + "." + id + ".localhost";
    && (HostName(host).Some? ==> HostName(host).value == ToLower(host))
    && (HostName(app).Some? ==> HostName(app).value == ToLower(TrimSpace(app)))
    && (HostName(own).Some? ==> HostName(own).value == ToLower(TrimSpace(own)))
  }

  lemma HttpBecomes(id: string, name: string, e: Endpoint, path: string, host: string)
    requires path == TrimSpace(e.path) && host == TrimSpace(e.host) && NamesKnown(id, name, e)
    requires Protocol(e) == HTTP && Http(id, name, e, path, host).Some?
    ensures Becomes(id, name, e, Http(id, name, e, path, host).value)
  {
    hide TrimSpace, ToLower, HostName;
  }

  lemma GrpcBecomes(id: string, name: string, e: Endpoint, path: string, host: string)
    requires path == TrimSpace(e.path) && host == TrimSpace(e.host) && NamesKnown(id, name, e)
    requires Protocol(e) == GRPC && Grpc(id, name, e, path, host).Some?
    ensures Becomes(id, name, e, Grpc(id, name, e, path, host).value)
  {
    hide TrimSpace, ToLower, HostName;
  }

  lemma TcpBecomes(id: string, name: string, e: Endpoint, path: string, host: string, wrapper: int)
    requires path == TrimSpace(e.path) && host == TrimSpace(e.host)
    requires Protocol(e) == TCP && Tcp(name, e, path, host, wrapper).Some?
    ensures Becomes(id, name, e, Tcp(name, e, path, host, wrapper).value)
  {
    hide TrimSpace, ToLower, HostName;
  }

  // A label has letters and digits at its ends, and hyphens too in between, and is not too long.
  lemma LabelMeans(first: char, middle: string, last: char)
    ensures !ValidDNSLabel("") && (ValidDNSLabel([first]) <==> Alphanumeric(first))
    ensures ValidDNSLabel([first] + middle + [last]) <==>
              && |middle| <= 61 && Alphanumeric(first) && Alphanumeric(last)
              && forall i :: 0 <= i < |middle| ==> Alphanumeric(middle[i]) || middle[i] == '-'
  {
    var s := [first] + middle + [last];
    assert s[0] == first && s[|s| - 1] == last && forall i :: 0 <= i < |middle| ==> s[i + 1] == middle[i];
    if forall i :: 0 <= i < |middle| ==> Alphanumeric(middle[i]) || middle[i] == '-' {
      forall i | 0 < i < |s| - 1 ensures LabelChar(s[i]) { assert s[i] == middle[i - 1]; }
    } else {
      var i :| 0 <= i < |middle| && !(Alphanumeric(middle[i]) || middle[i] == '-');
      assert !LabelChar(s[i + 1]);
    }
  }

  predicate Alphanumeric(c: char) { '0' <= c <= '9' || 'A' <= c <= 'Z' || 'a' <= c <= 'z' }

  // The endpoints of an app -----------------------------------------------------------------

  // An app without a table of endpoints has the one its own fields describe, if they give a port.
  lemma SingleInput(id: string, app: App)
    requires app.endpoints == map[]
    ensures InputsOk(id, app) <==>
              app.single.port == 0 ==> app.single == Endpoint(0, "", "", "", 0, false, false, app.single.primary)
    ensures Inputs(app) ==
            if app.single.port == 0 then map[] else map["default" := app.single.(primary := true)]
  {}

  // Otherwise each has its lower-case name, and is as it was written, but that a lone one is primary.
  lemma NamedInput(id: string, app: App, n: string)
    requires InputsOk(id, app) && n in app.endpoints
    ensures app.single == Endpoint(0, "", "", "", 0, false, false, app.single.primary)
    ensures ToLower(n) in Inputs(app)
    ensures Inputs(app)[ToLower(n)] ==
            if |app.endpoints| == 1 then app.endpoints[n].(primary := true) else app.endpoints[n]
  {
    assert ToLower(n) in LowerNames(app);
    assert Named(app, ToLower(n)) == app.endpoints[n];
  }

  lemma OnlyNamedInputs(id: string, app: App, k: string) returns (n: string)
    requires InputsOk(id, app) && app.endpoints != map[] && k in Inputs(app)
    ensures n in app.endpoints && ToLower(n) == k
  {
    assert k in LowerNames(app);
    n :| n in app.endpoints && ToLower(n) == k;
  }

  // A configuration -------------------------------------------------------------------------

  // What Normalize gives for an endpoint of an accepted configuration.
  lemma EndpointSettings(config: Config, r: Runtime, id: string, name: string)
    requires RuntimeOf(WithDefaults(config), r) && id in config.apps && name in Inputs(config.apps[id])
    ensures id in r.apps && name in r.apps[id].endpoints
    ensures Sound(id, name, Inputs(config.apps[id])[name], r.port)
    ensures Becomes(id, name, Inputs(config.apps[id])[name], r.apps[id].endpoints[name])
  {
    hide Sound, Becomes, Local, Inputs;
    var c, e := WithDefaults(config), Inputs(config.apps[id])[name];
    assert AppOf(c, SpecsOf(c), id, r.apps[id]);
    assert (id, name) in SpecsOf(c) && SpecsOf(c)[(id, name)] == Local(id, name, e, c.port);
    SoundIff(id, name, e, c.port);
    LocalBecomes(id, name, e, c.port);
  }

  // A duration is positive, or zero because the file does not give it.
  predicate Timed(d: Duration) { d.value > 0 || (d.value == 0 && !d.given) }

  // The settings of the whole are in order exactly if the port, where there is one, can be one, the
  // log level, where there is one, is known, and the durations are so.
  lemma GlobalsIff(config: Config)
    ensures GlobalsOk(WithDefaults(config)) <==>
      && 0 <= config.port <= 65535
      && (config.logLevel == "" || config.logLevel == "debug" || config.logLevel == "info"
          || config.logLevel == "warning" || config.logLevel == "warn" || config.logLevel == "error")
      && Timed(config.idle) && Timed(config.startTimeout) && Timed(config.stopTimeout)
  {}

  // An app is in order by itself exactly if it has a launch command, a directory, sound inputs and
  // an environment, and does not give a negative idle time.
  lemma AppIff(c: Config, id: string)
    requires GlobalsOk(c) && id in c.apps
    ensures var app := c.apps[id];
      AppOk(c, id) <==>
        && TrimSpace(app.launch) != "" && app.pwd != "" && app.directory && InputsOk(id, app)
        && (app.idle.Some? ==> app.idle.value >= 0)
        && EnvFile.ValidEnvironment(app.env)
        && Environment.Resolved(Environment.Parsed(app.envFiles), c.inherited, app.env).Some?
        && EnvFile.ValidEnvironment(
             Environment.Resolved(Environment.Parsed(app.envFiles), c.inherited, app.env).value)
  {
    hide TrimSpace, InputsOk, EnvFile.ValidEnvironment;
  }

  // The settings of the whole, with their defaults; a duration of zero that the file does not give
  // is replaced, one that it gives is refused.
  lemma GlobalSettings(config: Config, r: Runtime)
    requires Accepted(WithDefaults(config)) && RuntimeOf(WithDefaults(config), r)
    ensures r.port == (if config.port == 0 then 3000 else config.port) && 1 <= r.port <= 65535
    ensures r.logLevel == if config.logLevel == "" then "info" else config.logLevel
    ensures r.logLevel == "debug" || r.logLevel == "info" || r.logLevel == "warning" || r.logLevel == "warn"
            || r.logLevel == "error"
    ensures r.startTimeout == if config.startTimeout.value != 0 then config.startTimeout.value else 30_000_000_000
    ensures r.stopTimeout == if config.stopTimeout.value != 0 then config.stopTimeout.value else 10_000_000_000
    ensures r.startTimeout > 0 && r.stopTimeout > 0
    ensures r.apps.Keys == config.apps.Keys
  {}

  // An app that does not give its own idle time has that of the whole, or half an hour.
  lemma AppSettings(config: Config, r: Runtime, id: string)
    requires Accepted(WithDefaults(config)) && RuntimeOf(WithDefaults(config), r) && id in config.apps
    ensures r.apps[id].id == id && r.apps[id].idle >= 0
    ensures r.apps[id].idle ==
            match config.apps[id].idle
            case Some(own) => own
            case None => if config.idle.value != 0 then config.idle.value else 1_800_000_000_000
    ensures TrimSpace(config.apps[id].launch) != "" && config.apps[id].pwd != "" && config.apps[id].directory
  {
    hide TrimSpace, InputsOk, EnvironmentOf;
    var c := WithDefaults(config);
    assert AppOk(c, id) && AppOf(c, SpecsOf(c), id, r.apps[id]);
  }
}
