// TCPServer of internal/proxy/tcp.go: its accept loop, its connection handlers and
// Shutdown, as a transition system with one step per critical section or outside event.

module Tcp {
  import opened Options

  // A tracked connection is named by its handler: the client it serves, or the backend it
  // dials, which it does at most once.
  datatype ConnId = ClientOf(h: nat) | BackendOf(h: nat)

  // A call of Serve.  In Got and Rejecting the loop itself holds an open connection, from
  // Accept to the start of its handler or to its rejection.
  datatype ServePc = Entering | Accepting | Got | Rejecting | Returned
  datatype Serve = Serve(pc: ServePc, listening: bool)

  // A goroutine running `handle`.
  datatype HandlerPc =
    | Acquiring | Dialing
    | Tracking         // dialled, about to call `track`
    | Dropping         // `track` said no
    | Copying
    | ClosingBackend | RemovingBackend   // the two halves of untrackAndClose(backend)
    | Releasing
    | ClosingClient | RemovingClient     // the two halves of untrackAndClose(client)
    | Leaving          // about to call wg.Done
    | Left
  datatype Handler = Handler(pc: HandlerPc, lease: Option<nat>, clientOpen: bool, backendOpen: bool)

  datatype ShutdownPc =
    | ClosingListener(ln: Option<nat>, list: set<ConnId>)
    | ClosingConns(list: set<ConnId>)
    | Waiting
    | Finished(ok: bool)

  datatype Server = Server(
    listener: Option<nat>,          // the fields of TCPServer; a listener is named by its Serve call
    conns: set<ConnId>,
    closing: bool,
    wg: int,
    serves: seq<Serve>,             // the goroutines
    handlers: seq<Handler>,
    live: set<nat>,                 // handlers that have not returned
    leases: map<nat, nat>,          // leases taken and not released, and their handlers
    shutdowns: map<nat, ShutdownPc>,
    finished: bool,                 // some Shutdown has returned nil
    panicked: bool)                 // the wait group went below zero

  datatype Label =
    | Listens | ServeEnters(v: nat) | Accepts(v: nat) | AcceptFails(v: nat) | Tracks(v: nat) | Rejects(v: nat)
    | Granted(h: nat, l: nat) | Unavailable(h: nat) | Dials(h: nat, ok: bool)
    | TracksBackend(h: nat) | DropsBackend(h: nat)
    | CopyEnds(h: nat) | ClosesBackend(h: nat) | RemovesBackend(h: nat) | Releases(h: nat)
    | ClosesClient(h: nat) | RemovesClient(h: nat) | Leaves(h: nat)
    | ShutdownBegins(k: nat) | ShutdownClosesListener(k: nat) | ShutdownCloses(k: nat, c: ConnId)
    | ShutdownWaits(k: nat) | ShutdownReturns(k: nat, ok: bool)

  const FRESH := Server(None, {}, false, 0, [], [], {}, map[], map[], false, false)

  predicate HasBackend(pc: HandlerPc) {
    pc == Tracking || pc == Dropping || pc == Copying || pc == ClosingBackend || pc == RemovingBackend
  }

  predicate HasLease(pc: HandlerPc) { pc == Dialing || HasBackend(pc) || pc == Releasing }

  function SetHandler(s: Server, h: nat, k: Handler): Server
    requires h < |s.handlers|
  {
    s.(handlers := s.handlers[h := k])
  }

  function ServeGoto(s: Server, v: nat, pc: ServePc): Server
    requires v < |s.serves|
  {
    s.(serves := s.serves[v := s.serves[v].(pc := pc)])
  }

  function CloseListener(s: Server, v: nat): (r: Server)
    ensures |r.serves| == |s.serves|
  {
    if v < |s.serves| then s.(serves := s.serves[v := s.serves[v].(listening := false)]) else s
  }

  function Close(s: Server, c: ConnId): (r: Server)
    ensures |r.handlers| == |s.handlers|
  {
    if c.h >= |s.handlers| then s
    else if c.ClientOf? then SetHandler(s, c.h, s.handlers[c.h].(clientOpen := false))
    else SetHandler(s, c.h, s.handlers[c.h].(backendOpen := false))
  }

  predicate At(s: Server, h: nat, pc: HandlerPc) { h < |s.handlers| && s.handlers[h].pc == pc }

  predicate Enabled(s: Server, l: Label) {
    match l
    case Listens => true
    case ServeEnters(v) => v < |s.serves| && s.serves[v].pc == Entering
    case Accepts(v) => v < |s.serves| && s.serves[v].pc == Accepting && s.serves[v].listening
    case AcceptFails(v) => v < |s.serves| && s.serves[v].pc == Accepting
    case Tracks(v) => v < |s.serves| && s.serves[v].pc == Got
    case Rejects(v) => v < |s.serves| && s.serves[v].pc == Rejecting
    case Granted(h, l) => At(s, h, Acquiring) && l !in s.leases
    case Unavailable(h) => At(s, h, Acquiring)
    case Dials(h, _) => At(s, h, Dialing)
    case TracksBackend(h) => At(s, h, Tracking)
    case DropsBackend(h) => At(s, h, Dropping)
    case CopyEnds(h) => At(s, h, Copying)
    case ClosesBackend(h) => At(s, h, ClosingBackend)
    case RemovesBackend(h) => At(s, h, RemovingBackend)
    case Releases(h) => At(s, h, Releasing) && s.handlers[h].lease.Some?
    case ClosesClient(h) => At(s, h, ClosingClient)
    case RemovesClient(h) => At(s, h, RemovingClient)
    case Leaves(h) => At(s, h, Leaving)
    case ShutdownBegins(k) => k !in s.shutdowns
    case ShutdownClosesListener(k) => k in s.shutdowns && s.shutdowns[k].ClosingListener?
    case ShutdownCloses(k, c) => k in s.shutdowns && s.shutdowns[k].ClosingConns? && c in s.shutdowns[k].list
    case ShutdownWaits(k) => k in s.shutdowns && s.shutdowns[k].ClosingConns? && s.shutdowns[k].list == {}
    // nil once the wait group is at zero, the context's error at any time
    case ShutdownReturns(k, ok) => k in s.shutdowns && s.shutdowns[k] == Waiting && (ok ==> s.wg == 0)
  }

  function OnServeEnters(s: Server, v: nat): Server
    requires v < |s.serves|
  {
    if s.closing || s.listener.Some? then CloseListener(ServeGoto(s, v, Returned), v)
    else ServeGoto(s, v, Accepting).(listener := Some(v))
  }

  // trackClient, and the handler the loop then starts.
  function OnTracks(s: Server, v: nat): Server
    requires v < |s.serves|
  {
    if s.closing then ServeGoto(s, v, Rejecting)
    else
      var h := |s.handlers|;
      ServeGoto(s, v, Accepting).(
        conns := s.conns + {ClientOf(h)}, wg := s.wg + 1, live := s.live + {h},
        handlers := s.handlers + [Handler(Acquiring, None, true, false)])
  }

  // track
  function OnTracksBackend(s: Server, h: nat): Server
    requires h < |s.handlers|
  {
    if s.closing then SetHandler(s, h, s.handlers[h].(pc := Dropping))
    else SetHandler(s, h, s.handlers[h].(pc := Copying)).(conns := s.conns + {BackendOf(h)})
  }

  function OnShutdownBegins(s: Server, k: nat): Server {
    s.(closing := true, shutdowns := s.shutdowns[k := ClosingListener(s.listener, s.conns)])
  }

  function OnHandler(s: Server, l: Label): Server
    requires Enabled(s, l) && ByHandler(l) && !l.TracksBackend?
  {
    var h := l.h;
    var k := s.handlers[h];
    match l
    case Granted(_, lease) => SetHandler(s, h, k.(pc := Dialing, lease := Some(lease))).(leases := s.leases[lease := h])
    case Unavailable(_) => SetHandler(s, h, k.(pc := ClosingClient))
    case Dials(_, ok) => SetHandler(s, h, if ok then k.(pc := Tracking, backendOpen := true) else k.(pc := Releasing))
    case DropsBackend(_) => SetHandler(s, h, k.(pc := Releasing, backendOpen := false))
    // the first copy ends: both connections are closed, which ends the second
    case CopyEnds(_) => SetHandler(s, h, k.(pc := ClosingBackend, clientOpen := false, backendOpen := false))
    case ClosesBackend(_) => SetHandler(s, h, k.(pc := RemovingBackend, backendOpen := false))
    case RemovesBackend(_) => SetHandler(s, h, k.(pc := Releasing)).(conns := s.conns - {BackendOf(h)})
    case Releases(_) => SetHandler(s, h, k.(pc := ClosingClient, lease := None)).(leases := s.leases - {k.lease.value})
    case ClosesClient(_) => SetHandler(s, h, k.(pc := RemovingClient, clientOpen := false))
    case RemovesClient(_) => SetHandler(s, h, k.(pc := Leaving)).(conns := s.conns - {ClientOf(h)})
    case Leaves(_) =>
      SetHandler(s, h, k.(pc := Left)).(wg := s.wg - 1, live := s.live - {h}, panicked := s.panicked || s.wg <= 0)
  }

  predicate ByHandler(l: Label) {
    || l.Granted? || l.Unavailable? || l.Dials? || l.TracksBackend? || l.DropsBackend? || l.CopyEnds?
    || l.ClosesBackend? || l.RemovesBackend? || l.Releases? || l.ClosesClient? || l.RemovesClient? || l.Leaves?
  }

  function Do(s: Server, l: Label): Server
    requires Enabled(s, l)
  {
    match l
    case Listens => s.(serves := s.serves + [Serve(Entering, true)])
    case ServeEnters(v) => OnServeEnters(s, v)
    case Accepts(v) => ServeGoto(s, v, Got)
    case AcceptFails(v) => ServeGoto(s, v, Returned)
    case Tracks(v) => OnTracks(s, v)
    case Rejects(v) => ServeGoto(s, v, Accepting)
    case TracksBackend(h) => OnTracksBackend(s, h)
    case ShutdownBegins(k) => OnShutdownBegins(s, k)
    case ShutdownClosesListener(k) =>
      var pc := s.shutdowns[k];
      (if pc.ln.Some? then CloseListener(s, pc.ln.value) else s).(shutdowns := s.shutdowns[k := ClosingConns(pc.list)])
    case ShutdownCloses(k, c) => Close(s, c).(shutdowns := s.shutdowns[k := ClosingConns(s.shutdowns[k].list - {c})])
    case ShutdownWaits(k) => s.(shutdowns := s.shutdowns[k := Waiting])
    case ShutdownReturns(k, ok) => s.(shutdowns := s.shutdowns[k := Finished(ok)], finished := s.finished || ok)
    case _ => OnHandler(s, l)
  }

  // Invariant -----------------------------------------------------------------------

  // What a handler still holds at each point: a connection it has closed and untracked, a
  // lease it has released, stay so.
  predicate HandlerInv(s: Server, h: nat, k: Handler) {
    && (h in s.live <==> k.pc != Left)
    && (k.lease.Some? <==> HasLease(k.pc))
    && (k.lease.Some? ==> k.lease.value in s.leases && s.leases[k.lease.value] == h)
    && (k.clientOpen ==> k.pc != RemovingClient && k.pc != Leaving && k.pc != Left)
    && (ClientOf(h) in s.conns ==> k.pc != Leaving && k.pc != Left)
    && (k.backendOpen ==> HasBackend(k.pc) && k.pc != RemovingBackend)
    && (BackendOf(h) in s.conns ==> HasBackend(k.pc) && k.pc != Tracking && k.pc != Dropping)
  }

  predicate Serving(pc: ServePc) { pc == Accepting || pc == Got || pc == Rejecting }

  predicate ServeInv(s: Server, v: nat, k: Serve) {
    && (Serving(k.pc) ==> s.listener == Some(v))
    && (k.pc == Rejecting ==> s.closing)
  }

  predicate NotListening(s: Server) {
    s.listener.Some? ==> s.listener.value < |s.serves| && !s.serves[s.listener.value].listening
  }

  predicate ShutdownInv(s: Server, pc: ShutdownPc) {
    s.closing && if pc.ClosingListener? then pc.ln == s.listener else NotListening(s)
  }

  ghost predicate FieldsInv(s: Server) {
    && !s.panicked
    && s.wg == |s.live|
    && (forall h :: h in s.live ==> h < |s.handlers|)
    && (forall c :: c in s.conns ==> c.h < |s.handlers|)
    && (s.listener.Some? ==> s.listener.value < |s.serves|)
    && (s.finished ==> s.closing && s.live == {} && NotListening(s))
  }

  ghost predicate ServesInv(s: Server) {
    forall v: nat :: v < |s.serves| ==> ServeInv(s, v, s.serves[v])
  }

  ghost predicate HandlersInv(s: Server) {
    forall h: nat :: h < |s.handlers| ==> HandlerInv(s, h, s.handlers[h])
  }

  ghost predicate LeasesInv(s: Server) {
    forall l :: l in s.leases ==> s.leases[l] < |s.handlers| && s.handlers[s.leases[l]].lease == Some(l)
  }

  ghost predicate ShutdownsInv(s: Server) {
    forall k :: k in s.shutdowns ==> ShutdownInv(s, s.shutdowns[k])
  }

  ghost predicate Inv(s: Server) {
    FieldsInv(s) && ServesInv(s) && HandlersInv(s) && LeasesInv(s) && ShutdownsInv(s)
  }

  lemma TracksHandlers(s: Server, v: nat)
    requires Inv(s) && Enabled(s, Tracks(v))
    ensures HandlersInv(OnTracks(s, v)) && LeasesInv(OnTracks(s, v))
  {
    TracksLeases(s, v);
  }

  lemma TracksLeases(s: Server, v: nat)
    requires Inv(s) && Enabled(s, Tracks(v))
    ensures LeasesInv(OnTracks(s, v))
  {}

  lemma TracksInv(s: Server, v: nat)
    requires Inv(s) && Enabled(s, Tracks(v))
    ensures Inv(OnTracks(s, v))
  {
    TracksHandlers(s, v);
    assert |s.live + {|s.handlers|}| == |s.live| + 1;
  }

  lemma TracksBackendHandlers(s: Server, h: nat)
    requires Inv(s) && Enabled(s, TracksBackend(h))
    ensures HandlersInv(OnTracksBackend(s, h))
  {
    hide FieldsInv, ServesInv, LeasesInv, ShutdownsInv;
    forall i: nat | i < |s.handlers| ensures HandlerInv(OnTracksBackend(s, h), i, OnTracksBackend(s, h).handlers[i]) {
      assert HandlerInv(s, i, s.handlers[i]);
    }
  }

  lemma TracksBackendLeases(s: Server, h: nat)
    requires Inv(s) && Enabled(s, TracksBackend(h))
    ensures LeasesInv(OnTracksBackend(s, h))
  {}

  lemma TracksBackendInv(s: Server, h: nat)
    requires Inv(s) && Enabled(s, TracksBackend(h))
    ensures Inv(OnTracksBackend(s, h))
  {
    TracksBackendHandlers(s, h);
    TracksBackendLeases(s, h);
  }

  lemma LeavesHandlers(s: Server, h: nat)
    requires Inv(s) && Enabled(s, Leaves(h))
    ensures HandlersInv(OnHandler(s, Leaves(h))) && LeasesInv(OnHandler(s, Leaves(h)))
  {
    hide FieldsInv, ServesInv, ShutdownsInv;
    LeavesLeases(s, h);
  }

  lemma LeavesLeases(s: Server, h: nat)
    requires Inv(s) && Enabled(s, Leaves(h))
    ensures LeasesInv(OnHandler(s, Leaves(h)))
  {}

  lemma LeavesInv(s: Server, h: nat)
    requires Inv(s) && Enabled(s, Leaves(h))
    ensures Inv(OnHandler(s, Leaves(h)))
  {
    assert |s.live - {h}| == |s.live| - 1;
    LeavesHandlers(s, h);
  }

  lemma GrantedHandlers(s: Server, h: nat, l: nat)
    requires Inv(s) && Enabled(s, Granted(h, l))
    ensures HandlersInv(OnHandler(s, Granted(h, l))) && LeasesInv(OnHandler(s, Granted(h, l)))
  {}

  lemma GrantedInv(s: Server, h: nat, l: nat)
    requires Inv(s) && Enabled(s, Granted(h, l))
    ensures Inv(OnHandler(s, Granted(h, l)))
  {
    GrantedHandlers(s, h, l);
  }

  lemma UnavailableHandlers(s: Server, h: nat)
    requires Inv(s) && Enabled(s, Unavailable(h))
    ensures HandlersInv(OnHandler(s, Unavailable(h)))
  {
    hide FieldsInv, ServesInv, LeasesInv, ShutdownsInv;
    var s' := OnHandler(s, Unavailable(h));
    forall i: nat | i < |s.handlers| ensures HandlerInv(s', i, s'.handlers[i]) {
      assert HandlerInv(s, i, s.handlers[i]);
    }
  }

  lemma UnavailableInv(s: Server, h: nat)
    requires Inv(s) && Enabled(s, Unavailable(h))
    ensures Inv(OnHandler(s, Unavailable(h)))
  {
    UnavailableHandlers(s, h);
  }

  lemma DialsHandlers(s: Server, h: nat, ok: bool)
    requires Inv(s) && Enabled(s, Dials(h, ok))
    ensures HandlersInv(OnHandler(s, Dials(h, ok)))
  {
    hide FieldsInv, ServesInv, LeasesInv, ShutdownsInv;
    var s' := OnHandler(s, Dials(h, ok));
    forall i: nat | i < |s.handlers| ensures HandlerInv(s', i, s'.handlers[i]) {
      assert HandlerInv(s, i, s.handlers[i]);
    }
  }

  lemma DialsInv(s: Server, h: nat, ok: bool)
    requires Inv(s) && Enabled(s, Dials(h, ok))
    ensures Inv(OnHandler(s, Dials(h, ok)))
  {
    DialsHandlers(s, h, ok);
  }

  lemma DropsBackendInv(s: Server, h: nat)
    requires Inv(s) && Enabled(s, DropsBackend(h))
    ensures Inv(OnHandler(s, DropsBackend(h)))
  {}

  lemma CopyEndsHandlers(s: Server, h: nat)
    requires Inv(s) && Enabled(s, CopyEnds(h))
    ensures HandlersInv(OnHandler(s, CopyEnds(h)))
  {
    hide FieldsInv, ServesInv, LeasesInv, ShutdownsInv;
    var s' := OnHandler(s, CopyEnds(h));
    forall i: nat | i < |s.handlers| ensures HandlerInv(s', i, s'.handlers[i]) {
      assert HandlerInv(s, i, s.handlers[i]);
    }
  }

  lemma CopyEndsInv(s: Server, h: nat)
    requires Inv(s) && Enabled(s, CopyEnds(h))
    ensures Inv(OnHandler(s, CopyEnds(h)))
  {
    CopyEndsHandlers(s, h);
  }

  lemma ClosesBackendHandlers(s: Server, h: nat)
    requires Inv(s) && Enabled(s, ClosesBackend(h))
    ensures HandlersInv(OnHandler(s, ClosesBackend(h)))
  {
    hide FieldsInv, ServesInv, LeasesInv, ShutdownsInv;
    var s' := OnHandler(s, ClosesBackend(h));
    forall i: nat | i < |s.handlers| ensures HandlerInv(s', i, s'.handlers[i]) {
      assert HandlerInv(s, i, s.handlers[i]);
    }
  }

  lemma ClosesBackendInv(s: Server, h: nat)
    requires Inv(s) && Enabled(s, ClosesBackend(h))
    ensures Inv(OnHandler(s, ClosesBackend(h)))
  {
    ClosesBackendHandlers(s, h);
  }

  lemma RemovesBackendInv(s: Server, h: nat)
    requires Inv(s) && Enabled(s, RemovesBackend(h))
    ensures Inv(OnHandler(s, RemovesBackend(h)))
  {
    RemovesBackendHandlers(s, h);
  }

  lemma RemovesBackendHandlers(s: Server, h: nat)
    requires Inv(s) && Enabled(s, RemovesBackend(h))
    ensures HandlersInv(OnHandler(s, RemovesBackend(h)))
  {
    hide FieldsInv, ServesInv, LeasesInv, ShutdownsInv;
  }

  lemma ReleasesHandlers(s: Server, h: nat)
    requires Inv(s) && Enabled(s, Releases(h))
    ensures HandlersInv(OnHandler(s, Releases(h)))
  {
    hide FieldsInv, ServesInv, LeasesInv, ShutdownsInv;
    forall i: nat | i < |s.handlers|
      ensures HandlerInv(OnHandler(s, Releases(h)), i, OnHandler(s, Releases(h)).handlers[i])
    {
      assert HandlerInv(s, i, s.handlers[i]);
    }
  }

  lemma ReleasesLeases(s: Server, h: nat)
    requires Inv(s) && Enabled(s, Releases(h))
    ensures LeasesInv(OnHandler(s, Releases(h)))
  {}

  lemma ReleasesInv(s: Server, h: nat)
    requires Inv(s) && Enabled(s, Releases(h))
    ensures Inv(OnHandler(s, Releases(h)))
  {
    ReleasesHandlers(s, h);
    ReleasesLeases(s, h);
  }

  lemma ClosesClientHandlers(s: Server, h: nat)
    requires Inv(s) && Enabled(s, ClosesClient(h))
    ensures HandlersInv(OnHandler(s, ClosesClient(h)))
  {
    hide FieldsInv, ServesInv, LeasesInv, ShutdownsInv;
    var s' := OnHandler(s, ClosesClient(h));
    forall i: nat | i < |s.handlers| ensures HandlerInv(s', i, s'.handlers[i]) {
      assert HandlerInv(s, i, s.handlers[i]);
    }
  }

  lemma ClosesClientInv(s: Server, h: nat)
    requires Inv(s) && Enabled(s, ClosesClient(h))
    ensures Inv(OnHandler(s, ClosesClient(h)))
  {
    ClosesClientHandlers(s, h);
  }

  lemma RemovesClientHandlers(s: Server, h: nat)
    requires Inv(s) && Enabled(s, RemovesClient(h))
    ensures HandlersInv(OnHandler(s, RemovesClient(h)))
  {
    hide FieldsInv, ServesInv, LeasesInv, ShutdownsInv;
    var s' := OnHandler(s, RemovesClient(h));
    forall i: nat | i < |s.handlers| ensures HandlerInv(s', i, s'.handlers[i]) {
      assert HandlerInv(s, i, s.handlers[i]);
    }
  }

  lemma RemovesClientInv(s: Server, h: nat)
    requires Inv(s) && Enabled(s, RemovesClient(h))
    ensures Inv(OnHandler(s, RemovesClient(h)))
  {
    RemovesClientHandlers(s, h);
  }

  lemma ServeStepInv(s: Server, l: Label)
    requires Inv(s) && Enabled(s, l)
    requires l.Listens? || l.ServeEnters? || l.Accepts? || l.AcceptFails? || l.Rejects?
    ensures Inv(Do(s, l))
  {
    ServeStepHandlers(s, l);
    ServeStepServes(s, l);
  }

  lemma ServeStepServes(s: Server, l: Label)
    requires Inv(s) && Enabled(s, l)
    requires l.Listens? || l.ServeEnters? || l.Accepts? || l.AcceptFails? || l.Rejects?
    ensures ServesInv(Do(s, l)) && ShutdownsInv(Do(s, l))
  {}

  lemma ServeStepHandlers(s: Server, l: Label)
    requires Inv(s) && Enabled(s, l)
    requires l.Listens? || l.ServeEnters? || l.Accepts? || l.AcceptFails? || l.Rejects?
    ensures HandlersInv(Do(s, l)) && LeasesInv(Do(s, l))
  {}

  lemma ShutdownClosesHandlers(s: Server, k: nat, c: ConnId)
    requires Inv(s) && Enabled(s, ShutdownCloses(k, c))
    ensures HandlersInv(Do(s, ShutdownCloses(k, c)))
  {
    hide FieldsInv, ServesInv, LeasesInv, ShutdownsInv;
    var s' := Do(s, ShutdownCloses(k, c));
    forall i: nat | i < |s.handlers| ensures HandlerInv(s', i, s'.handlers[i]) {
      assert HandlerInv(s, i, s.handlers[i]);
    }
  }

  lemma ShutdownClosesInv(s: Server, k: nat, c: ConnId)
    requires Inv(s) && Enabled(s, ShutdownCloses(k, c))
    ensures Inv(Do(s, ShutdownCloses(k, c)))
  {
    ShutdownClosesHandlers(s, k, c);
  }

  lemma ShutdownStepInv(s: Server, l: Label)
    requires Inv(s) && Enabled(s, l)
    requires l.ShutdownBegins? || l.ShutdownClosesListener? || l.ShutdownWaits? || l.ShutdownReturns?
    ensures Inv(Do(s, l))
  {
    ShutdownStepHandlers(s, l);
  }

  lemma ShutdownStepHandlers(s: Server, l: Label)
    requires Inv(s) && Enabled(s, l)
    requires l.ShutdownBegins? || l.ShutdownClosesListener? || l.ShutdownWaits? || l.ShutdownReturns?
    ensures HandlersInv(Do(s, l)) && LeasesInv(Do(s, l))
  {}

  lemma HandlerStepInv(s: Server, l: Label)
    requires Inv(s) && Enabled(s, l) && ByHandler(l)
    ensures Inv(Do(s, l))
  {
    match l
    case Granted(h, lease) => GrantedInv(s, h, lease);
    case Unavailable(h) => UnavailableInv(s, h);
    case Dials(h, ok) => DialsInv(s, h, ok);
    case TracksBackend(h) => TracksBackendInv(s, h);
    case DropsBackend(h) => DropsBackendInv(s, h);
    case CopyEnds(h) => CopyEndsInv(s, h);
    case ClosesBackend(h) => ClosesBackendInv(s, h);
    case RemovesBackend(h) => RemovesBackendInv(s, h);
    case Releases(h) => ReleasesInv(s, h);
    case ClosesClient(h) => ClosesClientInv(s, h);
    case RemovesClient(h) => RemovesClientInv(s, h);
    case Leaves(h) => LeavesInv(s, h);
  }

  lemma StepInv(s: Server, l: Label)
    requires Inv(s) && Enabled(s, l)
    ensures Inv(Do(s, l))
  {
    if ByHandler(l) {
      HandlerStepInv(s, l);
    } else if l.Tracks? {
      TracksInv(s, l.v);
    } else if l.ShutdownCloses? {
      ShutdownClosesInv(s, l.k, l.c);
    } else if l.ShutdownBegins? || l.ShutdownClosesListener? || l.ShutdownWaits? || l.ShutdownReturns? {
      ShutdownStepInv(s, l);
    } else {
      ServeStepInv(s, l);
    }
  }

  // Runs ----------------------------------------------------------------------------

  ghost predicate IsRun(ss: seq<Server>, ls: seq<Label>) {
    && |ss| == |ls| + 1 && ss[0] == FRESH
    && (forall i :: 0 <= i < |ls| ==> Enabled(ss[i], ls[i]) && ss[i + 1] == Do(ss[i], ls[i]))
  }

  lemma {:induction false} RunInv(ss: seq<Server>, ls: seq<Label>, i: nat)
    requires IsRun(ss, ls) && i < |ss|
    ensures Inv(ss[i])
  {
    if i > 0 {
      RunInv(ss, ls, i - 1);
      assert Enabled(ss[i - 1], ls[i - 1]);
      StepInv(ss[i - 1], ls[i - 1]);
    }
  }

  // The wait group counts the tracked clients whose handler has not returned, never goes
  // below zero, and never rises once closing is set.
  lemma WaitGroupCounts(ss: seq<Server>, ls: seq<Label>, i: nat)
    requires IsRun(ss, ls) && i < |ss|
    ensures ss[i].wg == |set h | 0 <= h < |ss[i].handlers| && ss[i].handlers[h].pc != Left|
    ensures !ss[i].panicked
    ensures i < |ls| && ss[i].closing ==>
              ss[i + 1].closing && ss[i + 1].wg <= ss[i].wg && |ss[i + 1].handlers| == |ss[i].handlers|
  {
    RunInv(ss, ls, i);
    var s := ss[i];
    assert forall h: nat :: h < |s.handlers| ==> HandlerInv(s, h, s.handlers[h]);
    assert s.live == set h | 0 <= h < |s.handlers| && s.handlers[h].pc != Left;
    if i < |ls| && s.closing { ClosingStep(s, ls[i]); }
  }

  // `panicked` is what a wait group below zero would leave.
  lemma NegativeCountTells(s: Server, h: nat)
    requires Enabled(s, Leaves(h))
    ensures Do(s, Leaves(h)).panicked <==> s.panicked || Do(s, Leaves(h)).wg < 0
  {}

  lemma ClosingStep(s: Server, l: Label)
    requires Inv(s) && Enabled(s, l) && s.closing
    ensures Do(s, l).closing && Do(s, l).wg <= s.wg && |Do(s, l).handlers| == |s.handlers|
    ensures Do(s, l).listener == s.listener
    ensures s.finished ==> Do(s, l).finished
  {}

  // The accept loop holds a connection that it has neither handed to a handler nor rejected.
  predicate LoopHolds(s: Server) {
    exists v: nat :: v < |s.serves| && (s.serves[v].pc == Got || s.serves[v].pc == Rejecting)
  }

  // Every connection ever accepted or dialled has been closed.
  ghost predicate AllClosed(s: Server) {
    && !LoopHolds(s)
    && forall h: nat :: h < |s.handlers| ==> !s.handlers[h].clientOpen && !s.handlers[h].backendOpen
  }

  lemma {:induction false} FinishedStays(ss: seq<Server>, ls: seq<Label>, i: nat, j: nat)
    requires IsRun(ss, ls) && i <= j < |ss| && ss[i].finished
    ensures ss[j].finished && |ss[j].handlers| == |ss[i].handlers|
  {
    if i < j {
      FinishedStays(ss, ls, i, j - 1);
      RunInv(ss, ls, j - 1);
      assert Enabled(ss[j - 1], ls[j - 1]);
      ClosingStep(ss[j - 1], ls[j - 1]);
    }
  }

  lemma FinishedMeans(s: Server)
    requires Inv(s) && s.finished
    ensures s.closing && s.wg == 0 && s.conns == {} && s.leases == map[]
    ensures forall h: nat :: h < |s.handlers| ==> s.handlers[h] == Handler(Left, None, false, false)
    ensures AllClosed(s) <==> !LoopHolds(s)
    ensures forall v: nat :: !Enabled(s, Accepts(v))
  {
    forall h: nat | h < |s.handlers|
      ensures s.handlers[h] == Handler(Left, None, false, false) && ClientOf(h) !in s.conns && BackendOf(h) !in s.conns
    {
      assert HandlerInv(s, h, s.handlers[h]);
    }
    forall c ensures c !in s.conns {
      assert c == ClientOf(c.h) || c == BackendOf(c.h);
    }
    forall v: nat ensures !Enabled(s, Accepts(v)) {
      if v < |s.serves| { assert ServeInv(s, v, s.serves[v]); }
    }
    forall l ensures l !in s.leases {}
  }

  // After a Shutdown has returned nil, and for ever after: no handler is live, nothing is
  // tracked, every lease this server took is released, no connection can be accepted, and
  // every connection accepted or dialled has been closed exactly when the accept loop is
  // not between its Accept and the close of a connection it rejects.
  lemma ShutdownLeavesNothing(ss: seq<Server>, ls: seq<Label>, i: nat, j: nat, k: nat)
    requires IsRun(ss, ls) && i < j < |ss| && ls[i] == ShutdownReturns(k, true)
    ensures ss[j].live == {} && ss[j].wg == 0 && ss[j].conns == {} && ss[j].leases == map[]
    ensures |ss[j].handlers| == |ss[i].handlers|
    ensures forall v: nat :: !Enabled(ss[j], Accepts(v))
    ensures AllClosed(ss[j]) <==> !LoopHolds(ss[j])
  {
    assert Enabled(ss[i], ls[i]);
    FinishedStays(ss, ls, i + 1, j);
    RunInv(ss, ls, j);
    FinishedMeans(ss[j]);
  }

  lemma Extend(ss: seq<Server>, ls: seq<Label>, l: Label, next: Server)
    requires IsRun(ss, ls) && Enabled(ss[|ls|], l) && next == Do(ss[|ls|], l)
    ensures IsRun(ss + [next], ls + [l])
  {}

  lemma AcceptRacesWithShutdown() returns (ss: seq<Server>, ls: seq<Label>)
    ensures IsRun(ss, ls)
    ensures ss[|ls|] == FRESH.(serves := [Serve(Got, true)], listener := Some(0), closing := true,
                               shutdowns := map[0 := ClosingListener(Some(0), {})])
  {
    var s1 := FRESH.(serves := [Serve(Entering, true)]);
    Extend([FRESH], [], Listens, s1);
    var s2 := s1.(serves := [Serve(Accepting, true)], listener := Some(0));
    Extend([FRESH, s1], [Listens], ServeEnters(0), s2);
    var s3 := s2.(serves := [Serve(Got, true)]);
    Extend([FRESH, s1, s2], [Listens, ServeEnters(0)], Accepts(0), s3);
    var s4 := s3.(closing := true, shutdowns := map[0 := ClosingListener(Some(0), {})]);
    ss, ls := [FRESH, s1, s2, s3], [Listens, ServeEnters(0), Accepts(0)];
    Extend(ss, ls, ShutdownBegins(0), s4);
    ss, ls := ss + [s4], ls + [ShutdownBegins(0)];
  }

  // The exception is real: a connection accepted just before Shutdown is still open when
  // Shutdown returns nil.
  lemma AcceptedMayOutliveShutdown() returns (ss: seq<Server>, ls: seq<Label>)
    ensures IsRun(ss, ls) && |ls| > 0 && ls[|ls| - 1] == ShutdownReturns(0, true)
    ensures LoopHolds(ss[|ls|]) && !AllClosed(ss[|ls|])
  {
    ss, ls := AcceptRacesWithShutdown();
    var s5 := ss[|ls|].(serves := [Serve(Got, false)], shutdowns := map[0 := ClosingConns({})]);
    Extend(ss, ls, ShutdownClosesListener(0), s5);
    ss, ls := ss + [s5], ls + [ShutdownClosesListener(0)];
    var s6 := s5.(shutdowns := map[0 := Waiting]);
    Extend(ss, ls, ShutdownWaits(0), s6);
    ss, ls := ss + [s6], ls + [ShutdownWaits(0)];
    var s7 := s6.(shutdowns := map[0 := Finished(true)], finished := true);
    Extend(ss, ls, ShutdownReturns(0, true), s7);
    ss, ls := ss + [s7], ls + [ShutdownReturns(0, true)];
    assert s7.serves[0].pc == Got;
  }

  // But the loop holds at most one, and only has to reject it.
  lemma LoopHoldsAtMostOne(ss: seq<Server>, ls: seq<Label>, i: nat, v: nat, u: nat)
    requires IsRun(ss, ls) && i < |ss| && v < |ss[i].serves| && u < |ss[i].serves|
    requires Serving(ss[i].serves[v].pc) && Serving(ss[i].serves[u].pc)
    ensures u == v
  {
    RunInv(ss, ls, i);
  }

  // The TCPServer object: its critical sections as methods.
  class TCPServer {
    var listener: Option<nat>
    var conns: set<ConnId>
    var closing: bool
    var wg: int
    ghost var serves: seq<Serve>
    ghost var handlers: seq<Handler>
    ghost var live: set<nat>
    ghost var leases: map<nat, nat>
    ghost var shutdowns: map<nat, ShutdownPc>
    ghost var finished: bool
    ghost var panicked: bool

    ghost function View(): Server
      reads this
    {
      Server(listener, conns, closing, wg, serves, handlers, live, leases, shutdowns, finished, panicked)
    }

    constructor ()
      ensures View() == FRESH && Inv(View())
    {
      listener, conns, closing, wg := None, {}, false, 0;
      serves, handlers, live, leases, shutdowns, finished, panicked := [], [], {}, map[], map[], false, false;
    }

    // The locked part of Serve; `accepting` tells whether it goes on to its accept loop.
    method EnterServe(v: nat) returns (accepting: bool)
      requires Inv(View()) && Enabled(View(), ServeEnters(v))
      modifies this
      ensures View() == Do(old(View()), ServeEnters(v)) && Inv(View())
      ensures accepting <==> !old(closing) && old(listener).None?
    {
      ServeStepInv(View(), ServeEnters(v));
      if closing || listener.Some? {
        serves := serves[v := Serve(Returned, false)];
        return false;
      }
      serves := serves[v := serves[v].(pc := Accepting)];
      listener := Some(v);
      accepting := true;
    }

    // trackClient, with the `go s.handle(client)` that follows its success.
    method TrackClient(ghost v: nat, h: nat) returns (ok: bool)
      requires Inv(View()) && Enabled(View(), Tracks(v)) && h == |handlers|
      modifies this
      ensures View() == Do(old(View()), Tracks(v)) && Inv(View())
      ensures ok == !old(closing)
      ensures ok ==> conns == old(conns) + {ClientOf(h)} && wg == old(wg) + 1
    {
      hide Inv, HandlerInv;
      TracksInv(View(), v);
      if closing {
        serves := serves[v := serves[v].(pc := Rejecting)];
        return false;
      }
      serves := serves[v := serves[v].(pc := Accepting)];
      conns := conns + {ClientOf(h)};
      wg := wg + 1;
      live := live + {h};
      handlers := handlers + [Handler(Acquiring, None, true, false)];
      ok := true;
    }

    // track
    method Track(h: nat) returns (ok: bool)
      requires Inv(View()) && Enabled(View(), TracksBackend(h))
      modifies this
      ensures View() == Do(old(View()), TracksBackend(h)) && Inv(View())
      ensures ok == !old(closing) && conns == if ok then old(conns) + {BackendOf(h)} else old(conns)
    {
      TracksBackendInv(View(), h);
      if closing {
        handlers := handlers[h := handlers[h].(pc := Dropping)];
        return false;
      }
      handlers := handlers[h := handlers[h].(pc := Copying)];
      conns := conns + {BackendOf(h)};
      ok := true;
    }

    // The locked half of untrackAndClose, for the client of a handler.
    method UntrackClient(h: nat)
      requires Inv(View()) && Enabled(View(), RemovesClient(h))
      modifies this
      ensures View() == Do(old(View()), RemovesClient(h)) && Inv(View())
      ensures conns == old(conns) - {ClientOf(h)}
    {
      RemovesClientInv(View(), h);
      handlers := handlers[h := handlers[h].(pc := Leaving)];
      conns := conns - {ClientOf(h)};
    }

    // The locked part of Shutdown, and the snapshot it then closes outside the lock.
    method ShutdownLocked(ghost k: nat) returns (ln: Option<nat>, connections: set<ConnId>)
      requires Inv(View()) && k !in shutdowns
      modifies this
      ensures View() == Do(old(View()), ShutdownBegins(k)) && Inv(View())
      ensures closing && ln == listener && connections == conns == old(conns)
    {
      ShutdownStepInv(View(), ShutdownBegins(k));
      closing := true;
      ln := listener;
      connections := conns;
      shutdowns := shutdowns[k := ClosingListener(listener, conns)];
    }
  }
}
