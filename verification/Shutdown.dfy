// The shutdown sequence of cmd/heron/main.go over everything it shuts down: the managed
// services, the HTTP server with its drain handler and connection tracker, and the raw
// TCP servers, which all take their leases from the same services.

module Shutdown {
  import opened Options
  import L = Lifecycle
  import LI = LifecycleInvariant
  import LT = LifecycleTheorems
  import T = Tcp
  import D = Drain
  import C = Connections

  // An admitted HTTP or gRPC request; its name is the one the drain handler gave it.
  datatype RequestPc = Acquiring | Holding(l: nat) | Leaving | Left
  datatype Request = Request(svc: nat, pc: RequestPc)

  // Who took a lease: a proxied request, a TCP handler, or an operator's start action.
  datatype Owner = Http(r: nat) | Raw(t: nat, h: nat) | Operator
  datatype LeaseId = LeaseId(svc: nat, l: nat)

  // Where the main goroutine is; ok says that no call so far has returned an error.
  datatype Phase = Serving | ServerClosing | Draining | ConnsWaiting | Sweeping | TcpClosing | StopAll | Exited

  // One goroutine of StopAll: its service's Stop has been called and waits, or has returned;
  // `settled` says that it did not give up waiting.
  datatype StopPc = NotCalled | Awaiting(s: nat) | Returned(settled: bool)

  datatype System = System(
    services: seq<L.World>,
    servers: seq<T.Server>,
    target: seq<nat>,            // the service each TCP server proxies to
    drain: D.Handler,
    tracker: C.Tracker,
    requests: seq<Request>,
    owners: map<LeaseId, Owner>, // outstanding leases
    phase: Phase,
    ok: bool,
    tcpDone: nat,                // TCP servers whose Shutdown has returned
    stops: seq<StopPc>)

  datatype Label =
    | OfService(s: nat, sl: L.Label)
    | OfServer(t: nat, tl: T.Label)
    | OfTracker(cl: C.Label)
    | HttpEnters(svc: nat)
    | HttpAcquires(r: nat, c: nat)
    | HttpFails(r: nat)
    | HttpReleases(r: nat)
    | HttpLeaves(r: nat)
    | TcpAcquires(t: nat, h: nat, c: nat)
    | TcpReleases(t: nat, h: nat)
    | OperatorAcquires(s: nat, c: nat)
    | OperatorReleases(s: nat, l: nat)
    | MainBeginsDrain
    | MainClosesServer(fine: bool)
    | MainDrained(fine: bool)
    | MainConnsGone(fine: bool)
    | MainSwept(fine: bool)
    | MainShutsTcp(fine: bool)
    | MainCancels
    | MainStops(s: nat, c: nat)
    | MainStopReturns(s: nat, settled: bool)
    | MainExits

  function Init(cfgs: seq<L.Config>, target: seq<nat>): System {
    System(seq(|cfgs|, i requires 0 <= i < |cfgs| => L.Init(cfgs[i])), seq(|target|, i => T.FRESH), target,
           D.FRESH, C.FRESH, [], map[], Serving, true, 0, seq(|cfgs|, i => NotCalled))
  }

  predicate Granted(w: L.World, w': L.World) { w'.rt.granted > w.rt.granted }

  // The labels a service or a server takes on its own: leases are taken and released by the
  // labels of their owners, and only main cancels the lifecycle.
  predicate Own(sl: L.Label) { !sl.Acquire? && !sl.Release? && !sl.CancelLifecycle? }
  predicate OwnTcp(tl: T.Label) { !tl.Granted? && !tl.Releases? }

  predicate Enabled(y: System, a: Label) {
    match a
    case OfService(s, sl) => s < |y.services| && Own(sl) && L.Enabled(y.services[s], sl)
    case OfServer(t, tl) => t < |y.servers| && OwnTcp(tl) && T.Enabled(y.servers[t], tl)
    case OfTracker(cl) => C.Enabled(y.tracker, cl)
    case HttpEnters(svc) => svc < |y.services|
    case HttpAcquires(r, c) => r < |y.requests| && y.requests[r].pc == Acquiring && y.requests[r].svc < |y.services| &&
      c !in y.services[y.requests[r].svc].rt.waiters
    case HttpFails(r) => r < |y.requests| && y.requests[r].pc == Acquiring
    case HttpReleases(r) => r < |y.requests| && y.requests[r].pc.Holding? && y.requests[r].svc < |y.services| &&
      y.requests[r].pc.l < y.services[y.requests[r].svc].rt.granted
    case HttpLeaves(r) => r < |y.requests| && y.requests[r].pc == Leaving && r in y.drain.running
    case TcpAcquires(t, h, c) => t < |y.servers| && t < |y.target| && y.target[t] < |y.services| &&
      T.Enabled(y.servers[t], T.Granted(h, y.services[y.target[t]].rt.granted)) &&
      c !in y.services[y.target[t]].rt.waiters
    case TcpReleases(t, h) => t < |y.servers| && t < |y.target| && y.target[t] < |y.services| &&
      T.Enabled(y.servers[t], T.Releases(h)) &&
      y.servers[t].handlers[h].lease.value < y.services[y.target[t]].rt.granted
    case OperatorAcquires(s, c) => s < |y.services| && c !in y.services[s].rt.waiters
    case OperatorReleases(s, l) => s < |y.services| &&
      LeaseId(s, l) in y.owners && y.owners[LeaseId(s, l)] == Operator && l < y.services[s].rt.granted
    case MainBeginsDrain => y.phase == Serving
    case MainClosesServer(_) => y.phase == ServerClosing
    case MainDrained(fine) => y.phase == Draining && (fine ==> y.drain.doneClosed)
    case MainConnsGone(fine) => y.phase == ConnsWaiting && (fine ==> y.tracker.conns == {})
    case MainSwept(_) => y.phase == Sweeping && y.tracker.swept
    case MainShutsTcp(fine) => y.phase == TcpClosing && y.tcpDone < |y.servers| &&
      (fine ==> y.servers[y.tcpDone].finished)
    case MainCancels => y.phase == TcpClosing && y.tcpDone == |y.servers|
    case MainStops(s, c) => y.phase == StopAll && s < |y.services| && s < |y.stops| && y.stops[s] == NotCalled &&
      c !in y.services[s].rt.waiters
    case MainStopReturns(s, settled) => y.phase == StopAll && s < |y.services| && s < |y.stops| &&
      y.stops[s].Awaiting? &&
      (settled ==> L.ChannelClosed(y.services[s].rt, L.StopDone(y.stops[s].s)))
    case MainExits => y.phase == StopAll && forall s: nat :: s < |y.stops| ==> y.stops[s].Returned?
  }

  function SetService(y: System, s: nat, w: L.World): System
    requires s < |y.services|
  {
    y.(services := y.services[s := w])
  }

  function OnHttpEnters(y: System, svc: nat): System {
    var d := D.Do(y.drain, D.Enter);
    if d.admitted == y.drain.admitted then y.(drain := d)
    else y.(drain := d, requests := y.requests + [Request(svc, Acquiring)])
  }

  function OnHttpAcquires(y: System, r: nat, c: nat): System
    requires Enabled(y, HttpAcquires(r, c))
  {
    var s := y.requests[r].svc;
    var w := L.OnAcquire(y.services[s], c);
    if Granted(y.services[s], w) then HttpGranted(y, r, w) else SetService(y, s, w)
  }

  // Request r is given the next lease of its service, which becomes w'.
  function HttpGranted(y: System, r: nat, w': L.World): System
    requires r < |y.requests| && y.requests[r].svc < |y.services|
  {
    var s := y.requests[r].svc;
    var l := y.services[s].rt.granted;
    SetService(y, s, w').(requests := y.requests[r := Request(s, Holding(l))],
                          owners := y.owners[LeaseId(s, l) := Http(r)])
  }

  function OnHttpReleases(y: System, r: nat): System
    requires Enabled(y, HttpReleases(r))
  {
    HttpReleased(y, r, L.OnRelease(y.services[y.requests[r].svc], y.requests[r].pc.l))
  }

  // Request r gives its lease back and its service becomes w'.
  function HttpReleased(y: System, r: nat, w': L.World): System
    requires Enabled(y, HttpReleases(r))
  {
    var s, l := y.requests[r].svc, y.requests[r].pc.l;
    SetService(y, s, w').(requests := y.requests[r := Request(s, Leaving)], owners := y.owners - {LeaseId(s, l)})
  }

  function OnTcpAcquires(y: System, t: nat, h: nat, c: nat): System
    requires Enabled(y, TcpAcquires(t, h, c))
  {
    var s := y.target[t];
    var w := L.OnAcquire(y.services[s], c);
    if Granted(y.services[s], w) then TcpGranted(y, t, h, w, T.Do(y.servers[t], T.Granted(h, y.services[s].rt.granted)))
    else SetService(y, s, w)
  }

  // Handler h of server t is given the next lease of its service; they become w' and v'.
  function TcpGranted(y: System, t: nat, h: nat, w': L.World, v': T.Server): System
    requires t < |y.servers| && t < |y.target| && y.target[t] < |y.services|
  {
    var s := y.target[t];
    SetService(y, s, w').(servers := y.servers[t := v'],
                          owners := y.owners[LeaseId(s, y.services[s].rt.granted) := Raw(t, h)])
  }

  function OnTcpReleases(y: System, t: nat, h: nat): System
    requires Enabled(y, TcpReleases(t, h))
  {
    var s, l := y.target[t], y.servers[t].handlers[h].lease.value;
    TcpReleased(y, t, l, L.OnRelease(y.services[s], l), T.Do(y.servers[t], T.Releases(h)))
  }

  function TcpReleased(y: System, t: nat, l: nat, w': L.World, v': T.Server): System
    requires t < |y.servers| && t < |y.target| && y.target[t] < |y.services|
  {
    var s := y.target[t];
    SetService(y, s, w').(servers := y.servers[t := v'], owners := y.owners - {LeaseId(s, l)})
  }

  function OnOperatorAcquires(y: System, s: nat, c: nat): System
    requires s < |y.services|
  {
    var w := L.OnAcquire(y.services[s], c);
    var y1 := SetService(y, s, w);
    if Granted(y.services[s], w) then y1.(owners := y.owners[LeaseId(s, y.services[s].rt.granted) := Operator]) else y1
  }

  function OnMainStops(y: System, s: nat, c: nat): System
    requires s < |y.services| && s < |y.stops|
  {
    var w := L.OnStopCall(y.services[s], c);
    var pc := if y.services[s].f.state == L.Stopped then Returned(true)
              else if w.f.stopDone.Some? then Awaiting(w.f.stopDone.value) else Returned(false);
    SetService(y, s, w).(stops := y.stops[s := pc])
  }

  function Do(y: System, a: Label): System
    requires Enabled(y, a)
  {
    match a
    case OfService(s, sl) => SetService(y, s, L.Do(y.services[s], sl))
    case OfServer(t, tl) => y.(servers := y.servers[t := T.Do(y.servers[t], tl)])
    case OfTracker(cl) => y.(tracker := C.Do(y.tracker, cl))
    case HttpEnters(svc) => OnHttpEnters(y, svc)
    case HttpAcquires(r, c) => OnHttpAcquires(y, r, c)
    case HttpFails(r) => y.(requests := y.requests[r := y.requests[r].(pc := Leaving)])
    case HttpReleases(r) => OnHttpReleases(y, r)
    case HttpLeaves(r) =>
      y.(requests := y.requests[r := y.requests[r].(pc := Left)], drain := D.Do(y.drain, D.Leave(r)))
    case TcpAcquires(t, h, c) => OnTcpAcquires(y, t, h, c)
    case TcpReleases(t, h) => OnTcpReleases(y, t, h)
    case OperatorAcquires(s, c) => OnOperatorAcquires(y, s, c)
    case OperatorReleases(s, l) =>
      SetService(y, s, L.OnRelease(y.services[s], l)).(owners := y.owners - {LeaseId(s, l)})
    case MainBeginsDrain => y.(phase := ServerClosing, drain := D.Do(y.drain, D.BeginDrain))
    case MainClosesServer(fine) => y.(phase := Draining, ok := y.ok && fine)
    case MainDrained(fine) => y.(phase := ConnsWaiting, ok := y.ok && fine)
    case MainConnsGone(fine) => y.(phase := Sweeping, ok := y.ok && fine)
    case MainSwept(fine) => y.(phase := TcpClosing, ok := y.ok && fine)
    case MainShutsTcp(fine) => y.(tcpDone := y.tcpDone + 1, ok := y.ok && fine)
    case MainCancels =>
      y.(phase := StopAll,
         services := seq(|y.services|, i requires 0 <= i < |y.services| => L.Do(y.services[i], L.CancelLifecycle)))
    case MainStops(s, c) => OnMainStops(y, s, c)
    case MainStopReturns(s, settled) => y.(stops := y.stops[s := Returned(settled)])
    case MainExits => y.(phase := Exited)
  }

  // Invariant ---------------------------------------------------------------------------

  // An owner still holds the lease it is recorded for.
  predicate OwnerInv(y: System, x: LeaseId, o: Owner) {
    match o
    case Http(r) => r < |y.requests| && y.requests[r] == Request(x.svc, Holding(x.l))
    case Raw(t, h) => t < |y.servers| && t < |y.target| && y.target[t] == x.svc && x.l in y.servers[t].leases
    case Operator => true
  }

  // Every outstanding lease has an owner that holds it.
  ghost predicate LeasesInv(y: System) {
    && (forall s: nat, l: nat :: s < |y.services| && l in y.services[s].rt.outstanding ==> LeaseId(s, l) in y.owners)
    && (forall x :: x in y.owners ==> OwnerInv(y, x, y.owners[x]))
  }

  // The drain handler's requests are those that have not left.
  ghost predicate RequestsInv(y: System) {
    && D.Inv(y.drain) && C.Inv(y.tracker)
    && |y.requests| == y.drain.admitted
    && (forall r: nat :: r < |y.requests| ==> (r in y.drain.running <==> y.requests[r].pc != Left))
  }

  ghost predicate ServersInv(y: System) {
    |y.target| == |y.servers| && forall t: nat :: t < |y.servers| ==> T.Inv(y.servers[t])
  }

  ghost predicate ServicesInv(y: System) {
    forall s: nat :: s < |y.services| ==> LI.Inv(y.services[s])
  }

  predicate Past(p: Phase, q: Phase) {
    Rank(p) > Rank(q)
  }

  function Rank(p: Phase): nat {
    match p
    case Serving => 0
    case ServerClosing => 1
    case Draining => 2
    case ConnsWaiting => 3
    case Sweeping => 4
    case TcpClosing => 5
    case StopAll => 6
    case Exited => 7
  }

  // What main has established so far, if nothing has gone wrong.
  ghost predicate DrainedInv(y: System) {
    && y.tcpDone <= |y.servers|
    && (Past(y.phase, Serving) ==> y.drain.draining)
    && (y.ok && Past(y.phase, Draining) ==> y.drain.doneClosed)
    && (Past(y.phase, Sweeping) ==> y.tracker.swept)
    && (Past(y.phase, TcpClosing) ==> y.tcpDone == |y.servers|)
    && (y.ok ==> forall t: nat :: t < y.tcpDone ==> y.servers[t].finished)
  }

  ghost predicate StopInv(w: L.World, pc: StopPc) {
    match pc
    case NotCalled => true
    case Awaiting(x) => LI.InProgress(w.f, L.StopDone(x)) || LT.Over(w)
    case Returned(settled) => settled ==> LT.Over(w)
  }

  ghost predicate StopsInv(y: System) {
    && |y.stops| == |y.services|
    && (!Past(y.phase, TcpClosing) ==> forall s: nat :: s < |y.stops| ==> y.stops[s] == NotCalled)
    && (Past(y.phase, TcpClosing) ==> forall s: nat :: s < |y.services| ==> y.services[s].rt.lifecycleDone)
    && (forall s: nat :: s < |y.stops| ==> StopInv(y.services[s], y.stops[s]))
    && (y.phase == Exited ==> forall s: nat :: s < |y.stops| ==> y.stops[s].Returned?)
  }

  ghost predicate Inv(y: System) {
    ServicesInv(y) && ServersInv(y) && RequestsInv(y) && LeasesInv(y) && DrainedInv(y) && StopsInv(y)
  }

  lemma InitInv(cfgs: seq<L.Config>, target: seq<nat>)
    ensures Inv(Init(cfgs, target))
  {
    var y := Init(cfgs, target);
    forall s: nat | s < |y.services| ensures LI.Inv(y.services[s]) { LI.InitInv(cfgs[s]); }
  }

  // What a step of one service means for the rest of the system.
  ghost predicate Follows(w: L.World, w': L.World) {
    && LI.Inv(w')
    && (w.rt.lifecycleDone ==> w'.rt.lifecycleDone)
    && (w.rt.lifecycleDone && LT.Over(w) ==> LT.Over(w'))
    && (w.rt.lifecycleDone ==> forall x: nat ::
          LI.InProgress(w.f, L.StopDone(x)) ==> LI.InProgress(w'.f, L.StopDone(x)) || LT.Over(w'))
  }

  lemma LifecycleStaysDone(w: L.World, l: L.Label)
    requires L.Enabled(w, l)
    ensures w.rt.lifecycleDone ==> L.Do(w, l).rt.lifecycleDone
  {
    if LI.ByWorker(l) { WorkerKeepsDone(w, l); }
  }

  lemma WorkerKeepsDone(w: L.World, l: L.Label)
    requires L.Enabled(w, l) && LI.ByWorker(l)
    ensures w.rt.lifecycleDone ==> L.Do(w, l).rt.lifecycleDone
  {}

  lemma ServiceFollows(w: L.World, l: L.Label)
    requires LI.Inv(w) && L.Enabled(w, l)
    ensures Follows(w, L.Do(w, l))
  {
    LI.StepInv(w, l);
    LifecycleStaysDone(w, l);
    if w.rt.lifecycleDone {
      if LT.Over(w) { LT.OverStep(w, l); }
      forall x: nat | LI.InProgress(w.f, L.StopDone(x))
        ensures LI.InProgress(L.Do(w, l).f, L.StopDone(x)) || LT.Over(L.Do(w, l))
      {
        LT.StopProgressesToOver(w, l, x);
      }
    }
  }

  lemma ReplaceServiceStops(y: System, s: nat, w': L.World)
    requires StopsInv(y) && s < |y.services| && Follows(y.services[s], w')
    ensures StopsInv(SetService(y, s, w'))
  {
    var y' := SetService(y, s, w');
    forall i: nat | i < |y'.stops| ensures StopInv(y'.services[i], y'.stops[i]) {
      assert StopInv(y.services[i], y.stops[i]);
    }
  }

  lemma ReplaceService(y: System, s: nat, w': L.World)
    requires Inv(y) && s < |y.services| && Follows(y.services[s], w')
    requires w'.rt.outstanding <= y.services[s].rt.outstanding
    ensures Inv(SetService(y, s, w'))
  {
    ReplaceServiceStops(y, s, w');
  }

  // Steps -----------------------------------------------------------------------------

  lemma OfServiceInv(y: System, s: nat, sl: L.Label)
    requires Inv(y) && Enabled(y, OfService(s, sl))
    ensures Inv(Do(y, OfService(s, sl)))
  {
    ServiceFollows(y.services[s], sl);
    LT.OnlyCallersTouchLeases(y.services[s], sl);
    ReplaceService(y, s, L.Do(y.services[s], sl));
  }

  lemma TcpKeepsLeases(v: T.Server, tl: T.Label)
    requires T.Enabled(v, tl) && OwnTcp(tl)
    ensures T.Do(v, tl).leases == v.leases
  {
    if T.ByHandler(tl) && !tl.TracksBackend? { HandlerKeepsLeases(v, tl); }
  }

  lemma HandlerKeepsLeases(v: T.Server, tl: T.Label)
    requires T.Enabled(v, tl) && OwnTcp(tl) && T.ByHandler(tl) && !tl.TracksBackend?
    ensures T.OnHandler(v, tl).leases == v.leases
  {}

  lemma TcpStaysFinished(v: T.Server, tl: T.Label)
    requires T.Inv(v) && T.Enabled(v, tl) && v.finished
    ensures T.Do(v, tl).finished
  {
    T.ClosingStep(v, tl);
  }

  lemma OfServerInv(y: System, t: nat, tl: T.Label)
    requires Inv(y) && Enabled(y, OfServer(t, tl))
    ensures Inv(Do(y, OfServer(t, tl)))
  {
    var v := y.servers[t];
    T.StepInv(v, tl);
    TcpKeepsLeases(v, tl);
    if v.finished { TcpStaysFinished(v, tl); }
    ReplaceServer(y, t, T.Do(v, tl));
  }

  lemma ReplaceServer(y: System, t: nat, v: T.Server)
    requires Inv(y) && t < |y.servers|
    requires T.Inv(v) && v.leases == y.servers[t].leases && (y.servers[t].finished ==> v.finished)
    ensures Inv(y.(servers := y.servers[t := v]))
  {
    var y' := y.(servers := y.servers[t := v]);
    forall x | x in y'.owners ensures OwnerInv(y', x, y'.owners[x]) { assert OwnerInv(y, x, y.owners[x]); }
  }

  lemma SweptStays(t: C.Tracker, cl: C.Label)
    requires C.Enabled(t, cl) && t.swept
    ensures C.Do(t, cl).swept
  {}

  lemma OfTrackerInv(y: System, cl: C.Label)
    requires Inv(y) && Enabled(y, OfTracker(cl))
    ensures Inv(Do(y, OfTracker(cl)))
  {
    C.StepInv(y.tracker, cl);
    if y.tracker.swept { SweptStays(y.tracker, cl); }
    ReplaceTracker(y, C.Do(y.tracker, cl));
  }

  lemma ReplaceTracker(y: System, t: C.Tracker)
    requires Inv(y) && C.Inv(t) && (y.tracker.swept ==> t.swept)
    ensures Inv(y.(tracker := t))
  {
    var y' := y.(tracker := t);
    forall x | x in y'.owners ensures OwnerInv(y', x, y'.owners[x]) { assert OwnerInv(y, x, y.owners[x]); }
  }

  lemma HttpEntersInv(y: System, svc: nat)
    requires Inv(y) && Enabled(y, HttpEnters(svc))
    ensures Inv(Do(y, HttpEnters(svc)))
  {
    EnterFacts(y.drain);
    HttpEnteredInv(y, svc, D.Do(y.drain, D.Enter));
  }

  lemma EnterFacts(d: D.Handler)
    requires D.Inv(d)
    ensures var d' := D.Do(d, D.Enter);
      && D.Inv(d') && (d.draining ==> d'.draining) && (d.doneClosed ==> d'.doneClosed)
      && (d'.admitted == d.admitted ==> d'.running == d.running)
      && (d'.admitted != d.admitted ==> d'.admitted == d.admitted + 1 && d'.running == d.running + {d.admitted})
  {
    D.StepInv(d, D.Enter);
  }

  lemma HttpEnteredInv(y: System, svc: nat, d': D.Handler)
    requires Inv(y) && Enabled(y, HttpEnters(svc)) && d' == D.Do(y.drain, D.Enter)
    requires D.Inv(d') && (y.drain.draining ==> d'.draining) && (y.drain.doneClosed ==> d'.doneClosed)
    requires d'.admitted == y.drain.admitted ==> d'.running == y.drain.running
    requires d'.admitted != y.drain.admitted ==>
               d'.admitted == y.drain.admitted + 1 && d'.running == y.drain.running + {y.drain.admitted}
    ensures Inv(OnHttpEnters(y, svc))
  {
    hide LI.Inv, T.Inv, C.Inv, D.Do, D.Inv, LT.Over, StopInv;
    var y' := OnHttpEnters(y, svc);
    forall x | x in y'.owners ensures OwnerInv(y', x, y'.owners[x]) { assert OwnerInv(y, x, y.owners[x]); }
  }

  // An acquire gives its caller the next lease name or changes no lease.
  lemma AcquireFollows(w: L.World, c: nat)
    requires LI.Inv(w) && c !in w.rt.waiters
    ensures Follows(w, L.OnAcquire(w, c))
    ensures Granted(w, L.OnAcquire(w, c)) ==>
              L.OnAcquire(w, c).rt.outstanding == w.rt.outstanding + {w.rt.granted} &&
              w.rt.granted !in w.rt.outstanding && !w.rt.lifecycleDone
    ensures !Granted(w, L.OnAcquire(w, c)) ==> L.OnAcquire(w, c).rt.outstanding == w.rt.outstanding
  {
    ServiceFollows(w, L.Acquire(c));
  }

  lemma ReleaseFollows(w: L.World, l: nat)
    requires LI.Inv(w) && l < w.rt.granted
    ensures Follows(w, L.OnRelease(w, l))
    ensures L.OnRelease(w, l).rt.outstanding == w.rt.outstanding - {l}
  {
    ServiceFollows(w, L.Release(l));
  }

  // Granting and releasing, for any service step that does so ---------------------------

  lemma GrantLeases(y: System, y': System, x: LeaseId, o: Owner)
    requires LeasesInv(y) && x.svc < |y.services| && |y'.services| == |y.services|
    requires forall s: nat :: s < |y.services| && s != x.svc ==> y'.services[s] == y.services[s]
    requires y'.services[x.svc].rt.outstanding == y.services[x.svc].rt.outstanding + {x.l}
    requires y'.owners == y.owners[x := o] && OwnerInv(y', x, o)
    requires forall z :: z in y.owners && z != x ==> OwnerInv(y', z, y.owners[z])
    ensures LeasesInv(y')
  {}

  lemma ReleaseLeases(y: System, y': System, x: LeaseId)
    requires LeasesInv(y) && x.svc < |y.services| && |y'.services| == |y.services|
    requires forall s: nat :: s < |y.services| && s != x.svc ==> y'.services[s] == y.services[s]
    requires y'.services[x.svc].rt.outstanding == y.services[x.svc].rt.outstanding - {x.l}
    requires y'.owners == y.owners - {x}
    requires forall z :: z in y.owners && z != x ==> OwnerInv(y', z, y.owners[z])
    ensures LeasesInv(y')
  {
    forall s: nat, l: nat | s < |y'.services| && l in y'.services[s].rt.outstanding ensures LeaseId(s, l) in y'.owners {
      assert l in y.services[s].rt.outstanding;
      assert LeaseId(s, l) in y.owners && LeaseId(s, l) != x;
    }
    forall z | z in y'.owners ensures OwnerInv(y', z, y'.owners[z]) {}
  }

  lemma HttpGrantedInv(y: System, r: nat, w': L.World)
    requires Inv(y) && r < |y.requests| && y.requests[r].pc == Acquiring && y.requests[r].svc < |y.services|
    requires Follows(y.services[y.requests[r].svc], w')
    requires var w := y.services[y.requests[r].svc]; w'.rt.outstanding == w.rt.outstanding + {w.rt.granted}
    ensures Inv(HttpGranted(y, r, w'))
  {
    hide LI.Inv, T.Inv, D.Inv, C.Inv, LT.Over;
    var s, y' := y.requests[r].svc, HttpGranted(y, r, w');
    ReplaceServiceStops(y, s, w');
    forall z | z in y.owners ensures OwnerInv(y', z, y.owners[z]) { assert OwnerInv(y, z, y.owners[z]); }
    GrantLeases(y, y', LeaseId(s, y.services[s].rt.granted), Http(r));
  }

  lemma HttpReleasedInv(y: System, r: nat, w': L.World)
    requires Inv(y) && Enabled(y, HttpReleases(r))
    requires Follows(y.services[y.requests[r].svc], w')
    requires w'.rt.outstanding == y.services[y.requests[r].svc].rt.outstanding - {y.requests[r].pc.l}
    ensures Inv(HttpReleased(y, r, w'))
  {
    hide LI.Inv, T.Inv, D.Inv, C.Inv, LT.Over;
    var s, y' := y.requests[r].svc, HttpReleased(y, r, w');
    ReplaceServiceStops(y, s, w');
    var x := LeaseId(s, y.requests[r].pc.l);
    forall z | z in y.owners && z != x ensures OwnerInv(y', z, y.owners[z]) { assert OwnerInv(y, z, y.owners[z]); }
    ReleaseLeases(y, y', x);
  }

  lemma TcpGrantedInv(y: System, t: nat, h: nat, w': L.World, v': T.Server)
    requires Inv(y) && t < |y.servers| && y.target[t] < |y.services|
    requires Follows(y.services[y.target[t]], w') && T.Inv(v') && !y.servers[t].finished
    requires var w := y.services[y.target[t]];
      w'.rt.outstanding == w.rt.outstanding + {w.rt.granted} && v'.leases == y.servers[t].leases[w.rt.granted := h]
    ensures Inv(TcpGranted(y, t, h, w', v'))
  {
    hide LI.Inv, T.Inv, D.Inv, C.Inv, LT.Over;
    var s, y' := y.target[t], TcpGranted(y, t, h, w', v');
    ReplaceServiceStops(y, s, w');
    forall z | z in y.owners ensures OwnerInv(y', z, y.owners[z]) { assert OwnerInv(y, z, y.owners[z]); }
    GrantLeases(y, y', LeaseId(s, y.services[s].rt.granted), Raw(t, h));
  }

  lemma TcpReleasedInv(y: System, t: nat, l: nat, w': L.World, v': T.Server)
    requires Inv(y) && t < |y.servers| && y.target[t] < |y.services|
    requires Follows(y.services[y.target[t]], w') && T.Inv(v') && !y.servers[t].finished
    requires w'.rt.outstanding == y.services[y.target[t]].rt.outstanding - {l}
    requires v'.leases == y.servers[t].leases - {l}
    ensures Inv(TcpReleased(y, t, l, w', v'))
  {
    hide LI.Inv, T.Inv, D.Inv, C.Inv, LT.Over;
    var s, y' := y.target[t], TcpReleased(y, t, l, w', v');
    ReplaceServiceStops(y, s, w');
    var x := LeaseId(s, l);
    forall z | z in y.owners && z != x ensures OwnerInv(y', z, y.owners[z]) { assert OwnerInv(y, z, y.owners[z]); }
    ReleaseLeases(y, y', x);
  }

  lemma OperatorGrantedInv(y: System, s: nat, w': L.World)
    requires Inv(y) && s < |y.services| && Follows(y.services[s], w')
    requires w'.rt.outstanding == y.services[s].rt.outstanding + {y.services[s].rt.granted}
    ensures Inv(SetService(y, s, w').(owners := y.owners[LeaseId(s, y.services[s].rt.granted) := Operator]))
  {
    var x := LeaseId(s, y.services[s].rt.granted);
    var y' := SetService(y, s, w').(owners := y.owners[x := Operator]);
    ReplaceServiceStops(y, s, w');
    forall z | z in y.owners ensures OwnerInv(y', z, y.owners[z]) { assert OwnerInv(y, z, y.owners[z]); }
    GrantLeases(y, y', x, Operator);
  }

  lemma OperatorReleasedInv(y: System, s: nat, l: nat, w': L.World)
    requires Inv(y) && s < |y.services| && Follows(y.services[s], w')
    requires w'.rt.outstanding == y.services[s].rt.outstanding - {l}
    ensures Inv(SetService(y, s, w').(owners := y.owners - {LeaseId(s, l)}))
  {
    var y' := SetService(y, s, w').(owners := y.owners - {LeaseId(s, l)});
    ReplaceServiceStops(y, s, w');
    forall z | z in y.owners ensures OwnerInv(y', z, y.owners[z]) { assert OwnerInv(y, z, y.owners[z]); }
    ReleaseLeases(y, y', LeaseId(s, l));
  }

  lemma HttpAcquiresInv(y: System, r: nat, c: nat)
    requires Inv(y) && Enabled(y, HttpAcquires(r, c))
    ensures Inv(Do(y, HttpAcquires(r, c)))
  {
    var s := y.requests[r].svc;
    var w' := L.OnAcquire(y.services[s], c);
    AcquireFollows(y.services[s], c);
    if Granted(y.services[s], w') { HttpGrantedInv(y, r, w'); } else { ReplaceService(y, s, w'); }
  }

  lemma HttpFailsInv(y: System, r: nat)
    requires Inv(y) && Enabled(y, HttpFails(r))
    ensures Inv(Do(y, HttpFails(r)))
  {
    var y' := Do(y, HttpFails(r));
    forall x | x in y'.owners ensures OwnerInv(y', x, y'.owners[x]) { assert OwnerInv(y, x, y.owners[x]); }
  }

  lemma HttpReleasesInv(y: System, r: nat)
    requires Inv(y) && Enabled(y, HttpReleases(r))
    ensures Inv(Do(y, HttpReleases(r)))
  {
    var s, l := y.requests[r].svc, y.requests[r].pc.l;
    ReleaseFollows(y.services[s], l);
    HttpReleasedInv(y, r, L.OnRelease(y.services[s], l));
  }

  lemma HttpLeavesInv(y: System, r: nat)
    requires Inv(y) && Enabled(y, HttpLeaves(r))
    ensures Inv(Do(y, HttpLeaves(r)))
  {
    D.StepInv(y.drain, D.Leave(r));
    var y' := Do(y, HttpLeaves(r));
    forall x | x in y'.owners ensures OwnerInv(y', x, y'.owners[x]) { assert OwnerInv(y, x, y.owners[x]); }
  }

  lemma TcpGrantFacts(v: T.Server, h: nat, l: nat)
    requires T.Inv(v) && T.Enabled(v, T.Granted(h, l))
    ensures T.Inv(T.Do(v, T.Granted(h, l))) && !v.finished
    ensures T.Do(v, T.Granted(h, l)).leases == v.leases[l := h]
  {
    T.GrantedInv(v, h, l);
    assert T.HandlerInv(v, h, v.handlers[h]);
  }

  lemma TcpReleaseFacts(v: T.Server, h: nat)
    requires T.Inv(v) && T.Enabled(v, T.Releases(h))
    ensures T.Inv(T.Do(v, T.Releases(h))) && !v.finished
    ensures T.Do(v, T.Releases(h)).leases == v.leases - {v.handlers[h].lease.value}
  {
    T.ReleasesInv(v, h);
    assert T.HandlerInv(v, h, v.handlers[h]);
  }

  lemma TcpAcquiresInv(y: System, t: nat, h: nat, c: nat)
    requires Inv(y) && Enabled(y, TcpAcquires(t, h, c))
    ensures Inv(Do(y, TcpAcquires(t, h, c)))
  {
    var s := y.target[t];
    var w, w' := y.services[s], L.OnAcquire(y.services[s], c);
    AcquireFollows(w, c);
    if Granted(w, w') {
      TcpGrantFacts(y.servers[t], h, w.rt.granted);
      TcpGrantedInv(y, t, h, w', T.Do(y.servers[t], T.Granted(h, w.rt.granted)));
    } else {
      ReplaceService(y, s, w');
    }
  }

  lemma TcpReleasesInv(y: System, t: nat, h: nat)
    requires Inv(y) && Enabled(y, TcpReleases(t, h))
    ensures Inv(Do(y, TcpReleases(t, h)))
  {
    var s, l := y.target[t], y.servers[t].handlers[h].lease.value;
    ReleaseFollows(y.services[s], l);
    TcpReleaseFacts(y.servers[t], h);
    TcpReleasedInv(y, t, l, L.OnRelease(y.services[s], l), T.Do(y.servers[t], T.Releases(h)));
  }

  lemma OperatorAcquiresInv(y: System, s: nat, c: nat)
    requires Inv(y) && Enabled(y, OperatorAcquires(s, c))
    ensures Inv(Do(y, OperatorAcquires(s, c)))
  {
    var w, w' := y.services[s], L.OnAcquire(y.services[s], c);
    AcquireFollows(w, c);
    if Granted(w, w') {
      OperatorGrantedInv(y, s, w');
    } else {
      ReplaceService(y, s, w');
    }
  }

  lemma OperatorReleasesInv(y: System, s: nat, l: nat)
    requires Inv(y) && Enabled(y, OperatorReleases(s, l))
    ensures Inv(Do(y, OperatorReleases(s, l)))
  {
    ReleaseFollows(y.services[s], l);
    OperatorReleasedInv(y, s, l, L.OnRelease(y.services[s], l));
  }

  lemma MainBeginsDrainInv(y: System)
    requires Inv(y) && Enabled(y, MainBeginsDrain)
    ensures Inv(Do(y, MainBeginsDrain))
  {
    D.StepInv(y.drain, D.BeginDrain);
    var y' := Do(y, MainBeginsDrain);
    forall x | x in y'.owners ensures OwnerInv(y', x, y'.owners[x]) { assert OwnerInv(y, x, y.owners[x]); }
  }

  lemma SameHolders(y: System, y': System)
    requires LeasesInv(y) && y'.services == y.services && y'.requests == y.requests && y'.servers == y.servers
    requires y'.target == y.target && y'.owners == y.owners
    ensures LeasesInv(y')
  {
    forall x | x in y'.owners ensures OwnerInv(y', x, y'.owners[x]) { assert OwnerInv(y, x, y.owners[x]); }
  }

  // The main goroutine's next steps change only its own progress.
  lemma MainProceedsInv(y: System, a: Label)
    requires Inv(y) && Enabled(y, a)
    requires a.MainClosesServer? || a.MainDrained? || a.MainConnsGone? || a.MainSwept? || a.MainShutsTcp?
    ensures Inv(Do(y, a))
  {
    MainProgress(y, a);
    SameHolders(y, Do(y, a));
  }

  lemma MainProgress(y: System, a: Label)
    requires DrainedInv(y) && StopsInv(y) && Enabled(y, a)
    requires a.MainClosesServer? || a.MainDrained? || a.MainConnsGone? || a.MainSwept? || a.MainShutsTcp?
    ensures DrainedInv(Do(y, a)) && StopsInv(Do(y, a))
    ensures Do(y, a) == y.(phase := Do(y, a).phase, ok := Do(y, a).ok, tcpDone := Do(y, a).tcpDone)
  {
    hide LI.Inv, T.Inv, D.Inv, C.Inv, LT.Over, StopInv;
    MainKeepsStops(y, a);
  }

  lemma MainKeepsStops(y: System, a: Label)
    requires StopsInv(y) && Enabled(y, a)
    requires a.MainClosesServer? || a.MainDrained? || a.MainConnsGone? || a.MainSwept? || a.MainShutsTcp?
    ensures StopsInv(Do(y, a))
  {
    hide LT.Over, StopInv;
  }

  lemma MainCancelsInv(y: System)
    requires Inv(y) && Enabled(y, MainCancels)
    ensures Inv(Do(y, MainCancels))
  {
    hide LI.Inv, T.Inv, D.Inv, C.Inv, L.Do;
    var y' := Do(y, MainCancels);
    forall s: nat | s < |y'.services|
      ensures LI.Inv(y'.services[s]) && y'.services[s].rt.lifecycleDone
      ensures y'.services[s].rt.outstanding == y.services[s].rt.outstanding
    {
      CancelFacts(y.services[s]);
    }
    forall x | x in y'.owners ensures OwnerInv(y', x, y'.owners[x]) { assert OwnerInv(y, x, y.owners[x]); }
  }

  lemma CancelFacts(w: L.World)
    requires LI.Inv(w)
    ensures LI.Inv(L.Do(w, L.CancelLifecycle))
    ensures L.Do(w, L.CancelLifecycle) == w.(rt := w.rt.(lifecycleDone := true))
  {
    LI.CancelLifecycleInv(w);
  }

  lemma MainStopsInv(y: System, s: nat, c: nat)
    requires Inv(y) && Enabled(y, MainStops(s, c))
    ensures Inv(Do(y, MainStops(s, c)))
  {
    hide Inv, L.OnStopCall, Follows;
    var w, w' := y.services[s], L.OnStopCall(y.services[s], c);
    assert LI.Inv(w) && w.rt.lifecycleDone by { Cancelled(y, s); }
    StopCallFacts(w, c);
    ReplaceService(y, s, w');
    RecordStop(SetService(y, s, w'), s, OnMainStops(y, s, c).stops[s]);
  }

  lemma Cancelled(y: System, s: nat)
    requires Inv(y) && y.phase == StopAll && s < |y.services|
    ensures LI.Inv(y.services[s]) && y.services[s].rt.lifecycleDone
  {}

  lemma StopCallFacts(w: L.World, c: nat)
    requires LI.Inv(w) && c !in w.rt.waiters && w.rt.lifecycleDone
    ensures var w' := L.OnStopCall(w, c);
      && Follows(w, w') && w'.rt.outstanding == w.rt.outstanding
      && if w.f.state == L.Stopped then LT.Over(w')
         else w'.f.stopDone.Some? && LI.InProgress(w'.f, L.StopDone(w'.f.stopDone.value))
  {
    ServiceFollows(w, L.StopCall(c));
    if w.f.state == L.Stopped { LI.DownMeansDead(w); }
  }

  lemma RecordStop(y: System, s: nat, pc: StopPc)
    requires Inv(y) && s < |y.stops| && y.phase == StopAll && StopInv(y.services[s], pc)
    ensures Inv(y.(stops := y.stops[s := pc]))
  {
    var y' := y.(stops := y.stops[s := pc]);
    forall i: nat | i < |y'.stops| ensures StopInv(y'.services[i], y'.stops[i]) {
      assert StopInv(y.services[i], y.stops[i]);
    }
    forall x | x in y'.owners ensures OwnerInv(y', x, y'.owners[x]) { assert OwnerInv(y, x, y.owners[x]); }
  }

  lemma ClosedMeansOver(w: L.World, x: nat)
    requires LI.Inv(w) && L.ChannelClosed(w.rt, L.StopDone(x))
    ensures !LI.InProgress(w.f, L.StopDone(x))
  {}

  lemma MainStopReturnsInv(y: System, s: nat, settled: bool)
    requires Inv(y) && Enabled(y, MainStopReturns(s, settled))
    ensures Inv(Do(y, MainStopReturns(s, settled)))
  {
    assert StopInv(y.services[s], y.stops[s]);
    if settled { ClosedMeansOver(y.services[s], y.stops[s].s); }
    RecordStop(y, s, Returned(settled));
  }

  lemma MainExitsInv(y: System)
    requires Inv(y) && Enabled(y, MainExits)
    ensures Inv(Do(y, MainExits))
  {
    hide LI.Inv, T.Inv, D.Inv, C.Inv, LT.Over;
    SameHolders(y, Do(y, MainExits));
    SameStops(y, Do(y, MainExits));
  }

  lemma SameStops(y: System, y': System)
    requires StopsInv(y) && y'.services == y.services && y'.stops == y.stops && y.phase == StopAll && y'.phase == Exited
    requires forall s: nat :: s < |y.stops| ==> y.stops[s].Returned?
    ensures StopsInv(y')
  {}

  predicate ByMain(a: Label) {
    || a.MainBeginsDrain? || a.MainClosesServer? || a.MainDrained? || a.MainConnsGone? || a.MainSwept?
    || a.MainShutsTcp? || a.MainCancels? || a.MainStops? || a.MainStopReturns? || a.MainExits?
  }

  lemma MainStepInv(y: System, a: Label)
    requires Inv(y) && Enabled(y, a) && ByMain(a)
    ensures Inv(Do(y, a))
  {
    hide Inv, Enabled, Do;
    if a == MainBeginsDrain {
      MainBeginsDrainInv(y);
    } else if a == MainCancels {
      MainCancelsInv(y);
    } else if a.MainStops? {
      MainStopsInv(y, a.s, a.c);
    } else if a.MainStopReturns? {
      MainStopReturnsInv(y, a.s, a.settled);
    } else if a == MainExits {
      MainExitsInv(y);
    } else {
      MainProceedsInv(y, a);
    }
  }

  lemma OtherStepInv(y: System, a: Label)
    requires Inv(y) && Enabled(y, a) && !ByMain(a)
    ensures Inv(Do(y, a))
  {
    hide Inv, Enabled, Do;
    match a
    case OfService(s, sl) => OfServiceInv(y, s, sl);
    case OfServer(t, tl) => OfServerInv(y, t, tl);
    case OfTracker(cl) => OfTrackerInv(y, cl);
    case HttpEnters(svc) => HttpEntersInv(y, svc);
    case HttpAcquires(r, c) => HttpAcquiresInv(y, r, c);
    case HttpFails(r) => HttpFailsInv(y, r);
    case HttpReleases(r) => HttpReleasesInv(y, r);
    case HttpLeaves(r) => HttpLeavesInv(y, r);
    case TcpAcquires(t, h, c) => TcpAcquiresInv(y, t, h, c);
    case TcpReleases(t, h) => TcpReleasesInv(y, t, h);
    case OperatorAcquires(s, c) => OperatorAcquiresInv(y, s, c);
    case OperatorReleases(s, l) => OperatorReleasesInv(y, s, l);
  }

  lemma StepInv(y: System, a: Label)
    requires Inv(y) && Enabled(y, a)
    ensures Inv(Do(y, a))
  {
    if ByMain(a) { MainStepInv(y, a); } else { OtherStepInv(y, a); }
  }

  // Runs --------------------------------------------------------------------------------

  ghost predicate IsRun(cfgs: seq<L.Config>, target: seq<nat>, ys: seq<System>, az: seq<Label>) {
    && |ys| == |az| + 1 && ys[0] == Init(cfgs, target)
    && (forall i :: 0 <= i < |az| ==> Enabled(ys[i], az[i]) && ys[i + 1] == Do(ys[i], az[i]))
  }

  lemma {:induction false} RunInv(cfgs: seq<L.Config>, target: seq<nat>, ys: seq<System>, az: seq<Label>, i: nat)
    requires IsRun(cfgs, target, ys, az) && i < |ys|
    ensures Inv(ys[i])
  {
    if i == 0 {
      InitInv(cfgs, target);
    } else {
      RunInv(cfgs, target, ys, az, i - 1);
      assert Enabled(ys[i - 1], az[i - 1]);
      StepInv(ys[i - 1], az[i - 1]);
    }
  }

  // main has come to StopAll, and DrainServer and every TCP Shutdown before it returned nil.
  predicate AllDrained(y: System) {
    y.ok && (Past(y.phase, TcpClosing) || (y.phase == TcpClosing && y.tcpDone == |y.servers|))
  }

  // Where main is and what it has seen; only its own steps change that.
  predicate SameMain(y: System, y': System) {
    y'.phase == y.phase && y'.ok == y.ok && y'.tcpDone == y.tcpDone && |y'.servers| == |y.servers|
  }

  lemma AllDrainedStep(y: System, a: Label)
    requires Enabled(y, a) && AllDrained(y)
    ensures AllDrained(Do(y, a))
  {
    if ByMain(a) { MainStaysPast(y, a); } else { OthersKeepMain(y, a); }
  }

  lemma MainStaysPast(y: System, a: Label)
    requires Enabled(y, a) && AllDrained(y) && ByMain(a)
    ensures AllDrained(Do(y, a))
  {
    hide L.OnStopCall, L.Enabled, T.Enabled, C.Enabled;
  }

  lemma OthersKeepMain(y: System, a: Label)
    requires Enabled(y, a) && !ByMain(a)
    ensures SameMain(y, Do(y, a))
  {}

  lemma OnlyOperatorsOwn(y: System, x: LeaseId)
    requires Inv(y) && AllDrained(y)
    requires x.svc < |y.services| && x.l in y.services[x.svc].rt.outstanding
    ensures x in y.owners && y.owners[x] == Operator
  {
    assert LeaseId(x.svc, x.l) == x;
    assert OwnerInv(y, x, y.owners[x]);
    if y.owners[x].Raw? { NoRawLeases(y, y.owners[x].t); }
  }

  lemma NoRawLeases(y: System, t: nat)
    requires ServersInv(y) && DrainedInv(y) && AllDrained(y) && t < |y.servers|
    ensures y.servers[t].leases == map[]
  {
    T.FinishedMeans(y.servers[t]);
  }

  lemma {:induction false} AllDrainedStays(cfgs: seq<L.Config>, target: seq<nat>, ys: seq<System>, az: seq<Label>,
                                           i: nat, j: nat)
    requires IsRun(cfgs, target, ys, az) && i <= j < |ys| && AllDrained(ys[i])
    ensures AllDrained(ys[j])
  {
    if i < j {
      AllDrainedStays(cfgs, target, ys, az, i, j - 1);
      assert Enabled(ys[j - 1], az[j - 1]);
      AllDrainedStep(ys[j - 1], az[j - 1]);
    }
  }

  // End to end: if DrainServer and every TCP Shutdown return nil, then from the moment
  // StopAll starts and for ever after no HTTP, gRPC or TCP client holds a lease of any
  // service; whatever is still outstanding belongs to an operator's own start action.
  lemma NoClientLeaseAfterDrain(cfgs: seq<L.Config>, target: seq<nat>, ys: seq<System>, az: seq<Label>, i: nat,
                                j: nat, x: LeaseId)
    requires IsRun(cfgs, target, ys, az) && i <= j < |ys| && AllDrained(ys[i])
    ensures AllDrained(ys[j])
    ensures x.svc < |ys[j].services| && x.l in ys[j].services[x.svc].rt.outstanding ==>
              x in ys[j].owners && ys[j].owners[x] == Operator
  {
    AllDrainedStays(cfgs, target, ys, az, i, j);
    RunInv(cfgs, target, ys, az, j);
    if x.svc < |ys[j].services| && x.l in ys[j].services[x.svc].rt.outstanding { OnlyOperatorsOwn(ys[j], x); }
  }

  // Once StopAll has cancelled the lifecycle nobody at all is granted a lease.
  lemma NoGrantAfterCancel(cfgs: seq<L.Config>, target: seq<nat>, ys: seq<System>, az: seq<Label>, i: nat, s: nat,
                           c: nat)
    requires IsRun(cfgs, target, ys, az) && i < |ys| && Past(ys[i].phase, TcpClosing)
    requires s < |ys[i].services| && c !in ys[i].services[s].rt.waiters
    ensures L.OnAcquire(ys[i].services[s], c) == ys[i].services[s]
  {
    RunInv(cfgs, target, ys, az, i);
  }

  // When StopAll has returned, every service whose Stop did not give up waiting is over: its
  // processes are gone, and it will never launch another or run again.
  lemma StopAllLeavesNothingRunning(cfgs: seq<L.Config>, target: seq<nat>, ys: seq<System>, az: seq<Label>, i: nat,
                                    s: nat)
    requires IsRun(cfgs, target, ys, az) && i < |ys| && s < |ys[i].services|
    requires s < |ys[i].stops| && ys[i].stops[s] == Returned(true)
    ensures LT.Over(ys[i].services[s])
    ensures forall p: nat :: p < |ys[i].services[s].rt.procs| ==> L.Dead(ys[i].services[s].rt, p)
  {
    RunInv(cfgs, target, ys, az, i);
    assert StopInv(ys[i].services[s], ys[i].stops[s]);
  }

  // ... in the state where it returned and in every later one.
  lemma {:induction false} StopStaysReturned(cfgs: seq<L.Config>, target: seq<nat>, ys: seq<System>,
                                             az: seq<Label>, i: nat, j: nat, s: nat)
    requires IsRun(cfgs, target, ys, az) && i <= j < |ys| && s < |ys[i].stops| && ys[i].stops[s].Returned?
    ensures |ys[j].stops| == |ys[i].stops| && ys[j].stops[s] == ys[i].stops[s]
  {
    if i < j {
      StopStaysReturned(cfgs, target, ys, az, i, j - 1, s);
      assert Enabled(ys[j - 1], az[j - 1]);
      StopsOnlyAdvance(ys[j - 1], az[j - 1], s);
    }
  }

  lemma StopsOnlyAdvance(y: System, a: Label, s: nat)
    requires Enabled(y, a) && s < |y.stops| && y.stops[s].Returned?
    ensures |Do(y, a).stops| == |y.stops| && Do(y, a).stops[s] == y.stops[s]
  {
    if !ByMain(a) { OthersKeepStops(y, a); }
  }

  lemma OthersKeepStops(y: System, a: Label)
    requires Enabled(y, a) && !ByMain(a)
    ensures Do(y, a).stops == y.stops
  {}

  // main leaves StopAll only when every Stop has returned.
  lemma ExitWaitsForAll(cfgs: seq<L.Config>, target: seq<nat>, ys: seq<System>, az: seq<Label>, i: nat, s: nat)
    requires IsRun(cfgs, target, ys, az) && i < |ys| && ys[i].phase == Exited && s < |ys[i].services|
    ensures s < |ys[i].stops| && ys[i].stops[s].Returned?
  {
    RunInv(cfgs, target, ys, az, i);
  }
}
