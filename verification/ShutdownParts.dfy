// The composed system of Shutdown.dfy seen from each of its parts: every step is, for every
// service, TCP server, drain handler and tracker, a step of its own or none, so what is proved of
// their runs holds within the whole; and main and the requests go through their lines in order.

module ShutdownParts {
  import opened Options
  import opened Shutdown
  import L = Lifecycle
  import T = Tcp
  import D = Drain
  import C = Connections

  // What a step means to service s.
  function ServiceLabel(y: System, a: Label, s: nat): Option<L.Label>
    requires Enabled(y, a)
  {
    match a
    case OfService(i, sl) => if i == s then Some(sl) else None
    case HttpAcquires(r, c) => if y.requests[r].svc == s then Some(L.Acquire(c)) else None
    case HttpReleases(r) => if y.requests[r].svc == s then Some(L.Release(y.requests[r].pc.l)) else None
    case TcpAcquires(t, h, c) => if y.target[t] == s then Some(L.Acquire(c)) else None
    case TcpReleases(t, h) => if y.target[t] == s then Some(L.Release(y.servers[t].handlers[h].lease.value)) else None
    case OperatorAcquires(i, c) => if i == s then Some(L.Acquire(c)) else None
    case OperatorReleases(i, l) => if i == s then Some(L.Release(l)) else None
    case MainCancels => Some(L.CancelLifecycle)
    case MainStops(i, c) => if i == s then Some(L.StopCall(c)) else None
    case _ => None
  }

  // ... to TCP server t, whose handler is granted the service's next lease if there is one,
  function ServerLabel(y: System, a: Label, t: nat): Option<T.Label>
    requires Enabled(y, a)
  {
    match a
    case OfServer(i, tl) => if i == t then Some(tl) else None
    case TcpAcquires(i, h, c) =>
      var w := y.services[y.target[i]];
      if i == t && Granted(w, L.OnAcquire(w, c)) then Some(T.Granted(h, w.rt.granted)) else None
    case TcpReleases(i, h) => if i == t then Some(T.Releases(h)) else None
    case _ => None
  }

  // ... to the drain handler,
  function DrainLabel(a: Label): Option<D.Label> {
    match a
    case HttpEnters(_) => Some(D.Enter)
    case HttpLeaves(r) => Some(D.Leave(r))
    case MainBeginsDrain => Some(D.BeginDrain)
    case _ => None
  }

  // ... and to the tracker.
  function TrackerLabel(a: Label): Option<C.Label> {
    match a
    case OfTracker(cl) => Some(cl)
    case _ => None
  }

  // Each part takes that step, or stays as it is.
  predicate ServiceTakes(w: L.World, l: Option<L.Label>, w': L.World) {
    match l case None => w' == w case Some(sl) => L.Enabled(w, sl) && w' == L.Do(w, sl)
  }

  predicate ServerTakes(v: T.Server, l: Option<T.Label>, v': T.Server) {
    match l case None => v' == v case Some(tl) => T.Enabled(v, tl) && v' == T.Do(v, tl)
  }

  predicate DrainTakes(d: D.Handler, l: Option<D.Label>, d': D.Handler) {
    match l case None => d' == d case Some(dl) => D.Enabled(d, dl) && d' == D.Do(d, dl)
  }

  predicate TrackerTakes(t: C.Tracker, l: Option<C.Label>, t': C.Tracker) {
    match l case None => t' == t case Some(cl) => C.Enabled(t, cl) && t' == C.Do(t, cl)
  }

  lemma ServiceSteps(y: System, a: Label, s: nat)
    requires Enabled(y, a) && s < |y.services|
    ensures |Do(y, a).services| == |y.services|
    ensures ServiceTakes(y.services[s], ServiceLabel(y, a, s), Do(y, a).services[s])
  {
    hide L.OnAcquire, L.OnRelease, L.OnStopCall, D.Do, C.Do, T.Do, L.Do, L.Enabled;
    if a.HttpAcquires? || a.HttpReleases? {
      RequestServiceSteps(y, a, s);
    } else if a.TcpAcquires? || a.TcpReleases? {
      HandlerServiceSteps(y, a, s);
    } else if a.OperatorAcquires? || a.OperatorReleases? || a.MainStops? || a.MainCancels? {
      OperatorServiceSteps(y, a, s);
    }
  }

  lemma RequestServiceSteps(y: System, a: Label, s: nat)
    requires Enabled(y, a) && s < |y.services| && (a.HttpAcquires? || a.HttpReleases?)
    ensures |Do(y, a).services| == |y.services|
    ensures ServiceTakes(y.services[s], ServiceLabel(y, a, s), Do(y, a).services[s])
  {
    hide L.OnAcquire, L.OnRelease, L.Do, L.Enabled;
    match a
    case HttpAcquires(r, c) => AcquireIsStep(y.services[y.requests[r].svc], c);
    case HttpReleases(r) => ReleaseIsStep(y.services[y.requests[r].svc], y.requests[r].pc.l);
  }

  lemma HandlerServiceSteps(y: System, a: Label, s: nat)
    requires Enabled(y, a) && s < |y.services| && (a.TcpAcquires? || a.TcpReleases?)
    ensures |Do(y, a).services| == |y.services|
    ensures ServiceTakes(y.services[s], ServiceLabel(y, a, s), Do(y, a).services[s])
  {
    hide L.OnAcquire, L.OnRelease, L.Do, L.Enabled, T.Do;
    match a
    case TcpAcquires(t, _, c) => AcquireIsStep(y.services[y.target[t]], c);
    case TcpReleases(t, h) => ReleaseIsStep(y.services[y.target[t]], y.servers[t].handlers[h].lease.value);
  }

  lemma OperatorServiceSteps(y: System, a: Label, s: nat)
    requires Enabled(y, a) && s < |y.services|
    requires a.OperatorAcquires? || a.OperatorReleases? || a.MainStops? || a.MainCancels?
    ensures |Do(y, a).services| == |y.services|
    ensures ServiceTakes(y.services[s], ServiceLabel(y, a, s), Do(y, a).services[s])
  {
    hide L.OnAcquire, L.OnRelease, L.OnStopCall, L.Do;
    match a
    case OperatorAcquires(i, c) => AcquireIsStep(y.services[i], c);
    case OperatorReleases(i, l) => ReleaseIsStep(y.services[i], l);
    case MainStops(i, c) => StopIsStep(y.services[i], c);
    case MainCancels =>
  }

  lemma AcquireIsStep(w: L.World, c: nat)
    requires c !in w.rt.waiters
    ensures L.Enabled(w, L.Acquire(c)) && L.Do(w, L.Acquire(c)) == L.OnAcquire(w, c)
  {}

  lemma ReleaseIsStep(w: L.World, l: nat)
    requires l < w.rt.granted
    ensures L.Enabled(w, L.Release(l)) && L.Do(w, L.Release(l)) == L.OnRelease(w, l)
  {}

  lemma StopIsStep(w: L.World, c: nat)
    requires c !in w.rt.waiters
    ensures L.Enabled(w, L.StopCall(c)) && L.Do(w, L.StopCall(c)) == L.OnStopCall(w, c)
  {}

  lemma ServerSteps(y: System, a: Label, t: nat)
    requires Enabled(y, a) && t < |y.servers|
    ensures |Do(y, a).servers| == |y.servers|
    ensures ServerTakes(y.servers[t], ServerLabel(y, a, t), Do(y, a).servers[t])
  {
    hide L.OnAcquire, L.OnRelease, L.OnStopCall, D.Do, C.Do, T.Do, L.Do;
  }

  lemma DrainSteps(y: System, a: Label)
    requires Enabled(y, a)
    ensures DrainTakes(y.drain, DrainLabel(a), Do(y, a).drain)
  {
    hide L.OnAcquire, L.OnRelease, L.OnStopCall, D.Do, C.Do, T.Do, L.Do;
  }

  lemma TrackerSteps(y: System, a: Label)
    requires Enabled(y, a)
    ensures TrackerTakes(y.tracker, TrackerLabel(a), Do(y, a).tracker)
  {
    hide L.OnAcquire, L.OnRelease, L.OnStopCall, D.Do, C.Do, T.Do, L.Do, L.Enabled, T.Enabled;
    if ByMain(a) { MainLeavesWork(y, a); }
  }

  // Requests ----------------------------------------------------------------------------------

  // A request acquires, holds the lease it was granted, gives it back, and leaves.
  predicate NextRequest(y: System, r: nat, k: Request, a: Label, next: Request) {
    next.svc == k.svc &&
    match a
    case HttpAcquires(i, c) =>
      if i == r && k.svc < |y.services| && Granted(y.services[k.svc], L.OnAcquire(y.services[k.svc], c))
      then next.pc == Holding(y.services[k.svc].rt.granted) else next.pc == k.pc
    case HttpFails(i) => next.pc == if i == r then Leaving else k.pc
    case HttpReleases(i) => next.pc == if i == r then Leaving else k.pc
    case HttpLeaves(i) => next.pc == if i == r then Left else k.pc
    case _ => next.pc == k.pc
  }

  lemma RequestSteps(y: System, a: Label, r: nat)
    requires Enabled(y, a) && r < |y.requests|
    ensures r < |Do(y, a).requests| && NextRequest(y, r, y.requests[r], a, Do(y, a).requests[r])
  {
    hide L.OnAcquire, L.OnRelease, L.OnStopCall, D.Do, C.Do, T.Do, L.Do;
    if ByMain(a) { MainLeavesWork(y, a); }
  }

  lemma MainLeavesWork(y: System, a: Label)
    requires Enabled(y, a) && ByMain(a)
    ensures Do(y, a).requests == y.requests && Do(y, a).tracker == y.tracker
  {
    hide L.OnStopCall, D.Do, L.Do;
  }

  // main --------------------------------------------------------------------------------------

  // The next phase of main, by the step that ends the present one; `ok` falls with the first error.
  predicate NextPhase(y: System, a: Label, y': System) {
    match a
    case MainBeginsDrain => y'.phase == ServerClosing && y'.ok == y.ok
    case MainClosesServer(fine) => y'.phase == Draining && y'.ok == (y.ok && fine)
    case MainDrained(fine) => y'.phase == ConnsWaiting && y'.ok == (y.ok && fine)
    case MainConnsGone(fine) => y'.phase == Sweeping && y'.ok == (y.ok && fine)
    case MainSwept(fine) => y'.phase == TcpClosing && y'.ok == (y.ok && fine)
    case MainShutsTcp(fine) => y'.phase == TcpClosing && y'.tcpDone == y.tcpDone + 1 && y'.ok == (y.ok && fine)
    case MainCancels => y'.phase == StopAll && y'.ok == y.ok
    case MainExits => y'.phase == Exited && y'.ok == y.ok
    case _ => y'.phase == y.phase && y'.ok == y.ok && y'.tcpDone == y.tcpDone
  }

  lemma MainSteps(y: System, a: Label)
    requires Enabled(y, a)
    ensures NextPhase(y, a, Do(y, a)) && Rank(y.phase) <= Rank(Do(y, a).phase) <= Rank(y.phase) + 1
  {
    hide L.OnAcquire, L.OnRelease, L.OnStopCall, D.Do, C.Do, T.Do, L.Do;
  }

  // Runs --------------------------------------------------------------------------------------

  // The labels a service has taken, in order, and the states between them.
  function ServiceLabels(ys: seq<System>, az: seq<Label>, s: nat, i: nat): seq<L.Label>
    requires |ys| == |az| + 1 && i <= |az| && forall k :: 0 <= k < |az| ==> Enabled(ys[k], az[k])
  {
    if i == 0 then [] else
    ServiceLabels(ys, az, s, i - 1) +
      match ServiceLabel(ys[i - 1], az[i - 1], s) case None => [] case Some(sl) => [sl]
  }

  // Within every run of the whole, every service makes a run of its own.
  lemma {:induction false} ServiceRuns(cfgs: seq<L.Config>, target: seq<nat>, ys: seq<System>, az: seq<Label>,
                                       s: nat, i: nat)
    returns (ws: seq<L.World>)
    requires IsRun(cfgs, target, ys, az) && s < |cfgs| && i < |ys|
    ensures |ys[i].services| == |cfgs|
    ensures L.IsRun(cfgs[s], ws, ServiceLabels(ys, az, s, i)) && ws[|ws| - 1] == ys[i].services[s]
  {
    hide L.Do, L.Enabled, Do, Enabled, ServiceLabel;
    if i == 0 {
      ws := [L.Init(cfgs[s])];
    } else {
      ws := ServiceRuns(cfgs, target, ys, az, s, i - 1);
      assert Enabled(ys[i - 1], az[i - 1]);
      ServiceSteps(ys[i - 1], az[i - 1], s);
      match ServiceLabel(ys[i - 1], az[i - 1], s)
      case None =>
        assert ServiceLabels(ys, az, s, i) == ServiceLabels(ys, az, s, i - 1) + [];
      case Some(sl) =>
        ws := ws + [ys[i].services[s]];
    }
  }

  function ServerLabels(ys: seq<System>, az: seq<Label>, t: nat, i: nat): seq<T.Label>
    requires |ys| == |az| + 1 && i <= |az| && forall k :: 0 <= k < |az| ==> Enabled(ys[k], az[k])
  {
    if i == 0 then [] else
    ServerLabels(ys, az, t, i - 1) +
      match ServerLabel(ys[i - 1], az[i - 1], t) case None => [] case Some(tl) => [tl]
  }

  // So does every TCP server,
  lemma {:induction false} ServerRuns(cfgs: seq<L.Config>, target: seq<nat>, ys: seq<System>, az: seq<Label>,
                                      t: nat, i: nat)
    returns (vs: seq<T.Server>)
    requires IsRun(cfgs, target, ys, az) && t < |target| && i < |ys|
    ensures |ys[i].servers| == |target|
    ensures T.IsRun(vs, ServerLabels(ys, az, t, i)) && vs[|vs| - 1] == ys[i].servers[t]
  {
    hide T.Do, T.Enabled, Do, Enabled, ServerLabel;
    if i == 0 {
      vs := [T.FRESH];
    } else {
      vs := ServerRuns(cfgs, target, ys, az, t, i - 1);
      assert Enabled(ys[i - 1], az[i - 1]);
      ServerSteps(ys[i - 1], az[i - 1], t);
      match ServerLabel(ys[i - 1], az[i - 1], t)
      case None =>
        assert ServerLabels(ys, az, t, i) == ServerLabels(ys, az, t, i - 1) + [];
      case Some(tl) =>
        vs := vs + [ys[i].servers[t]];
    }
  }

  function DrainLabels(az: seq<Label>, i: nat): seq<D.Label>
    requires i <= |az|
  {
    if i == 0 then [] else
    DrainLabels(az, i - 1) + match DrainLabel(az[i - 1]) case None => [] case Some(dl) => [dl]
  }

  // and the drain handler.
  lemma {:induction false} DrainRuns(cfgs: seq<L.Config>, target: seq<nat>, ys: seq<System>, az: seq<Label>, i: nat)
    returns (hs: seq<D.Handler>)
    requires IsRun(cfgs, target, ys, az) && i < |ys|
    ensures D.IsRun(hs, DrainLabels(az, i)) && hs[|hs| - 1] == ys[i].drain
  {
    hide D.Do, D.Enabled, Do, Enabled, DrainLabel;
    if i == 0 {
      hs := [D.FRESH];
    } else {
      hs := DrainRuns(cfgs, target, ys, az, i - 1);
      assert Enabled(ys[i - 1], az[i - 1]);
      DrainSteps(ys[i - 1], az[i - 1]);
      match DrainLabel(az[i - 1])
      case None =>
        assert DrainLabels(az, i) == DrainLabels(az, i - 1) + [];
      case Some(dl) =>
        hs := hs + [ys[i].drain];
    }
  }
}
