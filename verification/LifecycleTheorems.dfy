// What the invariant gives over every run of one service.

module LifecycleTheorems {
  import opened Options
  import opened Lifecycle
  import opened LifecycleInvariant

  // Processes ---------------------------------------------------------------------

  // Every process ever launched is the service's, or is carried by the worker between
  // launch and line 139, or has exited or been killed; and at most one is neither.
  lemma NoOrphan(cfg: Config, ws: seq<World>, ls: seq<Label>, i: nat, p: nat, q: nat)
    requires IsRun(cfg, ws, ls) && i < |ws|
    requires p < |ws[i].rt.procs| && q < |ws[i].rt.procs|
    ensures Dead(ws[i].rt, p) || ws[i].f.process == Some(p) || HeldByWorker(ws[i], p)
    ensures !Dead(ws[i].rt, p) && !Dead(ws[i].rt, q) ==> p == q
  {
    RunInv(cfg, ws, ls, i);
    var w := ws[i];
    assert ProcInv(w, p, w.rt.procs[p]) && ProcInv(w, q, w.rt.procs[q]);
    if w.f.workerDone.Some? { assert WorkerInv(w, w.f.workerDone.value, w.rt.workers[w.f.workerDone.value]); }
  }

  // A service that is stopped, failed or building has nothing running, however a stop
  // was interleaved with the launch.
  lemma NothingRunsWhenDown(cfg: Config, ws: seq<World>, ls: seq<Label>, i: nat)
    requires IsRun(cfg, ws, ls) && i < |ws|
    requires ws[i].f.state == Stopped || ws[i].f.state == Failed || ws[i].f.state == Building
    ensures forall p: nat :: p < |ws[i].rt.procs| ==> Dead(ws[i].rt, p)
  {
    RunInv(cfg, ws, ls, i);
    DownMeansDead(ws[i]);
  }

  // Workers and channels ------------------------------------------------------------

  // One start worker that can still act while starting up, at most one while stopping,
  // none otherwise; one stop goroutine exactly while stopping.
  lemma SingleWorker(cfg: Config, ws: seq<World>, ls: seq<Label>, i: nat)
    requires IsRun(cfg, ws, ls) && i < |ws|
    ensures var w := ws[i];
      && (InStartup(w.f.state) ==> exists d: nat :: d < |w.rt.workers| && Effective(w.rt.workers[d].pc))
      && (forall d: nat, e: nat ::
            && d < |w.rt.workers| && e < |w.rt.workers|
            && Effective(w.rt.workers[d].pc) && Effective(w.rt.workers[e].pc)
            ==> d == e)
      && (forall d: nat :: d < |w.rt.workers| && Effective(w.rt.workers[d].pc) ==>
            InStartup(w.f.state) || w.f.state == Stopping)
      && (w.f.state == Stopping <==> exists s: nat :: s < |w.rt.stoppers| && w.rt.stoppers[s].pc != StopGone)
      && (forall s: nat, t: nat ::
            && s < |w.rt.stoppers| && t < |w.rt.stoppers|
            && w.rt.stoppers[s].pc != StopGone && w.rt.stoppers[t].pc != StopGone
            ==> s == t)
  {
    RunInv(cfg, ws, ls, i);
    var w := ws[i];
    if InStartup(w.f.state) {
      var d := w.f.workerDone.value;
      assert WorkerInv(w, d, w.rt.workers[d]);
      assert Effective(w.rt.workers[d].pc);
    }
    if w.f.state == Stopping {
      var s := w.f.stopDone.value;
      assert StopperInv(w, s, w.rt.stoppers[s]);
    }
  }

  // No close ever panics, and a channel is open exactly while its attempt or its stop is
  // the one in progress, so whoever is still blocked on one waits for work that goes on.
  lemma ChannelsAreOneShot(cfg: Config, ws: seq<World>, ls: seq<Label>, i: nat)
    requires IsRun(cfg, ws, ls) && i < |ws|
    ensures var w := ws[i];
      && !w.rt.panicked
      && (forall d: nat :: d < |w.rt.workers| ==> (!w.rt.workers[d].attemptClosed <==> InProgress(w.f, AttemptDone(d))))
      && (forall d: nat :: d < |w.rt.workers| ==> (!w.rt.workers[d].doneClosed <==> w.rt.workers[d].pc != Gone))
      && (forall s: nat :: s < |w.rt.stoppers| ==> (!w.rt.stoppers[s].doneClosed <==> InProgress(w.f, StopDone(s))))
      && (forall c :: c in w.rt.waiters && !ChannelClosed(w.rt, w.rt.waiters[c]) ==> InProgress(w.f, w.rt.waiters[c]))
  {
    RunInv(cfg, ws, ls, i);
  }

  // `panicked` is what closing a channel that is nil or closed, or waiting on a nil one, would leave.
  lemma PanicsTell(w: World, ch: Option<nat>, c: nat)
    ensures CloseAttempt(w.rt, ch).panicked <==>
              w.rt.panicked || ch.None? || ch.value >= |w.rt.workers| || w.rt.workers[ch.value].attemptClosed
    ensures CloseStopDone(w.rt, ch).panicked <==>
              w.rt.panicked || ch.None? || ch.value >= |w.rt.stoppers| || w.rt.stoppers[ch.value].doneClosed
    ensures ch.Some? ==> (CloseWorkerDone(w.rt, ch.value).panicked <==>
              w.rt.panicked || ch.value >= |w.rt.workers| || w.rt.workers[ch.value].doneClosed)
    ensures AwaitAttempt(w, c).rt.panicked <==> w.rt.panicked || w.f.startDone.None?
    ensures AwaitStop(w, c).rt.panicked <==> w.rt.panicked || w.f.stopDone.None?
  {}

  predicate Made(rt: Runtime, ch: Channel) {
    match ch
    case AttemptDone(d) => d < |rt.workers|
    case StopDone(s) => s < |rt.stoppers|
  }

  // Only a channel made by this very step becomes one in progress.
  lemma NoRevival(w: World, l: Label, ch: Channel)
    requires Inv(w) && Enabled(w, l) && Made(w.rt, ch) && InProgress(Do(w, l).f, ch)
    ensures InProgress(w.f, ch)
  {
    if ByWorker(l) { WorkerRevivesNothing(w, l, ch); } else if ByStopper(l) { StopperRevivesNothing(w, l, ch); }
  }

  lemma WorkerRevivesNothing(w: World, l: Label, ch: Channel)
    requires Enabled(w, l) && ByWorker(l) && InProgress(Do(w, l).f, ch)
    ensures InProgress(w.f, ch)
  {}

  lemma StopperRevivesNothing(w: World, l: Label, ch: Channel)
    requires Enabled(w, l) && ByStopper(l) && InProgress(Do(w, l).f, ch)
    ensures InProgress(w.f, ch)
  {}

  lemma StaysMade(w: World, l: Label)
    requires Enabled(w, l)
    ensures |Do(w, l).rt.workers| >= |w.rt.workers| && |Do(w, l).rt.stoppers| >= |w.rt.stoppers|
  {
    if ByWorker(l) { StaysMadeByWorker(w, l); }
  }

  lemma StaysMadeByWorker(w: World, l: Label)
    requires Enabled(w, l) && ByWorker(l)
    ensures |Do(w, l).rt.workers| >= |w.rt.workers| && |Do(w, l).rt.stoppers| >= |w.rt.stoppers|
  {}

  lemma StaysClosed(w: World, l: Label, ch: Channel)
    requires Enabled(w, l) && Inv(w) && Inv(Do(w, l)) && ChannelClosed(w.rt, ch)
    ensures ChannelClosed(Do(w, l).rt, ch)
  {
    StaysMade(w, l);
    if InProgress(Do(w, l).f, ch) { NoRevival(w, l, ch); }
  }

  lemma StaysClosedInRun(cfg: Config, ws: seq<World>, ls: seq<Label>, i: nat, ch: Channel)
    requires IsRun(cfg, ws, ls) && i < |ls| && ChannelClosed(ws[i].rt, ch)
    ensures ChannelClosed(ws[i + 1].rt, ch)
  {
    RunInv(cfg, ws, ls, i);
    RunInv(cfg, ws, ls, i + 1);
    StaysClosed(ws[i], ls[i], ch);
  }

  lemma {:induction false} ClosedUpTo(cfg: Config, ws: seq<World>, ls: seq<Label>, i: nat, j: nat, ch: Channel)
    requires IsRun(cfg, ws, ls) && i <= j < |ws| && ChannelClosed(ws[i].rt, ch)
    ensures ChannelClosed(ws[j].rt, ch)
  {
    hide Do, Enabled, ChannelClosed, Init;
    if i < j {
      ClosedUpTo(cfg, ws, ls, i, j - 1, ch);
      StaysClosedInRun(cfg, ws, ls, j - 1, ch);
    }
  }

  // A closed channel was closed by exactly one step of the run.
  lemma {:induction false} ClosedByOneStep(cfg: Config, ws: seq<World>, ls: seq<Label>, i: nat, ch: Channel)
    returns (k: nat)
    requires IsRun(cfg, ws, ls) && i < |ws| && ChannelClosed(ws[i].rt, ch)
    ensures k < i
    ensures forall m :: 0 <= m <= k ==> !ChannelClosed(ws[m].rt, ch)
    ensures forall m :: k < m <= i ==> ChannelClosed(ws[m].rt, ch)
  {
    assert i > 0;
    if ChannelClosed(ws[i - 1].rt, ch) {
      k := ClosedByOneStep(cfg, ws, ls, i - 1, ch);
    } else {
      k := i - 1;
      forall m | 0 <= m <= k ensures !ChannelClosed(ws[m].rt, ch) {
        if ChannelClosed(ws[m].rt, ch) { ClosedUpTo(cfg, ws, ls, m, k, ch); }
      }
    }
  }

  // The context a running service's process lives in has not been cancelled by the service.
  lemma RunningContextIsLive(cfg: Config, ws: seq<World>, ls: seq<Label>, i: nat)
    requires IsRun(cfg, ws, ls) && i < |ws|
    ensures ws[i].f.state == Running || InStartup(ws[i].f.state) ==>
              ws[i].f.startCancel.Some? && ws[i].f.startCancel.value < |ws[i].rt.workers| &&
              !ws[i].rt.workers[ws[i].f.startCancel.value].cancelled
    ensures forall d: nat :: d < |ws[i].rt.workers| && !ws[i].rt.workers[d].cancelled ==> ws[i].f.startCancel == Some(d)
  {
    RunInv(cfg, ws, ls, i);
  }

  // Idle shutdown -------------------------------------------------------------------

  predicate Quiet(w: World) { w.f.state == Running && w.f.activeRequests == 0 }

  // A timer whose captured generation is still the service's.
  predicate Current(w: World, t: nat) {
    t < |w.rt.timers| && w.rt.timers[t].captured == w.f.generation
  }

  // While the generation stands still a service can only leave the quiet state, not enter it.
  lemma QuietNeedsNewGeneration(w: World, l: Label)
    requires Inv(w) && Enabled(w, l)
    requires Quiet(Do(w, l)) && Do(w, l).f.generation == w.f.generation
    ensures Quiet(w)
  {
    if l.Release? {
      ReleaseNeedsNewGeneration(w, l.lease);
    } else if !l.Acquire? && !l.StopCall? && !l.Commits? && !l.IdleCallback? && !l.Watch? {
      OthersKeepQuiet(w, l);
    }
  }

  lemma ReleaseNeedsNewGeneration(w: World, lease: nat)
    requires Inv(w) && Quiet(OnRelease(w, lease)) && OnRelease(w, lease).f.generation == w.f.generation
    ensures Quiet(w)
  {
    if lease in w.rt.outstanding { DropLease(w, lease); }
  }

  lemma OthersKeepQuiet(w: World, l: Label)
    requires Enabled(w, l) && Quiet(Do(w, l))
    requires !l.Acquire? && !l.Release? && !l.StopCall? && !l.Commits? && !l.IdleCallback? && !l.Watch?
    ensures Quiet(w)
  {}

  lemma OnlyTheseTouchGeneration(w: World, l: Label)
    requires Enabled(w, l) && !l.Acquire? && !l.Release? && !l.StopCall? && !l.Commits? && !l.IdleCallback? && !l.Watch?
    ensures Do(w, l).f.generation == w.f.generation && |Do(w, l).rt.timers| == |w.rt.timers|
    ensures forall t: nat :: t < |w.rt.timers| ==>
              Do(w, l).rt.timers[t].captured == w.rt.timers[t].captured &&
              Do(w, l).rt.timers[t].armedAt == w.rt.timers[t].armedAt
  {}

  // Timer t of w' was armed by the step to w', or was as current before it as it is now.
  predicate NewOrOld(w: World, w': World, t: nat)
    requires t < |w'.rt.timers|
  {
    if t < |w.rt.timers|
    then Current(w, t) && w'.f.generation == w.f.generation && w'.rt.timers[t].armedAt == w.rt.timers[t].armedAt
    else w'.rt.timers[t].armedAt == w'.rt.clock
  }

  lemma CurrentTimerIsNewOrOld(w: World, l: Label, t: nat)
    requires Inv(w) && Enabled(w, l) && Current(Do(w, l), t)
    ensures NewOrOld(w, Do(w, l), t)
  {
    if t < |w.rt.timers| { assert TimerInv(w, t, w.rt.timers[t]); }
    if l.Acquire? || l.Release? || l.StopCall? {
      CallersTimerIsNewOrOld(w, l, t);
    } else if l.Commits? || l.IdleCallback? || l.Watch? {
      ServiceTimerIsNewOrOld(w, l, t);
    } else {
      OnlyTheseTouchGeneration(w, l);
    }
  }

  lemma CallersTimerIsNewOrOld(w: World, l: Label, t: nat)
    requires Enabled(w, l) && Current(Do(w, l), t) && (l.Acquire? || l.Release? || l.StopCall?)
    requires t < |w.rt.timers| ==> w.rt.timers[t].captured <= w.f.generation
    ensures NewOrOld(w, Do(w, l), t)
  {
    hide OnAcquire, OnRelease, OnStopCall, Current, NewOrOld;
    match l
    case Acquire(c) => AcquireTimerIsNewOrOld(w, c, t);
    case Release(lease) => ReleaseTimerIsNewOrOld(w, lease, t);
    case StopCall(c) => StopCallTimerIsNewOrOld(w, c, t);
  }

  lemma AcquireTimerIsNewOrOld(w: World, c: nat, t: nat)
    requires Current(OnAcquire(w, c), t) && (t < |w.rt.timers| ==> w.rt.timers[t].captured <= w.f.generation)
    ensures NewOrOld(w, OnAcquire(w, c), t)
  {}

  lemma ReleaseTimerIsNewOrOld(w: World, lease: nat, t: nat)
    requires Current(OnRelease(w, lease), t) && (t < |w.rt.timers| ==> w.rt.timers[t].captured <= w.f.generation)
    ensures NewOrOld(w, OnRelease(w, lease), t)
  {}

  lemma StopCallTimerIsNewOrOld(w: World, c: nat, t: nat)
    requires Current(OnStopCall(w, c), t) && (t < |w.rt.timers| ==> w.rt.timers[t].captured <= w.f.generation)
    ensures NewOrOld(w, OnStopCall(w, c), t)
  {
    hide BeginStop;
    BeginStopOutdates(w, t);
  }

  lemma BeginStopOutdates(w: World, t: nat)
    requires t < |w.rt.timers| ==> w.rt.timers[t].captured <= w.f.generation
    ensures !Current(BeginStop(w), t)
  {}

  lemma ServiceTimerIsNewOrOld(w: World, l: Label, t: nat)
    requires Enabled(w, l) && Current(Do(w, l), t) && (l.Commits? || l.IdleCallback? || l.Watch?)
    requires t < |w.rt.timers| ==> w.rt.timers[t].captured <= w.f.generation
    ensures NewOrOld(w, Do(w, l), t)
  {
    hide OnCommits, OnIdleCallback, OnWatch, Current, NewOrOld;
    match l
    case Commits(d) => CommitTimerIsNewOrOld(w, d, t);
    case IdleCallback(u) => CallbackTimerIsNewOrOld(w, u, t);
    case Watch(p) => WatchTimerIsNewOrOld(w, p, t);
  }

  lemma CommitTimerIsNewOrOld(w: World, d: nat, t: nat)
    requires Enabled(w, Commits(d)) && Current(OnCommits(w, d), t)
    requires t < |w.rt.timers| ==> w.rt.timers[t].captured <= w.f.generation
    ensures NewOrOld(w, OnCommits(w, d), t)
  {
    hide BecomesRunning, ScheduleIdle;
    if w.f.state == Starting {
      BecomesRunningKeepsTimers(w, d);
      ScheduleIdleTimerIsNew(BecomesRunning(w, d), t);
    }
  }

  lemma BecomesRunningKeepsTimers(w: World, d: nat)
    requires Enabled(w, Commits(d))
    ensures var w' := BecomesRunning(w, d);
      w'.rt.timers == w.rt.timers && w'.rt.clock == w.rt.clock && w'.f.generation == w.f.generation
  {}

  lemma ScheduleIdleTimerIsNew(w: World, t: nat)
    requires Current(ScheduleIdle(w), t) && (t < |w.rt.timers| ==> w.rt.timers[t].captured <= w.f.generation)
    ensures t >= |w.rt.timers| && ScheduleIdle(w).rt.timers[t].armedAt == ScheduleIdle(w).rt.clock
  {}

  lemma CallbackTimerIsNewOrOld(w: World, u: nat, t: nat)
    requires Enabled(w, IdleCallback(u)) && Current(OnIdleCallback(w, u), t)
    requires t < |w.rt.timers| ==> w.rt.timers[t].captured <= w.f.generation
    ensures NewOrOld(w, OnIdleCallback(w, u), t)
  {}

  lemma WatchTimerIsNewOrOld(w: World, p: nat, t: nat)
    requires Enabled(w, Watch(p)) && Current(OnWatch(w, p), t)
    requires t < |w.rt.timers| ==> w.rt.timers[t].captured <= w.f.generation
    ensures NewOrOld(w, OnWatch(w, p), t)
  {}

  // Since a current timer of a quiet service was armed, at step k, the service has been
  // running without leases all along.
  lemma {:induction false} QuietSinceArmed(cfg: Config, ws: seq<World>, ls: seq<Label>, n: nat, t: nat) returns (k: nat)
    requires IsRun(cfg, ws, ls) && n < |ws|
    requires Quiet(ws[n]) && Current(ws[n], t)
    ensures k <= n && t < |ws[k].rt.timers| && (k > 0 ==> t >= |ws[k - 1].rt.timers|)
    ensures ws[n].rt.timers[t].armedAt == ws[k].rt.clock
    ensures forall m :: k <= m <= n ==> Quiet(ws[m])
  {
    hide Do, Enabled, Inv;
    RunInv(cfg, ws, ls, n);
    if n == 0 { assert false; }
    RunInv(cfg, ws, ls, n - 1);
    assert Enabled(ws[n - 1], ls[n - 1]);
    CurrentTimerIsNewOrOld(ws[n - 1], ls[n - 1], t);
    if t < |ws[n - 1].rt.timers| {
      QuietNeedsNewGeneration(ws[n - 1], ls[n - 1]);
      k := QuietSinceArmed(cfg, ws, ls, n - 1, t);
    } else {
      k := n;
    }
  }

  // An idle callback that stops a service does so after a full idle period: from the step
  // that armed its timer, at least cfg.Idle ago, the service ran without a single lease.
  lemma IdleStopNeedsFullPeriod(cfg: Config, ws: seq<World>, ls: seq<Label>, n: nat) returns (k: nat)
    requires IsRun(cfg, ws, ls) && n < |ls| && ls[n].IdleCallback?
    requires ws[n + 1].f != ws[n].f
    ensures ws[n].f.state == Running && ws[n + 1].f.state == Stopping && cfg.idle != 0
    ensures k <= n && ws[k].rt.clock + cfg.idle <= ws[n].rt.clock
    ensures forall m :: k <= m <= n ==> ws[m].f.state == Running && ws[m].f.activeRequests == 0
    ensures ls[n].t < |ws[k].rt.timers| && (k > 0 ==> ls[n].t >= |ws[k - 1].rt.timers|)
  {
    RunInv(cfg, ws, ls, n);
    var t := ls[n].t;
    assert Enabled(ws[n], ls[n]);
    assert TimerInv(ws[n], t, ws[n].rt.timers[t]);
    k := QuietSinceArmed(cfg, ws, ls, n, t);
    forall m | k <= m <= n ensures ws[m].f.state == Running && ws[m].f.activeRequests == 0 { assert Quiet(ws[m]); }
  }

  // A quiet service always has a timer, pending or fired, that will act on it; with idle
  // shutdown disabled there is never any timer.
  lemma NoLostIdleShutdown(cfg: Config, ws: seq<World>, ls: seq<Label>, i: nat)
    requires IsRun(cfg, ws, ls) && i < |ws|
    ensures Quiet(ws[i]) && cfg.idle != 0 ==>
              exists t: nat ::
                Current(ws[i], t) && (ws[i].rt.timers[t].status == Pending || ws[i].rt.timers[t].status == Fired)
    ensures cfg.idle == 0 ==> ws[i].rt.timers == []
  {
    RunInv(cfg, ws, ls, i);
    var w := ws[i];
    if Quiet(w) && cfg.idle != 0 {
      var t := w.f.idleTimer.value;
      assert TimerInv(w, t, w.rt.timers[t]);
      assert Current(w, t);
    }
  }

  // ... and when that timer's callback runs in a quiet service it does begin the stop.
  lemma CurrentCallbackStops(cfg: Config, ws: seq<World>, ls: seq<Label>, i: nat)
    requires IsRun(cfg, ws, ls) && i < |ls| && ls[i].IdleCallback?
    requires Quiet(ws[i]) && Current(ws[i], ls[i].t)
    ensures ws[i + 1].f.state == Stopping && ws[i + 1].f.generation > ws[i].f.generation
  {
    assert Enabled(ws[i], ls[i]);
    RunInv(cfg, ws, ls, i);
  }

  // Leases ----------------------------------------------------------------------------

  predicate ReleasedBefore(ls: seq<Label>, i: nat, lease: nat)
    requires i <= |ls|
  {
    exists k :: 0 <= k < i && ls[k] == Release(lease)
  }

  predicate SameLeases(w: World, w': World) {
    w'.rt.outstanding == w.rt.outstanding && w'.rt.granted == w.rt.granted && w'.f.activeRequests == w.f.activeRequests
  }

  lemma WorkerKeepsLeases(w: World, l: Label)
    requires Enabled(w, l) && ByWorker(l)
    ensures SameLeases(w, Do(w, l))
  {
    if l.Commits? { CommitKeepsLeases(w, l.d); }
  }

  lemma CommitKeepsLeases(w: World, d: nat)
    requires Enabled(w, Commits(d))
    ensures SameLeases(w, OnCommits(w, d))
  {}

  lemma StopperKeepsLeases(w: World, l: Label)
    requires Enabled(w, l) && ByStopper(l)
    ensures SameLeases(w, Do(w, l))
  {}

  lemma OnlyCallersTouchLeases(w: World, l: Label)
    requires Enabled(w, l) && !l.Acquire? && !l.Release?
    ensures SameLeases(w, Do(w, l))
  {
    if ByWorker(l) {
      WorkerKeepsLeases(w, l);
    } else if ByStopper(l) {
      StopperKeepsLeases(w, l);
    } else {
      OthersKeepLeases(w, l);
    }
  }

  lemma OthersKeepLeases(w: World, l: Label)
    requires Enabled(w, l) && !l.Acquire? && !l.Release? && !ByWorker(l) && !ByStopper(l)
    ensures SameLeases(w, Do(w, l))
  {
    hide OnStopCall, OnIdleCallback, OnWatch;
    if l.StopCall? {
      StopCallKeepsLeases(w, l.c);
    } else if l.IdleCallback? {
      CallbackKeepsLeases(w, l.t);
    } else if l.Watch? {
      WatchKeepsLeases(w, l.p);
    }
  }

  lemma StopCallKeepsLeases(w: World, c: nat)
    ensures SameLeases(w, OnStopCall(w, c))
  {}

  lemma CallbackKeepsLeases(w: World, t: nat)
    requires t < |w.rt.timers|
    ensures SameLeases(w, OnIdleCallback(w, t))
  {}

  lemma WatchKeepsLeases(w: World, p: nat)
    requires p < |w.rt.procs|
    ensures SameLeases(w, OnWatch(w, p))
  {}

  lemma OutstandingStep(w: World, l: Label, lease: nat)
    requires Inv(w) && Enabled(w, l)
    ensures lease in Do(w, l).rt.outstanding <==>
              lease < Do(w, l).rt.granted && (lease in w.rt.outstanding || lease >= w.rt.granted) && l != Release(lease)
    ensures w.rt.granted <= Do(w, l).rt.granted
    ensures l == Release(lease) ==> lease < w.rt.granted
  {
    if l.Acquire? {
      AcquireOutstanding(w, l.c, lease);
    } else if l.Release? {
      ReleaseOutstanding(w, l.lease, lease);
    } else {
      OnlyCallersTouchLeases(w, l);
    }
  }

  lemma AcquireOutstanding(w: World, c: nat, lease: nat)
    requires CallersInv(w)
    ensures var w' := OnAcquire(w, c);
      && w.rt.granted <= w'.rt.granted
      && (lease in w'.rt.outstanding <==> lease in w.rt.outstanding || w.rt.granted <= lease < w'.rt.granted)
  {}

  lemma ReleaseOutstanding(w: World, released: nat, lease: nat)
    ensures var w' := OnRelease(w, released);
      w.rt.granted == w'.rt.granted && (lease in w'.rt.outstanding <==> lease in w.rt.outstanding && lease != released)
  {}

  // The outstanding leases are those granted whose release has not been called.
  lemma {:induction false} OutstandingMeans(cfg: Config, ws: seq<World>, ls: seq<Label>, i: nat, lease: nat)
    requires IsRun(cfg, ws, ls) && i < |ws|
    ensures lease in ws[i].rt.outstanding <==> lease < ws[i].rt.granted && !ReleasedBefore(ls, i, lease)
    ensures ReleasedBefore(ls, i, lease) ==> lease < ws[i].rt.granted
  {
    if i > 0 {
      RunInv(cfg, ws, ls, i - 1);
      OutstandingMeans(cfg, ws, ls, i - 1, lease);
      assert Enabled(ws[i - 1], ls[i - 1]);
      OutstandingStep(ws[i - 1], ls[i - 1], lease);
      if ReleasedBefore(ls, i - 1, lease) { assert ReleasedBefore(ls, i, lease); }
      if ls[i - 1] == Release(lease) { assert ReleasedBefore(ls, i, lease); }
    }
  }

  // activeRequests counts exactly them, across exits, restarts and stops, and the guard
  // before the decrement never saves anything.
  lemma LeaseConservation(cfg: Config, ws: seq<World>, ls: seq<Label>, i: nat)
    requires IsRun(cfg, ws, ls) && i < |ws|
    ensures ws[i].f.activeRequests == |set lease | 0 <= lease < ws[i].rt.granted && !ReleasedBefore(ls, i, lease)|
    ensures forall lease :: lease in ws[i].rt.outstanding ==> ws[i].f.activeRequests > 0
  {
    RunInv(cfg, ws, ls, i);
    forall lease: nat
      ensures lease in ws[i].rt.outstanding <==> lease < ws[i].rt.granted && !ReleasedBefore(ls, i, lease)
    {
      OutstandingMeans(cfg, ws, ls, i, lease);
    }
    assert ws[i].rt.outstanding == set lease | 0 <= lease < ws[i].rt.granted && !ReleasedBefore(ls, i, lease);
    forall lease | lease in ws[i].rt.outstanding ensures ws[i].f.activeRequests > 0 { DropLease(ws[i], lease); }
  }

  // Exits -----------------------------------------------------------------------------

  // Without a stop command, whoever runs is watched, or is about to be by the worker that
  // committed it.
  lemma ExitIsNoticed(cfg: Config, ws: seq<World>, ls: seq<Label>, i: nat)
    requires IsRun(cfg, ws, ls) && i < |ws| && ws[i].f.state == Running
    ensures ws[i].f.process.Some? && ws[i].f.process.value < |ws[i].rt.procs|
    ensures !cfg.stopCommand ==>
      var p := ws[i].f.process.value;
      || ws[i].rt.procs[p].watcher == Watching
      || exists d: nat :: d < |ws[i].rt.workers| && ws[i].rt.workers[d].pc == SpawnWatch(p)
  {
    RunInv(cfg, ws, ls, i);
  }

  // A process that is behind the service: launched, stored, and not its process any more.
  predicate Past(w: World, p: nat) {
    p < |w.rt.procs| && w.f.process != Some(p) && !HeldByWorker(w, p)
  }

  lemma PastStaysPast(w: World, l: Label, p: nat)
    requires Inv(w) && Enabled(w, l) && Past(w, p)
    ensures Past(Do(w, l), p)
  {
    if ByWorker(l) {
      PastStaysPastWorker(w, l, p);
    } else if ByStopper(l) {
      PastStaysPastStopper(w, l, p);
    }
  }

  lemma PastStaysPastWorker(w: World, l: Label, p: nat)
    requires Inv(w) && Enabled(w, l) && Past(w, p) && ByWorker(l)
    ensures Past(Do(w, l), p)
  {
    if l.RecordsProcess? {
      PastWhenRecorded(w, l.d, p);
    } else if l.Commits? {
      PastWhenCommitted(w, l.d, p);
    } else if l.Fails? {
      PastWhenFailed(w, l.d, p);
    } else {
      PastWhenMoved(w, l, p);
    }
  }

  lemma PastWhenCommitted(w: World, d: nat, p: nat)
    requires Enabled(w, Commits(d)) && Past(w, p)
    ensures Past(OnCommits(w, d), p)
  {}

  lemma PastWhenFailed(w: World, d: nat, p: nat)
    requires Enabled(w, Fails(d)) && Past(w, p)
    ensures Past(OnFails(w, d), p)
  {}

  lemma PastWhenMoved(w: World, l: Label, p: nat)
    requires Enabled(w, l) && Past(w, p) && ByWorker(l) && !l.RecordsProcess? && !l.Commits? && !l.Fails?
    ensures Past(Do(w, l), p)
  {
    hide OnCommits, OnFails;
  }

  lemma PastWhenRecorded(w: World, d: nat, p: nat)
    requires Inv(w) && Enabled(w, RecordsProcess(d)) && Past(w, p)
    ensures Past(Do(w, RecordsProcess(d)), p)
  {
    assert WorkerInv(w, d, w.rt.workers[d]);
  }

  lemma PastStaysPastStopper(w: World, l: Label, p: nat)
    requires Inv(w) && Enabled(w, l) && Past(w, p) && ByStopper(l)
    ensures Past(Do(w, l), p)
  {}

  // Its watcher never changes a field again, however many restarts have intervened.
  lemma {:induction false} OldWatcherIsInert(cfg: Config, ws: seq<World>, ls: seq<Label>, i: nat, j: nat, p: nat)
    requires IsRun(cfg, ws, ls) && i <= j < |ws| && Past(ws[i], p)
    ensures Past(ws[j], p)
    ensures j < |ls| && ls[j] == Watch(p) ==> ws[j + 1].f == ws[j].f
  {
    hide Do, Enabled, Past, Inv, Init;
    if i < j {
      OldWatcherIsInert(cfg, ws, ls, i, j - 1, p);
      RunInv(cfg, ws, ls, j - 1);
      PastStaysPast(ws[j - 1], ls[j - 1], p);
    }
    if j < |ls| && ls[j] == Watch(p) { PastWatchIsInert(ws[j], p); }
  }

  lemma PastWatchIsInert(w: World, p: nat)
    requires Past(w, p) && Enabled(w, Watch(p))
    ensures Do(w, Watch(p)).f == w.f
  {}

  // Stop is final -----------------------------------------------------------------------

  // The lifecycle is over, no start worker can act any more and every process is gone.
  ghost predicate Over(w: World) {
    && w.rt.lifecycleDone
    && !InStartup(w.f.state) && w.f.state != Running
    && (forall p: nat :: p < |w.rt.procs| ==> Dead(w.rt, p))
    && (forall d: nat :: d < |w.rt.workers| ==> !Effective(w.rt.workers[d].pc))
  }

  lemma OverStep(w: World, l: Label)
    requires Inv(w) && Enabled(w, l) && Over(w)
    ensures Over(Do(w, l))
    ensures |Do(w, l).rt.procs| == |w.rt.procs| && Do(w, l).rt.granted == w.rt.granted
  {
    if ByWorker(l) {
      OverStepWorker(w, l);
    } else if ByStopper(l) {
      OverStepStopper(w, l);
    }
  }

  lemma OverStepWorker(w: World, l: Label)
    requires Inv(w) && Enabled(w, l) && Over(w) && ByWorker(l)
    ensures Over(Do(w, l))
    ensures |Do(w, l).rt.procs| == |w.rt.procs| && Do(w, l).rt.granted == w.rt.granted
  {}

  lemma OverStepStopper(w: World, l: Label)
    requires Enabled(w, l) && Over(w) && ByStopper(l)
    ensures Over(Do(w, l))
    ensures |Do(w, l).rt.procs| == |w.rt.procs| && Do(w, l).rt.granted == w.rt.granted
  {
    hide Do;
    StopperLeavesDown(w, l);
    var w' := Do(w, l);
    forall p: nat | p < |w'.rt.procs| ensures Dead(w'.rt, p) {
      assert Dead(w.rt, p);
      StopperRevivesNoProcess(w, l, p);
    }
    forall d: nat | d < |w'.rt.workers| ensures !Effective(w'.rt.workers[d].pc) {
      assert !Effective(w.rt.workers[d].pc);
      StopperMovesNoWorker(w, l, d);
    }
  }

  lemma StopperLeavesDown(w: World, l: Label)
    requires Enabled(w, l) && ByStopper(l) && w.rt.lifecycleDone && !InStartup(w.f.state) && w.f.state != Running
    ensures var w' := Do(w, l);
      && w'.rt.lifecycleDone && !InStartup(w'.f.state) && w'.f.state != Running
      && |w'.rt.workers| == |w.rt.workers| && |w'.rt.procs| == |w.rt.procs| && w'.rt.granted == w.rt.granted
  {}

  lemma StopperRevivesNoProcess(w: World, l: Label, p: nat)
    requires Enabled(w, l) && ByStopper(l) && Dead(w.rt, p)
    ensures Dead(Do(w, l).rt, p)
  {}

  lemma StopperMovesNoWorker(w: World, l: Label, d: nat)
    requires Enabled(w, l) && ByStopper(l) && d < |w.rt.workers| == |Do(w, l).rt.workers|
    ensures Do(w, l).rt.workers[d].pc == w.rt.workers[d].pc
  {}

  lemma {:induction false} OverIsFinal(cfg: Config, ws: seq<World>, ls: seq<Label>, i: nat, j: nat)
    requires IsRun(cfg, ws, ls) && i <= j < |ws| && Over(ws[i])
    ensures Over(ws[j]) && |ws[j].rt.procs| == |ws[i].rt.procs| && ws[j].rt.granted == ws[i].rt.granted
  {
    if i < j {
      OverIsFinal(cfg, ws, ls, i, j - 1);
      RunInv(cfg, ws, ls, j - 1);
      assert Enabled(ws[j - 1], ls[j - 1]);
      OverStep(ws[j - 1], ls[j - 1]);
    }
  }

  lemma StopProgressesToOver(w: World, l: Label, s: nat)
    requires Inv(w) && Enabled(w, l) && w.rt.lifecycleDone
    requires InProgress(w.f, StopDone(s))
    ensures Do(w, l).rt.lifecycleDone
    ensures InProgress(Do(w, l).f, StopDone(s)) || Over(Do(w, l))
  {
    if l.Publishes? {
      PublishesInv(w, l.s);
      DownMeansDead(Do(w, l));
    }
  }

  // Once cancellation precedes the end of a stop that a caller of Stop waits for, the
  // return of that wait, and everything after it, finds the service over: nothing is
  // building, starting or running, no process is launched and no lease is granted.
  lemma {:induction false} StopIsFinal(cfg: Config, ws: seq<World>, ls: seq<Label>, i: nat, j: nat, s: nat)
    requires IsRun(cfg, ws, ls) && i <= j < |ws|
    requires ws[i].rt.lifecycleDone && InProgress(ws[i].f, StopDone(s))
    ensures ws[j].rt.lifecycleDone
    ensures InProgress(ws[j].f, StopDone(s)) || Over(ws[j])
    ensures ChannelClosed(ws[j].rt, StopDone(s)) ==> Over(ws[j])
  {
    if i < j {
      StopIsFinal(cfg, ws, ls, i, j - 1, s);
      RunInv(cfg, ws, ls, j - 1);
      assert Enabled(ws[j - 1], ls[j - 1]);
      if Over(ws[j - 1]) { OverStep(ws[j - 1], ls[j - 1]); } else { StopProgressesToOver(ws[j - 1], ls[j - 1], s); }
    }
    RunInv(cfg, ws, ls, j);
  }

  // A Stop that finds the service stopped after cancellation may return at once.
  lemma StoppedAndCancelledIsOver(cfg: Config, ws: seq<World>, ls: seq<Label>, i: nat)
    requires IsRun(cfg, ws, ls) && i < |ws|
    requires ws[i].rt.lifecycleDone && ws[i].f.state == Stopped
    ensures Over(ws[i])
  {
    RunInv(cfg, ws, ls, i);
    DownMeansDead(ws[i]);
  }

  lemma HeldStep(w: World, l: Label)
    requires Inv(w) && Enabled(w, l) && w.f.state == Stopped && w.f.manualStopped && l != Resume
    ensures Do(w, l).f.state == Stopped && Do(w, l).f.manualStopped
  {}

  // A service that was stopped by hand stays stopped, whatever callers, watchers and
  // timers are pending, until an action resumes it.
  lemma {:induction false} ManualStopHolds(cfg: Config, ws: seq<World>, ls: seq<Label>, i: nat, j: nat)
    requires IsRun(cfg, ws, ls) && i <= j < |ws|
    requires ws[i].f.state == Stopped && ws[i].f.manualStopped
    requires forall k :: i <= k < j ==> ls[k] != Resume
    ensures ws[j].f.state == Stopped && ws[j].f.manualStopped
  {
    if i < j {
      ManualStopHolds(cfg, ws, ls, i, j - 1);
      RunInv(cfg, ws, ls, j - 1);
      assert Enabled(ws[j - 1], ls[j - 1]);
      HeldStep(ws[j - 1], ls[j - 1]);
    }
  }
}
