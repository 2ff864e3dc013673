// The Service object itself: each mutex critical section of service.go and of
// Supervisor.Action as a method on its fields, proved to be the step of the same name of
// the transition system, and so to keep its invariant.

module ServiceObject {
  import opened Options
  import opened Lifecycle
  import opened LifecycleInvariant

  // How one pass of Acquire ends.
  datatype Pass = Rejected | Granted(lease: nat) | Blocked(ch: Channel)

  // How the locked part of Stop ends.
  datatype StopPass = AlreadyStopped | WaitFor(ch: Channel)

  class Service {
    const cfg: Config
    var state: State
    var process: Option<nat>
    var activeRequests: int
    var idleTimer: Option<nat>
    var startDone: Option<nat>
    var startErr: Option<Failure>
    var stopDone: Option<nat>
    var stopErr: Option<Failure>
    var generation: nat
    var startCancel: Option<nat>
    var workerDone: Option<nat>
    var starts: nat
    var manualStopped: bool

    // The channels, contexts, timers, processes and goroutines the fields refer to.
    var rt: Runtime

    function View(): World
      reads this
    {
      World(cfg,
            Fields(state, process, activeRequests, idleTimer, startDone, startErr, stopDone, stopErr,
                   generation, startCancel, workerDone, starts, manualStopped),
            rt)
    }

    ghost predicate Valid()
      reads this
    {
      Inv(View())
    }

    constructor (cfg: Config)
      ensures View() == Init(cfg) && Valid()
    {
      this.cfg := cfg;
      state, process, activeRequests, idleTimer := Stopped, None, 0, None;
      startDone, startErr, stopDone, stopErr := None, None, None, None;
      generation, startCancel, workerDone, starts, manualStopped := 0, None, None, 0, false;
      rt := Runtime(0, false, [], [], [], [], 0, {}, map[], false);
      new;
      InitInv(cfg);
    }

    // The opening lines of every section that outdates the idle timer.
    method BumpGeneration()
      modifies this`generation, this`idleTimer, this`rt
      ensures generation == old(generation) + 1 && idleTimer == None
      ensures rt == StopTimer(old(rt), old(idleTimer))
    {
      generation := generation + 1;
      if idleTimer.Some? {
        rt := StopTimer(rt, idleTimer);
        idleTimer := None;
      }
    }

    // The nil-guarded call of startCancel.
    method CancelContext()
      modifies this`rt
      ensures rt == CancelAttempt(old(rt), startCancel)
    {
      if startCancel.Some? { rt := CancelAttempt(rt, startCancel); }
    }

    // ... after which it is forgotten.
    method CancelStartLocked()
      modifies this`rt, this`startCancel
      ensures startCancel == None && rt == CancelAttempt(old(rt), old(startCancel))
    {
      CancelContext();
      startCancel := None;
    }

    // scheduleIdleLocked
    method ScheduleIdleLocked()
      modifies this
      ensures View() == ScheduleIdle(old(View()))
    {
      BumpGeneration();
      if cfg.idle == 0 { return; }
      var t := |rt.timers|;
      rt := rt.(timers := rt.timers + [Timer(generation, rt.clock, Pending)]);
      idleTimer := Some(t);
    }

    // beginStopLocked, and the goroutine its callers start after unlocking.
    method BeginStopLocked()
      modifies this
      ensures View() == BeginStop(old(View()))
    {
      hide StopTimer, CloseAttempt, CancelAttempt;
      var wasStarting := InStartup(state);
      BumpGeneration();
      state := Stopping;
      if wasStarting { CancelContext(); }
      stopDone := Some(|rt.stoppers|);
      stopErr := None;
      rt := rt.(stoppers := rt.stoppers + [Stopper(StopBegin, false)]);
      if !wasStarting || startDone.None? { return; }
      startErr := Some(Closing);
      rt := CloseAttempt(rt, startDone);
      startDone := None;
    }

    // One pass of the retry loop in Acquire, up to its return or its wait.
    method AcquirePass(c: nat) returns (r: Pass)
      requires Valid() && c !in rt.waiters
      modifies this
      ensures View() == Do(old(View()), Acquire(c)) && Valid()
      ensures r.Granted? <==> old(state) == Running && !rt.lifecycleDone && !manualStopped
      ensures r.Granted? ==> r.lease !in old(rt.outstanding) && rt.outstanding == old(rt.outstanding) + {r.lease}
      ensures r.Rejected? <==> rt.lifecycleDone || manualStopped
      ensures r.Blocked? ==> rt.waiters == old(rt.waiters)[c := r.ch] && InProgress(View().f, r.ch)
    {
      AcquireInv(View(), c);
      if rt.lifecycleDone || manualStopped { return Rejected; }
      match state {
        case Running =>
          BumpGeneration();
          activeRequests := activeRequests + 1;
          r := Granted(rt.granted);
          rt := rt.(outstanding := rt.outstanding + {rt.granted}, granted := rt.granted + 1);
        case Stopped =>
          var d := BeginAttemptLocked(c);
          r := Blocked(AttemptDone(d));
        case Failed =>
          var d := BeginAttemptLocked(c);
          r := Blocked(AttemptDone(d));
        case Building =>
          r := Blocked(AttemptDone(startDone.value));
          rt := rt.(waiters := rt.waiters[c := AttemptDone(startDone.value)]);
        case Starting =>
          r := Blocked(AttemptDone(startDone.value));
          rt := rt.(waiters := rt.waiters[c := AttemptDone(startDone.value)]);
        case Stopping =>
          r := Blocked(StopDone(stopDone.value));
          rt := rt.(waiters := rt.waiters[c := StopDone(stopDone.value)]);
      }
    }

    // Lines 71-79: the new attempt, its context and its worker.
    method BeginAttemptLocked(c: nat) returns (d: nat)
      modifies this
      ensures View() == BeginAttempt(old(View()), c) && d == |old(rt.workers)|
    {
      d := |rt.workers|;
      state := Building;
      startDone := Some(d);
      startErr := None;
      startCancel := Some(d);
      workerDone := Some(d);
      var worker := Worker(if cfg.build then RunBuild else EnterStarting, false, false, false);
      rt := rt.(workers := rt.workers + [worker], waiters := rt.waiters[c := AttemptDone(d)]);
    }

    // Lines 96-102: what a woken caller reads before it returns or tries again.  A failed service
    // always has an error to return, so no caller that finds one goes round silently.
    method AfterWait() returns (failed: Option<Failure>)
      requires Valid()
      ensures failed.Some? <==> state == Failed
      ensures failed.Some? ==> failed == startErr
    {
      failed := if state == Failed then startErr else None;
    }

    // The closure that Acquire returned; sync.Once is its membership in `outstanding`.
    method ReleaseLease(lease: nat)
      requires Valid() && lease < rt.granted
      modifies this
      ensures View() == Do(old(View()), Release(lease)) && Valid()
      ensures rt.outstanding == old(rt.outstanding) - {lease}
      ensures activeRequests == old(activeRequests) - if lease in old(rt.outstanding) then 1 else 0
    {
      ReleaseInv(View(), lease);
      if lease !in rt.outstanding { return; }
      DropLease(View(), lease);
      rt := rt.(outstanding := rt.outstanding - {lease});
      if activeRequests > 0 { activeRequests := activeRequests - 1; }
      if activeRequests == 0 && state == Running { ScheduleIdleLocked(); }
    }

    // The locked part of Stop; the caller then waits on the channel.
    method StopLocked(c: nat) returns (r: StopPass)
      requires Valid() && c !in rt.waiters
      modifies this
      ensures View() == Do(old(View()), StopCall(c)) && Valid()
      ensures r.AlreadyStopped? <==> old(state) == Stopped
      ensures r.AlreadyStopped? ==> View() == old(View())
      ensures r.WaitFor? ==> state == Stopping && rt.waiters == old(rt.waiters)[c := r.ch] && InProgress(View().f, r.ch)
    {
      StopCallInv(View(), c);
      match state {
        case Stopped => return AlreadyStopped;
        case Stopping =>
        case _ => BeginStopLocked();
      }
      r := WaitFor(StopDone(stopDone.value));
      rt := rt.(waiters := rt.waiters[c := StopDone(stopDone.value)]);
    }

    // The timer callback.
    method Idle(t: nat)
      requires Valid() && Enabled(View(), IdleCallback(t))
      modifies this
      ensures View() == Do(old(View()), IdleCallback(t)) && Valid()
    {
      IdleCallbackInv(View(), t);
      var g := rt.timers[t].captured;
      rt := SetTimer(rt, t, Spent);
      if g != generation || state != Running || activeRequests != 0 { return; }
      BeginStopLocked();
    }

    // The critical section of watch, after the process's Done channel has closed.
    method WatchLocked(p: nat)
      requires p < |rt.procs|
      modifies this
      ensures View() == OnWatch(old(View()), p)
    {
      hide LosesProcess;
      rt := rt.(procs := rt.procs[p := rt.procs[p].(watcher := WatchDone)]);
      if process == Some(p) && state == Running { LoseProcess(); }
    }

    // Its inner lines, for the process that runs now.
    method LoseProcess()
      modifies this
      ensures View() == LosesProcess(old(View()))
    {
      hide StopTimer, CancelAttempt;
      BumpGeneration();
      process := None;
      state := Failed;
      CancelStartLocked();
      startErr := Some(Exited);
    }

    method Watched(p: nat)
      requires Valid() && Enabled(View(), Watch(p))
      modifies this
      ensures View() == Do(old(View()), Watch(p)) && Valid()
      ensures !(old(process) == Some(p) && old(state) == Running) ==> View().f == old(View()).f
    {
      WatchInv(View(), p);
      WatchLocked(p);
    }

    // Lines 124-130 of start.
    method EnterStartingLocked(d: nat)
      requires Valid() && Enabled(View(), EntersStarting(d))
      modifies this
      ensures View() == Do(old(View()), EntersStarting(d)) && Valid()
    {
      EntersStartingInv(View(), d);
      if state != Building {
        rt := Goto(rt, d, Finish);
        return;
      }
      state := Starting;
      rt := Goto(rt, d, Launch);
    }

    // Lines 138-140 of start.
    method RecordProcess(d: nat)
      requires Valid() && Enabled(View(), RecordsProcess(d))
      modifies this
      ensures View() == Do(old(View()), RecordsProcess(d)) && Valid()
    {
      RecordsProcessInv(View(), d);
      var p := rt.workers[d].pc.p;
      process := Some(p);
      rt := Goto(rt, d, Probe(p));
    }

    // Lines 155-166 of start.
    method CommitLocked(d: nat)
      requires d < |rt.workers| && rt.workers[d].pc.Commit?
      modifies this
      ensures View() == OnCommits(old(View()), d)
    {
      hide CloseAttempt, ScheduleIdle;
      if state != Starting {
        rt := Goto(rt, d, Finish);
        return;
      }
      rt := Goto(rt, d, if cfg.stopCommand then Finish else SpawnWatch(rt.workers[d].pc.p));
      state := Running;
      starts := starts + 1;
      startErr := None;
      rt := CloseAttempt(rt, Some(d));
      ScheduleIdleLocked();
    }

    method Committed(d: nat)
      requires Valid() && Enabled(View(), Commits(d))
      modifies this
      ensures View() == Do(old(View()), Commits(d)) && Valid()
    {
      CommitsInv(View(), d);
      CommitLocked(d);
    }

    // fail
    method FailLocked(d: nat)
      requires d < |rt.workers| && rt.workers[d].pc.Fail?
      modifies this
      ensures View() == OnFails(old(View()), d)
    {
      hide CancelAttempt, CloseAttempt;
      var e := rt.workers[d].pc.why;
      rt := Goto(rt, d, Finish);
      if startDone != Some(d) || (state != Building && state != Starting) { return; }
      state := Failed;
      startErr := Some(e);
      CancelStartLocked();
      rt := CloseAttempt(rt, Some(d));
      process := None;
    }

    method StartFailed(d: nat)
      requires Valid() && Enabled(View(), Fails(d))
      modifies this
      ensures View() == Do(old(View()), Fails(d)) && Valid()
    {
      FailsInv(View(), d);
      FailLocked(d);
    }

    // Lines 417-430 of stop.
    method PublishLocked(s: nat)
      requires s < |rt.stoppers| && rt.stoppers[s].pc.StopPublish?
      modifies this
      ensures View() == OnPublishes(old(View()), s)
    {
      hide CancelAttempt, CloseStopDone;
      var failed := rt.stoppers[s].pc.failed;
      rt := StopGoto(rt, s, StopGone);
      process := None;
      state := Stopped;
      if failed {
        state := Failed;
        startErr := Some(StopFailed);
      }
      CancelStartLocked();
      stopErr := if failed then Some(StopFailed) else None;
      rt := CloseStopDone(rt, stopDone);
    }

    // The end of a stop leaves no process of the service alive.
    method StopEnds(s: nat)
      requires Valid() && Enabled(View(), Publishes(s))
      modifies this
      ensures View() == Do(old(View()), Publishes(s)) && Valid()
      ensures state == Stopped || state == Failed
      ensures forall p: nat :: p < |rt.procs| ==> Dead(rt, p)
    {
      PublishesInv(View(), s);
      PublishLocked(s);
      DownMeansDead(View());
    }

    // Supervisor.Action, lines 69-81: kill and latch; `refused` is its early error.
    method HoldLocked(kill: bool) returns (refused: bool)
      requires Valid()
      modifies this
      ensures View() == Do(old(View()), Hold(kill)) && Valid()
      ensures refused <==> kill && cfg.stopCommand
      ensures !refused ==> manualStopped && (kill && process.Some? ==> Dead(rt, process.value))
    {
      HoldInv(View(), kill);
      if kill {
        if cfg.stopCommand { return true; }
        if process.Some? { rt := Kill(rt, process.value); }
      }
      manualStopped := true;
      refused := false;
    }

    // Supervisor.Action, lines 95-97.
    method ResumeLocked()
      requires Valid()
      modifies this
      ensures View() == Do(old(View()), Resume) && Valid()
      ensures View() == old(View()).(f := old(View()).f.(manualStopped := false))
    {
      ResumeInv(View());
      manualStopped := false;
    }
  }
}
