// What every reachable state of a service satisfies, and that every step keeps it.

module LifecycleInvariant {
  import opened Options
  import opened Lifecycle

  // A worker at one of these points can still write the service's fields.
  predicate Effective(pc: WorkerPc) { BuildingPc(pc) || StartingPc(pc) }

  predicate BuildingPc(pc: WorkerPc) { pc == RunBuild || pc == EnterStarting || pc.Fail? }

  predicate StartingPc(pc: WorkerPc) {
    pc == Launch || pc.Record? || pc.Probe? || pc.Reap? || pc.Commit? || pc.Fail?
  }

  // The channel belongs to the attempt or to the stop that is going on now.
  predicate InProgress(f: Fields, ch: Channel) {
    match ch
    case AttemptDone(d) => InStartup(f.state) && f.startDone == Some(d)
    case StopDone(s) => f.state == Stopping && f.stopDone == Some(s)
  }

  // The stop goroutine has waited for the last start worker.
  predicate Joined(w: World) {
    w.f.workerDone.Some? ==> w.f.workerDone.value < |w.rt.workers| && w.rt.workers[w.f.workerDone.value].pc == Gone
  }

  // Launched, and not yet stored at line 139.
  predicate HeldByWorker(w: World, p: nat) {
    w.f.workerDone.Some? && w.f.workerDone.value < |w.rt.workers| && w.rt.workers[w.f.workerDone.value].pc == Record(p)
  }

  // A worker still carries p, and nobody watches it yet.
  predicate Carries(w: World, d: nat, p: nat) {
    p < |w.rt.procs| && w.rt.procs[p].owner == d && w.rt.procs[p].watcher == Unwatched
  }

  predicate FieldsInv(w: World) {
    var f, rt := w.f, w.rt;
    && !rt.panicked
    && (f.workerDone.Some? ==> f.workerDone.value < |rt.workers|)
    && (f.process.Some? ==> f.process.value < |rt.procs|)
    && (InStartup(f.state) ==> f.workerDone.Some? && f.startDone == f.workerDone)
    && (f.state == Stopped || f.state == Failed || f.state == Building ==> f.process == None)
    && (f.state == Running ==> f.process.Some? && f.workerDone.Some?)
    && (f.state == Stopping ==> f.stopDone.Some? && f.stopDone.value < |rt.stoppers|)
    && (f.startCancel.Some? ==> f.startCancel == f.workerDone && f.state != Stopped && f.state != Failed)
    && (InStartup(f.state) || f.state == Running ==> f.startCancel.Some?)
    && (f.idleTimer.Some? ==> f.state == Running && f.idleTimer.value < |rt.timers|)
    && (f.state == Running && !w.cfg.stopCommand ==>
          || rt.procs[f.process.value].watcher == Watching
          || rt.workers[f.workerDone.value].pc == SpawnWatch(f.process.value))
    && (w.cfg.idle == 0 ==> rt.timers == [])
    && (f.state == Failed ==> f.startErr.Some?)
    && f.activeRequests == |rt.outstanding|
  }

  // One start worker counts, and it is the one the service knows.
  predicate WorkerInv(w: World, d: nat, k: Worker) {
    var f, rt := w.f, w.rt;
    && (k.doneClosed <==> k.pc == Gone)
    && (k.attemptClosed <==> !InProgress(f, AttemptDone(d)))
    && (Effective(k.pc) ==> f.workerDone == Some(d) && (InStartup(f.state) || f.state == Stopping))
    && (InStartup(f.state) && f.workerDone == Some(d) ==>
          if f.state == Building then BuildingPc(k.pc) else StartingPc(k.pc))
    && (k.cancelled || f.startCancel == Some(d))
    && (k.cancelled && f.startCancel == Some(d) ==> f.state == Stopping)
    && (k.pc == RunBuild || k.pc == EnterStarting || k.pc == Launch || k.pc.Record? ==> f.process == None)
    && (k.pc.Probe? || k.pc.Reap? || k.pc.Commit? ==> f.process == Some(k.pc.p))
    && (k.pc.Record? || k.pc.Probe? || k.pc.Reap? || k.pc.Commit? || k.pc.SpawnWatch? ==> Carries(w, d, k.pc.p))
    && (k.pc.Fail? && f.process.Some? ==> Dead(rt, f.process.value))
  }

  // One stop goroutine runs exactly while the service is stopping; after the join no
  // start worker is left to interfere, and the process it read is still the service's.
  predicate StopperInv(w: World, s: nat, k: Stopper) {
    var f := w.f;
    && (k.doneClosed <==> k.pc == StopGone)
    && (k.pc != StopGone <==> InProgress(f, StopDone(s)))
    && (k.pc.StopJoin? ==> k.pc.worker == f.workerDone)
    && (k.pc == StopRead || k.pc.StopCommand? || k.pc.StopAwait? || k.pc.StopPublish? ==> Joined(w))
    && (k.pc.StopCommand? ==> k.pc.held == f.process)
    && (k.pc.StopAwait? ==> f.process == Some(k.pc.p))
    && (k.pc.StopPublish? && f.process.Some? ==> Dead(w.rt, f.process.value))
  }

  predicate TimerInv(w: World, t: nat, k: Timer) {
    && k.captured <= w.f.generation
    && k.armedAt <= w.rt.clock
    && (w.f.idleTimer == Some(t) ==> k.captured == w.f.generation && k.status != Disarmed)
    && (w.f.idleTimer != Some(t) ==> k.captured < w.f.generation)
    && (k.status == Pending ==> w.f.idleTimer == Some(t))
    && (k.status == Fired ==> k.armedAt + w.cfg.idle <= w.rt.clock)
  }

  predicate ProcInv(w: World, p: nat, k: Proc) {
    && k.owner < |w.rt.workers|
    && (Dead(w.rt, p) || w.f.process == Some(p) || HeldByWorker(w, p))
  }

  ghost predicate WorkersInv(w: World) {
    forall d: nat :: d < |w.rt.workers| ==> WorkerInv(w, d, w.rt.workers[d])
  }

  ghost predicate StoppersInv(w: World) {
    forall s: nat :: s < |w.rt.stoppers| ==> StopperInv(w, s, w.rt.stoppers[s])
  }

  ghost predicate TimersInv(w: World) {
    forall t: nat :: t < |w.rt.timers| ==> TimerInv(w, t, w.rt.timers[t])
  }

  ghost predicate ProcsInv(w: World) {
    forall p: nat :: p < |w.rt.procs| ==> ProcInv(w, p, w.rt.procs[p])
  }

  ghost predicate CallersInv(w: World) {
    && (forall x :: x in w.rt.outstanding ==> x < w.rt.granted)
    && (forall c :: c in w.rt.waiters ==> ChannelClosed(w.rt, w.rt.waiters[c]) || InProgress(w.f, w.rt.waiters[c]))
  }

  // No idle shutdown is lost: a service without leases has a timer that is still to act.
  predicate IdleArmed(w: World) {
    w.f.state == Running && w.f.activeRequests == 0 && w.cfg.idle != 0 ==>
      w.f.idleTimer.Some? && w.f.idleTimer.value < |w.rt.timers| &&
      (w.rt.timers[w.f.idleTimer.value].status == Pending || w.rt.timers[w.f.idleTimer.value].status == Fired)
  }

  // Holds also in the middle of a critical section.
  ghost predicate Base(w: World) {
    FieldsInv(w) && WorkersInv(w) && StoppersInv(w) && TimersInv(w) && ProcsInv(w) && CallersInv(w)
  }

  ghost predicate Inv(w: World) {
    Base(w) && IdleArmed(w)
  }

  lemma InitInv(cfg: Config)
    ensures Inv(Init(cfg))
  {}

  lemma DownMeansDead(w: World)
    requires Inv(w) && (w.f.state == Stopped || w.f.state == Failed || w.f.state == Building)
    ensures forall p: nat :: p < |w.rt.procs| ==> Dead(w.rt, p)
  {
    forall p: nat | p < |w.rt.procs| ensures Dead(w.rt, p) {
      assert ProcInv(w, p, w.rt.procs[p]);
      if w.f.workerDone.Some? { assert WorkerInv(w, w.f.workerDone.value, w.rt.workers[w.f.workerDone.value]); }
    }
  }

  // Shared pieces -------------------------------------------------------------------

  lemma ScheduleIdleTimers(w: World)
    requires Base(w) && w.f.state == Running
    ensures TimersInv(ScheduleIdle(w)) && IdleArmed(ScheduleIdle(w))
  {}

  lemma ScheduleIdleInv(w: World)
    requires Base(w) && w.f.state == Running
    ensures Inv(ScheduleIdle(w))
  {
    ScheduleIdleTimers(w);
  }

  lemma BeginStopOwn(w: World)
    requires Base(w) && w.f.state != Stopped && w.f.state != Stopping
    ensures FieldsInv(BeginStop(w)) && WorkersInv(BeginStop(w)) && BeginStop(w).f.state == Stopping
  {}

  lemma BeginStopOthers(w: World)
    requires Base(w) && w.f.state != Stopped && w.f.state != Stopping
    ensures StoppersInv(BeginStop(w)) && CallersInv(BeginStop(w))
  {}

  lemma BeginStopInv(w: World)
    requires Base(w) && w.f.state != Stopped && w.f.state != Stopping
    ensures Inv(BeginStop(w)) && BeginStop(w).f.state == Stopping
  {
    BeginStopOwn(w);
    BeginStopOthers(w);
  }

  lemma AwaitInv(w: World, c: nat)
    requires Inv(w)
    ensures InStartup(w.f.state) ==> Inv(AwaitAttempt(w, c))
    ensures w.f.state == Stopping ==> Inv(AwaitStop(w, c))
  {}

  lemma BeginAttemptInv(w: World, c: nat)
    requires Inv(w) && (w.f.state == Stopped || w.f.state == Failed)
    ensures Inv(BeginAttempt(w, c))
  {}

  lemma GrantInv(w: World)
    requires Inv(w) && w.f.state == Running
    ensures Inv(Grant(w))
  {}

  // One lemma per label -------------------------------------------------------------

  lemma AcquireInv(w: World, c: nat)
    requires Inv(w)
    ensures Inv(OnAcquire(w, c))
  {
    match w.f.state
    case Running => GrantInv(w);
    case Stopped => BeginAttemptInv(w, c);
    case Failed => BeginAttemptInv(w, c);
    case _ => AwaitInv(w, c);
  }

  lemma DropLease(w: World, lease: nat)
    requires Base(w) && lease in w.rt.outstanding
    ensures w.f.activeRequests > 0
    ensures Base(w.(f := w.f.(activeRequests := w.f.activeRequests - 1),
                    rt := w.rt.(outstanding := w.rt.outstanding - {lease})))
  {
    assert |w.rt.outstanding - {lease}| == |w.rt.outstanding| - 1;
  }

  lemma ReleaseInv(w: World, lease: nat)
    requires Inv(w)
    ensures Inv(OnRelease(w, lease))
  {
    if lease in w.rt.outstanding {
      DropLease(w, lease);
      var w1 := w.(f := w.f.(activeRequests := w.f.activeRequests - 1),
                   rt := w.rt.(outstanding := w.rt.outstanding - {lease}));
      if w.f.state == Running { ScheduleIdleInv(w1); }
    }
  }

  lemma StopCallInv(w: World, c: nat)
    requires Inv(w)
    ensures Inv(OnStopCall(w, c))
  {
    if w.f.state == Stopping {
      AwaitInv(w, c);
    } else if w.f.state != Stopped {
      BeginStopInv(w);
      AwaitInv(BeginStop(w), c);
    }
  }

  lemma CommitsBase(w: World, d: nat)
    requires Inv(w) && Enabled(w, Commits(d))
    ensures w.f.state == Starting ==> Base(BecomesRunning(w, d))
  {}

  lemma CommitsInv(w: World, d: nat)
    requires Inv(w) && Enabled(w, Commits(d))
    ensures Inv(OnCommits(w, d))
  {
    if w.f.state == Starting {
      CommitsBase(w, d);
      ScheduleIdleInv(BecomesRunning(w, d));
    }
  }

  lemma IdleCallbackInv(w: World, t: nat)
    requires Inv(w) && Enabled(w, IdleCallback(t))
    ensures Inv(OnIdleCallback(w, t))
  {
    var w1 := w.(rt := SetTimer(w.rt, t, Spent));
    assert Base(w1);
    if w.rt.timers[t].captured == w.f.generation && w.f.state == Running && w.f.activeRequests == 0 {
      BeginStopInv(w1);
    }
  }

  lemma WakeInv(w: World, c: nat)
    requires Inv(w) && Enabled(w, Wake(c))
    ensures Inv(Do(w, Wake(c)))
  {}

  lemma AbandonInv(w: World, c: nat)
    requires Inv(w) && Enabled(w, Abandon(c))
    ensures Inv(Do(w, Abandon(c)))
  {}

  lemma HoldOwn(w: World, kill: bool)
    requires Inv(w) && Enabled(w, Hold(kill))
    ensures FieldsInv(Do(w, Hold(kill))) && WorkersInv(Do(w, Hold(kill)))
  {}

  lemma HoldStoppers(w: World, kill: bool)
    requires Inv(w) && Enabled(w, Hold(kill))
    ensures StoppersInv(Do(w, Hold(kill)))
  {}

  lemma HoldInv(w: World, kill: bool)
    requires Inv(w) && Enabled(w, Hold(kill))
    ensures Inv(Do(w, Hold(kill)))
  {
    HoldOwn(w, kill);
    HoldStoppers(w, kill);
  }

  lemma ResumeInv(w: World)
    requires Inv(w) && Enabled(w, Resume)
    ensures Inv(Do(w, Resume))
  {}

  lemma CancelLifecycleInv(w: World)
    requires Inv(w) && Enabled(w, CancelLifecycle)
    ensures Inv(Do(w, CancelLifecycle))
  {}

  lemma BuildReturnsInv(w: World, d: nat, ok: bool)
    requires Inv(w) && Enabled(w, BuildReturns(d, ok))
    ensures Inv(Do(w, BuildReturns(d, ok)))
  {}

  lemma EntersStartingInv(w: World, d: nat)
    requires Inv(w) && Enabled(w, EntersStarting(d))
    ensures Inv(Do(w, EntersStarting(d)))
  {}

  lemma LaunchReturnsInv(w: World, d: nat, ok: bool)
    requires Inv(w) && Enabled(w, LaunchReturns(d, ok))
    ensures Inv(Do(w, LaunchReturns(d, ok)))
  {}

  lemma RecordsProcessInv(w: World, d: nat)
    requires Inv(w) && Enabled(w, RecordsProcess(d))
    ensures Inv(Do(w, RecordsProcess(d)))
  {}

  lemma ProbeReturnsInv(w: World, d: nat, ok: bool)
    requires Inv(w) && Enabled(w, ProbeReturns(d, ok))
    ensures Inv(Do(w, ProbeReturns(d, ok)))
  {}

  lemma ReapEndsOwn(w: World, d: nat, timedOut: bool)
    requires Inv(w) && Enabled(w, ReapEnds(d, timedOut))
    ensures FieldsInv(Do(w, ReapEnds(d, timedOut))) && WorkersInv(Do(w, ReapEnds(d, timedOut)))
  {}

  lemma ReapEndsStoppers(w: World, d: nat, timedOut: bool)
    requires Inv(w) && Enabled(w, ReapEnds(d, timedOut))
    ensures StoppersInv(Do(w, ReapEnds(d, timedOut)))
  {}

  lemma ReapEndsInv(w: World, d: nat, timedOut: bool)
    requires Inv(w) && Enabled(w, ReapEnds(d, timedOut))
    ensures Inv(Do(w, ReapEnds(d, timedOut)))
  {
    ReapEndsOwn(w, d, timedOut);
    ReapEndsStoppers(w, d, timedOut);
  }

  lemma FailsOwn(w: World, d: nat)
    requires Inv(w) && Enabled(w, Fails(d))
    ensures FieldsInv(OnFails(w, d))
  {}

  lemma FailsWorkers(w: World, d: nat)
    requires Inv(w) && Enabled(w, Fails(d))
    ensures WorkersInv(OnFails(w, d))
  {}

  lemma FailsInv(w: World, d: nat)
    requires Inv(w) && Enabled(w, Fails(d))
    ensures Inv(OnFails(w, d))
  {
    FailsOwn(w, d);
    FailsWorkers(w, d);
  }

  lemma SpawnsWatchOwn(w: World, d: nat)
    requires Inv(w) && Enabled(w, SpawnsWatch(d))
    ensures FieldsInv(Do(w, SpawnsWatch(d)))
  {}

  lemma SpawnsWatchWorkers(w: World, d: nat)
    requires Inv(w) && Enabled(w, SpawnsWatch(d))
    ensures WorkersInv(Do(w, SpawnsWatch(d)))
  {}

  lemma SpawnsWatchInv(w: World, d: nat)
    requires Inv(w) && Enabled(w, SpawnsWatch(d))
    ensures Inv(Do(w, SpawnsWatch(d)))
  {
    SpawnsWatchOwn(w, d);
    SpawnsWatchWorkers(w, d);
  }

  lemma FinishesOwn(w: World, d: nat)
    requires Inv(w) && Enabled(w, Finishes(d))
    ensures FieldsInv(Do(w, Finishes(d))) && StoppersInv(Do(w, Finishes(d)))
  {}

  lemma FinishesWorkers(w: World, d: nat)
    requires Inv(w) && Enabled(w, Finishes(d))
    ensures WorkersInv(Do(w, Finishes(d)))
  {}

  lemma FinishesProcs(w: World, d: nat)
    requires Inv(w) && Enabled(w, Finishes(d))
    ensures ProcsInv(Do(w, Finishes(d)))
  {}

  lemma FinishesInv(w: World, d: nat)
    requires Inv(w) && Enabled(w, Finishes(d))
    ensures Inv(Do(w, Finishes(d)))
  {
    FinishesOwn(w, d);
    FinishesWorkers(w, d);
    FinishesProcs(w, d);
  }

  lemma ReadsWorkerOwn(w: World, s: nat)
    requires Inv(w) && Enabled(w, ReadsWorker(s))
    ensures FieldsInv(Do(w, ReadsWorker(s))) && WorkersInv(Do(w, ReadsWorker(s)))
  {}

  lemma ReadsWorkerStoppers(w: World, s: nat)
    requires Inv(w) && Enabled(w, ReadsWorker(s))
    ensures StoppersInv(Do(w, ReadsWorker(s)))
  {}

  lemma ReadsWorkerInv(w: World, s: nat)
    requires Inv(w) && Enabled(w, ReadsWorker(s))
    ensures Inv(Do(w, ReadsWorker(s)))
  {
    ReadsWorkerOwn(w, s);
    ReadsWorkerStoppers(w, s);
  }

  lemma JoinsInv(w: World, s: nat)
    requires Inv(w) && Enabled(w, Joins(s))
    ensures Inv(Do(w, Joins(s)))
  {}

  lemma ReadsProcessOwn(w: World, s: nat)
    requires Inv(w) && Enabled(w, ReadsProcess(s))
    ensures FieldsInv(Do(w, ReadsProcess(s))) && WorkersInv(Do(w, ReadsProcess(s)))
  {}

  lemma ReadsProcessStoppers(w: World, s: nat)
    requires Inv(w) && Enabled(w, ReadsProcess(s))
    ensures StoppersInv(Do(w, ReadsProcess(s)))
  {}

  lemma ReadsProcessInv(w: World, s: nat)
    requires Inv(w) && Enabled(w, ReadsProcess(s))
    ensures Inv(Do(w, ReadsProcess(s)))
  {
    ReadsProcessOwn(w, s);
    ReadsProcessStoppers(w, s);
  }

  lemma StopCommandReturnsInv(w: World, s: nat, ok: bool)
    requires Inv(w) && Enabled(w, StopCommandReturns(s, ok))
    ensures Inv(Do(w, StopCommandReturns(s, ok)))
  {}

  lemma AwaitEndsOwn(w: World, s: nat, timedOut: bool)
    requires Inv(w) && Enabled(w, AwaitEnds(s, timedOut))
    ensures FieldsInv(Do(w, AwaitEnds(s, timedOut))) && StoppersInv(Do(w, AwaitEnds(s, timedOut)))
  {}

  lemma AwaitEndsWorkers(w: World, s: nat, timedOut: bool)
    requires Inv(w) && Enabled(w, AwaitEnds(s, timedOut))
    ensures WorkersInv(Do(w, AwaitEnds(s, timedOut)))
  {}

  lemma AwaitEndsInv(w: World, s: nat, timedOut: bool)
    requires Inv(w) && Enabled(w, AwaitEnds(s, timedOut))
    ensures Inv(Do(w, AwaitEnds(s, timedOut)))
  {
    AwaitEndsOwn(w, s, timedOut);
    AwaitEndsWorkers(w, s, timedOut);
  }

  lemma PublishesOwn(w: World, s: nat)
    requires Inv(w) && Enabled(w, Publishes(s))
    ensures FieldsInv(OnPublishes(w, s)) && StoppersInv(OnPublishes(w, s))
  {}

  lemma PublishesWorkers(w: World, s: nat)
    requires Inv(w) && Enabled(w, Publishes(s))
    ensures WorkersInv(OnPublishes(w, s))
  {
    hide ProcsInv, TimersInv, CallersInv;
  }

  lemma PublishesProcs(w: World, s: nat)
    requires Inv(w) && Enabled(w, Publishes(s))
    ensures ProcsInv(OnPublishes(w, s))
  {}

  lemma PublishesInv(w: World, s: nat)
    requires Inv(w) && Enabled(w, Publishes(s))
    ensures Inv(OnPublishes(w, s))
  {
    PublishesOwn(w, s);
    PublishesWorkers(w, s);
    PublishesProcs(w, s);
  }

  lemma FiresInv(w: World, t: nat)
    requires Inv(w) && Enabled(w, Fires(t))
    ensures Inv(Do(w, Fires(t)))
  {}

  lemma WatchOwn(w: World, p: nat)
    requires Inv(w) && Enabled(w, Watch(p))
    ensures FieldsInv(OnWatch(w, p)) && StoppersInv(OnWatch(w, p))
  {}

  lemma WatchWorkers(w: World, p: nat)
    requires Inv(w) && Enabled(w, Watch(p))
    ensures WorkersInv(OnWatch(w, p))
  {
    hide StoppersInv, TimersInv, CallersInv;
  }

  lemma WatchProcs(w: World, p: nat)
    requires Inv(w) && Enabled(w, Watch(p))
    ensures ProcsInv(OnWatch(w, p))
  {}

  lemma WatchInv(w: World, p: nat)
    requires Inv(w) && Enabled(w, Watch(p))
    ensures Inv(OnWatch(w, p))
  {
    WatchOwn(w, p);
    WatchWorkers(w, p);
    WatchProcs(w, p);
  }

  lemma ProcessExitsInv(w: World, p: nat)
    requires Inv(w) && Enabled(w, ProcessExits(p))
    ensures Inv(Do(w, ProcessExits(p)))
  {}

  lemma TickInv(w: World, elapsed: nat)
    requires Inv(w) && Enabled(w, Tick(elapsed))
    ensures Inv(Do(w, Tick(elapsed)))
  {}

  predicate ByCaller(l: Label) {
    l.Acquire? || l.Wake? || l.Abandon? || l.Release? || l.StopCall? || l.Hold? || l.Resume? || l.CancelLifecycle?
  }

  predicate ByWorker(l: Label) {
    || l.BuildReturns? || l.EntersStarting? || l.LaunchReturns? || l.RecordsProcess? || l.ProbeReturns?
    || l.ReapEnds? || l.Commits? || l.Fails? || l.SpawnsWatch? || l.Finishes?
  }

  predicate ByStopper(l: Label) {
    l.ReadsWorker? || l.Joins? || l.ReadsProcess? || l.StopCommandReturns? || l.AwaitEnds? || l.Publishes?
  }

  lemma CallerStepInv(w: World, l: Label)
    requires Inv(w) && Enabled(w, l) && ByCaller(l)
    ensures Inv(Do(w, l))
  {
    match l
    case Acquire(c) => AcquireInv(w, c);
    case Wake(c) => WakeInv(w, c);
    case Abandon(c) => AbandonInv(w, c);
    case Release(lease) => ReleaseInv(w, lease);
    case StopCall(c) => StopCallInv(w, c);
    case Hold(kill) => HoldInv(w, kill);
    case Resume => ResumeInv(w);
    case CancelLifecycle => CancelLifecycleInv(w);
  }

  lemma WorkerStepInv(w: World, l: Label)
    requires Inv(w) && Enabled(w, l) && ByWorker(l)
    ensures Inv(Do(w, l))
  {
    match l
    case BuildReturns(d, ok) => BuildReturnsInv(w, d, ok);
    case EntersStarting(d) => EntersStartingInv(w, d);
    case LaunchReturns(d, ok) => LaunchReturnsInv(w, d, ok);
    case RecordsProcess(d) => RecordsProcessInv(w, d);
    case ProbeReturns(d, ok) => ProbeReturnsInv(w, d, ok);
    case ReapEnds(d, timedOut) => ReapEndsInv(w, d, timedOut);
    case Commits(d) => CommitsInv(w, d);
    case Fails(d) => FailsInv(w, d);
    case SpawnsWatch(d) => SpawnsWatchInv(w, d);
    case Finishes(d) => FinishesInv(w, d);
  }

  lemma StopperStepInv(w: World, l: Label)
    requires Inv(w) && Enabled(w, l) && ByStopper(l)
    ensures Inv(Do(w, l))
  {
    match l
    case ReadsWorker(s) => ReadsWorkerInv(w, s);
    case Joins(s) => JoinsInv(w, s);
    case ReadsProcess(s) => ReadsProcessInv(w, s);
    case StopCommandReturns(s, ok) => StopCommandReturnsInv(w, s, ok);
    case AwaitEnds(s, timedOut) => AwaitEndsInv(w, s, timedOut);
    case Publishes(s) => PublishesInv(w, s);
  }

  lemma OtherStepInv(w: World, l: Label)
    requires Inv(w) && Enabled(w, l) && !ByCaller(l) && !ByWorker(l) && !ByStopper(l)
    ensures Inv(Do(w, l))
  {
    match l
    case Fires(t) => FiresInv(w, t);
    case IdleCallback(t) => IdleCallbackInv(w, t);
    case Watch(p) => WatchInv(w, p);
    case ProcessExits(p) => ProcessExitsInv(w, p);
    case Tick(elapsed) => TickInv(w, elapsed);
  }

  // Every step of every goroutine and of the environment keeps the invariant.
  lemma StepInv(w: World, l: Label)
    requires Inv(w) && Enabled(w, l)
    ensures Inv(Do(w, l))
  {
    if ByCaller(l) { CallerStepInv(w, l); }
    else if ByWorker(l) { WorkerStepInv(w, l); }
    else if ByStopper(l) { StopperStepInv(w, l); }
    else { OtherStepInv(w, l); }
  }

  // Hence every state of every run satisfies it.
  lemma {:induction false} RunInv(cfg: Config, ws: seq<World>, ls: seq<Label>, i: nat)
    requires IsRun(cfg, ws, ls) && i < |ws|
    ensures Inv(ws[i]) && ws[i].cfg == cfg
  {
    if i == 0 {
      InitInv(cfg);
    } else {
      RunInv(cfg, ws, ls, i - 1);
      assert Enabled(ws[i - 1], ls[i - 1]);
      StepInv(ws[i - 1], ls[i - 1]);
      KeepsConfig(ws[i - 1], ls[i - 1]);
    }
  }

  lemma KeepsConfig(w: World, l: Label)
    requires Enabled(w, l)
    ensures Do(w, l).cfg == w.cfg
  {}
}
