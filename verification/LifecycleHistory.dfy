// What a service's fields say about what has happened: which returns of commands, probes and
// processes must have come before, told from the labels of the run alone.

module LifecycleHistory {
  import opened Options
  import opened Lifecycle
  import opened LifecycleInvariant
  import LT = LifecycleTheorems

  // Labels that a worker or stop goroutine can take ------------------------------------------

  predicate OfWorker(l: Label, d: nat) { ByWorker(l) && l.d == d }

  predicate OfStopper(l: Label, s: nat) { ByStopper(l) && l.s == s }

  // The build of worker d, if one is configured, has succeeded.
  predicate Built(cfg: Config, h: set<Label>, d: nat) { cfg.build ==> BuildReturns(d, true) in h }

  predicate Launched(cfg: Config, h: set<Label>, d: nat) {
    Built(cfg, h, d) && EntersStarting(d) in h && LaunchReturns(d, true) in h
  }

  predicate Ready(cfg: Config, h: set<Label>, d: nat) {
    Launched(cfg, h, d) && RecordsProcess(d) in h && ProbeReturns(d, true) in h
  }

  // What makes a start fail, in the terms of its worker's labels.
  predicate Caused(h: set<Label>, d: nat, why: Failure) {
    match why
    case BuildFailed => BuildReturns(d, false) in h
    case LaunchFailed => LaunchReturns(d, false) in h
    case NotReady => ProbeReturns(d, false) in h
    case _ => false
  }

  predicate NothingFailed(h: set<Label>, d: nat) {
    BuildReturns(d, false) !in h && LaunchReturns(d, false) !in h && ProbeReturns(d, false) !in h
  }

  predicate NotLaunched(h: set<Label>, d: nat) { LaunchReturns(d, true) !in h && ProbeReturns(d, true) !in h }

  predicate OnlyFailed(h: set<Label>, d: nat, why: Failure) {
    && Caused(h, d, why) && ProbeReturns(d, true) !in h
    && (BuildReturns(d, false) in h ==> why == BuildFailed)
    && (LaunchReturns(d, false) in h ==> why == LaunchFailed)
    && (ProbeReturns(d, false) in h ==> why == NotReady)
  }

  // Where a worker is tells what it has been through.
  predicate WorkerStory(cfg: Config, h: set<Label>, d: nat, pc: WorkerPc) {
    match pc
    case RunBuild => NothingFailed(h, d) && NotLaunched(h, d)
    case EnterStarting => NothingFailed(h, d) && NotLaunched(h, d) && Built(cfg, h, d)
    case Launch => NothingFailed(h, d) && NotLaunched(h, d) && Built(cfg, h, d) && EntersStarting(d) in h
    case Record(_) => NothingFailed(h, d) && ProbeReturns(d, true) !in h && Launched(cfg, h, d)
    case Probe(_) =>
      NothingFailed(h, d) && ProbeReturns(d, true) !in h && Launched(cfg, h, d) && RecordsProcess(d) in h
    case Reap(_) => OnlyFailed(h, d, NotReady)
    case Commit(_) => NothingFailed(h, d) && Ready(cfg, h, d)
    case Fail(why) => OnlyFailed(h, d, why)
    case SpawnWatch(_) => !cfg.stopCommand && NothingFailed(h, d)
    case _ => ProbeReturns(d, true) in h ==> NothingFailed(h, d)
  }

  // And a stop goroutine: a configured stop command has returned, and how.
  predicate StopperStory(cfg: Config, h: set<Label>, s: nat, pc: StopPc) {
    match pc
    case StopBegin => !CommandReturned(h, s)
    case StopJoin(_) => !CommandReturned(h, s)
    case StopRead => !CommandReturned(h, s)
    case StopCommand(_) => cfg.stopCommand && !CommandReturned(h, s)
    case StopAwait(_, failed) =>
      (failed <==> StopCommandReturns(s, false) in h) && (cfg.stopCommand <==> CommandReturned(h, s))
    case StopPublish(failed) =>
      (failed <==> StopCommandReturns(s, false) in h) && (cfg.stopCommand <==> CommandReturned(h, s))
    case StopGone => cfg.stopCommand <==> CommandReturned(h, s)
  }

  predicate CommandReturned(h: set<Label>, s: nat) {
    StopCommandReturns(s, true) in h || StopCommandReturns(s, false) in h
  }

  ghost predicate WorkersStory(w: World, h: set<Label>) {
    && (forall d: nat :: d < |w.rt.workers| ==> WorkerStory(w.cfg, h, d, w.rt.workers[d].pc))
    && (forall l :: l in h && ByWorker(l) ==> l.d < |w.rt.workers|)
  }

  ghost predicate StoppersStory(w: World, h: set<Label>) {
    && (forall s: nat :: s < |w.rt.stoppers| ==> StopperStory(w.cfg, h, s, w.rt.stoppers[s].pc))
    && (forall l :: l in h && ByStopper(l) ==> l.s < |w.rt.stoppers|)
  }

  // Every process was launched, has exited if it did, and is watched only without a stop command.
  predicate ProcStory(cfg: Config, h: set<Label>, p: nat, k: Proc) {
    && Launched(cfg, h, k.owner)
    && (k.exited <==> ProcessExits(p) in h)
    && (cfg.stopCommand ==> k.watcher == Unwatched)
  }

  ghost predicate ProcsStory(w: World, h: set<Label>) {
    && (forall p: nat :: p < |w.rt.procs| ==> ProcStory(w.cfg, h, p, w.rt.procs[p]))
    && (forall l :: l in h && l.ProcessExits? ==> l.p < |w.rt.procs|)
  }

  // The process of a running service is that of its worker, which found it ready.
  predicate RunningStory(w: World, h: set<Label>) {
    w.f.state == Running && w.f.process.Some? && w.f.process.value < |w.rt.procs| ==>
      var d := w.rt.procs[w.f.process.value].owner;
      w.f.workerDone == Some(d) && Ready(w.cfg, h, d) && Commits(d) in h
  }

  // The errors are those of the attempt and of the stop that came last.
  predicate ErrorsStory(w: World, h: set<Label>) {
    && (InStartup(w.f.state) || w.f.state == Running ==> w.f.startErr == None)
    && w.f.stopErr == (if w.f.stopDone.Some? && w.f.state != Stopping &&
                          StopCommandReturns(w.f.stopDone.value, false) in h
                       then Some(StopFailed) else None)
  }

  ghost predicate Story(w: World, h: set<Label>) {
    WorkersStory(w, h) && StoppersStory(w, h) && ProcsStory(w, h) && RunningStory(w, h) && ErrorsStory(w, h)
  }

  // One step ---------------------------------------------------------------------------------

  lemma InitStory(cfg: Config)
    ensures Story(Init(cfg), {})
  {}

  // The order of the lines of `start`.
  predicate NextLine(cfg: Config, pc: WorkerPc, l: Label, next: WorkerPc) {
    match l
    case BuildReturns(_, ok) => pc == RunBuild && next == if ok then EnterStarting else Fail(BuildFailed)
    case EntersStarting(_) => pc == EnterStarting && (next == Launch || next == Finish)
    case LaunchReturns(_, ok) => pc == Launch && if ok then next.Record? else next == Fail(LaunchFailed)
    case RecordsProcess(_) => pc.Record? && next == Probe(pc.p)
    case ProbeReturns(_, ok) => pc.Probe? && next == if ok then Commit(pc.p) else Reap(pc.p)
    case ReapEnds(_, _) => pc.Reap? && next == Fail(NotReady)
    case Commits(_) => pc.Commit? && (next == Finish || (next == SpawnWatch(pc.p) && !cfg.stopCommand))
    case Fails(_) => pc.Fail? && next == Finish
    case SpawnsWatch(_) => pc.SpawnWatch? && next == Finish
    case Finishes(_) => pc == Finish && next == Gone
    case _ => false
  }

  // A worker moves by its own labels only, and along these lines.
  lemma WorkerMoves(w: World, l: Label)
    requires Enabled(w, l) && ByWorker(l)
    ensures |Do(w, l).rt.workers| == |w.rt.workers|
    ensures NextLine(w.cfg, w.rt.workers[l.d].pc, l, Do(w, l).rt.workers[l.d].pc)
  {
    hide OnCommits, OnFails, OnEntersStarting, OnLaunchReturns;
    if l.Commits? {
      CommitMoves(w, l.d);
    } else if l.Fails? {
      FailMoves(w, l.d);
    } else if l.EntersStarting? || l.LaunchReturns? {
      LaunchMoves(w, l);
    }
  }

  lemma CommitMoves(w: World, d: nat)
    requires Enabled(w, Commits(d))
    ensures |OnCommits(w, d).rt.workers| == |w.rt.workers|
    ensures NextLine(w.cfg, w.rt.workers[d].pc, Commits(d), OnCommits(w, d).rt.workers[d].pc)
  {
    hide ScheduleIdle, CloseAttempt;
    if w.f.state == Starting {
      var pc := if w.cfg.stopCommand then Finish else SpawnWatch(w.rt.workers[d].pc.p);
      CloseMovesNone(Goto(w.rt, d, pc), Some(d), d);
      ScheduleMovesNone(BecomesRunning(w, d));
    }
  }

  lemma ScheduleMovesNone(w: World)
    ensures ScheduleIdle(w).rt.workers == w.rt.workers
  {}

  lemma FailMoves(w: World, d: nat)
    requires Enabled(w, Fails(d))
    ensures |OnFails(w, d).rt.workers| == |w.rt.workers|
    ensures NextLine(w.cfg, w.rt.workers[d].pc, Fails(d), OnFails(w, d).rt.workers[d].pc)
  {}

  lemma LaunchMoves(w: World, l: Label)
    requires Enabled(w, l) && (l.EntersStarting? || l.LaunchReturns?)
    ensures |Do(w, l).rt.workers| == |w.rt.workers|
    ensures NextLine(w.cfg, w.rt.workers[l.d].pc, l, Do(w, l).rt.workers[l.d].pc)
  {}

  lemma WorkerStays(w: World, l: Label, d: nat)
    requires Enabled(w, l) && d < |w.rt.workers| && !OfWorker(l, d)
    ensures d < |Do(w, l).rt.workers| && Do(w, l).rt.workers[d].pc == w.rt.workers[d].pc
  {
    hide Do;
    if ByWorker(l) {
      WorkerMovesAlone(w, l, d);
    } else if ByStopper(l) {
      StopperMovesNone(w, l, d);
    } else if ByCaller(l) {
      CallerMovesNone(w, l, d);
    } else {
      OthersMoveNone(w, l, d);
    }
  }

  lemma WorkerMovesAlone(w: World, l: Label, d: nat)
    requires Enabled(w, l) && d < |w.rt.workers| && ByWorker(l) && l.d != d
    ensures d < |Do(w, l).rt.workers| && Do(w, l).rt.workers[d].pc == w.rt.workers[d].pc
  {
    hide OnCommits, OnFails;
    if l.Commits? {
      CommitMovesAlone(w, l.d, d);
    } else if l.Fails? {
      FailMovesAlone(w, l.d, d);
    }
  }

  lemma CommitMovesAlone(w: World, e: nat, d: nat)
    requires Enabled(w, Commits(e)) && d < |w.rt.workers| && e != d
    ensures d < |OnCommits(w, e).rt.workers| && OnCommits(w, e).rt.workers[d].pc == w.rt.workers[d].pc
  {
    hide ScheduleIdle, CloseAttempt;
    if w.f.state == Starting {
      var pc := if w.cfg.stopCommand then Finish else SpawnWatch(w.rt.workers[e].pc.p);
      CloseMovesNone(Goto(w.rt, e, pc), Some(e), d);
      ScheduleMovesNone(BecomesRunning(w, e));
    }
  }

  lemma FailMovesAlone(w: World, e: nat, d: nat)
    requires Enabled(w, Fails(e)) && d < |w.rt.workers| && e != d
    ensures d < |OnFails(w, e).rt.workers| && OnFails(w, e).rt.workers[d].pc == w.rt.workers[d].pc
  {}

  lemma StopperMovesNone(w: World, l: Label, d: nat)
    requires Enabled(w, l) && d < |w.rt.workers| && ByStopper(l)
    ensures d < |Do(w, l).rt.workers| && Do(w, l).rt.workers[d].pc == w.rt.workers[d].pc
  {}

  lemma CallerMovesNone(w: World, l: Label, d: nat)
    requires Enabled(w, l) && d < |w.rt.workers| && ByCaller(l)
    ensures d < |Do(w, l).rt.workers| && Do(w, l).rt.workers[d].pc == w.rt.workers[d].pc
  {
    hide OnAcquire, OnRelease, OnStopCall, OnHold;
    match l
    case Acquire(c) => AcquireMovesNone(w, c, d);
    case Release(lease) => ReleaseMovesNone(w, lease, d);
    case StopCall(c) => StopCallMovesNone(w, c, d);
    case Hold(kill) => HoldMovesNone(w, kill, d);
    case _ =>
  }

  lemma AcquireMovesNone(w: World, c: nat, d: nat)
    requires d < |w.rt.workers|
    ensures d < |OnAcquire(w, c).rt.workers| && OnAcquire(w, c).rt.workers[d].pc == w.rt.workers[d].pc
  {}

  lemma ReleaseMovesNone(w: World, lease: nat, d: nat)
    requires d < |w.rt.workers|
    ensures d < |OnRelease(w, lease).rt.workers| && OnRelease(w, lease).rt.workers[d].pc == w.rt.workers[d].pc
  {}

  lemma StopCallMovesNone(w: World, c: nat, d: nat)
    requires d < |w.rt.workers|
    ensures d < |OnStopCall(w, c).rt.workers| && OnStopCall(w, c).rt.workers[d].pc == w.rt.workers[d].pc
  {
    hide BeginStop;
    BeginStopMovesNone(w, d);
  }

  lemma BeginStopMovesNone(w: World, d: nat)
    requires d < |w.rt.workers|
    ensures d < |BeginStop(w).rt.workers| && BeginStop(w).rt.workers[d].pc == w.rt.workers[d].pc
  {
    hide CancelAttempt, CloseAttempt;
    var rt := StopTimer(w.rt, w.f.idleTimer);
    CancelMovesNone(rt, w.f.startCancel, d);
    var rt1 := if InStartup(w.f.state) then CancelAttempt(rt, w.f.startCancel) else rt;
    CloseMovesNone(rt1.(stoppers := rt1.stoppers + [Stopper(StopBegin, false)]), w.f.startDone, d);
  }

  lemma CancelMovesNone(rt: Runtime, c: Option<nat>, d: nat)
    requires d < |rt.workers|
    ensures d < |CancelAttempt(rt, c).workers| && CancelAttempt(rt, c).workers[d].pc == rt.workers[d].pc
  {}

  lemma CloseMovesNone(rt: Runtime, ch: Option<nat>, d: nat)
    requires d < |rt.workers|
    ensures d < |CloseAttempt(rt, ch).workers| && CloseAttempt(rt, ch).workers[d].pc == rt.workers[d].pc
  {}

  lemma HoldMovesNone(w: World, kill: bool, d: nat)
    requires d < |w.rt.workers|
    ensures d < |OnHold(w, kill).rt.workers| && OnHold(w, kill).rt.workers[d].pc == w.rt.workers[d].pc
  {}

  lemma OthersMoveNone(w: World, l: Label, d: nat)
    requires Enabled(w, l) && d < |w.rt.workers| && !ByCaller(l) && !ByWorker(l) && !ByStopper(l)
    ensures d < |Do(w, l).rt.workers| && Do(w, l).rt.workers[d].pc == w.rt.workers[d].pc
  {}

  lemma WorkerStoryMoves(cfg: Config, h: set<Label>, pc: WorkerPc, l: Label, next: WorkerPc)
    requires ByWorker(l) && WorkerStory(cfg, h, l.d, pc) && NextLine(cfg, pc, l, next)
    ensures WorkerStory(cfg, h + {l}, l.d, next)
  {}

  lemma WorkerStoryStays(cfg: Config, h: set<Label>, l: Label, d: nat, pc: WorkerPc)
    requires WorkerStory(cfg, h, d, pc) && !OfWorker(l, d)
    ensures WorkerStory(cfg, h + {l}, d, pc)
  {}

  // A new worker has no past, and begins with the build if there is one.
  lemma NewWorker(w: World, h: set<Label>, l: Label, d: nat)
    requires Enabled(w, l) && WorkersStory(w, h) && |w.rt.workers| <= d < |Do(w, l).rt.workers|
    ensures l.Acquire? && WorkerStory(w.cfg, h + {l}, d, Do(w, l).rt.workers[d].pc)
  {
    if ByWorker(l) { WorkerMoves(w, l); } else if ByStopper(l) { StopperMakesNone(w, l); }
  }

  lemma StopperMakesNone(w: World, l: Label)
    requires Enabled(w, l) && ByStopper(l)
    ensures |Do(w, l).rt.workers| == |w.rt.workers|
  {}

  lemma WorkersStoryStep(w: World, h: set<Label>, l: Label)
    requires Enabled(w, l) && WorkersStory(w, h)
    ensures WorkersStory(Do(w, l), h + {l})
  {
    hide Do, WorkerStory, NextLine;
    var w' := Do(w, l);
    SameConfig(w, l);
    forall d: nat | d < |w'.rt.workers| ensures WorkerStory(w'.cfg, h + {l}, d, w'.rt.workers[d].pc) {
      if OfWorker(l, d) {
        WorkerMoves(w, l);
        WorkerStoryMoves(w.cfg, h, w.rt.workers[d].pc, l, w'.rt.workers[d].pc);
      } else if d < |w.rt.workers| {
        WorkerStays(w, l, d);
        WorkerStoryStays(w.cfg, h, l, d, w.rt.workers[d].pc);
      } else {
        NewWorker(w, h, l, d);
      }
    }
    NoneUnmade(w, l);
  }

  lemma NoneUnmade(w: World, l: Label)
    requires Enabled(w, l)
    ensures |Do(w, l).rt.workers| >= |w.rt.workers| && |Do(w, l).rt.stoppers| >= |w.rt.stoppers|
    ensures ByWorker(l) ==> l.d < |w.rt.workers|
    ensures ByStopper(l) ==> l.s < |w.rt.stoppers|
  {
    LT.StaysMade(w, l);
  }

  lemma SameConfig(w: World, l: Label)
    requires Enabled(w, l)
    ensures Do(w, l).cfg == w.cfg
  {
    if ByWorker(l) { WorkerKeepsConfig(w, l); } else if ByStopper(l) { StopperKeepsConfig(w, l); }
  }

  lemma WorkerKeepsConfig(w: World, l: Label)
    requires Enabled(w, l) && ByWorker(l)
    ensures Do(w, l).cfg == w.cfg
  {}

  lemma StopperKeepsConfig(w: World, l: Label)
    requires Enabled(w, l) && ByStopper(l)
    ensures Do(w, l).cfg == w.cfg
  {}

  // The order of the lines of `stop`.
  predicate NextStopLine(cfg: Config, pc: StopPc, l: Label, next: StopPc) {
    match l
    case ReadsWorker(_) => pc == StopBegin && next.StopJoin?
    case Joins(_) => pc.StopJoin? && next == StopRead
    case ReadsProcess(_) =>
      pc == StopRead &&
      if cfg.stopCommand then next.StopCommand? else (next.StopAwait? && !next.failed) || next == StopPublish(false)
    case StopCommandReturns(_, ok) =>
      pc.StopCommand? && ((next.StopAwait? && next.failed == !ok) || next == StopPublish(!ok))
    case AwaitEnds(_, _) => pc.StopAwait? && next == StopPublish(pc.failed)
    case Publishes(_) => pc.StopPublish? && next == StopGone
    case _ => false
  }

  lemma StopperMoves(w: World, l: Label)
    requires Enabled(w, l) && ByStopper(l)
    ensures |Do(w, l).rt.stoppers| == |w.rt.stoppers|
    ensures NextStopLine(w.cfg, w.rt.stoppers[l.s].pc, l, Do(w, l).rt.stoppers[l.s].pc)
  {}

  lemma StopperStays(w: World, l: Label, s: nat)
    requires Enabled(w, l) && s < |w.rt.stoppers| && !OfStopper(l, s)
    ensures s < |Do(w, l).rt.stoppers| && Do(w, l).rt.stoppers[s].pc == w.rt.stoppers[s].pc
  {
    hide Do;
    if ByWorker(l) {
      WorkerStopsNone(w, l, s);
    } else if ByStopper(l) {
      StopperMovesAlone(w, l, s);
    } else if ByCaller(l) {
      CallerStopsNone(w, l, s);
    } else {
      OthersStopNone(w, l, s);
    }
  }

  lemma StopperMovesAlone(w: World, l: Label, s: nat)
    requires Enabled(w, l) && s < |w.rt.stoppers| && ByStopper(l) && l.s != s
    ensures s < |Do(w, l).rt.stoppers| && Do(w, l).rt.stoppers[s].pc == w.rt.stoppers[s].pc
  {}

  lemma WorkerStopsNone(w: World, l: Label, s: nat)
    requires Enabled(w, l) && s < |w.rt.stoppers| && ByWorker(l)
    ensures s < |Do(w, l).rt.stoppers| && Do(w, l).rt.stoppers[s].pc == w.rt.stoppers[s].pc
  {
    hide OnCommits, OnFails;
    if l.Commits? { CommitStopsNone(w, l.d); } else if l.Fails? { FailStopsNone(w, l.d); }
  }

  lemma CommitStopsNone(w: World, d: nat)
    requires Enabled(w, Commits(d))
    ensures OnCommits(w, d).rt.stoppers == w.rt.stoppers
  {}

  lemma FailStopsNone(w: World, d: nat)
    requires Enabled(w, Fails(d))
    ensures OnFails(w, d).rt.stoppers == w.rt.stoppers
  {}

  lemma CallerStopsNone(w: World, l: Label, s: nat)
    requires Enabled(w, l) && s < |w.rt.stoppers| && ByCaller(l)
    ensures s < |Do(w, l).rt.stoppers| && Do(w, l).rt.stoppers[s].pc == w.rt.stoppers[s].pc
  {
    hide OnAcquire, OnRelease, OnStopCall, OnHold;
    match l
    case Acquire(c) => AcquireStopsNone(w, c);
    case Release(lease) => ReleaseStopsNone(w, lease);
    case StopCall(c) => StopCallStopsNone(w, c, s);
    case Hold(kill) => HoldStopsNone(w, kill);
    case _ =>
  }

  lemma AcquireStopsNone(w: World, c: nat)
    ensures OnAcquire(w, c).rt.stoppers == w.rt.stoppers
  {}

  lemma ReleaseStopsNone(w: World, lease: nat)
    ensures OnRelease(w, lease).rt.stoppers == w.rt.stoppers
  {}

  lemma HoldStopsNone(w: World, kill: bool)
    ensures OnHold(w, kill).rt.stoppers == w.rt.stoppers
  {}

  lemma StopCallStopsNone(w: World, c: nat, s: nat)
    requires s < |w.rt.stoppers|
    ensures s < |OnStopCall(w, c).rt.stoppers| && OnStopCall(w, c).rt.stoppers[s].pc == w.rt.stoppers[s].pc
  {
    hide BeginStop;
    BeginStopAddsOne(w);
  }

  lemma BeginStopAddsOne(w: World)
    ensures BeginStop(w).rt.stoppers == w.rt.stoppers + [Stopper(StopBegin, false)]
  {}

  lemma OthersStopNone(w: World, l: Label, s: nat)
    requires Enabled(w, l) && s < |w.rt.stoppers| && !ByCaller(l) && !ByWorker(l) && !ByStopper(l)
    ensures s < |Do(w, l).rt.stoppers| && Do(w, l).rt.stoppers[s].pc == w.rt.stoppers[s].pc
  {}

  lemma NewStopper(w: World, l: Label, s: nat)
    requires Enabled(w, l) && |w.rt.stoppers| <= s < |Do(w, l).rt.stoppers|
    ensures !ByStopper(l) && Do(w, l).rt.stoppers[s].pc == StopBegin
  {
    hide OnCommits, OnFails, OnAcquire, OnRelease, OnHold;
    if ByStopper(l) {
      StopperMoves(w, l);
    } else if ByWorker(l) {
      WorkerMakesNoStopper(w, l);
    } else if l.Acquire? {
      AcquireStopsNone(w, l.c);
    } else if l.Release? {
      ReleaseStopsNone(w, l.lease);
    } else if l.Hold? {
      HoldStopsNone(w, l.kill);
    }
  }

  lemma WorkerMakesNoStopper(w: World, l: Label)
    requires Enabled(w, l) && ByWorker(l)
    ensures |Do(w, l).rt.stoppers| == |w.rt.stoppers|
  {}

  lemma StopperStoryMoves(cfg: Config, h: set<Label>, pc: StopPc, l: Label, next: StopPc)
    requires ByStopper(l) && StopperStory(cfg, h, l.s, pc) && NextStopLine(cfg, pc, l, next)
    ensures StopperStory(cfg, h + {l}, l.s, next)
  {}

  lemma StopperStoryStays(cfg: Config, h: set<Label>, l: Label, s: nat, pc: StopPc)
    requires StopperStory(cfg, h, s, pc) && !OfStopper(l, s)
    ensures StopperStory(cfg, h + {l}, s, pc)
  {}

  lemma StoppersStoryStep(w: World, h: set<Label>, l: Label)
    requires Enabled(w, l) && StoppersStory(w, h)
    ensures StoppersStory(Do(w, l), h + {l})
  {
    hide Do, StopperStory, NextStopLine;
    var w' := Do(w, l);
    SameConfig(w, l);
    forall s: nat | s < |w'.rt.stoppers| ensures StopperStory(w'.cfg, h + {l}, s, w'.rt.stoppers[s].pc) {
      if OfStopper(l, s) {
        StopperMoves(w, l);
        StopperStoryMoves(w.cfg, h, w.rt.stoppers[s].pc, l, w'.rt.stoppers[s].pc);
      } else if s < |w.rt.stoppers| {
        StopperStays(w, l, s);
        StopperStoryStays(w.cfg, h, l, s, w.rt.stoppers[s].pc);
      } else {
        NewStopper(w, l, s);
        StopperBegins(w.cfg, h, l, s, |w.rt.stoppers|);
      }
    }
    NoneUnmade(w, l);
  }

  lemma StopperBegins(cfg: Config, h: set<Label>, l: Label, s: nat, bound: nat)
    requires (forall k :: k in h && ByStopper(k) ==> k.s < bound) && bound <= s && !ByStopper(l)
    ensures StopperStory(cfg, h + {l}, s, StopBegin)
  {}

  // The only steps that kill a process: a kill action, and a wait for its exit that times out.
  predicate Kills(cfg: Config, l: Label) {
    (l == Hold(true) && !cfg.stopCommand) || ((l.ReapEnds? || l.AwaitEnds?) && l.timedOut)
  }

  // Processes keep their owner and exit by their own label; a new one is made by a launch.
  predicate NextProc(cfg: Config, p: nat, k: Proc, l: Label, next: Proc) {
    && next.owner == k.owner
    && (next.exited <==> k.exited || l == ProcessExits(p))
    && (k.killed ==> next.killed)
    && (next.killed && !k.killed ==> Kills(cfg, l))
    && (cfg.stopCommand && !l.SpawnsWatch? && k.watcher == Unwatched ==> next.watcher == Unwatched)
  }

  lemma ProcStays(w: World, l: Label, p: nat)
    requires Enabled(w, l) && p < |w.rt.procs|
    ensures p < |Do(w, l).rt.procs| && NextProc(w.cfg, p, w.rt.procs[p], l, Do(w, l).rt.procs[p])
  {
    hide Do, NextProc;
    if ByWorker(l) {
      ProcStaysByWorker(w, l, p);
    } else if ByStopper(l) {
      ProcStaysByStopper(w, l, p);
    } else {
      ProcStaysByOthers(w, l, p);
    }
  }

  lemma ProcStaysByWorker(w: World, l: Label, p: nat)
    requires Enabled(w, l) && p < |w.rt.procs| && ByWorker(l)
    ensures p < |Do(w, l).rt.procs| && NextProc(w.cfg, p, w.rt.procs[p], l, Do(w, l).rt.procs[p])
  {
    hide OnCommits, OnFails;
    if l.Commits? {
      CommitKeepsProcs(w, l.d);
    } else if l.Fails? {
      FailKeepsProcs(w, l.d);
    } else if l.SpawnsWatch? {
      SpawnKeepsProc(w, l.d, p);
    }
  }

  lemma SpawnKeepsProc(w: World, d: nat, p: nat)
    requires Enabled(w, SpawnsWatch(d)) && p < |w.rt.procs|
    ensures var w' := Do(w, SpawnsWatch(d));
      p < |w'.rt.procs| && NextProc(w.cfg, p, w.rt.procs[p], SpawnsWatch(d), w'.rt.procs[p])
  {}

  lemma CommitKeepsProcs(w: World, d: nat)
    requires Enabled(w, Commits(d))
    ensures OnCommits(w, d).rt.procs == w.rt.procs
  {}

  lemma FailKeepsProcs(w: World, d: nat)
    requires Enabled(w, Fails(d))
    ensures OnFails(w, d).rt.procs == w.rt.procs
  {}

  lemma ProcStaysByStopper(w: World, l: Label, p: nat)
    requires Enabled(w, l) && p < |w.rt.procs| && ByStopper(l)
    ensures p < |Do(w, l).rt.procs| && NextProc(w.cfg, p, w.rt.procs[p], l, Do(w, l).rt.procs[p])
  {}

  lemma ProcStaysByOthers(w: World, l: Label, p: nat)
    requires Enabled(w, l) && p < |w.rt.procs| && !ByWorker(l) && !ByStopper(l)
    ensures p < |Do(w, l).rt.procs| && NextProc(w.cfg, p, w.rt.procs[p], l, Do(w, l).rt.procs[p])
  {
    hide OnStopCall, OnIdleCallback;
    if l.StopCall? {
      StopCallKeepsProcs(w, l.c);
    } else if l.IdleCallback? {
      CallbackKeepsProcs(w, l.t);
    }
  }

  lemma StopCallKeepsProcs(w: World, c: nat)
    ensures OnStopCall(w, c).rt.procs == w.rt.procs
  {
    hide BeginStop;
    BeginStopKeepsProcs(w);
  }

  lemma CallbackKeepsProcs(w: World, t: nat)
    requires t < |w.rt.timers|
    ensures OnIdleCallback(w, t).rt.procs == w.rt.procs
  {
    hide BeginStop;
    BeginStopKeepsProcs(w.(rt := SetTimer(w.rt, t, Spent)));
  }

  lemma BeginStopKeepsProcs(w: World)
    ensures BeginStop(w).rt.procs == w.rt.procs
  {}

  // A process is made by a launch that succeeds and by nothing else.
  predicate MakesProc(w: World, l: Label, w': World) {
    if l.LaunchReturns? && l.ok
    then |w'.rt.procs| == |w.rt.procs| + 1 && w'.rt.procs[|w.rt.procs|] == Proc(l.d, false, false, Unwatched)
    else |w'.rt.procs| == |w.rt.procs|
  }

  lemma NewProc(w: World, l: Label)
    requires Enabled(w, l)
    ensures MakesProc(w, l, Do(w, l))
  {
    hide Do;
    if ByWorker(l) { NewProcByWorker(w, l); } else { NewProcByOthers(w, l); }
  }

  lemma NewProcByWorker(w: World, l: Label)
    requires Enabled(w, l) && ByWorker(l)
    ensures MakesProc(w, l, Do(w, l))
  {
    hide OnCommits, OnFails;
    if l.Commits? { CommitKeepsProcs(w, l.d); } else if l.Fails? { FailKeepsProcs(w, l.d); }
  }

  lemma NewProcByOthers(w: World, l: Label)
    requires Enabled(w, l) && !ByWorker(l)
    ensures |Do(w, l).rt.procs| == |w.rt.procs|
    ensures l.ProcessExits? ==> l.p < |w.rt.procs|
  {
    hide OnStopCall, OnIdleCallback;
    if l.StopCall? {
      StopCallKeepsProcs(w, l.c);
    } else if l.IdleCallback? {
      CallbackKeepsProcs(w, l.t);
    }
  }

  lemma ProcsStoryStep(w: World, h: set<Label>, l: Label)
    requires Enabled(w, l) && ProcsStory(w, h) && WorkersStory(w, h)
    ensures ProcsStory(Do(w, l), h + {l})
  {
    hide Do;
    var w' := Do(w, l);
    SameConfig(w, l);
    NewProc(w, l);
    if !ByWorker(l) { NewProcByOthers(w, l); }
    if ByWorker(l) { assert WorkerStory(w.cfg, h, l.d, w.rt.workers[l.d].pc); }
    forall p: nat | p < |w'.rt.procs| ensures ProcStory(w'.cfg, h + {l}, p, w'.rt.procs[p]) {
      if p < |w.rt.procs| { ProcStays(w, l, p); }
    }
  }

  // The state diagram -------------------------------------------------------------------------

  // How a label can change the state, and what it leaves as the start's error.
  predicate Edge(w: World, l: Label, w': World) {
    match (w.f.state, w'.f.state)
    case (Stopped, Building) => l.Acquire? && w'.f.startErr == None && !w.rt.lifecycleDone && !w.f.manualStopped
    case (Failed, Building) => l.Acquire? && w'.f.startErr == None && !w.rt.lifecycleDone && !w.f.manualStopped
    case (Building, Starting) =>
      l.EntersStarting? && w.f.workerDone == Some(l.d) == w'.f.workerDone && w'.f.startErr == None
    case (Starting, Running) =>
      l.Commits? && w.f.workerDone == Some(l.d) == w'.f.workerDone && w'.f.startErr == None
    case (Building, Failed) => FailEdge(w, l, w')
    case (Starting, Failed) => FailEdge(w, l, w')
    case (Building, Stopping) => l.StopCall? && w'.f.startErr == Some(Closing)
    case (Starting, Stopping) => l.StopCall? && w'.f.startErr == Some(Closing)
    case (Running, Stopping) => (l.StopCall? || l.IdleCallback?) && w'.f.startErr == None
    case (Failed, Stopping) => l.StopCall? && w'.f.startErr == w.f.startErr
    case (Running, Failed) =>
      l.Watch? && w.f.process == Some(l.p) && w'.f.startErr == Some(Exited) && Ended(w.rt, l.p, false)
    case (Stopping, Stopped) => l.Publishes? && w.f.stopDone == Some(l.s) && w'.f.startErr == w.f.startErr
    case (Stopping, Failed) => l.Publishes? && w.f.stopDone == Some(l.s) && w'.f.startErr == Some(StopFailed)
    case _ => false
  }

  predicate FailEdge(w: World, l: Label, w': World) {
    && l.Fails? && w.f.workerDone == Some(l.d) && l.d < |w.rt.workers|
    && w.rt.workers[l.d].pc.Fail? && w'.f.startErr == Some(w.rt.workers[l.d].pc.why)
  }

  // What goes with the state stays with it.
  predicate SameAttempt(w: World, w': World) {
    && w'.f.startErr == w.f.startErr && w'.f.workerDone == w.f.workerDone && w'.f.stopDone == w.f.stopDone
    && w'.f.stopErr == w.f.stopErr && w'.f.starts == w.f.starts
    && (w.f.state == Running ==> w'.f.process == w.f.process)
  }

  predicate StepsAlong(w: World, l: Label, w': World) {
    if w'.f.state == w.f.state then SameAttempt(w, w') else Edge(w, l, w')
  }

  lemma StateStep(w: World, l: Label)
    requires Inv(w) && Enabled(w, l) && (w.f.state == Running ==> w.f.startErr == None)
    requires InStartup(w.f.state) ==> w.f.startErr == None
    ensures StepsAlong(w, l, Do(w, l))
  {
    hide OnAcquire, OnRelease, OnStopCall;
    if ByWorker(l) {
      WorkerStateStep(w, l);
    } else if l.Acquire? || l.Release? || l.StopCall? {
      CallerStateStep(w, l);
    }
  }

  lemma CallerStateStep(w: World, l: Label)
    requires Inv(w) && Enabled(w, l) && (l.Acquire? || l.Release? || l.StopCall?)
    requires w.f.state == Running ==> w.f.startErr == None
    ensures StepsAlong(w, l, Do(w, l))
  {}

  lemma WorkerStateStep(w: World, l: Label)
    requires Inv(w) && Enabled(w, l) && ByWorker(l) && (InStartup(w.f.state) ==> w.f.startErr == None)
    ensures StepsAlong(w, l, Do(w, l))
  {}

  // What becomes of the error of the last stop.
  predicate StopErrStep(w: World, l: Label, w': World) {
    if w.f.state != Stopping && w'.f.state == Stopping then w'.f.stopErr == None
    else if w.f.state == Stopping && w'.f.state != Stopping then
      && l.Publishes? && l.s < |w.rt.stoppers| && w.rt.stoppers[l.s].pc.StopPublish?
      && w'.f.stopDone == w.f.stopDone == Some(l.s)
      && w'.f.stopErr == if w.rt.stoppers[l.s].pc.failed then Some(StopFailed) else None
    else w'.f.stopDone == w.f.stopDone && w'.f.stopErr == w.f.stopErr
  }

  lemma StopErrSteps(w: World, l: Label)
    requires Inv(w) && Enabled(w, l)
    ensures StopErrStep(w, l, Do(w, l))
  {
    if ByWorker(l) { WorkerStopErrStep(w, l); }
  }

  lemma WorkerStopErrStep(w: World, l: Label)
    requires Inv(w) && Enabled(w, l) && ByWorker(l)
    ensures StopErrStep(w, l, Do(w, l))
  {}

  lemma CommitRuns(w: World, d: nat)
    requires Inv(w) && Enabled(w, Commits(d))
    ensures w.f.process.Some? && w.f.process.value < |w.rt.procs| && w.rt.procs[w.f.process.value].owner == d
    ensures OnCommits(w, d).f.process == w.f.process && OnCommits(w, d).f.workerDone == w.f.workerDone
  {
    assert WorkerInv(w, d, w.rt.workers[d]);
  }

  lemma RunningStoryStep(w: World, h: set<Label>, l: Label)
    requires Inv(w) && Enabled(w, l) && Story(w, h)
    ensures RunningStory(Do(w, l), h + {l})
  {
    hide Do, Inv, OnCommits;
    SameConfig(w, l);
    StateStep(w, l);
    if w.f.state == Running {
      RunningHasProcess(w);
      ProcStays(w, l, w.f.process.value);
    } else if Do(w, l).f.state == Running {
      CommitIsOnCommits(w, l.d);
      CommitRuns(w, l.d);
      ProcStays(w, l, w.f.process.value);
      assert WorkerStory(w.cfg, h, l.d, w.rt.workers[l.d].pc);
    }
  }

  lemma RunningHasProcess(w: World)
    requires Inv(w) && w.f.state == Running
    ensures w.f.process.Some? && w.f.process.value < |w.rt.procs|
  {}

  lemma CommitIsOnCommits(w: World, d: nat)
    requires Enabled(w, Commits(d))
    ensures Do(w, Commits(d)) == OnCommits(w, d) && w.rt.workers[d].pc.Commit?
  {}

  lemma ErrorsStoryStep(w: World, h: set<Label>, l: Label)
    requires Inv(w) && Enabled(w, l) && Story(w, h)
    ensures ErrorsStory(Do(w, l), h + {l})
  {
    hide Do, Inv, WorkersStory, ProcsStory, RunningStory, WorkerStory;
    StateStep(w, l);
    StopErrSteps(w, l);
    if l.StopCommandReturns? { CommandReturnsInStop(w, l.s, l.ok); }
    if l.Publishes? { assert StopperStory(w.cfg, h, l.s, w.rt.stoppers[l.s].pc); }
  }

  lemma CommandReturnsInStop(w: World, s: nat, ok: bool)
    requires Inv(w) && Enabled(w, StopCommandReturns(s, ok))
    ensures w.f.state == Stopping
  {
    assert StopperInv(w, s, w.rt.stoppers[s]);
  }

  // Runs --------------------------------------------------------------------------------------

  function Past(ls: seq<Label>, i: nat): set<Label>
    requires i <= |ls|
  {
    set l | l in ls[..i]
  }

  lemma {:induction false} RunStory(cfg: Config, ws: seq<World>, ls: seq<Label>, i: nat)
    requires IsRun(cfg, ws, ls) && i < |ws|
    ensures Story(ws[i], Past(ls, i))
    ensures ws[i].cfg == cfg
  {
    hide Do, Enabled, Story, Inv;
    if i == 0 {
      InitStory(cfg);
      assert Past(ls, 0) == {};
    } else {
      RunStory(cfg, ws, ls, i - 1);
      RunInv(cfg, ws, ls, i - 1);
      assert Enabled(ws[i - 1], ls[i - 1]);
      StoryStep(ws[i - 1], Past(ls, i - 1), ls[i - 1]);
      assert ls[..i] == ls[..i - 1] + [ls[i - 1]];
      assert Past(ls, i) == Past(ls, i - 1) + {ls[i - 1]};
      SameConfig(ws[i - 1], ls[i - 1]);
    }
  }

  lemma StoryStep(w: World, h: set<Label>, l: Label)
    requires Inv(w) && Enabled(w, l) && Story(w, h)
    ensures Story(Do(w, l), h + {l})
  {
    hide Do, Inv, WorkersStory, StoppersStory, ProcsStory, RunningStory, ErrorsStory;
    WorkersStoryStep(w, h, l);
    StoppersStoryStep(w, h, l);
    ProcsStoryStep(w, h, l);
    RunningStoryStep(w, h, l);
    ErrorsStoryStep(w, h, l);
  }

  // Counting starts ---------------------------------------------------------------------------

  predicate Starts(w: World, w': World) { w.f.state != Running && w'.f.state == Running }

  lemma StartsStep(w: World, l: Label)
    requires Inv(w) && Enabled(w, l)
    ensures Do(w, l).f.starts == w.f.starts + if Starts(w, Do(w, l)) then 1 else 0
  {
    if ByWorker(l) { WorkerStartsStep(w, l); }
  }

  lemma WorkerStartsStep(w: World, l: Label)
    requires Enabled(w, l) && ByWorker(l)
    ensures Do(w, l).f.starts == w.f.starts + if Starts(w, Do(w, l)) then 1 else 0
  {}
}
