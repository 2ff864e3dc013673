// One service of internal/supervisor/service.go as a labelled transition system.
//
// A World is the fields that the service keeps behind its mutex together with the
// part of the Go runtime those fields refer to: channels, contexts, timers, child
// processes and goroutines with their program counters.  A Label is either one
// mutex critical section of one goroutine or one event of the outside world (a
// command returns, a process exits, a timer fires, a caller gives up).  What is
// nondeterministic in the program is carried by the label, so a step is a function.

module Lifecycle {
  import opened Options

  datatype State = Stopped | Building | Starting | Running | Stopping | Failed

  datatype Failure = Closing | BuildFailed | LaunchFailed | NotReady | Exited | StopFailed

  // The configuration facts that the control flow depends on; `idle` is in clock units.
  datatype Config = Config(build: bool, stopCommand: bool, endpoints: bool, idle: nat)

  // The fields of Service.  An attempt channel, its workerDone channel and its context
  // are named by the worker they are made for, a stop channel by its stop goroutine.
  datatype Fields = Fields(
    state: State,
    process: Option<nat>,
    activeRequests: int,
    idleTimer: Option<nat>,
    startDone: Option<nat>,
    startErr: Option<Failure>,
    stopDone: Option<nat>,
    stopErr: Option<Failure>,
    generation: nat,
    startCancel: Option<nat>,
    workerDone: Option<nat>,
    starts: nat,
    manualStopped: bool)

  // Where the goroutine running `start` is.
  datatype WorkerPc =
    | RunBuild            // the build command is running
    | EnterStarting       // about to take the lock at line 124
    | Launch              // runner.Start is running
    | Record(p: nat)      // process returned, not yet stored in the service
    | Probe(p: nat)       // readiness check is running
    | Reap(p: nat)        // terminate sent, waiting for exit or the stop timeout
    | Commit(p: nat)      // ready, about to take the lock at line 155
    | Fail(why: Failure)  // about to enter `fail`
    | SpawnWatch(p: nat)  // committed, about to start the watcher
    | Finish              // about to close workerDone
    | Gone

  // Where the goroutine running `stop` is.
  datatype StopPc =
    | StopBegin
    | StopJoin(worker: Option<nat>)
    | StopRead
    | StopCommand(held: Option<nat>)
    | StopAwait(p: nat, failed: bool)
    | StopPublish(failed: bool)
    | StopGone

  datatype WatchPc = Unwatched | Watching | WatchDone
  datatype TimerStatus = Pending | Fired | Disarmed | Spent

  datatype Worker = Worker(pc: WorkerPc, attemptClosed: bool, doneClosed: bool, cancelled: bool)
  datatype Stopper = Stopper(pc: StopPc, doneClosed: bool)
  datatype Timer = Timer(captured: nat, armedAt: nat, status: TimerStatus)
  datatype Proc = Proc(owner: nat, exited: bool, killed: bool, watcher: WatchPc)
  datatype Channel = AttemptDone(d: nat) | StopDone(s: nat)

  // Everything ever made is kept, so an index is an identity.
  datatype Runtime = Runtime(
    clock: nat,
    lifecycleDone: bool,
    workers: seq<Worker>,
    stoppers: seq<Stopper>,
    timers: seq<Timer>,
    procs: seq<Proc>,
    granted: nat,                    // leases 0..granted have been handed out
    outstanding: set<nat>,           // those whose release closure has not run
    waiters: map<nat, Channel>,      // callers blocked in `wait`
    panicked: bool)                  // a nil or closed channel was closed

  datatype World = World(cfg: Config, f: Fields, rt: Runtime)

  datatype Label =
    // callers
    | Acquire(c: nat)
    | Wake(c: nat)
    | Abandon(c: nat)
    | Release(lease: nat)
    | StopCall(c: nat)
    | Hold(kill: bool)
    | Resume
    | CancelLifecycle
    // the start worker d
    | BuildReturns(d: nat, ok: bool)
    | EntersStarting(d: nat)
    | LaunchReturns(d: nat, ok: bool)
    | RecordsProcess(d: nat)
    | ProbeReturns(d: nat, ok: bool)
    | ReapEnds(d: nat, timedOut: bool)
    | Commits(d: nat)
    | Fails(d: nat)
    | SpawnsWatch(d: nat)
    | Finishes(d: nat)
    // the stop goroutine s
    | ReadsWorker(s: nat)
    | Joins(s: nat)
    | ReadsProcess(s: nat)
    | StopCommandReturns(s: nat, ok: bool)
    | AwaitEnds(s: nat, timedOut: bool)
    | Publishes(s: nat)
    // timers, watchers, processes, time
    | Fires(t: nat)
    | IdleCallback(t: nat)
    | Watch(p: nat)
    | ProcessExits(p: nat)
    | Tick(elapsed: nat)

  function Init(cfg: Config): World {
    World(cfg,
          Fields(Stopped, None, 0, None, None, None, None, None, 0, None, None, 0, false),
          Runtime(0, false, [], [], [], [], 0, {}, map[], false))
  }

  predicate Dead(rt: Runtime, p: nat) {
    p < |rt.procs| && (rt.procs[p].exited || rt.procs[p].killed)
  }

  predicate InStartup(state: State) { state == Building || state == Starting }

  // Pieces of critical sections -------------------------------------------------

  // close(attempt): panics on a nil channel and on a closed one.
  function CloseAttempt(rt: Runtime, ch: Option<nat>): (r: Runtime)
    ensures |r.workers| == |rt.workers| && |r.stoppers| == |rt.stoppers|
  {
    if ch.Some? && ch.value < |rt.workers| && !rt.workers[ch.value].attemptClosed
    then rt.(workers := rt.workers[ch.value := rt.workers[ch.value].(attemptClosed := true)])
    else rt.(panicked := true)
  }

  function CloseWorkerDone(rt: Runtime, d: nat): (r: Runtime)
    ensures |r.workers| == |rt.workers| && |r.stoppers| == |rt.stoppers|
  {
    if d < |rt.workers| && !rt.workers[d].doneClosed
    then rt.(workers := rt.workers[d := rt.workers[d].(doneClosed := true)])
    else rt.(panicked := true)
  }

  function CloseStopDone(rt: Runtime, ch: Option<nat>): (r: Runtime)
    ensures |r.workers| == |rt.workers| && |r.stoppers| == |rt.stoppers|
  {
    if ch.Some? && ch.value < |rt.stoppers| && !rt.stoppers[ch.value].doneClosed
    then rt.(stoppers := rt.stoppers[ch.value := rt.stoppers[ch.value].(doneClosed := true)])
    else rt.(panicked := true)
  }

  // timer.Stop() on a timer that may be nil: a callback that has fired still runs.
  function StopTimer(rt: Runtime, t: Option<nat>): (r: Runtime)
    ensures |r.workers| == |rt.workers| && |r.stoppers| == |rt.stoppers|
  {
    if t.Some? && t.value < |rt.timers| && rt.timers[t.value].status == Pending
    then rt.(timers := rt.timers[t.value := rt.timers[t.value].(status := Disarmed)])
    else rt
  }

  // The nil-guarded call of startCancel.
  function CancelAttempt(rt: Runtime, c: Option<nat>): (r: Runtime)
    ensures |r.workers| == |rt.workers| && |r.stoppers| == |rt.stoppers|
  {
    if c.Some? && c.value < |rt.workers|
    then rt.(workers := rt.workers[c.value := rt.workers[c.value].(cancelled := true)]) else rt
  }

  function Kill(rt: Runtime, p: nat): (r: Runtime)
    ensures |r.workers| == |rt.workers| && |r.stoppers| == |rt.stoppers|
  {
    if p < |rt.procs| then rt.(procs := rt.procs[p := rt.procs[p].(killed := true)]) else rt
  }

  function Goto(rt: Runtime, d: nat, pc: WorkerPc): Runtime
    requires d < |rt.workers|
  {
    rt.(workers := rt.workers[d := rt.workers[d].(pc := pc)])
  }

  function StopGoto(rt: Runtime, s: nat, pc: StopPc): Runtime
    requires s < |rt.stoppers|
  {
    rt.(stoppers := rt.stoppers[s := rt.stoppers[s].(pc := pc)])
  }

  function SetTimer(rt: Runtime, t: nat, status: TimerStatus): Runtime
    requires t < |rt.timers|
  {
    rt.(timers := rt.timers[t := rt.timers[t].(status := status)])
  }

  function ScheduleIdle(w: World): World {
    var g := w.f.generation + 1;
    var rt := StopTimer(w.rt, w.f.idleTimer);
    if w.cfg.idle == 0 then
      w.(f := w.f.(generation := g, idleTimer := None), rt := rt)
    else
      w.(f := w.f.(generation := g, idleTimer := Some(|rt.timers|)),
         rt := rt.(timers := rt.timers + [Timer(g, rt.clock, Pending)]))
  }

  // beginStopLocked, with the stop goroutine that every caller then starts.
  function BeginStop(w: World): World {
    var wasStarting := InStartup(w.f.state);
    var rt0 := StopTimer(w.rt, w.f.idleTimer);
    var rt1 := if wasStarting then CancelAttempt(rt0, w.f.startCancel) else rt0;
    var rt2 := rt1.(stoppers := rt1.stoppers + [Stopper(StopBegin, false)]);
    var f := w.f.(generation := w.f.generation + 1, idleTimer := None, state := Stopping,
                  stopDone := Some(|rt1.stoppers|), stopErr := None);
    if wasStarting && w.f.startDone.Some? then
      w.(f := f.(startErr := Some(Closing), startDone := None), rt := CloseAttempt(rt2, w.f.startDone))
    else
      w.(f := f, rt := rt2)
  }

  // Steps -------------------------------------------------------------------------

  // Lines 54-95: one pass of Acquire up to the point where it returns or blocks.
  function OnAcquire(w: World, c: nat): World {
    if w.rt.lifecycleDone || w.f.manualStopped then w
    else match w.f.state
      case Running => Grant(w)
      case Stopped => BeginAttempt(w, c)
      case Failed => BeginAttempt(w, c)
      case Building => AwaitAttempt(w, c)
      case Starting => AwaitAttempt(w, c)
      case Stopping => AwaitStop(w, c)
  }

  function Grant(w: World): World {
    var rt := StopTimer(w.rt, w.f.idleTimer);
    w.(f := w.f.(generation := w.f.generation + 1, idleTimer := None, activeRequests := w.f.activeRequests + 1),
       rt := rt.(outstanding := rt.outstanding + {rt.granted}, granted := rt.granted + 1))
  }

  function BeginAttempt(w: World, c: nat): World {
    var d := |w.rt.workers|;
    var worker := Worker(if w.cfg.build then RunBuild else EnterStarting, false, false, false);
    w.(f := w.f.(state := Building, startDone := Some(d), startErr := None,
                 startCancel := Some(d), workerDone := Some(d)),
       rt := w.rt.(workers := w.rt.workers + [worker], waiters := w.rt.waiters[c := AttemptDone(d)]))
  }

  // Waiting on a nil channel would block for ever; the invariant shows that it is never nil here.
  function AwaitAttempt(w: World, c: nat): World {
    w.(rt := if w.f.startDone.Some? then w.rt.(waiters := w.rt.waiters[c := AttemptDone(w.f.startDone.value)])
             else w.rt.(panicked := true))
  }

  function AwaitStop(w: World, c: nat): World {
    w.(rt := if w.f.stopDone.Some? then w.rt.(waiters := w.rt.waiters[c := StopDone(w.f.stopDone.value)])
             else w.rt.(panicked := true))
  }

  // sync.Once around release: only the first call of a lease's closure acts.
  function OnRelease(w: World, lease: nat): World {
    if lease !in w.rt.outstanding then w else
    var n := if w.f.activeRequests > 0 then w.f.activeRequests - 1 else w.f.activeRequests;
    var w1 := w.(f := w.f.(activeRequests := n), rt := w.rt.(outstanding := w.rt.outstanding - {lease}));
    if n == 0 && w.f.state == Running then ScheduleIdle(w1) else w1
  }

  function OnStopCall(w: World, c: nat): World {
    match w.f.state
    case Stopped => w
    case Stopping => AwaitStop(w, c)
    case _ => AwaitStop(BeginStop(w), c)
  }

  // Supervisor.Action up to the point where it calls Stop (inspection.go:69-81).
  function OnHold(w: World, kill: bool): World {
    if kill && w.cfg.stopCommand then w else
    w.(f := w.f.(manualStopped := true),
       rt := if kill && w.f.process.Some? then Kill(w.rt, w.f.process.value) else w.rt)
  }

  function OnEntersStarting(w: World, d: nat): World
    requires d < |w.rt.workers|
  {
    if w.f.state != Building then w.(rt := Goto(w.rt, d, Finish))
    else w.(f := w.f.(state := Starting), rt := Goto(w.rt, d, Launch))
  }

  function OnLaunchReturns(w: World, d: nat, ok: bool): World
    requires d < |w.rt.workers|
  {
    if !ok then w.(rt := Goto(w.rt, d, Fail(LaunchFailed)))
    else w.(rt := Goto(w.rt, d, Record(|w.rt.procs|)).(procs := w.rt.procs + [Proc(d, false, false, Unwatched)]))
  }

  function OnCommits(w: World, d: nat): World
    requires d < |w.rt.workers| && w.rt.workers[d].pc.Commit?
  {
    if w.f.state != Starting then w.(rt := Goto(w.rt, d, Finish)) else ScheduleIdle(BecomesRunning(w, d))
  }

  // Lines 160-164, with the worker already past them.
  function BecomesRunning(w: World, d: nat): World
    requires d < |w.rt.workers| && w.rt.workers[d].pc.Commit?
  {
    var rt := Goto(w.rt, d, if w.cfg.stopCommand then Finish else SpawnWatch(w.rt.workers[d].pc.p));
    w.(f := w.f.(state := Running, starts := w.f.starts + 1, startErr := None), rt := CloseAttempt(rt, Some(d)))
  }

  function OnFails(w: World, d: nat): World
    requires d < |w.rt.workers| && w.rt.workers[d].pc.Fail?
  {
    var rt := Goto(w.rt, d, Finish);
    if w.f.startDone != Some(d) || !InStartup(w.f.state) then w.(rt := rt)
    else w.(f := w.f.(state := Failed, startErr := Some(w.rt.workers[d].pc.why), startCancel := None, process := None),
            rt := CloseAttempt(CancelAttempt(rt, w.f.startCancel), Some(d)))
  }

  function OnReadsProcess(w: World, s: nat): World
    requires s < |w.rt.stoppers|
  {
    var p := w.f.process;
    w.(rt := StopGoto(w.rt, s,
                      if w.cfg.stopCommand then StopCommand(p)
                      else if p.Some? then StopAwait(p.value, false) else StopPublish(false)))
  }

  function OnPublishes(w: World, s: nat): World
    requires s < |w.rt.stoppers| && w.rt.stoppers[s].pc.StopPublish?
  {
    var failed := w.rt.stoppers[s].pc.failed;
    var f := w.f.(process := None, startCancel := None, stopErr := if failed then Some(StopFailed) else None);
    w.(f := if failed then f.(state := Failed, startErr := Some(StopFailed)) else f.(state := Stopped),
       rt := CloseStopDone(CancelAttempt(StopGoto(w.rt, s, StopGone), w.f.startCancel), w.f.stopDone))
  }

  function OnIdleCallback(w: World, t: nat): World
    requires t < |w.rt.timers|
  {
    var w1 := w.(rt := SetTimer(w.rt, t, Spent));
    if w.rt.timers[t].captured != w.f.generation || w.f.state != Running || w.f.activeRequests != 0
    then w1 else BeginStop(w1)
  }

  function OnWatch(w: World, p: nat): World
    requires p < |w.rt.procs|
  {
    var rt := w.rt.(procs := w.rt.procs[p := w.rt.procs[p].(watcher := WatchDone)]);
    if w.f.process == Some(p) && w.f.state == Running then LosesProcess(w.(rt := rt)) else w.(rt := rt)
  }

  function LosesProcess(w: World): World {
    w.(f := w.f.(generation := w.f.generation + 1, idleTimer := None, process := None, state := Failed,
                 startCancel := None, startErr := Some(Exited)),
       rt := CancelAttempt(StopTimer(w.rt, w.f.idleTimer), w.f.startCancel))
  }

  // When a label can be taken: the goroutine is at that point, and what it waits for has happened.

  predicate ChannelClosed(rt: Runtime, ch: Channel) {
    match ch
    case AttemptDone(d) => d < |rt.workers| && rt.workers[d].attemptClosed
    case StopDone(s) => s < |rt.stoppers| && rt.stoppers[s].doneClosed
  }

  predicate Ended(rt: Runtime, p: nat, timedOut: bool) {
    timedOut || (p < |rt.procs| && rt.procs[p].exited)
  }

  predicate Enabled(w: World, l: Label) {
    var rt := w.rt;
    match l
    case Acquire(c) => c !in rt.waiters
    case StopCall(c) => c !in rt.waiters
    case Wake(c) => c in rt.waiters && ChannelClosed(rt, rt.waiters[c])
    case Abandon(c) => c in rt.waiters
    case Release(lease) => lease < rt.granted
    case Hold(_) => true
    case Resume => true
    case CancelLifecycle => true
    case BuildReturns(d, _) => d < |rt.workers| && rt.workers[d].pc == RunBuild
    case EntersStarting(d) => d < |rt.workers| && rt.workers[d].pc == EnterStarting
    case LaunchReturns(d, _) => d < |rt.workers| && rt.workers[d].pc == Launch
    case RecordsProcess(d) => d < |rt.workers| && rt.workers[d].pc.Record?
    case ProbeReturns(d, ok) => d < |rt.workers| && rt.workers[d].pc.Probe? && (ok || w.cfg.endpoints)
    case ReapEnds(d, timedOut) => d < |rt.workers| && rt.workers[d].pc.Reap? && Ended(rt, rt.workers[d].pc.p, timedOut)
    case Commits(d) => d < |rt.workers| && rt.workers[d].pc.Commit?
    case Fails(d) => d < |rt.workers| && rt.workers[d].pc.Fail?
    case SpawnsWatch(d) => d < |rt.workers| && rt.workers[d].pc.SpawnWatch? && rt.workers[d].pc.p < |rt.procs|
    case Finishes(d) => d < |rt.workers| && rt.workers[d].pc == Finish
    case ReadsWorker(s) => s < |rt.stoppers| && rt.stoppers[s].pc == StopBegin
    case Joins(s) => s < |rt.stoppers| && rt.stoppers[s].pc.StopJoin? &&
      var d := rt.stoppers[s].pc.worker; (d.Some? ==> d.value < |rt.workers| && rt.workers[d.value].doneClosed)
    case ReadsProcess(s) => s < |rt.stoppers| && rt.stoppers[s].pc == StopRead
    case StopCommandReturns(s, _) => s < |rt.stoppers| && rt.stoppers[s].pc.StopCommand?
    case AwaitEnds(s, timedOut) => s < |rt.stoppers| && rt.stoppers[s].pc.StopAwait? &&
      Ended(rt, rt.stoppers[s].pc.p, timedOut)
    case Publishes(s) => s < |rt.stoppers| && rt.stoppers[s].pc.StopPublish?
    case Fires(t) => t < |rt.timers| && rt.timers[t].status == Pending && rt.clock >= rt.timers[t].armedAt + w.cfg.idle
    case IdleCallback(t) => t < |rt.timers| && rt.timers[t].status == Fired
    case Watch(p) => p < |rt.procs| && rt.procs[p].watcher == Watching && rt.procs[p].exited
    case ProcessExits(p) => p < |rt.procs|
    case Tick(_) => true
  }

  function Do(w: World, l: Label): World
    requires Enabled(w, l)
  {
    var rt := w.rt;
    match l
    case Acquire(c) => OnAcquire(w, c)
    case Wake(c) => w.(rt := rt.(waiters := rt.waiters - {c}))
    case Abandon(c) => w.(rt := rt.(waiters := rt.waiters - {c}))
    case Release(lease) => OnRelease(w, lease)
    case StopCall(c) => OnStopCall(w, c)
    case Hold(kill) => OnHold(w, kill)
    case Resume => w.(f := w.f.(manualStopped := false))
    case CancelLifecycle => w.(rt := rt.(lifecycleDone := true))
    case BuildReturns(d, ok) => w.(rt := Goto(rt, d, if ok then EnterStarting else Fail(BuildFailed)))
    case EntersStarting(d) => OnEntersStarting(w, d)
    case LaunchReturns(d, ok) => OnLaunchReturns(w, d, ok)
    case RecordsProcess(d) =>
      var p := rt.workers[d].pc.p; w.(f := w.f.(process := Some(p)), rt := Goto(rt, d, Probe(p)))
    case ProbeReturns(d, ok) =>
      var p := rt.workers[d].pc.p; w.(rt := Goto(rt, d, if ok then Commit(p) else Reap(p)))
    case ReapEnds(d, timedOut) =>
      var p := rt.workers[d].pc.p;
      w.(rt := Goto(if timedOut then Kill(rt, p) else rt, d, Fail(NotReady)))
    case Commits(d) => OnCommits(w, d)
    case Fails(d) => OnFails(w, d)
    case SpawnsWatch(d) =>
      var p := rt.workers[d].pc.p;
      w.(rt := Goto(rt, d, Finish).(procs := rt.procs[p := rt.procs[p].(watcher := Watching)]))
    case Finishes(d) => w.(rt := CloseWorkerDone(Goto(rt, d, Gone), d))
    case ReadsWorker(s) => w.(rt := StopGoto(rt, s, StopJoin(w.f.workerDone)))
    case Joins(s) => w.(rt := StopGoto(rt, s, StopRead))
    case ReadsProcess(s) => OnReadsProcess(w, s)
    case StopCommandReturns(s, ok) =>
      var p := rt.stoppers[s].pc.held;
      w.(rt := StopGoto(rt, s, if p.Some? then StopAwait(p.value, !ok) else StopPublish(!ok)))
    case AwaitEnds(s, timedOut) =>
      var pc := rt.stoppers[s].pc;
      w.(rt := StopGoto(if timedOut then Kill(rt, pc.p) else rt, s, StopPublish(pc.failed)))
    case Publishes(s) => OnPublishes(w, s)
    case Fires(t) => w.(rt := SetTimer(rt, t, Fired))
    case IdleCallback(t) => OnIdleCallback(w, t)
    case Watch(p) => OnWatch(w, p)
    case ProcessExits(p) => w.(rt := rt.(procs := rt.procs[p := rt.procs[p].(exited := true)]))
    case Tick(elapsed) => w.(rt := rt.(clock := rt.clock + elapsed))
  }

  // Runs --------------------------------------------------------------------------

  // A run of the service: states and the labels between them.
  ghost predicate IsRun(cfg: Config, ws: seq<World>, ls: seq<Label>) {
    && |ws| == |ls| + 1
    && ws[0] == Init(cfg)
    && (forall i :: 0 <= i < |ls| ==> Enabled(ws[i], ls[i]) && ws[i + 1] == Do(ws[i], ls[i]))
  }
}
