// How attempts and stops end, over every run: what must have returned before a service runs,
// why it has failed, and what a stop reports.

module LifecycleOutcomes {
  import opened Options
  import opened Lifecycle
  import opened LifecycleInvariant
  import opened LifecycleHistory
  import opened LifecycleProgress

  // Callers -----------------------------------------------------------------------------------

  // What a caller of Acquire meets in each state: a lease at once, a new attempt or the present
  // one to wait for, or the end of the stop.
  lemma AcquireMeans(w: World, c: nat)
    requires Inv(w) && Enabled(w, Acquire(c))
    ensures var w' := Do(w, Acquire(c));
      if w.rt.lifecycleDone || w.f.manualStopped then w' == w else
      match w.f.state
      case Running => w'.f.state == Running && w'.rt.outstanding == w.rt.outstanding + {w.rt.granted}
      case Stopped => w'.f.state == Building && WaitsFor(w', c, AttemptDone(|w.rt.workers|))
      case Failed => w'.f.state == Building && WaitsFor(w', c, AttemptDone(|w.rt.workers|))
      case Building => w'.f == w.f && WaitsFor(w', c, AttemptDone(w.f.workerDone.value))
      case Starting => w'.f == w.f && WaitsFor(w', c, AttemptDone(w.f.workerDone.value))
      case Stopping => w'.f == w.f && WaitsFor(w', c, StopDone(w.f.stopDone.value))
  {}

  predicate WaitsFor(w: World, c: nat, ch: Channel) {
    c in w.rt.waiters && w.rt.waiters[c] == ch && !ChannelClosed(w.rt, ch)
  }

  // So the first call starts a new service.
  lemma NewServiceStarts(cfg: Config, c: nat)
    ensures Do(Init(cfg), Acquire(c)).f.state == Building
  {}

  // Attempts ----------------------------------------------------------------------------------

  // Every process was launched by one step of its own worker, after the build succeeded.
  lemma {:induction false} LaunchedBy(cfg: Config, ws: seq<World>, ls: seq<Label>, i: nat, p: nat)
    returns (d: nat, k: nat)
    requires IsRun(cfg, ws, ls) && i < |ws| && p < |ws[i].rt.procs|
    ensures d == ws[i].rt.procs[p].owner
    ensures k < i && ls[k] == LaunchReturns(d, true) && |ws[k].rt.procs| == p
    ensures EntersStarting(d) in ls[..k] && (cfg.build ==> BuildReturns(d, true) in ls[..k])
  {
    hide Do, Story;
    assert i > 0;
    assert Enabled(ws[i - 1], ls[i - 1]);
    NewProc(ws[i - 1], ls[i - 1]);
    if p < |ws[i - 1].rt.procs| {
      d, k := LaunchedBy(cfg, ws, ls, i - 1, p);
      ProcStays(ws[i - 1], ls[i - 1], p);
    } else {
      d, k := ls[i - 1].d, i - 1;
      WorkerHasStory(cfg, ws, ls, k, d);
    }
  }

  lemma WorkerHasStory(cfg: Config, ws: seq<World>, ls: seq<Label>, i: nat, d: nat)
    requires IsRun(cfg, ws, ls) && i < |ws| && d < |ws[i].rt.workers|
    ensures WorkerStory(cfg, Past(ls, i), d, ws[i].rt.workers[d].pc)
  {
    RunStory(cfg, ws, ls, i);
  }

  // A worker launches at most once.
  lemma LaunchedOnce(cfg: Config, ws: seq<World>, ls: seq<Label>, j: nat, k: nat, d: nat)
    requires IsRun(cfg, ws, ls) && j < k < |ls| && ls[j] == LaunchReturns(d, true)
    ensures ls[k] != LaunchReturns(d, true)
  {
    assert LaunchReturns(d, true) in Past(ls, k);
    if ls[k] == LaunchReturns(d, true) {
      assert Enabled(ws[k], ls[k]);
      WorkerHasStory(cfg, ws, ls, k, d);
    }
  }

  // A service that runs was found ready by the worker that launched its process, which did not
  // fail at anything.
  lemma RunningMeansReady(cfg: Config, ws: seq<World>, ls: seq<Label>, i: nat) returns (d: nat, k: nat)
    requires IsRun(cfg, ws, ls) && i < |ws| && ws[i].f.state == Running
    ensures ws[i].f.process.Some?
    ensures k < i && ls[k] == LaunchReturns(d, true) && |ws[k].rt.procs| == ws[i].f.process.value
    ensures cfg.build ==> BuildReturns(d, true) in ls[..k]
    ensures ProbeReturns(d, true) in ls[..i] && Commits(d) in ls[..i]
    ensures ProbeReturns(d, false) !in ls[..i]
  {
    hide Do;
    RunInv(cfg, ws, ls, i);
    RunStory(cfg, ws, ls, i);
    d, k := LaunchedBy(cfg, ws, ls, i, ws[i].f.process.value);
    assert ProbeReturns(d, true) in Past(ls, i) && Commits(d) in Past(ls, i);
    assert WorkerInv(ws[i], d, ws[i].rt.workers[d]);
    assert WorkerStory(cfg, Past(ls, i), d, ws[i].rt.workers[d].pc);
    assert ProbeReturns(d, false) !in Past(ls, i);
  }

  // No worker commits that was not built, launched and found ready.
  lemma CommitNeedsReady(cfg: Config, ws: seq<World>, ls: seq<Label>, n: nat, d: nat)
    requires IsRun(cfg, ws, ls) && n < |ls| && ls[n] == Commits(d)
    ensures ProbeReturns(d, true) in ls[..n] && LaunchReturns(d, true) in ls[..n] && RecordsProcess(d) in ls[..n]
    ensures cfg.build ==> BuildReturns(d, true) in ls[..n]
    ensures ProbeReturns(d, false) !in ls[..n]
  {
    assert Enabled(ws[n], ls[n]);
    WorkerHasStory(cfg, ws, ls, n, d);
    assert ProbeReturns(d, true) in Past(ls, n) && ProbeReturns(d, false) !in Past(ls, n);
    assert LaunchReturns(d, true) in Past(ls, n) && RecordsProcess(d) in Past(ls, n);
    assert cfg.build ==> BuildReturns(d, true) in Past(ls, n);
  }

  ghost predicate NothingAlive(w: World) {
    forall p: nat :: p < |w.rt.procs| ==> Dead(w.rt, p)
  }

  predicate AttemptOpen(w: World, d: nat) {
    d < |w.rt.workers| && !ChannelClosed(w.rt, AttemptDone(d))
  }

  // The step that closes attempt d, by which its callers are woken: a commit of what was built,
  // launched and found ready; a failure at exactly what had failed, with nothing left alive; or
  // a stop.
  lemma AttemptEnds(cfg: Config, ws: seq<World>, ls: seq<Label>, n: nat, d: nat)
    requires IsRun(cfg, ws, ls) && n < |ls| && AttemptOpen(ws[n], d) && !AttemptOpen(ws[n + 1], d)
    ensures var w, h := ws[n + 1], Past(ls, n);
      match w.f.state
      case Running => ls[n] == Commits(d) && w.f.startErr == None && Ready(cfg, h, d) && NothingFailed(h, d)
      case Failed =>
        && ls[n] == Fails(d) && w.f.startErr.Some? && OnlyFailed(h, d, w.f.startErr.value)
        && w.f.process == None && NothingAlive(w)
      case Stopping => ls[n].StopCall? && w.f.startErr == Some(Closing)
      case _ => false
  {
    hide Do, Inv, Story;
    RunInv(cfg, ws, ls, n);
    RunInv(cfg, ws, ls, n + 1);
    assert Enabled(ws[n], ls[n]) && ws[n + 1] == Do(ws[n], ls[n]);
    OpenMeans(ws[n], d);
    NoneUnmade(ws[n], ls[n]);
    OpenMeans(ws[n + 1], d);
    StateFollowsDiagram(cfg, ws, ls, n);
    if ls[n] == Fails(d) || ls[n] == Commits(d) { WorkerHasStory(cfg, ws, ls, n, d); }
    if ws[n + 1].f.state == Failed {
      DownMeansDead(ws[n + 1]);
      DownHasNone(ws[n + 1]);
    }
  }

  lemma OpenMeans(w: World, d: nat)
    requires Inv(w) && d < |w.rt.workers|
    ensures AttemptOpen(w, d) <==> InStartup(w.f.state) && w.f.workerDone == Some(d)
  {
    assert WorkerInv(w, d, w.rt.workers[d]);
  }

  lemma DownHasNone(w: World)
    requires Inv(w) && (w.f.state == Stopped || w.f.state == Failed)
    ensures w.f.process == None
  {}

  // The state changes only along the edges of the diagram, and the error and the counters of the
  // attempt only with it.
  lemma StateFollowsDiagram(cfg: Config, ws: seq<World>, ls: seq<Label>, n: nat)
    requires IsRun(cfg, ws, ls) && n < |ls|
    ensures StepsAlong(ws[n], ls[n], ws[n + 1])
  {
    hide Do;
    RunInv(cfg, ws, ls, n);
    RunStory(cfg, ws, ls, n);
    assert Enabled(ws[n], ls[n]) && ws[n + 1] == Do(ws[n], ls[n]);
    StateStep(ws[n], ls[n]);
  }

  // After a failed probe the worker never commits; its attempt ends with the probe's failure and
  // its process dead, unless a stop takes it over.
  lemma UnreadyFails(cfg: Config, ws: seq<World>, ls: seq<Label>, k: nat, n: nat, d: nat)
    requires IsRun(cfg, ws, ls) && k < n < |ls| && ls[k] == ProbeReturns(d, false)
    ensures ls[n] != Commits(d)
    ensures AttemptOpen(ws[n], d) && !AttemptOpen(ws[n + 1], d) ==>
              || (ws[n + 1].f.state == Stopping && ls[n].StopCall?)
              || (ws[n + 1].f.state == Failed && ws[n + 1].f.startErr == Some(NotReady) && NothingAlive(ws[n + 1]))
  {
    assert ProbeReturns(d, false) in Past(ls, n);
    if ls[n] == Commits(d) { CommitNeedsReady(cfg, ws, ls, n, d); }
    if AttemptOpen(ws[n], d) && !AttemptOpen(ws[n + 1], d) { AttemptEnds(cfg, ws, ls, n, d); }
  }

  // Counted are the steps at which the service came to run.
  function StartsBefore(ws: seq<World>, i: nat): nat
    requires i < |ws|
  {
    if i == 0 then 0 else StartsBefore(ws, i - 1) + if Starts(ws[i - 1], ws[i]) then 1 else 0
  }

  lemma {:induction false} StartsCounted(cfg: Config, ws: seq<World>, ls: seq<Label>, i: nat)
    requires IsRun(cfg, ws, ls) && i < |ws|
    ensures ws[i].f.starts == StartsBefore(ws, i)
  {
    hide Do, Enabled, Inv;
    if i > 0 {
      StartsCounted(cfg, ws, ls, i - 1);
      RunInv(cfg, ws, ls, i - 1);
      assert Enabled(ws[i - 1], ls[i - 1]) && ws[i] == Do(ws[i - 1], ls[i - 1]);
      StartsStep(ws[i - 1], ls[i - 1]);
    }
  }

  // Stops -------------------------------------------------------------------------------------

  // A stop ends Failed exactly if its stop command failed, and says so; otherwise Stopped and
  // without an error.  The command has been run if there is one.
  lemma StopEndsAs(cfg: Config, ws: seq<World>, ls: seq<Label>, n: nat, s: nat)
    requires IsRun(cfg, ws, ls) && n < |ls| && ls[n] == Publishes(s)
    ensures var f := ws[n + 1].f;
      if StopCommandReturns(s, false) in ls[..n]
      then f.state == Failed && f.startErr == f.stopErr == Some(StopFailed)
      else f.state == Stopped && f.stopErr == None
    ensures cfg.stopCommand <==> exists ok :: StopCommandReturns(s, ok) in ls[..n]
    ensures ws[n + 1].f.process == None && NothingAlive(ws[n + 1])
  {
    hide Do, Inv;
    var w, w' := ws[n], ws[n + 1];
    assert Enabled(w, ls[n]) && w' == Do(w, ls[n]);
    RunInv(cfg, ws, ls, n);
    RunInv(cfg, ws, ls, n + 1);
    RunStory(cfg, ws, ls, n);
    PublishInStop(w, s);
    StateFollowsDiagram(cfg, ws, ls, n);
    StopErrSteps(w, ls[n]);
    assert StopperStory(cfg, Past(ls, n), s, w.rt.stoppers[s].pc);
    assert StopCommandReturns(s, false) in Past(ls, n) <==> StopCommandReturns(s, false) in ls[..n];
    assert StopCommandReturns(s, true) in Past(ls, n) <==> StopCommandReturns(s, true) in ls[..n];
    PublishState(w, s);
    DownMeansDead(w');
    DownHasNone(w');
  }

  lemma PublishInStop(w: World, s: nat)
    requires Inv(w) && Enabled(w, Publishes(s))
    ensures w.f.state == Stopping && w.f.stopDone == Some(s)
  {
    assert StopperInv(w, s, w.rt.stoppers[s]);
  }

  lemma PublishState(w: World, s: nat)
    requires Enabled(w, Publishes(s))
    ensures Do(w, Publishes(s)).f.state == if w.rt.stoppers[s].pc.failed then Failed else Stopped
  {}

  // What a caller of Stop reads after its wait: the failure of the last stop's command, if that
  // stop has ended and its command failed, and nothing otherwise.
  lemma StopErrMeans(cfg: Config, ws: seq<World>, ls: seq<Label>, i: nat)
    requires IsRun(cfg, ws, ls) && i < |ws|
    ensures ws[i].f.stopErr == None || ws[i].f.stopErr == Some(StopFailed)
    ensures ws[i].f.stopErr == Some(StopFailed) <==>
              && ws[i].f.stopDone.Some? && ChannelClosed(ws[i].rt, StopDone(ws[i].f.stopDone.value))
              && StopCommandReturns(ws[i].f.stopDone.value, false) in ls[..i]
  {
    hide Do;
    RunInv(cfg, ws, ls, i);
    RunStory(cfg, ws, ls, i);
    if ws[i].f.stopDone.Some? {
      var s := ws[i].f.stopDone.value;
      assert StopCommandReturns(s, false) in Past(ls, i) <==> StopCommandReturns(s, false) in ls[..i];
      if s < |ws[i].rt.stoppers| { assert StopperInv(ws[i], s, ws[i].rt.stoppers[s]); }
    }
  }

  // Failures ----------------------------------------------------------------------------------

  // What has failed, in the terms of the step that made the service fail and of those before it.
  predicate Explains(cfg: Config, h: set<Label>, l: Label, why: Failure) {
    match l
    case Fails(d) => OnlyFailed(h, d, why)
    case Watch(p) => why == Exited && ProcessExits(p) in h && !cfg.stopCommand
    case Publishes(s) => why == StopFailed && cfg.stopCommand && StopCommandReturns(s, false) in h
    case _ => false
  }

  // A failed service tells its callers what has failed last: the step at which it failed is
  // explained by the error it still has.
  lemma {:induction false} WhyFailed(cfg: Config, ws: seq<World>, ls: seq<Label>, i: nat) returns (n: nat)
    requires IsRun(cfg, ws, ls) && i < |ws| && ws[i].f.state == Failed
    ensures n < i && ws[n].f.state != Failed && forall m :: n < m <= i ==> ws[m].f.state == Failed
    ensures ws[i].f.startErr.Some? && Explains(cfg, Past(ls, n), ls[n], ws[i].f.startErr.value)
  {
    hide Do, Explains;
    assert i > 0;
    StateFollowsDiagram(cfg, ws, ls, i - 1);
    if ws[i - 1].f.state == Failed {
      n := WhyFailed(cfg, ws, ls, i - 1);
    } else {
      n := i - 1;
      FailureExplained(cfg, ws, ls, n);
    }
  }

  lemma FailureExplained(cfg: Config, ws: seq<World>, ls: seq<Label>, n: nat)
    requires IsRun(cfg, ws, ls) && n < |ls| && ws[n].f.state != Failed && ws[n + 1].f.state == Failed
    ensures ws[n + 1].f.startErr.Some? && Explains(cfg, Past(ls, n), ls[n], ws[n + 1].f.startErr.value)
  {
    hide Do, Inv;
    assert Enabled(ws[n], ls[n]) && ws[n + 1] == Do(ws[n], ls[n]);
    StateFollowsDiagram(cfg, ws, ls, n);
    RunStory(cfg, ws, ls, n);
    if ls[n].Watch? {
      assert ProcStory(cfg, Past(ls, n), ls[n].p, ws[n].rt.procs[ls[n].p]);
    } else if ls[n].Publishes? {
      StopFailureExplained(cfg, ws, ls, n, ls[n].s);
    } else {
      WorkerHasStory(cfg, ws, ls, n, ls[n].d);
    }
  }

  lemma StopFailureExplained(cfg: Config, ws: seq<World>, ls: seq<Label>, n: nat, s: nat)
    requires IsRun(cfg, ws, ls) && n < |ls| && ls[n] == Publishes(s) && ws[n + 1].f.state == Failed
    ensures ws[n + 1].f.startErr == Some(StopFailed) && Explains(cfg, Past(ls, n), ls[n], StopFailed)
  {
    hide Do, Story;
    StopEndsAs(cfg, ws, ls, n, s);
    assert StopCommandReturns(s, false) in ls[..n];
  }

  // Processes ---------------------------------------------------------------------------------

  // An app with its own stop command is never watched: its launch command may exit while it runs.
  lemma ManagedIsNotWatched(cfg: Config, ws: seq<World>, ls: seq<Label>, n: nat)
    requires IsRun(cfg, ws, ls) && n < |ls| && cfg.stopCommand
    ensures !ls[n].Watch?
    ensures ws[n].f.state == Running && ws[n + 1].f.state != Running ==>
              ws[n + 1].f.state == Stopping && (ls[n].StopCall? || ls[n].IdleCallback?)
  {
    hide Do;
    assert Enabled(ws[n], ls[n]);
    RunStory(cfg, ws, ls, n);
    StateFollowsDiagram(cfg, ws, ls, n);
    if ls[n].Watch? { WatchedIsUnmanaged(cfg, ws[n], Past(ls, n), ls[n].p); }
  }

  lemma WatchedIsUnmanaged(cfg: Config, w: World, h: set<Label>, p: nat)
    requires Enabled(w, Watch(p)) && ProcStory(cfg, h, p, w.rt.procs[p])
    ensures !cfg.stopCommand
  {}

  // A process is killed only by a kill action or after a wait for its exit timed out; otherwise
  // it is left to end by itself.
  lemma {:induction false} KilledBy(cfg: Config, ws: seq<World>, ls: seq<Label>, i: nat, p: nat) returns (k: nat)
    requires IsRun(cfg, ws, ls) && i < |ws| && p < |ws[i].rt.procs| && ws[i].rt.procs[p].killed
    ensures k < i && Kills(cfg, ls[k])
  {
    hide Do, Story;
    assert i > 0;
    assert Enabled(ws[i - 1], ls[i - 1]);
    RunStory(cfg, ws, ls, i - 1);
    NewProc(ws[i - 1], ls[i - 1]);
    if p < |ws[i - 1].rt.procs| { ProcStays(ws[i - 1], ls[i - 1], p); }
    if p < |ws[i - 1].rt.procs| && ws[i - 1].rt.procs[p].killed {
      k := KilledBy(cfg, ws, ls, i - 1, p);
    } else {
      k := i - 1;
    }
  }

  // A kill action kills the process there is, unless the app has its own stop command, when it
  // does nothing; stop and restart actions only take hold.
  lemma HoldMeans(w: World, kill: bool)
    requires Inv(w)
    ensures var w' := Do(w, Hold(kill));
      if kill && w.cfg.stopCommand then w' == w
      else
        && w'.f == w.f.(manualStopped := true)
        && (kill && w.f.process.Some? ==> w'.rt.procs[w.f.process.value].killed)
        && (!kill || w.f.process.None? ==> w'.rt == w.rt)
  {}

  // Endless runs --------------------------------------------------------------------------------

  function Prefix<T>(f: nat -> T, n: nat): (r: seq<T>)
    ensures |r| == n && forall k: nat :: k < n ==> r[k] == f(k)
  {
    seq(n, k requires 0 <= k < n => f(k))
  }

  lemma PrefixIsRun(cfg: Config, ws: nat -> World, ls: nat -> Label, n: nat)
    requires Endless(cfg, ws, ls)
    ensures IsRun(cfg, Prefix(ws, n + 1), Prefix(ls, n))
  {
    hide Do, Enabled;
    var us, ks := Prefix(ws, n + 1), Prefix(ls, n);
    forall i | 0 <= i < |ks| ensures Enabled(us[i], ks[i]) && us[i + 1] == Do(us[i], ks[i]) {
      assert Steps(ws, ls, i);
    }
  }

  // Nothing goes wrong with attempt d from step i on: what it waits for succeeds, and nobody stops.
  ghost predicate Undisturbed(ls: nat -> Label, i: nat, d: nat) {
    && (forall k: nat ::
          ls(k) != BuildReturns(d, false) && ls(k) != LaunchReturns(d, false) && ls(k) != ProbeReturns(d, false))
    && (forall k: nat :: i <= k ==> !ls(k).StopCall?)
  }

  lemma UndisturbedCommits(cfg: Config, ws: nat -> World, ls: nat -> Label, i: nat, n: nat, d: nat)
    requires Endless(cfg, ws, ls) && i <= n && Undisturbed(ls, i, d)
    requires AttemptOpen(ws(n), d) && !AttemptOpen(ws(n + 1), d)
    ensures ls(n) == Commits(d) && ws(n + 1).f.state == Running
  {
    hide Do, Endless;
    PrefixIsRun(cfg, ws, ls, n + 1);
    var us, ks := Prefix(ws, n + 2), Prefix(ls, n + 1);
    AttemptEnds(cfg, us, ks, n, d);
    forall l | l in Past(ks, n)
      ensures l != BuildReturns(d, false) && l != LaunchReturns(d, false) && l != ProbeReturns(d, false)
    {
      var k :| 0 <= k < n && ks[..n][k] == l;
      assert ks[k] == ls(k);
    }
  }

  // Once every command returns, an attempt whose build, launch and probe succeed and that nobody
  // stops ends with the service running, by its own commit.
  lemma {:induction false} UndisturbedRuns(cfg: Config, ws: nat -> World, ls: nat -> Label, i: nat, d: nat, m: nat)
    returns (n: nat)
    requires Endless(cfg, ws, ls) && AttemptOpen(ws(i), d) && Undisturbed(ls, i, d)
    requires i <= m && Settled(ws, m)
    ensures i <= n && ls(n) == Commits(d) && ws(n + 1).f.state == Running
    decreases m - i
  {
    hide Do, Steps, Undisturbed;
    EndlessInv(cfg, ws, ls, i);
    OpenMeans(ws(i), d);
    if AttemptOpen(ws(i + 1), d) {
      UndisturbedLater(ls, i, d);
      n := UndisturbedRuns(cfg, ws, ls, i + 1, d, m);
    } else {
      n := i;
      UndisturbedCommits(cfg, ws, ls, i, i, d);
    }
  }

  lemma UndisturbedLater(ls: nat -> Label, i: nat, d: nat)
    requires Undisturbed(ls, i, d)
    ensures Undisturbed(ls, i + 1, d)
  {}

  lemma GoodAttemptsRun(cfg: Config, ws: nat -> World, ls: nat -> Label, i: nat, d: nat) returns (n: nat)
    requires Endless(cfg, ws, ls) && forall a: nat :: MovesLater(ws, ls, a)
    requires AttemptOpen(ws(i), d) && Undisturbed(ls, i, d)
    ensures i <= n && ls(n) == Commits(d) && ws(n + 1).f.state == Running
  {
    hide Undisturbed, Endless;
    var m := EveryTransitionEnds(cfg, ws, ls, i);
    n := UndisturbedRuns(cfg, ws, ls, i, d, m);
  }
}
