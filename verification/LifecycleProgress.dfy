// Starting and stopping end: once commands and timeouts return, the start worker and the
// stop goroutine are never both stuck, and they settle the service in a bounded number
// of their steps.

module LifecycleProgress {
  import opened Options
  import opened Lifecycle
  import opened LifecycleInvariant

  predicate InTransition(state: State) { InStartup(state) || state == Stopping }

  // A step of the service's own start worker or stop goroutine.
  predicate ProtocolStep(w: World, l: Label) {
    match l
    case BuildReturns(d, _) => w.f.workerDone == Some(d)
    case EntersStarting(d) => w.f.workerDone == Some(d)
    case LaunchReturns(d, _) => w.f.workerDone == Some(d)
    case RecordsProcess(d) => w.f.workerDone == Some(d)
    case ProbeReturns(d, _) => w.f.workerDone == Some(d)
    case ReapEnds(d, _) => w.f.workerDone == Some(d)
    case Commits(d) => w.f.workerDone == Some(d)
    case Fails(d) => w.f.workerDone == Some(d)
    case SpawnsWatch(d) => w.f.workerDone == Some(d)
    case Finishes(d) => w.f.workerDone == Some(d)
    case ReadsWorker(s) => w.f.stopDone == Some(s)
    case Joins(s) => w.f.stopDone == Some(s)
    case ReadsProcess(s) => w.f.stopDone == Some(s)
    case StopCommandReturns(s, _) => w.f.stopDone == Some(s)
    case AwaitEnds(s, _) => w.f.stopDone == Some(s)
    case Publishes(s) => w.f.stopDone == Some(s)
    case _ => false
  }

  function WorkerRank(pc: WorkerPc): nat {
    match pc
    case RunBuild => 8
    case EnterStarting => 7
    case Launch => 6
    case Record(_) => 5
    case Probe(_) => 4
    case Reap(_) => 3
    case Commit(_) => 3
    case Fail(_) => 2
    case SpawnWatch(_) => 2
    case Finish => 1
    case Gone => 0
  }

  function StopRank(pc: StopPc): nat {
    match pc
    case StopBegin => 6
    case StopJoin(_) => 5
    case StopRead => 4
    case StopCommand(_) => 3
    case StopAwait(_, _) => 2
    case StopPublish(_) => 1
    case StopGone => 0
  }

  // Startup ranks above stopping; within a phase both program counters count.
  function Measure(w: World): nat {
    (if w.f.workerDone.Some? && w.f.workerDone.value < |w.rt.workers|
     then WorkerRank(w.rt.workers[w.f.workerDone.value].pc) else 0)
    + (if InStartup(w.f.state) then 7
       else if w.f.state == Stopping && w.f.stopDone.Some? && w.f.stopDone.value < |w.rt.stoppers|
       then StopRank(w.rt.stoppers[w.f.stopDone.value].pc) else 0)
  }

  const LONGEST: nat := 15

  lemma MeasureIsBounded(w: World)
    ensures Measure(w) <= LONGEST
  {}

  lemma WorkerStepDecreases(w: World, l: Label)
    requires Inv(w) && Enabled(w, l) && ByWorker(l) && ProtocolStep(w, l) && InTransition(w.f.state)
    ensures !InTransition(Do(w, l).f.state) || Measure(Do(w, l)) < Measure(w)
  {}

  lemma ProtocolStepDecreases(w: World, l: Label)
    requires Inv(w) && Enabled(w, l) && ProtocolStep(w, l) && InTransition(w.f.state)
    ensures !InTransition(Do(w, l).f.state) || Measure(Do(w, l)) < Measure(w)
  {
    if ByWorker(l) { WorkerStepDecreases(w, l); }
  }

  lemma OtherStepsDoNotIncrease(w: World, l: Label)
    requires Inv(w) && Enabled(w, l) && !ProtocolStep(w, l) && InTransition(w.f.state)
    ensures InTransition(Do(w, l).f.state) && Measure(Do(w, l)) <= Measure(w)
  {
    if ByCaller(l) { CallersDoNotIncrease(w, l); } else if ByWorker(l) { OtherWorkersDoNotIncrease(w, l); }
  }

  lemma CallersDoNotIncrease(w: World, l: Label)
    requires Inv(w) && Enabled(w, l) && ByCaller(l) && InTransition(w.f.state)
    ensures InTransition(Do(w, l).f.state) && Measure(Do(w, l)) <= Measure(w)
  {}

  lemma OtherWorkersDoNotIncrease(w: World, l: Label)
    requires Inv(w) && Enabled(w, l) && ByWorker(l) && !ProtocolStep(w, l) && InTransition(w.f.state)
    ensures InTransition(Do(w, l).f.state) && Measure(Do(w, l)) <= Measure(w)
  {}

  // Nobody is stuck: in a transition some protocol step can be taken as soon as the command
  // or timeout it waits for returns.  A stop that waits for the worker finds it able to move.
  lemma NoDeadlock(w: World) returns (l: Label)
    requires Inv(w) && InTransition(w.f.state)
    ensures Enabled(w, l) && ProtocolStep(w, l)
  {
    if InStartup(w.f.state) {
      l := WorkerCanMove(w);
    } else {
      var s := w.f.stopDone.value;
      assert StopperInv(w, s, w.rt.stoppers[s]);
      match w.rt.stoppers[s].pc
      case StopBegin => l := ReadsWorker(s);
      case StopJoin(d) =>
        if d.None? || w.rt.workers[d.value].doneClosed { l := Joins(s); } else { l := WorkerCanMove(w); }
      case StopRead => l := ReadsProcess(s);
      case StopCommand(_) => l := StopCommandReturns(s, true);
      case StopAwait(_, _) => l := AwaitEnds(s, true);
      case StopPublish(_) => l := Publishes(s);
    }
  }

  lemma WorkerCanMove(w: World) returns (l: Label)
    requires Inv(w) && w.f.workerDone.Some? && w.rt.workers[w.f.workerDone.value].pc != Gone
    ensures Enabled(w, l) && ProtocolStep(w, l)
  {
    var d := w.f.workerDone.value;
    assert WorkerInv(w, d, w.rt.workers[d]);
    match w.rt.workers[d].pc
    case RunBuild => l := BuildReturns(d, true);
    case EnterStarting => l := EntersStarting(d);
    case Launch => l := LaunchReturns(d, true);
    case Record(_) => l := RecordsProcess(d);
    case Probe(_) => l := ProbeReturns(d, true);
    case Reap(_) => l := ReapEnds(d, true);
    case Commit(_) => l := Commits(d);
    case Fail(_) => l := Fails(d);
    case SpawnWatch(_) => l := SpawnsWatch(d);
    case Finish => l := Finishes(d);
  }

  function ProtocolSteps(ws: seq<World>, ls: seq<Label>, i: nat, j: nat): nat
    requires |ws| == |ls| + 1 && i <= j <= |ls|
    decreases j - i
  {
    if i == j then 0 else ProtocolSteps(ws, ls, i, j - 1) + if ProtocolStep(ws[j - 1], ls[j - 1]) then 1 else 0
  }

  // In any run, a service that stays in transition from i to j has used up that much of its
  // measure: so at most LONGEST protocol steps happen before it is running, stopped or failed.
  lemma {:induction false} TransitionsAreShort(cfg: Config, ws: seq<World>, ls: seq<Label>, i: nat, j: nat)
    requires IsRun(cfg, ws, ls) && i <= j <= |ls|
    requires forall k :: i <= k <= j ==> InTransition(ws[k].f.state)
    ensures ProtocolSteps(ws, ls, i, j) + Measure(ws[j]) <= Measure(ws[i]) <= LONGEST
    decreases j - i
  {
    hide Do, Enabled, Measure, InTransition, ProtocolStep, Inv;
    MeasureIsBounded(ws[i]);
    if i < j {
      TransitionsAreShort(cfg, ws, ls, i, j - 1);
      RunInv(cfg, ws, ls, j - 1);
      assert Enabled(ws[j - 1], ls[j - 1]);
      if ProtocolStep(ws[j - 1], ls[j - 1]) {
        ProtocolStepDecreases(ws[j - 1], ls[j - 1]);
      } else {
        OtherStepsDoNotIncrease(ws[j - 1], ls[j - 1]);
      }
    }
  }

  // From w, these steps of the two goroutines can be taken one after the other, and at
  // their end the service is settled.
  ghost predicate Settles(w: World, ls: seq<Label>)
    decreases |ls|
  {
    if ls == [] then !InTransition(w.f.state)
    else Enabled(w, ls[0]) && ProtocolStep(w, ls[0]) && Settles(Do(w, ls[0]), ls[1..])
  }

  lemma NextProtocolStep(w: World) returns (l: Label)
    requires Inv(w) && InTransition(w.f.state)
    ensures Enabled(w, l) && ProtocolStep(w, l) && Inv(Do(w, l))
    ensures !InTransition(Do(w, l).f.state) || Measure(Do(w, l)) < Measure(w)
  {
    l := NoDeadlock(w);
    StepInv(w, l);
    ProtocolStepDecreases(w, l);
  }

  lemma PrependStep(w: World, l: Label, rest: seq<Label>)
    requires Enabled(w, l) && ProtocolStep(w, l) && Settles(Do(w, l), rest)
    ensures Settles(w, [l] + rest)
  {
    var ls := [l] + rest;
    assert ls[0] == l && ls[1..] == rest;
  }

  // And a transition can always be driven to its end by them alone.
  lemma {:induction false} CanAlwaysSettle(w: World) returns (ls: seq<Label>)
    requires Inv(w)
    ensures |ls| <= Measure(w) + 1 && Settles(w, ls)
    ensures !InTransition(w.f.state) ==> ls == []
    decreases InTransition(w.f.state), Measure(w)
  {
    hide Measure, Inv, Do, Enabled, ProtocolStep;
    if InTransition(w.f.state) {
      var l := NextProtocolStep(w);
      var rest := CanAlwaysSettle(Do(w, l));
      PrependStep(w, l, rest);
      ls := [l] + rest;
    } else {
      ls := [];
    }
  }

  // Endless runs --------------------------------------------------------------------------------

  ghost predicate Endless(cfg: Config, ws: nat -> World, ls: nat -> Label) {
    ws(0) == Init(cfg) && forall i: nat :: Steps(ws, ls, i)
  }

  ghost predicate Steps(ws: nat -> World, ls: nat -> Label, i: nat) {
    Enabled(ws(i), ls(i)) && ws(i + 1) == Do(ws(i), ls(i))
  }

  predicate Moves(ws: nat -> World, ls: nat -> Label, i: nat) {
    ProtocolStep(ws(i), ls(i)) || !InTransition(ws(i).f.state)
  }

  ghost predicate MovesLater(ws: nat -> World, ls: nat -> Label, a: nat) {
    exists b: nat :: a <= b && Moves(ws, ls, b)
  }

  predicate Settled(ws: nat -> World, i: nat) { !InTransition(ws(i).f.state) }

  lemma {:induction false} EndlessInv(cfg: Config, ws: nat -> World, ls: nat -> Label, i: nat)
    requires Endless(cfg, ws, ls)
    ensures Inv(ws(i))
  {
    if i == 0 {
      InitInv(cfg);
    } else {
      EndlessInv(cfg, ws, ls, i - 1);
      assert Steps(ws, ls, i - 1);
      StepInv(ws(i - 1), ls(i - 1));
    }
  }

  // Between i and k, without a protocol step, the measure does not rise; unless it settles.
  lemma {:induction false} WaitsOrSettles(cfg: Config, ws: nat -> World, ls: nat -> Label, i: nat, k: nat)
    returns (m: nat)
    requires Endless(cfg, ws, ls) && i <= k
    ensures i <= m && (Settled(ws, m) || (m == k && Measure(ws(k)) <= Measure(ws(i))))
    decreases k - i
  {
    if i == k || Settled(ws, i) {
      m := i;
    } else {
      EndlessInv(cfg, ws, ls, i);
      assert Steps(ws, ls, i);
      if ProtocolStep(ws(i), ls(i)) {
        ProtocolStepDecreases(ws(i), ls(i));
      } else {
        OtherStepsDoNotIncrease(ws(i), ls(i));
      }
      if Settled(ws, i + 1) { m := i + 1; } else { m := WaitsOrSettles(cfg, ws, ls, i + 1, k); }
    }
  }

  lemma MovesDown(cfg: Config, ws: nat -> World, ls: nat -> Label, k: nat)
    requires Endless(cfg, ws, ls) && Moves(ws, ls, k) && !Settled(ws, k)
    ensures Settled(ws, k + 1) || Measure(ws(k + 1)) < Measure(ws(k))
  {
    EndlessInv(cfg, ws, ls, k);
    assert Steps(ws, ls, k);
    ProtocolStepDecreases(ws(k), ls(k));
  }

  // Once every command and every timeout returns, which is to say that no transition waits for
  // ever for its next protocol step, no transition lasts for ever: from every point of an
  // endless run the service is later running, stopped or failed.
  lemma {:induction false} EveryTransitionEnds(cfg: Config, ws: nat -> World, ls: nat -> Label, i: nat) returns (m: nat)
    requires Endless(cfg, ws, ls) && forall a: nat :: MovesLater(ws, ls, a)
    ensures i <= m && Settled(ws, m)
    decreases Measure(ws(i))
  {
    hide Moves, Settled, Endless, Measure;
    assert MovesLater(ws, ls, i);
    var k: nat :| i <= k && Moves(ws, ls, k);
    m := WaitsOrSettles(cfg, ws, ls, i, k);
    if !Settled(ws, m) {
      MovesDown(cfg, ws, ls, k);
      if Settled(ws, k + 1) { m := k + 1; } else { m := EveryTransitionEnds(cfg, ws, ls, k + 1); }
    }
  }
}
