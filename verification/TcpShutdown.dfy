// When Shutdown of internal/proxy/tcp.go leaves a connection open: exactly when, as it takes
// its lock, the accept loop has a connection in hand or can still be given one.

module TcpShutdown {
  import opened Options
  import opened Tcp
  import TcpConnections

  // The accept loop has a connection it has neither handed on nor rejected, or its listener
  // is still open.
  ghost predicate MayHold(s: Server) {
    exists v: nat :: Open(s, v)
  }

  predicate Open(s: Server, v: nat) {
    v < |s.serves| && (Holds(s, v) || (s.serves[v].pc == Accepting && s.serves[v].listening))
  }

  predicate Holds(s: Server, v: nat) {
    v < |s.serves| && (s.serves[v].pc == Got || s.serves[v].pc == Rejecting)
  }

  // Sufficient ------------------------------------------------------------------------------

  lemma MayHoldStep(s: Server, l: Label)
    requires Inv(s) && Enabled(s, l) && s.closing && !MayHold(s)
    ensures !MayHold(Do(s, l))
  {
    var s' := Do(s, l);
    forall v: nat ensures !Open(s', v) {
      assert !Open(s, v);
      if l.ShutdownClosesListener? { assert ShutdownInv(s, s.shutdowns[l.k]); }
    }
  }

  lemma {:induction false} ClosingStays(ss: seq<Server>, ls: seq<Label>, i: nat, j: nat)
    requires IsRun(ss, ls) && i <= j < |ss| && ss[i].closing && !MayHold(ss[i])
    ensures ss[j].closing && !MayHold(ss[j])
  {
    if i < j {
      ClosingStays(ss, ls, i, j - 1);
      RunInv(ss, ls, j - 1);
      assert Enabled(ss[j - 1], ls[j - 1]);
      ClosingStep(ss[j - 1], ls[j - 1]);
      MayHoldStep(ss[j - 1], ls[j - 1]);
    }
  }

  lemma BeginsClosing(s: Server, k: nat)
    requires Enabled(s, ShutdownBegins(k)) && !MayHold(s)
    ensures Do(s, ShutdownBegins(k)).closing && !MayHold(Do(s, ShutdownBegins(k)))
  {
    forall v: nat ensures !Open(Do(s, ShutdownBegins(k)), v) { assert !Open(s, v); }
  }

  // If no accept loop holds a connection or listens when a Shutdown begins, then once that
  // Shutdown has returned nil every connection ever accepted or dialled is closed, for ever.
  lemma QuietShutdownClosesAll(ss: seq<Server>, ls: seq<Label>, i: nat, m: nat, j: nat, k: nat)
    requires IsRun(ss, ls) && i < m < j < |ss|
    requires ls[i] == ShutdownBegins(k) && !MayHold(ss[i]) && ls[m] == ShutdownReturns(k, true)
    ensures AllClosed(ss[j])
  {
    BeginsClosing(ss[i], k);
    assert ss[i + 1] == Do(ss[i], ls[i]);
    ClosingStays(ss, ls, i + 1, j);
    assert forall v: nat :: Holds(ss[j], v) ==> Open(ss[j], v);
    if LoopHolds(ss[j]) {
      var v: nat :| v < |ss[j].serves| && (ss[j].serves[v].pc == Got || ss[j].serves[v].pc == Rejecting);
      assert Holds(ss[j], v);
    }
    ShutdownLeavesNothing(ss, ls, m, j, k);
  }

  // The exception ends ------------------------------------------------------------------------

  // When a Shutdown has returned nil a loop that has let its connection go has none again.
  lemma {:induction false} LetGoForEver(ss: seq<Server>, ls: seq<Label>, i: nat, j: nat)
    requires IsRun(ss, ls) && i <= j < |ss| && ss[i].finished && !LoopHolds(ss[i])
    ensures ss[j].finished && AllClosed(ss[j])
  {
    if i < j {
      LetGoForEver(ss, ls, i, j - 1);
      RunInv(ss, ls, j - 1);
      assert Enabled(ss[j - 1], ls[j - 1]);
      LetGoStep(ss[j - 1], ls[j - 1]);
    }
    RunInv(ss, ls, j);
    FinishedMeans(ss[j]);
  }

  lemma LetGoStep(s: Server, l: Label)
    requires Inv(s) && Enabled(s, l) && s.finished && !LoopHolds(s)
    ensures Do(s, l).finished && !LoopHolds(Do(s, l))
  {
    ClosingStep(s, l);
    FinishedMeans(s);
    forall v: nat ensures !Holds(Do(s, l), v) { assert !Holds(s, v); }
  }

  // And its next steps let it go: it is told that the server is closing, and closes it.
  lemma LoopLetsGo(s: Server, v: nat) returns (t: Server)
    requires Inv(s) && s.finished && Holds(s, v)
    ensures if s.serves[v].pc == Got
      then Enabled(s, Tracks(v)) && Enabled(Do(s, Tracks(v)), Rejects(v)) && t == Do(Do(s, Tracks(v)), Rejects(v))
      else Enabled(s, Rejects(v)) && t == Do(s, Rejects(v))
    ensures AllClosed(t)
  {
    assert ServeInv(s, v, s.serves[v]);
    if s.serves[v].pc == Got {
      TracksInv(s, v);
      t := Rejected(Do(s, Tracks(v)), v);
    } else {
      t := Rejected(s, v);
    }
  }

  lemma Rejected(s: Server, v: nat) returns (t: Server)
    requires Inv(s) && s.finished && v < |s.serves| && s.serves[v].pc == Rejecting
    ensures Enabled(s, Rejects(v)) && t == Do(s, Rejects(v)) && AllClosed(t)
  {
    t := Do(s, Rejects(v));
    ServeStepInv(s, Rejects(v));
    assert ServeInv(s, v, s.serves[v]);
    forall u: nat | u < |t.serves| ensures t.serves[u].pc != Got && t.serves[u].pc != Rejecting {
      assert ServeInv(s, u, s.serves[u]);
    }
    FinishedMeans(t);
  }

  // Necessary ---------------------------------------------------------------------------------

  // The labels can be taken one after the other, and where they lead.
  ghost predicate Can(s: Server, steps: seq<Label>)
    decreases |steps|
  {
    steps == [] || (Enabled(s, steps[0]) && Can(Do(s, steps[0]), steps[1..]))
  }

  ghost function After(s: Server, steps: seq<Label>): Server
    requires Can(s, steps)
    decreases |steps|
  {
    if steps == [] then s else After(Do(s, steps[0]), steps[1..])
  }

  // The steps end with a Shutdown that returns nil while the loop holds a connection.
  ghost predicate EndsOpen(s: Server, steps: seq<Label>, k: nat, v: nat) {
    steps != [] && Can(s, steps) && steps[|steps| - 1] == ShutdownReturns(k, true) && Holds(After(s, steps), v)
  }

  lemma Prepend(s: Server, l: Label, rest: seq<Label>, k: nat, v: nat)
    requires Enabled(s, l) && EndsOpen(Do(s, l), rest, k, v)
    ensures EndsOpen(s, [l] + rest, k, v)
  {
    assert ([l] + rest)[1..] == rest;
  }

  function Rank(pc: HandlerPc): nat {
    match pc
    case Acquiring => 5
    case Dialing => 10
    case Tracking => 9
    case Dropping => 6
    case Copying => 8
    case ClosingBackend => 7
    case RemovingBackend => 6
    case Releasing => 5
    case ClosingClient => 4
    case RemovingClient => 3
    case Leaving => 2
    case Left => 0
  }

  function NextStep(s: Server, h: nat): Label
    requires h < |s.handlers| && s.handlers[h].pc != Left
  {
    match s.handlers[h].pc
    case Acquiring => Unavailable(h)
    case Dialing => Dials(h, false)
    case Tracking => TracksBackend(h)
    case Dropping => DropsBackend(h)
    case Copying => CopyEnds(h)
    case ClosingBackend => ClosesBackend(h)
    case RemovingBackend => RemovesBackend(h)
    case Releasing => Releases(h)
    case ClosingClient => ClosesClient(h)
    case RemovingClient => RemovesClient(h)
    case Leaving => Leaves(h)
  }

  // What the handlers' steps leave alone.
  ghost predicate SameOthers(s: Server, s': Server) {
    s'.serves == s.serves && s'.shutdowns == s.shutdowns && s'.closing == s.closing
  }

  lemma HandlerCanMove(s: Server, h: nat)
    requires Inv(s) && h in s.live
    ensures h < |s.handlers| && s.handlers[h].pc != Left && Enabled(s, NextStep(s, h))
  {
    assert HandlerInv(s, h, s.handlers[h]);
  }

  lemma HandlerEffect(s: Server, h: nat)
    requires h < |s.handlers| && s.handlers[h].pc != Left && Enabled(s, NextStep(s, h))
    ensures var s' := Do(s, NextStep(s, h));
      && SameOthers(s, s') && |s'.handlers| == |s.handlers|
      && (s.closing ==> Rank(s'.handlers[h].pc) < Rank(s.handlers[h].pc))
      && s'.live == if s.handlers[h].pc == Leaving then s.live - {h} else s.live
  {
    if s.handlers[h].pc != Tracking {
      HandlerOnly(s, h);
      HandlerDescends(s, h);
    }
  }

  lemma HandlerOnly(s: Server, h: nat)
    requires h < |s.handlers| && s.handlers[h].pc != Left && s.handlers[h].pc != Tracking
    requires Enabled(s, NextStep(s, h))
    ensures var s' := OnHandler(s, NextStep(s, h));
      && SameOthers(s, s') && |s'.handlers| == |s.handlers|
      && s'.live == if s.handlers[h].pc == Leaving then s.live - {h} else s.live
  {}

  lemma HandlerDescends(s: Server, h: nat)
    requires h < |s.handlers| && s.handlers[h].pc != Left && s.handlers[h].pc != Tracking
    requires Enabled(s, NextStep(s, h))
    ensures var s' := OnHandler(s, NextStep(s, h));
      h < |s'.handlers| && Rank(s'.handlers[h].pc) < Rank(s.handlers[h].pc)
  {
    hide OnHandler, Rank;
    TcpConnections.HandlerLine(s, NextStep(s, h));
    LinesDescend(s, s.handlers[h].pc, NextStep(s, h), OnHandler(s, NextStep(s, h)).handlers[h].pc);
  }

  lemma LinesDescend(s: Server, pc: HandlerPc, l: Label, next: HandlerPc)
    requires TcpConnections.NextLine(s, pc, l, next) && !l.Granted? && l != Dials(l.h, true) && !l.TracksBackend?
    ensures Rank(next) < Rank(pc)
  {}

  lemma HandlerMoves(s: Server, h: nat)
    requires Inv(s) && h in s.live && s.closing
    ensures h < |s.handlers| && s.handlers[h].pc != Left
    ensures var l := NextStep(s, h);
      && Enabled(s, l) && Inv(Do(s, l)) && SameOthers(s, Do(s, l)) && |Do(s, l).handlers| == |s.handlers|
      && Rank(Do(s, l).handlers[h].pc) < Rank(s.handlers[h].pc)
      && Do(s, l).live == if s.handlers[h].pc == Leaving then s.live - {h} else s.live
  {
    hide Do, Inv, Enabled, Rank;
    HandlerCanMove(s, h);
    HandlerEffect(s, h);
    HandlerStepInv(s, NextStep(s, h));
  }

  // Every handler can be brought to its end, and then Shutdown returns.
  lemma {:induction false} HandlersLeave(s: Server, k: nat, v: nat, h: nat) returns (steps: seq<Label>)
    requires Inv(s) && s.closing && k in s.shutdowns && s.shutdowns[k] == Waiting && Holds(s, v)
    ensures EndsOpen(s, steps, k, v)
    decreases |s.live|, h !in s.live, if h < |s.handlers| then Rank(s.handlers[h].pc) else 0
  {
    if s.live == {} {
      var l := ShutdownReturns(k, true);
      assert After(Do(s, l), []) == Do(s, l);
      assert [l][1..] == [];
      steps := [l];
    } else if h !in s.live {
      var g :| g in s.live;
      steps := HandlersLeave(s, k, v, g);
    } else {
      HandlerMoves(s, h);
      var l := NextStep(s, h);
      var rest := HandlersLeave(Do(s, l), k, v, h);
      Prepend(s, l, rest, k, v);
      steps := [l] + rest;
    }
  }

  lemma {:induction false} ConnsClose(s: Server, k: nat, v: nat) returns (steps: seq<Label>)
    requires Inv(s) && s.closing && k in s.shutdowns && s.shutdowns[k].ClosingConns? && Holds(s, v)
    ensures EndsOpen(s, steps, k, v)
    decreases |s.shutdowns[k].list|
  {
    var l, rest;
    if s.shutdowns[k].list == {} {
      l := ShutdownWaits(k);
      ShutdownStepInv(s, l);
      rest := HandlersLeave(Do(s, l), k, v, 0);
    } else {
      var c :| c in s.shutdowns[k].list;
      l := ShutdownCloses(k, c);
      ShutdownClosesInv(s, k, c);
      rest := ConnsClose(Do(s, l), k, v);
    }
    Prepend(s, l, rest, k, v);
    steps := [l] + rest;
  }

  lemma ListenerCloses(s: Server, k: nat, v: nat) returns (steps: seq<Label>)
    requires Inv(s) && s.closing && k in s.shutdowns && s.shutdowns[k].ClosingListener? && Open(s, v)
    ensures EndsOpen(s, steps, k, v)
    decreases !Holds(s, v)
  {
    if Holds(s, v) {
      var l := ShutdownClosesListener(k);
      ShutdownStepInv(s, l);
      var rest := ConnsClose(Do(s, l), k, v);
      Prepend(s, l, rest, k, v);
      steps := [l] + rest;
    } else {
      var l := Accepts(v);
      ServeStepInv(s, l);
      var rest := ListenerCloses(Do(s, l), k, v);
      Prepend(s, l, rest, k, v);
      steps := [l] + rest;
    }
  }

  lemma ShutdownMayEndOpen(s: Server, k: nat) returns (steps: seq<Label>, v: nat)
    requires Inv(s) && k !in s.shutdowns && MayHold(s)
    ensures EndsOpen(s, steps, k, v) && |steps| > 1 && steps[0] == ShutdownBegins(k)
  {
    v :| Open(s, v);
    var l := ShutdownBegins(k);
    ShutdownStepInv(s, l);
    var rest := ListenerCloses(Do(s, l), k, v);
    Prepend(s, l, rest, k, v);
    steps := [l] + rest;
  }

  lemma {:induction false} Continue(ss: seq<Server>, ls: seq<Label>, steps: seq<Label>) returns (ts: seq<Server>)
    requires IsRun(ss, ls) && Can(ss[|ls|], steps)
    ensures IsRun(ts, ls + steps) && ss <= ts && ts[|ls + steps|] == After(ss[|ls|], steps)
    decreases |steps|
  {
    if steps == [] {
      ts := ss;
      assert ls + steps == ls;
    } else {
      var next := Do(ss[|ls|], steps[0]);
      Extend(ss, ls, steps[0], next);
      ts := Continue(ss + [next], ls + [steps[0]], steps[1..]);
      assert ls + [steps[0]] + steps[1..] == ls + steps;
    }
  }

  // The run goes on with this Shutdown, which returns nil on the way.
  ghost predicate GoesOn(ss: seq<Server>, ls: seq<Label>, k: nat, ts: seq<Server>, ms: seq<Label>) {
    && IsRun(ts, ms) && ss <= ts && ls < ms && ms[|ls|] == ShutdownBegins(k)
    && exists m :: |ls| < m < |ms| && ms[m] == ShutdownReturns(k, true)
  }

  // Exactly: a Shutdown that begins now closes everything, however the run goes on and
  // whenever it returns nil, if and only if no accept loop holds a connection or listens now.
  lemma ShutdownClosesAllIff(ss: seq<Server>, ls: seq<Label>, k: nat)
    requires IsRun(ss, ls) && k !in ss[|ls|].shutdowns
    ensures (forall ts, ms :: GoesOn(ss, ls, k, ts, ms) ==> AllClosed(ts[|ms|])) <==> !MayHold(ss[|ls|])
  {
    hide GoesOn, MayHold, AllClosed;
    if MayHold(ss[|ls|]) {
      var ts, ms := RunMayEndOpen(ss, ls, k);
    } else {
      forall ts, ms | GoesOn(ss, ls, k, ts, ms) ensures |ts| == |ms| + 1 && AllClosed(ts[|ms|]) {
        QuietRunClosesAll(ss, ls, k, ts, ms);
      }
    }
  }

  lemma RunMayEndOpen(ss: seq<Server>, ls: seq<Label>, k: nat) returns (ts: seq<Server>, ms: seq<Label>)
    requires IsRun(ss, ls) && k !in ss[|ls|].shutdowns && MayHold(ss[|ls|])
    ensures GoesOn(ss, ls, k, ts, ms) && !AllClosed(ts[|ms|])
  {
    hide MayHold;
    RunInv(ss, ls, |ls|);
    var steps, v := ShutdownMayEndOpen(ss[|ls|], k);
    ts := Continue(ss, ls, steps);
    ms := ls + steps;
    assert ms[|ms| - 1] == ShutdownReturns(k, true) && ms[|ls|] == steps[0];
    assert Holds(ts[|ms|], v) && LoopHolds(ts[|ms|]);
  }

  lemma QuietRunClosesAll(ss: seq<Server>, ls: seq<Label>, k: nat, ts: seq<Server>, ms: seq<Label>)
    requires IsRun(ss, ls) && !MayHold(ss[|ls|]) && GoesOn(ss, ls, k, ts, ms)
    ensures |ts| == |ms| + 1 && AllClosed(ts[|ms|])
  {
    hide MayHold, AllClosed;
    var m: nat :| |ls| < m < |ms| && ms[m] == ShutdownReturns(k, true);
    assert ts[|ls|] == ss[|ls|];
    QuietShutdownClosesAll(ts, ms, |ls|, m, |ms|, k);
  }
}
