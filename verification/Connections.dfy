// ConnectionTracker of internal/proxy/drain.go: a set of open connections, a broadcast by
// a channel that is closed and replaced at every change, and a final CloseAll.

module Connections {

  // Where a connection is, from the listener's Accept to the end of Close.
  datatype ConnPc =
    | Accepted   // the inner Accept has returned, `add` has not run
    | Refused    // `add` said no, the raw connection is about to be closed
    | Open
    | Closing    // inside sync.Once: the raw connection is closed, `remove` has not run
    | Closed

  // A caller of Wait blocked on the channel it captured, with the set it then saw.
  datatype Waiter = Waiter(changed: nat, seen: set<nat>)

  datatype Tracker = Tracker(
    conns: set<nat>,              // the fields of ConnectionTracker
    closed: bool,
    changed: nat,                 // index into channels
    channels: seq<bool>,          // every channel ever made: is it closed?
    all: seq<ConnPc>,             // every connection ever accepted
    waiters: map<nat, Waiter>,
    closers: map<nat, set<nat>>,  // callers inside CloseAll: connections still to close
    swept: bool,                  // some CloseAll has returned
    panicked: bool)

  datatype Label =
    | Accept | Add(c: nat) | CloseRefused(c: nat)
    | CloseBegins(c: nat) | CloseEnds(c: nat)
    | WaitLooks(k: nat) | WaitWakes(k: nat) | WaitGivesUp(k: nat)
    | CloseAllBegins(k: nat) | CloseAllMoves(k: nat, c: nat) | CloseAllEnds(k: nat)

  const FRESH := Tracker({}, false, 0, [false], [], map[], map[], false, false)

  // signalLocked
  function Signal(t: Tracker): Tracker {
    if t.changed < |t.channels| && !t.channels[t.changed]
    then t.(channels := t.channels[t.changed := true] + [false], changed := |t.channels|)
    else t.(panicked := true)
  }

  predicate Enabled(t: Tracker, l: Label) {
    match l
    case Accept => true
    case Add(c) => c < |t.all| && t.all[c] == Accepted
    case CloseRefused(c) => c < |t.all| && t.all[c] == Refused
    case CloseBegins(c) => c < |t.all| && t.all[c] == Open
    case CloseEnds(c) => c < |t.all| && t.all[c] == Closing
    case WaitLooks(k) => k !in t.waiters
    case WaitWakes(k) => k in t.waiters && t.waiters[k].changed < |t.channels| && t.channels[t.waiters[k].changed]
    case WaitGivesUp(k) => k in t.waiters
    case CloseAllBegins(k) => k !in t.closers
    // conn.Close() returns to CloseAll once the connection's once has completed, whoever ran it
    case CloseAllMoves(k, c) => k in t.closers && c in t.closers[k] && c < |t.all| && t.all[c] == Closed
    case CloseAllEnds(k) => k in t.closers && t.closers[k] == {}
  }

  function Do(t: Tracker, l: Label): Tracker
    requires Enabled(t, l)
  {
    match l
    case Accept => t.(all := t.all + [Accepted])
    case Add(c) =>
      if t.closed then t.(all := t.all[c := Refused])
      else Signal(t.(conns := t.conns + {c}, all := t.all[c := Open]))
    case CloseRefused(c) => t.(all := t.all[c := Closed])
    case CloseBegins(c) => t.(all := t.all[c := Closing])
    case CloseEnds(c) => Signal(t.(conns := t.conns - {c}, all := t.all[c := Closed]))
    case WaitLooks(k) => if t.conns == {} then t else t.(waiters := t.waiters[k := Waiter(t.changed, t.conns)])
    case WaitWakes(k) => t.(waiters := t.waiters - {k})
    case WaitGivesUp(k) => t.(waiters := t.waiters - {k})
    case CloseAllBegins(k) => t.(closed := true, closers := t.closers[k := t.conns])
    case CloseAllMoves(k, c) => t.(closers := t.closers[k := t.closers[k] - {c}])
    case CloseAllEnds(k) => t.(closers := t.closers - {k}, swept := true)
  }

  ghost predicate Inv(t: Tracker) {
    && !t.panicked
    && |t.channels| == t.changed + 1
    && (forall i: nat :: i < |t.channels| ==> (t.channels[i] <==> i != t.changed))
    && (forall c :: c in t.conns ==> c < |t.all|)
    && (forall c: nat :: c < |t.all| ==> (c in t.conns <==> t.all[c] == Open || t.all[c] == Closing))
    && (forall c: nat :: c < |t.all| && t.all[c] == Refused ==> t.closed)
    && (forall k :: k in t.waiters ==>
          t.waiters[k].changed < |t.channels| &&
          (!t.channels[t.waiters[k].changed] ==> t.conns == t.waiters[k].seen && t.conns != {}))
    && (forall k :: k in t.closers ==> t.closed && t.conns <= t.closers[k])
    && (t.swept ==> t.closed && t.conns == {})
  }

  lemma StepInv(t: Tracker, l: Label)
    requires Inv(t) && Enabled(t, l)
    ensures Inv(Do(t, l))
  {}

  ghost predicate IsRun(ts: seq<Tracker>, ls: seq<Label>) {
    && |ts| == |ls| + 1 && ts[0] == FRESH
    && (forall i :: 0 <= i < |ls| ==> Enabled(ts[i], ls[i]) && ts[i + 1] == Do(ts[i], ls[i]))
  }

  lemma {:induction false} RunInv(ts: seq<Tracker>, ls: seq<Label>, i: nat)
    requires IsRun(ts, ls) && i < |ts|
    ensures Inv(ts[i])
  {
    if i > 0 {
      RunInv(ts, ls, i - 1);
      assert Enabled(ts[i - 1], ls[i - 1]);
      StepInv(ts[i - 1], ls[i - 1]);
    }
  }

  // No lost wakeup: whoever still waits on an open channel has seen exactly the connections
  // that are there now, and there is at least one.
  lemma NoLostWakeup(ts: seq<Tracker>, ls: seq<Label>, i: nat, k: nat)
    requires IsRun(ts, ls) && i < |ts| && k in ts[i].waiters
    requires !Enabled(ts[i], WaitWakes(k))
    ensures ts[i].waiters[k].changed == ts[i].changed
    ensures ts[i].conns == ts[i].waiters[k].seen && ts[i].conns != {}
  {
    RunInv(ts, ls, i);
  }

  lemma ChannelStep(t: Tracker, l: Label)
    requires Inv(t) && Enabled(t, l)
    ensures t.changed <= Do(t, l).changed
    ensures Do(t, l).changed == t.changed ==> Do(t, l).conns == t.conns
  {}

  lemma ChannelStepInRun(ts: seq<Tracker>, ls: seq<Label>, i: nat)
    requires IsRun(ts, ls) && i < |ls|
    ensures ts[i].changed <= ts[i + 1].changed
    ensures ts[i + 1].changed == ts[i].changed ==> ts[i + 1].conns == ts[i].conns
  {
    RunInv(ts, ls, i);
    ChannelStep(ts[i], ls[i]);
  }

  // The set cannot have changed and changed back while a waiter sleeps: as long as the
  // current channel is the same one, so is the set, at every step in between.
  lemma {:induction false} SameChannelSameSet(ts: seq<Tracker>, ls: seq<Label>, i: nat, j: nat)
    requires IsRun(ts, ls) && i <= j < |ts|
    ensures ts[i].changed <= ts[j].changed
    ensures ts[i].changed == ts[j].changed ==> forall m :: i <= m <= j ==> ts[m].conns == ts[i].conns
  {
    if i < j {
      SameChannelSameSet(ts, ls, i, j - 1);
      ChannelStepInRun(ts, ls, j - 1);
    }
  }

  lemma {:induction false} SweptStays(ts: seq<Tracker>, ls: seq<Label>, i: nat, j: nat)
    requires IsRun(ts, ls) && i <= j < |ts| && ts[i].swept
    ensures ts[j].swept
  {
    if i < j {
      SweptStays(ts, ls, i, j - 1);
      assert Enabled(ts[j - 1], ls[j - 1]);
    }
  }

  // After a CloseAll has returned the set is empty for ever, and every connection that was
  // ever added has been closed, whatever Accept and Close do meanwhile.
  lemma SweptForEver(ts: seq<Tracker>, ls: seq<Label>, i: nat, j: nat, k: nat)
    requires IsRun(ts, ls) && i < j < |ts| && ls[i] == CloseAllEnds(k)
    ensures ts[j].closed && ts[j].conns == {}
    ensures forall c: nat :: c < |ts[j].all| ==>
              ts[j].all[c] == Accepted || ts[j].all[c] == Refused || ts[j].all[c] == Closed
  {
    assert Enabled(ts[i], ls[i]);
    SweptStays(ts, ls, i + 1, j);
    RunInv(ts, ls, j);
  }

  // What each step does to the set, to those who wait for it, and to those who sweep it.
  lemma StepMeans(t: Tracker, l: Label, x: nat)
    requires Inv(t) && Enabled(t, l)
    ensures x in Do(t, l).conns <==> (x in t.conns || (l == Add(x) && !t.closed)) && l != CloseEnds(x)
    ensures x in Do(t, l).waiters <==>
              (x in t.waiters || (l == WaitLooks(x) && t.conns != {})) && l != WaitWakes(x) && l != WaitGivesUp(x)
    ensures x in Do(t, l).closers <==> (x in t.closers || l == CloseAllBegins(x)) && l != CloseAllEnds(x)
    ensures Do(t, l).closed <==> t.closed || l.CloseAllBegins?
    ensures l == CloseAllBegins(x) ==> Do(t, l).closers[x] == t.conns
    ensures l.CloseAllMoves? && l.k == x ==> Do(t, l).closers[x] == t.closers[x] - {l.c}
  {}

  // `panicked` is what closing a channel twice would leave.
  lemma SecondCloseTells(t: Tracker)
    ensures Signal(t).panicked <==> t.panicked || t.changed >= |t.channels| || t.channels[t.changed]
  {}

  class ConnectionTracker {
    var conns: set<nat>
    var closed: bool
    var changed: nat
    var channels: seq<bool>
    var panicked: bool
    ghost var all: seq<ConnPc>
    ghost var waiters: map<nat, Waiter>
    ghost var closers: map<nat, set<nat>>
    ghost var swept: bool

    ghost function View(): Tracker
      reads this
    {
      Tracker(conns, closed, changed, channels, all, waiters, closers, swept, panicked)
    }

    constructor ()
      ensures View() == FRESH && Inv(View())
    {
      conns, closed, changed, channels, panicked := {}, false, 0, [false], false;
      all, waiters, closers, swept := [], map[], map[], false;
    }

    method SignalLocked()
      modifies this`channels, this`changed, this`panicked
      ensures View() == Signal(old(View()))
    {
      if changed < |channels| && !channels[changed] {
        channels := channels[changed := true] + [false];
        changed := |channels| - 1;
      } else {
        panicked := true;
      }
    }

    // add
    method AddConn(c: nat) returns (ok: bool)
      requires Inv(View()) && Enabled(View(), Add(c))
      modifies this
      ensures View() == Do(old(View()), Add(c)) && Inv(View())
      ensures ok == !closed && conns == if ok then old(conns) + {c} else old(conns)
    {
      StepInv(View(), Add(c));
      if closed {
        all := all[c := Refused];
        return false;
      }
      all := all[c := Open];
      conns := conns + {c};
      SignalLocked();
      ok := true;
    }

    // remove, at the end of trackedConn.Close
    method Remove(c: nat)
      requires Inv(View()) && Enabled(View(), CloseEnds(c))
      modifies this
      ensures View() == Do(old(View()), CloseEnds(c)) && Inv(View())
      ensures conns == old(conns) - {c}
    {
      StepInv(View(), CloseEnds(c));
      all := all[c := Closed];
      conns := conns - {c};
      SignalLocked();
    }

    // The locked part of one turn of Wait.
    method WaitLocked(ghost k: nat) returns (empty: bool, ch: nat)
      requires Inv(View()) && k !in waiters
      modifies this`waiters
      ensures View() == Do(old(View()), WaitLooks(k)) && Inv(View())
      ensures empty <==> conns == {}
      ensures !empty ==> ch < |channels| && !channels[ch] && k in waiters && waiters[k] == Waiter(ch, conns)
    {
      StepInv(View(), WaitLooks(k));
      ch := changed;
      if conns == {} { return true, ch; }
      waiters := waiters[k := Waiter(changed, conns)];
      empty := false;
    }

    // The locked part of CloseAll: nothing is added from here on, and the returned
    // connections include every one still open.
    method CloseAllLocked(ghost k: nat) returns (connections: set<nat>)
      requires Inv(View()) && k !in closers
      modifies this
      ensures View() == Do(old(View()), CloseAllBegins(k)) && Inv(View())
      ensures closed && connections == conns == old(conns)
    {
      StepInv(View(), CloseAllBegins(k));
      closed := true;
      connections := conns;
      closers := closers[k := conns];
    }
  }
}
