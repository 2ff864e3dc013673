// DrainHandler of internal/proxy/drain.go: an admission counter with a channel that is
// closed once the last request admitted before the drain has left.

module Drain {

  // The fields of DrainHandler (`done` by whether it is closed), the requests inside the
  // wrapped handler, and how many requests were ever admitted: they are named 0..admitted.
  datatype Handler = Handler(active: int, draining: bool, doneClosed: bool,
                             running: set<nat>, admitted: nat, panicked: bool)

  datatype Label = Enter | BeginDrain | Leave(r: nat)

  const FRESH := Handler(0, false, false, {}, 0, false)

  function CloseDone(h: Handler): Handler {
    if h.doneClosed then h.(panicked := true) else h.(doneClosed := true)
  }

  predicate Enabled(h: Handler, l: Label) { l.Leave? ==> l.r in h.running }

  function Do(h: Handler, l: Label): Handler
    requires Enabled(h, l)
  {
    match l
    case Enter =>
      if h.draining then h
      else h.(active := h.active + 1, running := h.running + {h.admitted}, admitted := h.admitted + 1)
    case BeginDrain =>
      if h.draining then h else
      if h.active == 0 then CloseDone(h.(draining := true)) else h.(draining := true)
    case Leave(r) =>
      var h1 := h.(active := h.active - 1, running := h.running - {r});
      if h1.draining && h1.active == 0 then CloseDone(h1) else h1
  }

  predicate Inv(h: Handler) {
    && !h.panicked
    && h.active == |h.running|
    && (forall r :: r in h.running ==> r < h.admitted)
    && (h.doneClosed <==> h.draining && h.running == {})
  }

  lemma StepInv(h: Handler, l: Label)
    requires Inv(h) && Enabled(h, l)
    ensures Inv(Do(h, l))
  {
    match l
    case Enter => assert |h.running + {h.admitted}| == |h.running| + 1;
    case BeginDrain =>
    case Leave(r) => assert |h.running - {r}| == |h.running| - 1;
  }

  ghost predicate IsRun(hs: seq<Handler>, ls: seq<Label>) {
    && |hs| == |ls| + 1 && hs[0] == FRESH
    && (forall i :: 0 <= i < |ls| ==> Enabled(hs[i], ls[i]) && hs[i + 1] == Do(hs[i], ls[i]))
  }

  lemma {:induction false} RunInv(hs: seq<Handler>, ls: seq<Label>, i: nat)
    requires IsRun(hs, ls) && i < |hs|
    ensures Inv(hs[i])
  {
    if i > 0 {
      RunInv(hs, ls, i - 1);
      assert Enabled(hs[i - 1], ls[i - 1]);
      StepInv(hs[i - 1], ls[i - 1]);
    }
  }

  // `done` is closed exactly while the handler drains with no admitted request inside; no
  // step closes it twice; and once closed, nothing is inside and nothing is admitted for ever.
  lemma {:induction false} DrainedForEver(hs: seq<Handler>, ls: seq<Label>, i: nat, j: nat)
    requires IsRun(hs, ls) && i <= j < |hs|
    ensures !hs[j].panicked && (hs[j].doneClosed <==> hs[j].draining && hs[j].running == {})
    ensures hs[i].doneClosed ==> hs[j].doneClosed && hs[j].running == {} && hs[j].admitted == hs[i].admitted
  {
    RunInv(hs, ls, j);
    if i < j {
      DrainedForEver(hs, ls, i, j - 1);
      assert Enabled(hs[j - 1], ls[j - 1]);
    }
  }

  // From the step that begins the drain on nobody is admitted, and before it everybody is.
  lemma {:induction false} AdmittedUntilDrain(hs: seq<Handler>, ls: seq<Label>, i: nat, j: nat)
    requires IsRun(hs, ls) && i < j < |hs| && ls[i] == BeginDrain
    ensures hs[j].draining && hs[j].admitted == hs[i].admitted
  {
    RunInv(hs, ls, j - 1);
    assert Enabled(hs[j - 1], ls[j - 1]);
    if j > i + 1 { AdmittedUntilDrain(hs, ls, i, j - 1); }
  }

  lemma {:induction false} DrainNeedsBegin(hs: seq<Handler>, ls: seq<Label>, i: nat)
    requires IsRun(hs, ls) && i < |hs|
    ensures hs[i].draining <==> BeginDrain in ls[..i]
    ensures i < |ls| && ls[i] == Enter && BeginDrain !in ls[..i] ==> hs[i + 1].admitted == hs[i].admitted + 1
  {
    if i > 0 {
      DrainNeedsBegin(hs, ls, i - 1);
      assert Enabled(hs[i - 1], ls[i - 1]);
      assert ls[..i] == ls[..i - 1] + [ls[i - 1]];
    }
  }

  // `panicked` is what closing the channel twice would leave.
  lemma SecondCloseTells(h: Handler)
    ensures CloseDone(h).panicked <==> h.panicked || h.doneClosed
  {}

  predicate LeftBefore(ls: seq<Label>, i: nat, r: nat)
    requires i <= |ls|
  {
    exists k :: 0 <= k < i && ls[k] == Leave(r)
  }

  lemma RunningStep(h: Handler, l: Label, r: nat)
    requires Inv(h) && Enabled(h, l)
    ensures r in Do(h, l).running <==>
              r < Do(h, l).admitted && (r in h.running || r >= h.admitted) && l != Leave(r)
    ensures h.admitted <= Do(h, l).admitted
    ensures l == Leave(r) ==> r < h.admitted
  {}

  // A request runs from its admission to its leave.
  lemma {:induction false} RunningMeans(hs: seq<Handler>, ls: seq<Label>, i: nat, r: nat)
    requires IsRun(hs, ls) && i < |hs|
    ensures r in hs[i].running <==> r < hs[i].admitted && !LeftBefore(ls, i, r)
    ensures LeftBefore(ls, i, r) ==> r < hs[i].admitted
  {
    if i > 0 {
      RunningMeans(hs, ls, i - 1, r);
      RunInv(hs, ls, i - 1);
      assert Enabled(hs[i - 1], ls[i - 1]);
      RunningStep(hs[i - 1], ls[i - 1], r);
      if LeftBefore(ls, i - 1, r) { assert LeftBefore(ls, i, r); }
      if ls[i - 1] == Leave(r) { assert LeftBefore(ls, i, r); }
    }
  }

  // So whoever reads from `done` knows that every request ever admitted has left.
  lemma DoneMeansAllLeft(hs: seq<Handler>, ls: seq<Label>, i: nat, r: nat)
    requires IsRun(hs, ls) && i < |hs| && hs[i].doneClosed && r < hs[i].admitted
    ensures LeftBefore(ls, i, r)
  {
    RunInv(hs, ls, i);
    RunningMeans(hs, ls, i, r);
  }

  class DrainHandler {
    var active: int
    var draining: bool
    var doneClosed: bool
    var panicked: bool
    ghost var running: set<nat>
    ghost var admitted: nat

    ghost function View(): Handler
      reads this
    {
      Handler(active, draining, doneClosed, running, admitted, panicked)
    }

    constructor ()
      ensures View() == FRESH && Inv(View())
    {
      active, draining, doneClosed, panicked := 0, false, false, false;
      running, admitted := {}, 0;
    }

    method Close()
      modifies this`doneClosed, this`panicked
      ensures View() == CloseDone(old(View()))
    {
      if doneClosed { panicked := true; } else { doneClosed := true; }
    }

    // The locked part of ServeHTTP.
    method EnterRequest() returns (ok: bool, ghost r: nat)
      requires Inv(View())
      modifies this
      ensures View() == Do(old(View()), Enter) && Inv(View())
      ensures ok == !draining && (ok ==> r !in old(running) && running == old(running) + {r})
    {
      StepInv(View(), Enter);
      r := admitted;
      if draining { return false, r; }
      active := active + 1;
      running, admitted := running + {r}, admitted + 1;
      ok := true;
    }

    method Begin() returns (alreadyDone: bool)
      requires Inv(View())
      modifies this
      ensures View() == Do(old(View()), BeginDrain) && Inv(View())
      ensures draining && (alreadyDone <==> running == {})
    {
      StepInv(View(), BeginDrain);
      if !draining {
        draining := true;
        if active == 0 { Close(); }
      }
      alreadyDone := doneClosed;
    }

    method Release(ghost r: nat)
      requires Inv(View()) && r in running
      modifies this
      ensures View() == Do(old(View()), Leave(r)) && Inv(View())
      ensures doneClosed <==> draining && running == {}
    {
      StepInv(View(), Leave(r));
      active := active - 1;
      running := running - {r};
      if draining && active == 0 { Close(); }
    }
  }
}
