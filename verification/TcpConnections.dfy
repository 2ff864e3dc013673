// What each step of the server of internal/proxy/tcp.go does to the connections, and what a
// Shutdown has closed once it starts to wait.

module TcpConnections {
  import opened Options
  import opened Tcp

  predicate IsOpen(s: Server, c: ConnId) {
    c.h < |s.handlers| && if c.ClientOf? then s.handlers[c.h].clientOpen else s.handlers[c.h].backendOpen
  }

  // Steps ---------------------------------------------------------------------------------------

  // A client comes open to its handler; a backend is opened by a dial that succeeds.
  predicate Opens(s: Server, l: Label, c: ConnId) {
    if c.ClientOf? then l.Tracks? && !s.closing && c.h == |s.handlers| else l == Dials(c.h, true)
  }

  predicate Closes(l: Label, c: ConnId) {
    || l == CopyEnds(c.h)
    || (l.ShutdownCloses? && l.c == c)
    || (c.ClientOf? && l == ClosesClient(c.h))
    || (c.BackendOf? && (l == ClosesBackend(c.h) || l == DropsBackend(c.h)))
  }

  // A connection is tracked from the step that hands it over, if the server is not closing.
  predicate Enters(s: Server, l: Label, c: ConnId) {
    !s.closing && if c.ClientOf? then l.Tracks? && c.h == |s.handlers| else l == TracksBackend(c.h)
  }

  predicate Forgets(l: Label, c: ConnId) {
    if c.ClientOf? then l == RemovesClient(c.h) else l == RemovesBackend(c.h)
  }

  lemma OpenStep(s: Server, l: Label, c: ConnId)
    requires Enabled(s, l)
    ensures IsOpen(Do(s, l), c) <==> (IsOpen(s, c) || Opens(s, l, c)) && !Closes(l, c)
  {
    hide OnHandler, OnTracks, Close;
    if ByHandler(l) && !l.TracksBackend? {
      HandlerOpenStep(s, l, c);
    } else if l.ShutdownCloses? {
      CloseStep(s, l.k, l.c, c);
    } else if l.Tracks? {
      TrackStep(s, l.v, c);
    }
  }

  lemma TrackStep(s: Server, v: nat, c: ConnId)
    requires Enabled(s, Tracks(v))
    ensures IsOpen(OnTracks(s, v), c) <==> IsOpen(s, c) || Opens(s, Tracks(v), c)
  {}

  lemma CloseStep(s: Server, k: nat, closed: ConnId, c: ConnId)
    requires Enabled(s, ShutdownCloses(k, closed))
    ensures IsOpen(Do(s, ShutdownCloses(k, closed)), c) <==> IsOpen(s, c) && c != closed
  {}

  lemma HandlerOpenStep(s: Server, l: Label, c: ConnId)
    requires Enabled(s, l) && ByHandler(l) && !l.TracksBackend?
    ensures IsOpen(OnHandler(s, l), c) <==> (IsOpen(s, c) || Opens(s, l, c)) && !Closes(l, c)
  {
    if c.ClientOf? { HandlerOpensNoClient(s, l, c.h); }
  }

  lemma HandlerOpensNoClient(s: Server, l: Label, h: nat)
    requires Enabled(s, l) && ByHandler(l) && !l.TracksBackend?
    ensures IsOpen(OnHandler(s, l), ClientOf(h)) <==> IsOpen(s, ClientOf(h)) && !Closes(l, ClientOf(h))
  {}

  lemma TrackedStep(s: Server, l: Label, c: ConnId)
    requires Enabled(s, l)
    ensures c in Do(s, l).conns <==> (c in s.conns || Enters(s, l, c)) && !Forgets(l, c)
  {
    if ByHandler(l) && !l.TracksBackend? { HandlerTrackedStep(s, l, c); }
  }

  lemma HandlerTrackedStep(s: Server, l: Label, c: ConnId)
    requires Enabled(s, l) && ByHandler(l) && !l.TracksBackend?
    ensures c in OnHandler(s, l).conns <==> c in s.conns && !Forgets(l, c)
  {}

  // The order of the lines of `handle`.
  predicate NextLine(s: Server, pc: HandlerPc, l: Label, next: HandlerPc) {
    match l
    case Granted(_, _) => pc == Acquiring && next == Dialing
    case Unavailable(_) => pc == Acquiring && next == ClosingClient
    case Dials(_, ok) => pc == Dialing && next == if ok then Tracking else Releasing
    case TracksBackend(_) => pc == Tracking && next == if s.closing then Dropping else Copying
    case DropsBackend(_) => pc == Dropping && next == Releasing
    case CopyEnds(_) => pc == Copying && next == ClosingBackend
    case ClosesBackend(_) => pc == ClosingBackend && next == RemovingBackend
    case RemovesBackend(_) => pc == RemovingBackend && next == Releasing
    case Releases(_) => pc == Releasing && next == ClosingClient
    case ClosesClient(_) => pc == ClosingClient && next == RemovingClient
    case RemovesClient(_) => pc == RemovingClient && next == Leaving
    case Leaves(_) => pc == Leaving && next == Left
    case _ => false
  }

  lemma HandlerMoves(s: Server, l: Label)
    requires Enabled(s, l) && ByHandler(l)
    ensures |Do(s, l).handlers| == |s.handlers|
    ensures NextLine(s, s.handlers[l.h].pc, l, Do(s, l).handlers[l.h].pc)
  {
    if !l.TracksBackend? { HandlerLine(s, l); }
  }

  lemma HandlerLine(s: Server, l: Label)
    requires Enabled(s, l) && ByHandler(l) && !l.TracksBackend?
    ensures |OnHandler(s, l).handlers| == |s.handlers|
    ensures NextLine(s, s.handlers[l.h].pc, l, OnHandler(s, l).handlers[l.h].pc)
  {}

  lemma HandlerStays(s: Server, l: Label, h: nat)
    requires Enabled(s, l) && h < |s.handlers| && !(ByHandler(l) && l.h == h)
    ensures h < |Do(s, l).handlers| && Do(s, l).handlers[h].pc == s.handlers[h].pc
  {
    if ByHandler(l) && !l.TracksBackend? { HandlerMovesAlone(s, l, h); }
  }

  lemma HandlerMovesAlone(s: Server, l: Label, h: nat)
    requires Enabled(s, l) && h < |s.handlers| && ByHandler(l) && !l.TracksBackend? && l.h != h
    ensures h < |OnHandler(s, l).handlers| && OnHandler(s, l).handlers[h].pc == s.handlers[h].pc
  {}

  // What is open is tracked ---------------------------------------------------------------------

  // Every open connection is tracked, but for a backend that is about to be offered to `track` or
  // was refused by it; when the first copy has ended both ends are closed.
  predicate HeldInv(s: Server, h: nat, k: Handler) {
    && (k.clientOpen ==> ClientOf(h) in s.conns)
    && (k.backendOpen ==> BackendOf(h) in s.conns || k.pc == Tracking || k.pc == Dropping)
    && (k.pc == ClosingBackend || k.pc == RemovingBackend ==> !k.clientOpen && !k.backendOpen)
  }

  ghost predicate AllHeld(s: Server) {
    forall h: nat :: h < |s.handlers| ==> HeldInv(s, h, s.handlers[h])
  }

  lemma HeldStep(s: Server, l: Label)
    requires Inv(s) && Enabled(s, l) && AllHeld(s)
    ensures AllHeld(Do(s, l))
  {
    hide Do, Inv;
    var s' := Do(s, l);
    forall h: nat | h < |s'.handlers| ensures HeldInv(s', h, s'.handlers[h]) {
      OpenStep(s, l, ClientOf(h));
      OpenStep(s, l, BackendOf(h));
      TrackedStep(s, l, ClientOf(h));
      TrackedStep(s, l, BackendOf(h));
      if h < |s.handlers| {
        HandlerHas(s, h);
        if ByHandler(l) && l.h == h { HandlerMoves(s, l); } else { HandlerStays(s, l, h); }
      } else {
        NewHandler(s, l, h);
      }
    }
  }

  lemma HandlerHas(s: Server, h: nat)
    requires Inv(s) && h < |s.handlers|
    ensures HandlerInv(s, h, s.handlers[h])
  {}

  lemma NewHandler(s: Server, l: Label, h: nat)
    requires Enabled(s, l) && |s.handlers| <= h < |Do(s, l).handlers|
    ensures l.Tracks? && !s.closing && h == |s.handlers|
    ensures Do(s, l).handlers[h] == Handler(Acquiring, None, true, false)
  {
    if ByHandler(l) { HandlerMoves(s, l); }
  }

  lemma {:induction false} RunHeld(ss: seq<Server>, ls: seq<Label>, i: nat)
    requires IsRun(ss, ls) && i < |ss|
    ensures AllHeld(ss[i])
  {
    hide Do;
    if i > 0 {
      RunInv(ss, ls, i - 1);
      RunHeld(ss, ls, i - 1);
      assert Enabled(ss[i - 1], ls[i - 1]);
      HeldStep(ss[i - 1], ls[i - 1]);
    }
  }

  // What a Shutdown closes ----------------------------------------------------------------------

  function ToClose(pc: ShutdownPc): set<ConnId> {
    match pc
    case ClosingListener(_, list) => list
    case ClosingConns(list) => list
    case _ => {}
  }

  // It cannot be opened again.
  predicate Dialled(s: Server, c: ConnId) {
    c.h < |s.handlers| && (c.BackendOf? ==>
      s.handlers[c.h].pc != Acquiring && s.handlers[c.h].pc != Dialing &&
      s.handlers[c.h].pc != Tracking && s.handlers[c.h].pc != Dropping)
  }

  // Of these connections the Shutdown has closed all that it does not still have to.
  predicate Closing(s: Server, k: nat, snapshot: set<ConnId>) {
    k in s.shutdowns && forall c :: c in snapshot ==> Dialled(s, c) && (IsOpen(s, c) ==> c in ToClose(s.shutdowns[k]))
  }

  lemma ToCloseStep(s: Server, l: Label, k: nat)
    requires Enabled(s, l) && k in s.shutdowns
    ensures k in Do(s, l).shutdowns
    ensures forall c :: c in ToClose(s.shutdowns[k]) && l != ShutdownCloses(k, c) ==>
              c in ToClose(Do(s, l).shutdowns[k])
  {
    if ByHandler(l) { HandlerShutsNothing(s, l); }
  }

  lemma HandlerShutsNothing(s: Server, l: Label)
    requires Enabled(s, l) && ByHandler(l)
    ensures Do(s, l).shutdowns == s.shutdowns
  {
    if !l.TracksBackend? { OnHandlerShutsNothing(s, l); }
  }

  lemma OnHandlerShutsNothing(s: Server, l: Label)
    requires Enabled(s, l) && ByHandler(l) && !l.TracksBackend?
    ensures OnHandler(s, l).shutdowns == s.shutdowns
  {}

  lemma ClosingStep(s: Server, l: Label, k: nat, snapshot: set<ConnId>)
    requires Enabled(s, l) && Closing(s, k, snapshot)
    ensures Closing(Do(s, l), k, snapshot)
  {
    hide Do;
    ToCloseStep(s, l, k);
    forall c | c in snapshot
      ensures Dialled(Do(s, l), c) && (IsOpen(Do(s, l), c) ==> c in ToClose(Do(s, l).shutdowns[k]))
    {
      OpenStep(s, l, c);
      if ByHandler(l) && l.h == c.h { HandlerMoves(s, l); } else { HandlerStays(s, l, c.h); }
    }
  }

  lemma SnapshotTaken(s: Server, k: nat)
    requires Inv(s) && Enabled(s, ShutdownBegins(k))
    ensures Closing(Do(s, ShutdownBegins(k)), k, s.conns)
  {
    forall c | c in s.conns ensures Dialled(s, c) { HandlerHas(s, c.h); }
  }

  lemma {:induction false} ClosingInRun(ss: seq<Server>, ls: seq<Label>, i: nat, j: nat, k: nat)
    requires IsRun(ss, ls) && i < j < |ss| && ls[i] == ShutdownBegins(k)
    ensures Closing(ss[j], k, ss[i].conns)
  {
    hide Do, Inv, Closing;
    assert Enabled(ss[j - 1], ls[j - 1]);
    if j == i + 1 {
      RunInv(ss, ls, i);
      SnapshotTaken(ss[i], k);
    } else {
      ClosingInRun(ss, ls, i, j - 1, k);
      ClosingStep(ss[j - 1], ls[j - 1], k, ss[i].conns);
    }
  }

  lemma {:induction false} WaitingStays(ss: seq<Server>, ls: seq<Label>, m: nat, j: nat, k: nat)
    requires IsRun(ss, ls) && m < j < |ss| && ls[m] == ShutdownWaits(k)
    ensures k in ss[j].shutdowns && (ss[j].shutdowns[k] == Waiting || ss[j].shutdowns[k].Finished?)
  {
    hide Do;
    assert Enabled(ss[j - 1], ls[j - 1]);
    if j == m + 1 {
      WaitingStep(ss[m], ls[m], k);
    } else {
      WaitingStays(ss, ls, m, j - 1, k);
      WaitingStep(ss[j - 1], ls[j - 1], k);
    }
  }

  lemma WaitingStep(s: Server, l: Label, k: nat)
    requires Enabled(s, l)
    requires l == ShutdownWaits(k) || (k in s.shutdowns && (s.shutdowns[k] == Waiting || s.shutdowns[k].Finished?))
    ensures k in Do(s, l).shutdowns && (Do(s, l).shutdowns[k] == Waiting || Do(s, l).shutdowns[k].Finished?)
  {
    if ByHandler(l) { HandlerShutsNothing(s, l); }
  }

  predicate OpenIfRefused(k: Handler) { !k.clientOpen && (k.backendOpen ==> k.pc == Tracking || k.pc == Dropping) }

  // From the step at which a Shutdown starts to wait, every connection that was tracked when it
  // began is closed, by it or by its handler; so every client is, and the only backends still
  // open are those about to be refused by `track` or already refused.
  lemma ShutdownClosesSnapshot(ss: seq<Server>, ls: seq<Label>, i: nat, m: nat, j: nat, k: nat)
    requires IsRun(ss, ls) && i < m < j < |ss| && ls[i] == ShutdownBegins(k) && ls[m] == ShutdownWaits(k)
    ensures forall c :: c in ss[i].conns ==> !IsOpen(ss[j], c)
    ensures forall h: nat :: h < |ss[j].handlers| ==> OpenIfRefused(ss[j].handlers[h])
  {
    hide Do, Inv;
    ClosingInRun(ss, ls, i, j, k);
    WaitingStays(ss, ls, m, j, k);
    RunHeld(ss, ls, j);
    TrackedOnlyBefore(ss, ls, i, j, k);
    forall h: nat | h < |ss[j].handlers| ensures OpenIfRefused(ss[j].handlers[h]) {
      assert HeldInv(ss[j], h, ss[j].handlers[h]);
      assert IsOpen(ss[j], ClientOf(h)) <==> ss[j].handlers[h].clientOpen;
      assert IsOpen(ss[j], BackendOf(h)) <==> ss[j].handlers[h].backendOpen;
    }
  }

  // Once it has begun nothing more is tracked.
  lemma {:induction false} TrackedOnlyBefore(ss: seq<Server>, ls: seq<Label>, i: nat, j: nat, k: nat)
    requires IsRun(ss, ls) && i < j < |ss| && ls[i] == ShutdownBegins(k)
    ensures ss[j].closing && ss[j].conns <= ss[i].conns
  {
    hide Do, Inv;
    assert Enabled(ss[j - 1], ls[j - 1]);
    forall c | c in ss[j].conns ensures c in ss[j - 1].conns || (j > i + 1 && !ss[j - 1].closing) {
      TrackedStep(ss[j - 1], ls[j - 1], c);
    }
    if j == i + 1 {
      BeginSetsClosing(ss[i], k);
    } else {
      TrackedOnlyBefore(ss, ls, i, j - 1, k);
      RunInv(ss, ls, j - 1);
      Tcp.ClosingStep(ss[j - 1], ls[j - 1]);
    }
  }

  lemma BeginSetsClosing(s: Server, k: nat)
    requires Enabled(s, ShutdownBegins(k))
    ensures Do(s, ShutdownBegins(k)).closing
  {}

  // Copying -------------------------------------------------------------------------------------

  // A handler copies between a client and a backend only with a lease, after a dial that
  // succeeded, and with its backend tracked.
  predicate HandlerStory(h: nat, pc: HandlerPc, past: set<Label>) {
    match pc
    case Dialing => Leased(h, past)
    case Tracking => Leased(h, past) && Dials(h, true) in past
    case Dropping => Leased(h, past) && Dials(h, true) in past && TracksBackend(h) in past
    case Copying => Leased(h, past) && Dials(h, true) in past && TracksBackend(h) in past
    case ClosingBackend => CopyEnds(h) in past
    case RemovingBackend => CopyEnds(h) in past
    case _ => true
  }

  function Past(ls: seq<Label>, i: nat): set<Label>
    requires i <= |ls|
  {
    set l | l in ls[..i]
  }

  predicate Leased(h: nat, past: set<Label>) { exists l :: l in past && l.Granted? && l.h == h }

  lemma StoryMoves(s: Server, h: nat, pc: HandlerPc, l: Label, next: HandlerPc, past: set<Label>)
    requires ByHandler(l) && l.h == h && NextLine(s, pc, l, next) && HandlerStory(h, pc, past)
    ensures HandlerStory(h, next, past + {l})
  {
    if Leased(h, past) || l.Granted? { LeasedStays(h, l, past); }
  }

  lemma LeasedStays(h: nat, l: Label, past: set<Label>)
    requires Leased(h, past) || (l.Granted? && l.h == h)
    ensures Leased(h, past + {l})
  {
    if l.Granted? && l.h == h {
      assert l in past + {l};
    } else {
      var g :| g in past && g.Granted? && g.h == h;
      assert g in past + {l};
    }
  }

  lemma {:induction false} CopyingMeans(ss: seq<Server>, ls: seq<Label>, i: nat, h: nat)
    requires IsRun(ss, ls) && i < |ss| && h < |ss[i].handlers|
    ensures HandlerStory(h, ss[i].handlers[h].pc, Past(ls, i))
  {
    hide Do, HandlerStory;
    assert i > 0;
    var s, l := ss[i - 1], ls[i - 1];
    var past := Past(ls, i - 1);
    assert ls[..i] == ls[..i - 1] + [l];
    assert Past(ls, i) == past + {l};
    assert Enabled(s, l);
    if h < |s.handlers| {
      CopyingMeans(ss, ls, i - 1, h);
      if ByHandler(l) && l.h == h {
        HandlerMoves(s, l);
        StoryMoves(s, h, s.handlers[h].pc, l, ss[i].handlers[h].pc, past);
      } else {
        HandlerStays(s, l, h);
        StoryStays(h, s.handlers[h].pc, l, past);
      }
    } else {
      NewHandler(s, l, h);
      StoryBegins(h, past + {l});
    }
  }

  lemma StoryStays(h: nat, pc: HandlerPc, l: Label, past: set<Label>)
    requires HandlerStory(h, pc, past)
    ensures HandlerStory(h, pc, past + {l})
  {
    if Leased(h, past) { LeasedStays(h, l, past); }
  }

  lemma StoryBegins(h: nat, past: set<Label>)
    ensures HandlerStory(h, Acquiring, past)
  {}
}
