/**
  Play requests: a track other than the room is asked for at most once between two notices that it is gone, never while
  its peer connection is up, and the own stream not at all.
 */
module PlayRequests {
  import opened Wrappers
  import opened Traces
  import opened Signaling
  import opened Conference
  import opened SteadyRuns

  // ---- single tracks

  datatype Asked = Free | Requested | Redundant

  /** A `play` for the track while one is outstanding is redundant; the notices that it is gone end the outstanding one. */
  ghost function AskStep(k: string): (Asked, Entry) -> Asked {
    (a: Asked, e: Entry) =>
      if a.Redundant? then Redundant
      else if e.Sent? && e.command.Play? && e.command.stream == k then (if a.Free? then Requested else Redundant)
      else if e == In(SubtrackRemoved(k)) || e == In(PlayFinished(k)) then Free
      else a
  }

  ghost function AskedFor(s: State, k: string): Asked {
    Fold(s.trace, Free, AskStep(k))
  }

  /** The flag kept for a track says exactly whether a request for it is outstanding. */
  ghost predicate Flagged(s: State, k: string) {
    && AskedFor(s, k) == (if k in s.requests.sendPlay then Requested else Free)
    && (k in s.requests.sendPlay ==> s.requests.sendPlay[k])
  }

  predicate Aside(e: Entry, k: string) {
    && !(e.Sent? && e.command.Play? && e.command.stream == k)
    && e != In(SubtrackRemoved(k)) && e != In(PlayFinished(k))
  }

  lemma AsideFlagged(s: State, s': State, u: seq<Entry>, k: string)
    requires s'.trace == s.trace + u && forall i :: 0 <= i < |u| ==> Aside(u[i], k)
    requires k in s'.requests.sendPlay <==> k in s.requests.sendPlay
    requires k in s'.requests.sendPlay ==> s'.requests.sendPlay[k] == s.requests.sendPlay[k]
    ensures Flagged(s, k) ==> Flagged(s', k)
  {
    hide Fold;
    FoldAppend(s.trace, u, Free, AskStep(k));
    FoldStays(u, AskedFor(s, k), AskStep(k));
  }

  /** What a notice does to the flag of a track that is not the room. */
  lemma FlagsAfter(s: State, n: Notice, k: string)
    requires k != s.setup.roomId && k != ""
    ensures var f, f' := s.requests.sendPlay, Handle(s, n).requests.sendPlay;
            if n == SubtrackRemoved(k) || n == PlayFinished(k) then k !in f'
            else if n == SubtrackAdded(k) && Wanted(s, k) then k in f' && f'[k]
            else (k in f' <==> k in f) && (k in f ==> f'[k] == f[k])
  {
    hide HandleRemoteSdp, AddRemoteCandidate, OfferTo, Wire, CloseChannel, ClosePeer;
    QuietRequests(s, n);
  }

  /** Descriptions, candidates and starts ask for nothing. */
  lemma QuietRequests(s: State, n: Notice)
    ensures n.RemoteSdp? || n.RemoteCandidate? || n.StartOffer? ==> Handle(s, n).requests == s.requests
  {
    hide SdpCalls, Make, Making, NoteTypes, OfferedTracks;
  }

  /** What a notice is answered with that matters to a track that is not the room. */
  lemma RepliesAbout(s: State, n: Notice, k: string)
    requires s.Online() && k != ClientRoom(s)
    ensures var u := Reply(s, n);
            if n == SubtrackAdded(k) && Wanted(s, k) then u == [Sent(Play(ClientRoom(s), k))]
            else forall i :: 0 <= i < |u| ==> Aside(u[i], k)
  {
    hide SdpCalls, Ending, Making;
    match n
    case RemoteSdp(k, kind, sdp, media) => SdpReplyIs(s, k, kind, sdp, media);
    case PlayFinished(k) => EndingIs(s, k);
    case _ =>
  }

  lemma NoticeFlagged(s: State, n: Notice, k: string)
    requires Aligned(s) && s.Online() && k != s.setup.roomId && k != ""
    ensures Flagged(s, k) ==> Flagged(Handle(s, n), k)
  {
    hide Fold, Handle, FreshSessions.Tidy, Reply;
    var s' := Handle(s, n);
    var u := Reply(s, n);
    HandleReplies(s, n);
    FlagsAfter(s, n, k);
    RepliesAbout(s, n, k);
    if n == SubtrackRemoved(k) || n == PlayFinished(k) {
      FoldAppend(s.trace, [In(n)] + u, Free, AskStep(k));
      FoldAppend([In(n)], u, AskedFor(s, k), AskStep(k));
      FoldOne(In(n), AskedFor(s, k), AskStep(k));
      FoldStays(u, AskStep(k)(AskedFor(s, k), In(n)), AskStep(k));
    } else if n == SubtrackAdded(k) && Wanted(s, k) {
      FoldAppend(s.trace, [In(n)] + u, Free, AskStep(k));
      FoldAppend([In(n)], u, AskedFor(s, k), AskStep(k));
      FoldOne(In(n), AskedFor(s, k), AskStep(k));
      FoldOne(u[0], AskedFor(s, k), AskStep(k));
    } else {
      AsideFlagged(s, s', [In(n)] + u, k);
    }
  }

  lemma EmptyFlagged(s: State, k: string)
    requires s.trace == [] && s.requests == NO_REQUESTS
    ensures Flagged(s, k)
  {
  }

  lemma MinorFlagged(s: State, e: Event, k: string)
    requires IsMinor(e)
    ensures Flagged(s, k) ==> Flagged(Step(s, e), k)
  {
    hide Step, Fold, Flagged;
    MinorStep(s, e);
    var s' := Step(s, e);
    assert s'.trace == s.trace + s'.trace[|s.trace|..];
    AsideFlagged(s, s', s'.trace[|s.trace|..], k);
  }

  lemma StartFlagged(s: State, isPlayer: bool, k: string)
    ensures Flagged(s, k) ==> Flagged(Begin(s, isPlayer), k)
  {
    hide Begin, Fold, Flagged;
    var u := BeginReplies(s, isPlayer);
    BeginRequestsNothing(s, isPlayer);
    AsideFlagged(s, Begin(s, isPlayer), u, k);
  }

  lemma OpenFlagged(s: State, k: string)
    requires s.context.Some?
    ensures Flagged(s, k) ==> Flagged(OnOpened(s), k)
  {
    hide OnOpened, Fold, Flagged;
    var u := OpenReplies(s);
    OpenRequestsNothing(s);
    AsideFlagged(s, OnOpened(s), u, k);
  }

  lemma {:induction false} StepFlagged(s: State, e: Event, k: string)
    requires Aligned(s) && Steady(s, e) && k != Step(s, e).setup.roomId && k != ""
    requires s.setup.communicating ==> Flagged(s, k)
    ensures Flagged(Step(s, e), k)
  {
    hide Fold, Handle, Begin, OnOpened, Flagged, Decode, Farewell, Closings, Hangup;
    if !s.setup.communicating { EmptyFlagged(s, k); }
    if IsMinor(e) {
      MinorFlagged(s, e, k);
    } else if Occurs(s, e) {
      match e
      case Start(isPlayer, connects, order) =>
        if Starts(s) {
          if connects { StartFlagged(s, isPlayer, k); } else { EmptyFlagged(Step(s, e), k); }
        }
      case Stop(order) => if s.setup.communicating { EmptyFlagged(Step(s, e), k); }
      case WsOpened => OpenFlagged(s, k);
      case Received(message) =>
        HandlingKeepsSetup(s, Decode(message));
        NoticeFlagged(s, Decode(message), k);
    }
  }

  lemma BeginRequestsNothing(s: State, isPlayer: bool)
    ensures Begin(s, isPlayer).requests == s.requests && Begin(s, isPlayer).setup.roomId == s.setup.roomId
  {
  }

  lemma OpenRequestsNothing(s: State)
    requires s.context.Some?
    ensures OnOpened(s).requests == s.requests && OnOpened(s).setup.roomId == s.setup.roomId
  {
  }

  /** In every steady run a track other than the room has at most one request outstanding, and the flag knows. */
  lemma {:induction false} NoRedundantPlay(es: seq<Event>, k: string)
    requires SteadyRun(es) && k != "" && k != Run(New(), es).setup.roomId
    ensures Flagged(Run(New(), es), k)
  {
    if es == [] {
      EmptyFlagged(New(), k);
    } else {
      hide Step, Steady, Flagged, Aligned;
      var s, e := Run(New(), es[..|es| - 1]), es[|es| - 1];
      SteadyPrefix(es);
      SteadyRunIsAligned(es[..|es| - 1]);
      if s.setup.communicating {
        RoomStays(s, e);
        NoRedundantPlay(es[..|es| - 1], k);
      }
      StepFlagged(s, e, k);
    }
  }

  lemma RoomStays(s: State, e: Event)
    requires s.setup.communicating && Steady(s, e)
    ensures Step(s, e).setup.roomId == s.setup.roomId
  {
    hide Handle, Begin, OnOpened;
    match e
    case Received(message) => if Occurs(s, e) { HandlingKeepsSetup(s, Decode(message)); }
    case WsOpened => if Occurs(s, e) { OpenRequestsNothing(s); }
    case _ =>
  }

  predicate Asks(e: Entry, k: string) {
    e.Sent? && e.command.Play? && e.command.stream == k
  }

  predicate Frees(e: Entry, k: string) {
    e == In(SubtrackRemoved(k)) || e == In(PlayFinished(k))
  }

  /** Between two requests in a trace without a redundant one, the track was reported gone. */
  lemma {:induction false} AsksAreSeparated(t: seq<Entry>, k: string, i: nat, j: nat)
    requires Fold(t, Free, AskStep(k)) != Redundant
    requires i < j < |t| && Asks(t[i], k) && Asks(t[j], k)
    ensures exists m :: i < m < j && Frees(t[m], k)
  {
    var front := t[..|t| - 1];
    if j < |t| - 1 {
      AsksAreSeparated(front, k, i, j);
      var m :| i < m < j && Frees(front[m], k);
      assert Frees(t[m], k);
    } else {
      var m := OutstandingUnlessFreed(front, k, i);
      assert Frees(t[m], k);
    }
  }

  lemma {:induction false} OutstandingUnlessFreed(t: seq<Entry>, k: string, i: nat) returns (m: nat)
    requires Fold(t, Free, AskStep(k)) == Free
    requires i < |t| && Asks(t[i], k)
    ensures i < m < |t| && Frees(t[m], k)
  {
    var front := t[..|t| - 1];
    if Frees(t[|t| - 1], k) {
      m := |t| - 1;
    } else {
      m := OutstandingUnlessFreed(front, k, i);
    }
  }

  /** In every steady run, between two `play` commands for a track other than the room the track was reported gone. */
  lemma {:induction false} TwoPlaysAreSeparated(es: seq<Event>, k: string, i: nat, j: nat)
    requires SteadyRun(es) && k != "" && k != Run(New(), es).setup.roomId
    requires i < j < |Run(New(), es).trace| && Asks(Run(New(), es).trace[i], k) && Asks(Run(New(), es).trace[j], k)
    ensures exists m :: i < m < j && Frees(Run(New(), es).trace[m], k)
  {
    hide Run, Step, Fold;
    NoRedundantPlay(es, k);
    AsksAreSeparated(Run(New(), es).trace, k, i, j);
  }

  /**
    Only a message makes the manager ask for a track other than the room; the track has a name, is not the own stream,
    and its peer connection is absent or closed at that moment.
   */
  lemma {:induction false} PlayIsJustified(s: State, e: Event, j: nat, k: string)
    requires Aligned(s) && k != s.setup.roomId
    requires |s.trace| <= j < |Step(s, e).trace| && Asks(Step(s, e).trace[j], k)
    ensures e.Received? && k != "" && k != s.setup.publishStreamId
    ensures k !in s.peers.pcs || k in s.peers.closed
  {
    hide Handle, Begin, OnOpened, SdpCalls;
    if IsMinor(e) {
      MinorStep(s, e);
    } else if Occurs(s, e) {
      match e
      case Start(isPlayer, _, _) => if Starts(s) { var u := BeginReplies(s, isPlayer); }
      case Stop(_) =>
      case WsOpened => var u := OpenReplies(s);
      case Received(message) =>
        var n := Decode(message);
        HandleReplies(s, n);
        RepliesAbout(s, n, k);
        var u := [In(n)] + Reply(s, n);
        assert Step(s, e).trace[j] == u[j - |s.trace|];
    }
  }

  /** An event adds to the session's trace, or ends the session and its trace with it. */
  lemma {:induction false} StepExtends(s: State, e: Event)
    ensures Step(s, e).trace == [] || s.trace <= Step(s, e).trace
  {
    hide Handle, Begin, OnOpened, Decode;
    if IsMinor(e) {
      MinorStep(s, e);
    } else if Occurs(s, e) {
      match e
      case Start(isPlayer, _, _) => var u := BeginReplies(s, isPlayer);
      case Stop(_) =>
      case WsOpened => var u := OpenReplies(s);
      case Received(message) => HandleReplies(s, Decode(message));
    }
  }

  /** The event of a run that made the manager ask for a track, and the state it met. */
  ghost predicate AskedAt(es: seq<Event>, i: nat, j: nat, k: string) {
    && i < |es| && es[i].Received?
    && var s, t := Run(New(), es[..i]), Run(New(), es[..i + 1]).trace;
    && |s.trace| <= j < |t| && Asks(t[j], k)
    && k != "" && k != s.setup.publishStreamId
    && (k !in s.peers.pcs || k in s.peers.closed)
  }

  lemma AskedBefore(es: seq<Event>, i: nat, j: nat, k: string)
    requires es != [] && AskedAt(es[..|es| - 1], i, j, k)
    ensures AskedAt(es, i, j, k)
  {
    hide Run, Asks;
    var front := es[..|es| - 1];
    assert front[..i] == es[..i] && front[..i + 1] == es[..i + 1] && front[i] == es[i];
  }

  lemma AskedLast(es: seq<Event>, j: nat, k: string)
    requires es != []
    requires var s, e := Run(New(), es[..|es| - 1]), es[|es| - 1];
             && Aligned(s) && s.setup.communicating && Steady(s, e) && k != Run(New(), es).setup.roomId
             && |s.trace| <= j < |Run(New(), es).trace| && Asks(Run(New(), es).trace[j], k)
    ensures AskedAt(es, |es| - 1, j, k)
  {
    var s, e := Run(New(), es[..|es| - 1]), es[|es| - 1];
    assert Run(New(), es) == Step(s, e);
    hide Run, Asks, Step, Aligned;
    RoomStays(s, e);
    PlayIsJustified(s, e, j, k);
    assert es[..|es| - 1 + 1] == es;
  }

  /** In every steady run each `play` for a track other than the room is justified by the state in which it was sent. */
  lemma {:induction false} EveryPlayIsJustified(es: seq<Event>, j: nat, k: string) returns (i: nat)
    requires SteadyRun(es) && k != Run(New(), es).setup.roomId
    requires j < |Run(New(), es).trace| && Asks(Run(New(), es).trace[j], k)
    ensures AskedAt(es, i, j, k)
  {
    assert es != [];
    hide Step, Steady, Aligned, AskedAt, Asks;
    var front, e := es[..|es| - 1], es[|es| - 1];
    var s := Run(New(), front);
    SteadyPrefix(es);
    SteadyRunIsAligned(front);
    StepExtends(s, e);
    if j < |s.trace| {
      InSession(s);
      RoomStays(s, e);
      i := EveryPlayIsJustified(front, j, k);
      AskedBefore(es, i, j, k);
    } else if s.setup.communicating {
      AskedLast(es, j, k);
      i := |front|;
    } else {
      IdleAsksNothing(s, e);
      assert false;
    }
  }

  lemma InSession(s: State)
    requires Aligned(s) && s.trace != []
    ensures s.setup.communicating
  {
  }

  /** Outside a session only a start adds to the trace, and it asks for nothing. */
  lemma IdleAsksNothing(s: State, e: Event)
    requires Aligned(s) && !s.setup.communicating
    ensures forall i, k :: 0 <= i < |Step(s, e).trace| ==> !Asks(Step(s, e).trace[i], k)
  {
    hide Handle, Begin, OnOpened, Decode;
    if IsMinor(e) {
      FreshSessions.TidyMinor(s, e);
      MinorStep(s, e);
    } else if e.Start? {
      var u := BeginReplies(s, e.isPlayer);
    }
  }

  /** And so the own stream, when it is not the room, is never asked for in a steady run. */
  lemma {:induction false} OwnStreamIsNeverPlayed(es: seq<Event>, j: nat)
    requires SteadyRun(es) && j < |Run(New(), es).trace|
    requires Run(New(), es).setup.publishStreamId != Run(New(), es).setup.roomId
    ensures !Asks(Run(New(), es).trace[j], Run(New(), es).setup.publishStreamId)
  {
    assert es != [];
    hide Step, Steady, Aligned;
    var front, e := es[..|es| - 1], es[|es| - 1];
    var s := Run(New(), front);
    SteadyPrefix(es);
    SteadyRunIsAligned(front);
    StepExtends(s, e);
    if s.setup.communicating {
      RoomStays(s, e);
      OwnStays(s, e);
      if j < |s.trace| {
        OwnStreamIsNeverPlayed(front, j);
      } else if Asks(Run(New(), es).trace[j], s.setup.publishStreamId) {
        PlayIsJustified(s, e, j, s.setup.publishStreamId);
      }
    } else {
      IdleAsksNothing(s, e);
    }
  }

  lemma OwnStays(s: State, e: Event)
    requires s.setup.communicating && Steady(s, e)
    ensures Step(s, e).setup.publishStreamId == s.setup.publishStreamId
  {
    hide Handle, Decode;
    match e
    case Received(message) => if Occurs(s, e) { HandlingKeepsSetup(s, Decode(message)); }
    case _ =>
  }
}
