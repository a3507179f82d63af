/** The room is asked for exactly as often as its playing ends, and once more if its publishing starts before that. */
module RoomPlay {
  import opened Wrappers
  import opened Traces
  import opened Signaling
  import opened Conference
  import opened SteadyRuns
  import opened PlayRequests
  import FreshSessions

  /** `play` commands for the room, ends of its playing, and whether publishing started before the first of them. */
  datatype Tally = Tally(plays: nat, finishes: nat, early: bool)

  ghost function Count(room: string): (Tally, Entry) -> Tally {
    (t: Tally, e: Entry) =>
      if e.Sent? && e.command.Play? && e.command.stream == room then t.(plays := t.plays + 1)
      else if e == In(PlayFinished(room)) then t.(finishes := t.finishes + 1)
      else if e == In(PublishStarted) then t.(early := t.early || t.finishes == 0)
      else t
  }

  ghost function TallyOf(s: State): Tally {
    Fold(s.trace, Tally(0, 0, false), Count(s.setup.roomId))
  }

  /** A subtrack notification that names the room. */
  predicate NamesRoom(e: Entry, room: string) {
    e == In(SubtrackAdded(room)) || e == In(SubtrackRemoved(room))
  }

  ghost predicate RoomUnnamed(s: State) {
    forall i :: 0 <= i < |s.trace| ==> !NamesRoom(s.trace[i], s.setup.roomId)
  }

  ghost predicate Balanced(s: State) {
    var t := TallyOf(s);
    && t.plays == t.finishes + (if t.early then 1 else 0)
    && (s.setup.roomId in s.requests.sendPlay <==> t.plays > 0)
  }

  predicate Uncounted(e: Entry, room: string) {
    !Asks(e, room) && e != In(PlayFinished(room)) && e != In(PublishStarted)
  }

  lemma UncountedBalanced(s: State, s': State, u: seq<Entry>)
    requires s'.trace == s.trace + u && s'.setup.roomId == s.setup.roomId
    requires forall i :: 0 <= i < |u| ==> Uncounted(u[i], s.setup.roomId)
    requires s.setup.roomId in s'.requests.sendPlay <==> s.setup.roomId in s.requests.sendPlay
    ensures Balanced(s) ==> Balanced(s')
  {
    hide Fold;
    FoldAppend(s.trace, u, Tally(0, 0, false), Count(s.setup.roomId));
    FoldStays(u, TallyOf(s), Count(s.setup.roomId));
  }

  /** The room's flag after a notice that is not a subtrack notification for the room. */
  lemma RoomFlagAfter(s: State, n: Notice)
    requires s.setup.roomId != "" && !NamesRoom(In(n), s.setup.roomId)
    ensures var room := s.setup.roomId;
            room in Handle(s, n).requests.sendPlay <==>
            n == PublishStarted || n == PlayFinished(room) || room in s.requests.sendPlay
  {
    hide SdpCalls;
  }

  /** What a notice is answered with, as far as the room is concerned. */
  lemma RoomReplies(s: State, n: Notice)
    requires s.Online() && ClientRoom(s) == s.setup.roomId && s.setup.roomId != ""
    requires !NamesRoom(In(n), s.setup.roomId)
    ensures var u, room := Reply(s, n), s.setup.roomId;
            if n == PlayFinished(room) then
              |u| > 0 && Asks(u[|u| - 1], room) && forall i :: 0 <= i < |u| - 1 ==> Uncounted(u[i], room)
            else if n == PublishStarted && room !in s.requests.sendPlay then u == [Sent(Play(room, room))]
            else forall i :: 0 <= i < |u| ==> Uncounted(u[i], room)
  {
    hide SdpCalls, Ending, Making;
    match n
    case RemoteSdp(k, kind, sdp, media) => SdpReplyIs(s, k, kind, sdp, media);
    case PlayFinished(k) => EndingIs(s, k);
    case _ =>
  }

  lemma FinishedBalanced(s: State, n: Notice)
    requires s.Online() && ClientRoom(s) == s.setup.roomId && s.setup.roomId != ""
    requires n == PlayFinished(s.setup.roomId) || (n == PublishStarted && s.setup.roomId !in s.requests.sendPlay)
    ensures Balanced(s) ==> Balanced(Handle(s, n))
  {
    hide Fold, Handle, Reply;
    var s', room, u := Handle(s, n), s.setup.roomId, Reply(s, n);
    HandleReplies(s, n);
    HandlingKeepsSetup(s, n);
    RoomFlagAfter(s, n);
    RoomReplies(s, n);
    var front := u[..|u| - 1];
    assert [In(n)] + u == [In(n)] + front + [u[|u| - 1]];
    var t0 := TallyOf(s);
    FoldAppend(s.trace, [In(n)] + u, Tally(0, 0, false), Count(room));
    FoldAppend([In(n)] + front, [u[|u| - 1]], t0, Count(room));
    FoldAppend([In(n)], front, t0, Count(room));
    FoldOne(In(n), t0, Count(room));
    FoldStays(front, Count(room)(t0, In(n)), Count(room));
    FoldOne(u[|u| - 1], Count(room)(t0, In(n)), Count(room));
  }

  /** A publishing that starts when the room is already asked for changes nothing but the record of an early start. */
  lemma RepeatedStartBalanced(s: State)
    requires s.Online() && ClientRoom(s) == s.setup.roomId && s.setup.roomId in s.requests.sendPlay
    ensures Balanced(s) ==> Balanced(Handle(s, PublishStarted))
  {
    hide Fold, Handle;
    HandleReplies(s, PublishStarted);
    HandlingKeepsSetup(s, PublishStarted);
    FlagStays(s);
    assert [In(PublishStarted)] + Reply(s, PublishStarted) == [In(PublishStarted)];
    FoldAppend(s.trace, [In(PublishStarted)], Tally(0, 0, false), Count(s.setup.roomId));
    FoldOne(In(PublishStarted), TallyOf(s), Count(s.setup.roomId));
  }

  lemma FlagStays(s: State)
    requires s.setup.roomId in s.requests.sendPlay
    ensures Handle(s, PublishStarted).requests == s.requests
  {
  }

  lemma NoticeBalanced(s: State, n: Notice)
    requires Aligned(s) && s.Online() && !NamesRoom(In(n), s.setup.roomId)
    ensures Balanced(s) ==> Balanced(Handle(s, n))
  {
    hide Balanced, Handle, Reply, FreshSessions.Tidy;
    if n == PlayFinished(s.setup.roomId) || (n == PublishStarted && s.setup.roomId !in s.requests.sendPlay) {
      FinishedBalanced(s, n);
    } else if n == PublishStarted {
      RepeatedStartBalanced(s);
    } else {
      HandleReplies(s, n);
      HandlingKeepsSetup(s, n);
      RoomFlagAfter(s, n);
      RoomReplies(s, n);
      UncountedBalanced(s, Handle(s, n), [In(n)] + Reply(s, n));
    }
  }

  lemma EmptyBalanced(s: State)
    requires s.trace == [] && s.requests == NO_REQUESTS
    ensures Balanced(s)
  {
  }

  lemma StartBalanced(s: State, isPlayer: bool)
    ensures Balanced(s) ==> Balanced(Begin(s, isPlayer))
  {
    hide Balanced, Begin;
    var u := BeginReplies(s, isPlayer);
    BeginRequestsNothing(s, isPlayer);
    UncountedBalanced(s, Begin(s, isPlayer), u);
  }

  lemma OpenBalanced(s: State)
    requires s.context.Some?
    ensures Balanced(s) ==> Balanced(OnOpened(s))
  {
    hide Balanced, OnOpened;
    var u := OpenReplies(s);
    OpenRequestsNothing(s);
    UncountedBalanced(s, OnOpened(s), u);
  }

  lemma MinorBalanced(s: State, e: Event)
    requires IsMinor(e) && s.setup.communicating && Steady(s, e)
    ensures Balanced(s) ==> Balanced(Step(s, e))
  {
    hide Step, Fold, Balanced, Steady;
    MinorStep(s, e);
    RoomStays(s, e);
    var s' := Step(s, e);
    assert s'.trace == s.trace + s'.trace[|s.trace|..];
    UncountedBalanced(s, s', s'.trace[|s.trace|..]);
  }

  lemma StepBalanced(s: State, e: Event)
    requires Aligned(s) && Steady(s, e) && RoomUnnamed(Step(s, e))
    requires s.setup.communicating ==> Balanced(s)
    ensures Balanced(Step(s, e))
  {
    hide Balanced, Handle, Begin, OnOpened, Decode, Fold, Closings;
    if !s.setup.communicating { EmptyBalanced(s); }
    if IsMinor(e) {
      if s.setup.communicating {
        MinorBalanced(s, e);
      } else {
        MinorStep(s, e);
        EmptyBalanced(Step(s, e));
      }
    } else if Occurs(s, e) {
      match e
      case Start(isPlayer, connects, order) =>
        if Starts(s) {
          if connects { StartBalanced(s, isPlayer); } else { EmptyBalanced(Step(s, e)); }
        }
      case Stop(order) => if s.setup.communicating { EmptyBalanced(Step(s, e)); }
      case WsOpened => OpenBalanced(s);
      case Received(message) =>
        var n := Decode(message);
        HandleReplies(s, n);
        HandlingKeepsSetup(s, n);
        assert Step(s, e).trace[|s.trace|] == In(n);
        NoticeBalanced(s, n);
    }
  }

  /** What the session's trace has so far was there before its last event. */
  lemma UnnamedBefore(s: State, e: Event)
    requires s.setup.communicating && Steady(s, e) && Step(s, e).setup.communicating
    ensures RoomUnnamed(Step(s, e)) ==> RoomUnnamed(s)
  {
    hide Handle, Begin, OnOpened;
    RoomStays(s, e);
    var s' := Step(s, e);
    assert |s.trace| <= |s'.trace| && s'.trace[..|s.trace|] == s.trace by {
      if IsMinor(e) {
        MinorStep(s, e);
      } else if Occurs(s, e) {
        match e
        case Received(message) => HandleReplies(s, Decode(message));
        case WsOpened => var u := OpenReplies(s);
        case _ =>
      }
    }
    assert forall i :: 0 <= i < |s.trace| ==> s.trace[i] == s'.trace[i];
  }

  /**
    In every steady run, while no subtrack notification of the session names the room: the `play` commands for the room
    are as many as its `play_finished`, and one more exactly if a `publish_started` came before them all.
   */
  lemma {:induction false} RoomPlayIsCounted(es: seq<Event>)
    requires SteadyRun(es) && RoomUnnamed(Run(New(), es))
    ensures Balanced(Run(New(), es))
  {
    if es == [] {
      EmptyBalanced(New());
    } else {
      hide Step, Steady, Balanced, Aligned, RoomUnnamed;
      var s, e := Run(New(), es[..|es| - 1]), es[|es| - 1];
      SteadyPrefix(es);
      SteadyRunIsAligned(es[..|es| - 1]);
      if s.setup.communicating && Step(s, e).setup.communicating {
        UnnamedBefore(s, e);
        RoomPlayIsCounted(es[..|es| - 1]);
        StepBalanced(s, e);
      } else if s.setup.communicating {
        EndedBalanced(s, e);
      } else {
        StepBalanced(s, e);
      }
    }
  }

  lemma EndedBalanced(s: State, e: Event)
    requires Aligned(s) && !Step(s, e).setup.communicating
    ensures Balanced(Step(s, e))
  {
    FreshSessions.TidyStep(s, e);
    EmptyBalanced(Step(s, e));
  }
}
