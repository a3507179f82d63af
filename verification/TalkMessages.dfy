/**
  Who is said to be talking makes no difference to anything a manager does: every binary frame of an audio track is played,
  and a run goes the same with the talk messages left out.
 */
module TalkMessages {
  import opened Wrappers
  import opened RecvTracks
  import opened Signaling
  import opened Conference
  import opened Orders
  import FreshSessions

  /** The state but for who is talking. */
  function Untalked(s: State): State {
    s.(channels := s.channels.(talking := map[]))
  }

  // ---- the handlers

  lemma SetupUntalked(s: State, k: string)
    ensures Untalked(SetupPublishPeer(s, k)) == SetupPublishPeer(Untalked(s), k)
  {
  }

  lemma RemoveUntalked(s: State, k: string)
    ensures Untalked(RemovePeer(s, k)) == RemovePeer(Untalked(s), k)
  {
  }

  lemma SdpUntalked(s: State, k: string, kind: string, sdp: string, media: seq<Section>)
    ensures Untalked(HandleRemoteSdp(s, k, kind, sdp, media)) == HandleRemoteSdp(Untalked(s), k, kind, sdp, media)
  {
    hide SdpCalls, NoteTypes, Make, Making, PeerOf;
  }

  lemma FinishedUntalked(s: State, k: string)
    ensures Untalked(OnPlayFinished(s, k)) == OnPlayFinished(Untalked(s), k)
  {
    hide RemovePeer;
    RemoveUntalked(s, k);
  }

  lemma NoticeUntalked(s: State, n: Notice)
    ensures Untalked(Handle(s, n)) == Handle(Untalked(s), n)
  {
    hide HandleRemoteSdp, OnPlayFinished;
    var s0 := Emit(s, [In(n)]);
    match n
    case RemoteSdp(k, kind, sdp, media) => SdpUntalked(s0, k, kind, sdp, media);
    case PlayFinished(k) => FinishedUntalked(s0, k);
    case _ =>
  }

  lemma BeginUntalked(s: State, isPlayer: bool)
    ensures Untalked(Begin(s, isPlayer)) == Begin(Untalked(s), isPlayer)
  {
    hide SetupPublishPeer;
    SetupUntalked(Opening(s, isPlayer), s.setup.publishStreamId);
  }

  lemma OpenedUntalked(s: State)
    requires s.context.Some?
    ensures Untalked(OnOpened(s)) == OnOpened(Untalked(s))
  {
    hide SetupPublishPeer;
    SetupUntalked(SetOpen(s, true), s.setup.publishStreamId);
  }

  lemma CleanupUntalked(s: State, order: seq<string>)
    requires Enumerates(order, s.peers.pcs.Keys)
    ensures Untalked(Cleanup(s, order)) == Cleanup(Untalked(s), order)
  {
    hide Closings;
  }

  lemma OccursUntalked(s: State, e: Event)
    ensures Occurs(Untalked(s), e) == Occurs(s, e)
  {
    hide Begin;
    if e.Start? {
      BeginUntalked(s, e.isPlayer);
    }
  }

  // ---- every event, every run

  lemma SessionUntalked(s: State, e: Event)
    requires e.Start? || e.Stop? || e.WsOpened?
    ensures Untalked(Step(s, e)) == Step(Untalked(s), e)
  {
    hide Begin, OnOpened, Cleanup, Occurs;
    OccursUntalked(s, e);
    if Occurs(s, e) {
      FreshSessions.OrderIsGiven(s, e);
      match e
      case Start(isPlayer, connects, order) =>
        BeginUntalked(s, isPlayer);
        if Starts(s) && !connects { CleanupUntalked(Begin(s, isPlayer), order); }
      case Stop(order) => if s.setup.communicating { CleanupUntalked(s, order); }
      case WsOpened => OpenedUntalked(s);
    }
  }

  lemma MinorUntalked(s: State, e: Event)
    requires IsMinor(e) && !e.ChannelText?
    ensures Untalked(Step(s, e)) == Step(Untalked(s), e)
  {
    hide Begin, OnOpened, Cleanup, Handle, Decode;
  }

  lemma StepUntalked(s: State, e: Event)
    requires !e.ChannelText?
    ensures Untalked(Step(s, e)) == Step(Untalked(s), e)
  {
    hide Handle, Decode, Begin, OnOpened, Cleanup;
    if IsMinor(e) {
      MinorUntalked(s, e);
    } else if e.Received? {
      if Occurs(s, e) { NoticeUntalked(s, Decode(e.message)); }
    } else {
      SessionUntalked(s, e);
    }
  }

  lemma TalkUntalked(s: State, e: Event)
    requires e.ChannelText?
    ensures Untalked(Step(s, e)) == Untalked(s)
  {
  }

  /** A run with the talk messages left out. */
  function Silenced(es: seq<Event>): seq<Event> {
    if es == [] then []
    else Silenced(es[..|es| - 1]) + if es[|es| - 1].ChannelText? then [] else [es[|es| - 1]]
  }

  /** From any state, a run goes the same with the talk messages left out, but for the record of who is talking. */
  lemma {:induction false} TalkingChangesNothing(s: State, es: seq<Event>)
    ensures Untalked(Run(s, es)) == Untalked(Run(s, Silenced(es)))
  {
    hide Step, Untalked;
    if es == [] {
    } else {
      var front, e := es[..|es| - 1], es[|es| - 1];
      TalkingChangesNothing(s, front);
      if e.ChannelText? {
        TalkUntalked(Run(s, front), e);
        assert Silenced(es) == Silenced(front);
      } else {
        StepUntalked(Run(s, front), e);
        StepUntalked(Run(s, Silenced(front)), e);
        assert Silenced(es)[..|Silenced(es)| - 1] == Silenced(front);
      }
    }
  }

  // ---- which frames are played

  lemma MediaStep(s: State, e: Event)
    requires s.setup.media == s.setup.communicating
    ensures Step(s, e).setup.media == Step(s, e).setup.communicating
  {
    hide Handle, Decode;
    if e.Received? {
      HandlingKeepsSetup(s, Decode(e.message));
    }
  }

  lemma {:induction false} MediaRun(es: seq<Event>)
    ensures Run(New(), es).setup.media == Run(New(), es).setup.communicating
  {
    if es == [] {
    } else {
      hide Step;
      MediaRun(es[..|es| - 1]);
      MediaStep(Run(New(), es[..|es| - 1]), es[|es| - 1]);
    }
  }

  /** In every run, a frame that arrives is played exactly if it is binary and its track is handled as audio. */
  lemma {:induction false} FramesArePlayed(es: seq<Event>, k: string, i: nat, binary: bool)
    requires Occurs(Run(New(), es), FrameArrived(k, i, binary))
    ensures var s := Run(New(), es);
            Step(s, FrameArrived(k, i, binary)).trace
            == s.trace + if binary && s.inbound.remoteTracks[k][i].kind == "audio" then [Pushed(k)] else []
  {
    hide Run;
    MediaRun(es);
    FreshSessions.TidyRun(es);
  }
}
