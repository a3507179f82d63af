/**
  Which sessions end with a farewell: those whose own peer connection was last set up by the client itself. One that was
  re-created by a description for the own stream counts as no publisher, and its session ends without a word.
 */
module Farewells {
  import opened Wrappers
  import opened Traces
  import opened Signaling
  import opened Conference
  import opened SteadyRuns
  import CandidateDelivery
  import FreshSessions
  import PlayRequests

  /** Whether the last entry was a description coming in, and whether the own peer connection was last made without one. */
  datatype Voice = Voice(described: bool, publishing: bool)

  predicate Describes(e: Entry) {
    e.In? && e.notice.RemoteSdp?
  }

  predicate MadeFor(e: Entry, own: string) {
    e.Made? && e.peer.stream == own
  }

  ghost function VoiceStep(own: string): (Voice, Entry) -> Voice {
    (v: Voice, e: Entry) =>
      if e.Made? && e.peer.stream == own then Voice(false, !v.described)
      else Voice(e.In? && e.notice.RemoteSdp?, v.publishing)
  }

  ghost function VoiceOf(t: seq<Entry>, own: string): Voice {
    Fold(t, Voice(false, false), VoiceStep(own))
  }

  /** The last making of an own peer connection in the trace was not the answer to a description. */
  ghost predicate SetUpItself(t: seq<Entry>, own: string) {
    exists i :: 0 <= i < |t| && IsLastMaking(t, i, own) && !(i > 0 && Describes(t[i - 1]))
  }

  ghost predicate IsLastMaking(t: seq<Entry>, i: nat, own: string) {
    i < |t| && MadeFor(t[i], own) && forall j :: i < j < |t| ==> !MadeFor(t[j], own)
  }

  lemma LastMakingExtends(t: seq<Entry>, e: Entry, i: nat, own: string)
    requires !MadeFor(e, own)
    ensures IsLastMaking(t + [e], i, own) <==> IsLastMaking(t, i, own)
  {
    var u := t + [e];
    if IsLastMaking(u, i, own) {
      assert u[|t|] == e;
      forall j | i < j < |t| ensures !MadeFor(t[j], own) { assert u[j] == t[j]; }
    }
  }

  lemma SetUpExtends(t: seq<Entry>, e: Entry, own: string)
    ensures SetUpItself(t + [e], own) <==>
            if MadeFor(e, own) then t == [] || !Describes(t[|t| - 1]) else SetUpItself(t, own)
  {
    var u := t + [e];
    if MadeFor(e, own) {
      assert IsLastMaking(u, |t|, own);
      if t != [] { assert u[|t| - 1] == t[|t| - 1]; }
    } else {
      hide IsLastMaking;
      forall i: nat | i < |t| ensures IsLastMaking(u, i, own) <==> IsLastMaking(t, i, own) {
        LastMakingExtends(t, e, i, own);
      }
      LastIsNoMaking(t, e, own);
      assert forall i :: 0 <= i < |t| ==> u[i] == t[i];
      if SetUpItself(t, own) {
        var i :| 0 <= i < |t| && IsLastMaking(t, i, own) && !(i > 0 && Describes(t[i - 1]));
        assert IsLastMaking(u, i, own);
      }
    }
  }

  lemma LastIsNoMaking(t: seq<Entry>, e: Entry, own: string)
    requires !MadeFor(e, own)
    ensures !IsLastMaking(t + [e], |t|, own)
  {
  }

  /** What the automaton says, in terms of positions in the trace. */
  lemma {:induction false} VoiceMeaning(t: seq<Entry>, own: string)
    ensures VoiceOf(t, own).described <==> t != [] && Describes(t[|t| - 1])
    ensures VoiceOf(t, own).publishing <==> SetUpItself(t, own)
  {
    if t == [] {
    } else {
      var front, e := t[..|t| - 1], t[|t| - 1];
      VoiceMeaning(front, own);
      assert t == front + [e];
      SetUpExtends(front, e, own);
      hide SetUpItself;
    }
  }

  // ---- the invariant

  predicate Publishes(s: State) {
    s.setup.publishStreamId in s.peers.isPublisher && s.peers.isPublisher[s.setup.publishStreamId]
  }

  /** Between handlers the publisher flag of the own stream is what the trace says. */
  ghost predicate Voiced(s: State) {
    VoiceOf(s.trace, s.setup.publishStreamId) == Voice(false, Publishes(s))
  }

  /** An entry that neither makes a peer connection nor brings a description. */
  predicate IsIdle(e: Entry) {
    !e.Made? && !Describes(e)
  }

  lemma {:induction false} IdleVoice(u: seq<Entry>, own: string, v: Voice)
    requires forall i :: 0 <= i < |u| ==> IsIdle(u[i])
    ensures Fold(u, v, VoiceStep(own)) == if u == [] then v else Voice(false, v.publishing)
  {
    if u == [] {
    } else {
      IdleVoice(u[..|u| - 1], own, v);
    }
  }

  lemma IdleVoiced(s: State, s': State, u: seq<Entry>)
    requires s'.trace == s.trace + u && forall i :: 0 <= i < |u| ==> IsIdle(u[i])
    requires s'.setup.publishStreamId == s.setup.publishStreamId && s'.peers.isPublisher == s.peers.isPublisher
    ensures Voiced(s) ==> Voiced(s')
  {
    hide Fold;
    var own := s.setup.publishStreamId;
    FoldAppend(s.trace, u, Voice(false, false), VoiceStep(own));
    IdleVoice(u, own, VoiceOf(s.trace, own));
  }

  /** What is made and then only called or spoken to settles the voice by what came just before. */
  lemma MakingVoice(a: seq<Entry>, made: seq<Entry>, b: seq<Entry>, own: string, v: Voice)
    requires |a| <= 1 && (forall i :: 0 <= i < |a| ==> !a[i].Made?)
    requires |made| <= 1 && (forall i :: 0 <= i < |made| ==> made[i].Made?)
    requires forall i :: 0 <= i < |b| ==> IsIdle(b[i])
    ensures var w := Fold(a + made + b, v, VoiceStep(own));
            && (w.described <==> made == [] && b == [] && if a == [] then v.described else Describes(a[0]))
            && (w.publishing <==> if made != [] && MadeFor(made[0], own)
                                  then !(if a == [] then v.described else Describes(a[0])) else v.publishing)
  {
    hide Fold;
    var step := VoiceStep(own);
    FoldAppend(a + made, b, v, step);
    FoldAppend(a, made, v, step);
    FoldNone(v, step);
    var x, y := Fold(a, v, step), Fold(a + made, v, step);
    if a != [] {
      assert a == [a[0]];
      FoldOne(a[0], v, step);
    }
    assert x == if a == [] then v else Voice(Describes(a[0]), v.publishing);
    FoldNone(x, step);
    if made != [] {
      assert made == [made[0]];
      FoldOne(made[0], x, step);
    }
    assert y == if made == [] then x else if MadeFor(made[0], own) then Voice(false, !x.described) else Voice(false, x.publishing);
    IdleVoice(b, own, y);
  }

  lemma FoldNone<E, A>(g: A, step: (A, E) -> A)
    ensures Fold([], g, step) == g
  {
  }

  lemma SdpReplyIdle(p: Peer, kind: string, sdp: string, media: seq<RecvTracks.Section>, queue: seq<Candidate>)
    ensures var u := SdpCalls(p, kind, sdp, media, queue);
            u != [] && forall i :: 0 <= i < |u| ==> IsIdle(u[i])
  {
    hide OfferedTracks;
  }

  lemma SdpVoiced(s: State, k: string, kind: string, sdp: string, media: seq<RecvTracks.Section>)
    ensures Voiced(s) ==> Voiced(Handle(s, RemoteSdp(k, kind, sdp, media)))
  {
    hide Fold, Handle, SdpCalls;
    var n, own, room := RemoteSdp(k, kind, sdp, media), s.setup.publishStreamId, k == s.setup.roomId;
    var made, b := Making(s.peers, k, room), SdpCalls(PeerOf(s.peers, k, room), kind, sdp, media, Pending(s.pending, k));
    HandleReplies(s, n);
    HandlingKeepsSetup(s, n);
    SdpPublisher(s, k, kind, sdp, media);
    SdpReplyIdle(PeerOf(s.peers, k, room), kind, sdp, media, Pending(s.pending, k));
    assert [In(n)] + (made + b) == [In(n)] + made + b;
    FoldAppend(s.trace, [In(n)] + made + b, Voice(false, false), VoiceStep(own));
    MakingVoice([In(n)], made, b, own, VoiceOf(s.trace, own));
  }

  lemma SdpPublisher(s: State, k: string, kind: string, sdp: string, media: seq<RecvTracks.Section>)
    ensures Handle(s, RemoteSdp(k, kind, sdp, media)).peers.isPublisher ==
            if k in s.peers.pcs then s.peers.isPublisher else s.peers.isPublisher[k := false]
  {
    hide SdpCalls;
  }

  lemma OtherRepliesAreIdle(s: State, n: Notice)
    requires !n.RemoteSdp?
    ensures forall i :: 0 <= i < |Reply(s, n)| ==> IsIdle(Reply(s, n)[i])
    ensures Handle(s, n).peers.isPublisher == s.peers.isPublisher
  {
  }

  lemma NoticeVoiced(s: State, n: Notice)
    ensures Voiced(s) ==> Voiced(Handle(s, n))
  {
    hide Voiced, Handle, Reply;
    if n.RemoteSdp? {
      SdpVoiced(s, n.stream, n.kind, n.sdp, n.media);
    } else {
      HandleReplies(s, n);
      HandlingKeepsSetup(s, n);
      OtherRepliesAreIdle(s, n);
      IdleVoiced(s, Handle(s, n), [In(n)] + Reply(s, n));
    }
  }

  /** Setting up the own peer connection makes it a publisher, and no description came just before. */
  lemma SetupVoiced(s: State)
    ensures Voiced(s) ==> Voiced(SetupPublishPeer(s, s.setup.publishStreamId))
  {
    hide Fold, SetupCalls;
    var own := s.setup.publishStreamId;
    var s' := SetupPublishPeer(s, own);
    if own !in s.peers.pcs {
      var p := Peer(s.peers.made, own, true);
      var b := SetupCalls(s, p, own);
      SetupIsIdle(s, p, own);
      assert [] + [Made(p)] + b == [Made(p)] + b && s'.trace == s.trace + ([Made(p)] + b);
      FoldAppend(s.trace, [Made(p)] + b, Voice(false, false), VoiceStep(own));
      MakingVoice([], [Made(p)], b, own, VoiceOf(s.trace, own));
    }
  }

  lemma SetupIsIdle(s: State, p: Peer, k: string)
    ensures forall i :: 0 <= i < |SetupCalls(s, p, k)| ==> IsIdle(SetupCalls(s, p, k)[i])
  {
  }

  /** The first peer connection of a session is the client's own. */
  lemma StartVoiced(s: State, isPlayer: bool)
    requires s.trace == [] && s.peers.isPublisher == map[]
    ensures Voiced(Begin(s, isPlayer))
  {
    hide SetupPublishPeer;
    var s1 := Opening(s, isPlayer);
    SetupVoiced(s1);
    SetupKeepsOwn(s1);
    IdleVoiced(SetupPublishPeer(s1, s1.setup.publishStreamId), Begin(s, isPlayer), []);
  }

  lemma SetupKeepsOwn(s: State)
    ensures SetupPublishPeer(s, s.setup.publishStreamId).setup == s.setup
  {
  }

  lemma OpenVoiced(s: State)
    requires s.context.Some?
    ensures Voiced(s) ==> Voiced(OnOpened(s))
  {
    hide SetupPublishPeer, Voiced;
    var s1 := SetOpen(s, true);
    var s2 := SetupPublishPeer(s1, s1.setup.publishStreamId);
    IdleVoiced(s, s1, []);
    SetupVoiced(s1);
    IdleVoiced(s2, OnOpened(s), Wire(s2, JoinRoom(ClientSelf(s2), ClientRoom(s2))));
  }

  lemma MinorVoiced(s: State, e: Event)
    requires IsMinor(e) && s.setup.communicating && Steady(s, e)
    ensures Voiced(s) ==> Voiced(Step(s, e))
  {
    hide Voiced, Step, Steady;
    MinorStep(s, e);
    PlayRequests.OwnStays(s, e);
    var s' := Step(s, e);
    assert s'.trace == s.trace + s'.trace[|s.trace|..];
    IdleVoiced(s, s', s'.trace[|s.trace|..]);
  }

  lemma StepVoiced(s: State, e: Event)
    requires FreshSessions.Tidy(s) && Steady(s, e) && (s.setup.communicating ==> Voiced(s))
    ensures Step(s, e).setup.communicating ==> Voiced(Step(s, e))
  {
    hide Voiced, Handle, Decode, Begin, OnOpened, Farewell, Closings, Hangup;
    if IsMinor(e) {
      if s.setup.communicating { MinorVoiced(s, e); }
    } else if Occurs(s, e) {
      match e
      case Start(isPlayer, connects, _) => if Starts(s) { StartVoiced(s, isPlayer); }
      case Stop(_) =>
      case WsOpened => OpenVoiced(s);
      case Received(message) => NoticeVoiced(s, Decode(message));
    }
  }

  lemma {:induction false} RunIsVoiced(es: seq<Event>)
    requires SteadyRun(es)
    ensures Run(New(), es).setup.communicating ==> Voiced(Run(New(), es))
  {
    if es == [] {
    } else {
      hide Step, Steady, Voiced;
      SteadyPrefix(es);
      FreshSessions.TidyRun(es[..|es| - 1]);
      RunIsVoiced(es[..|es| - 1]);
      StepVoiced(Run(New(), es[..|es| - 1]), es[|es| - 1]);
    }
  }

  // ---- the theorem

  /** The last words of a session: its own stream, its room, and leaving it. */
  function LastWords(own: string, room: string): seq<Entry> {
    [Sent(StopStream(own)), Sent(StopStream(room)), Sent(LeaveRoom(room))]
  }

  /**
    In every steady run, a stop says goodbye, for the own stream and the room, if and only if the socket is open, the own
    stream has a name, and the last own peer connection of the session was not made in answer to a description.
   */
  lemma {:induction false} FarewellIff(es: seq<Event>, order: seq<string>)
    requires SteadyRun(es) && Run(New(), es).setup.communicating && Occurs(Run(New(), es), Stop(order))
    ensures var s := Run(New(), es);
            var own := s.setup.publishStreamId;
            Step(s, Stop(order)).past
            == s.past + s.trace
               + (if s.Online() && own != "" && SetUpItself(s.trace, own) then LastWords(own, s.setup.roomId) else [])
               + Closings(s.peers.pcs, order) + Hangup(s)
  {
    hide Run, Closings, SetUpItself, Hangup;
    var s := Run(New(), es);
    RunIsVoiced(es);
    SteadyRunIsAligned(es);
    VoiceMeaning(s.trace, s.setup.publishStreamId);
  }

  /** An offer for a stream, as another client's signalling would send it. */
  ghost function OfferMessage(k: string): Event {
    Received(Message(Encode(TakeConfiguration(k, "offer", "")), []))
  }

  /** The own stream's playing ends and a description for it comes in: the session will end without a farewell. */
  lemma RecreatedIsSilent(s: State, k: string)
    requires s.Online() && k == s.setup.publishStreamId && k != ""
    ensures var s' := Step(Step(s, CandidateDelivery.FinishedMessage(k)), OfferMessage(k));
            s'.Online() && s'.setup == s.setup && Farewell(s') == []
  {
    hide Decode, Encode, SdpCalls, Making, NoteTypes, Ending;
    CandidateDelivery.FinishedLeaves(s, k);
    SentIsReadBack(TakeConfiguration(k, "offer", ""), []);
    var s1 := Step(s, CandidateDelivery.FinishedMessage(k));
    hide CandidateDelivery.FinishedMessage;
    SdpPublisher(s1, k, "offer", "", []);
  }
}
