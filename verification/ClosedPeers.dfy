/**
  Peer connections that have closed underneath the manager: when one counts as closed, and exactly when the manager goes on
  to use it. Asking for its track again does not replace it, so the offer that answers is applied to the closed one.
 */
module ClosedPeers {
  import opened Wrappers
  import opened RecvTracks
  import opened Signaling
  import opened Conference
  import opened PeerLifecycle
  import FreshSessions

  // ---- when a peer connection counts as closed

  /** The message ends what is tracked under the stream. */
  predicate Finishes(s: State, e: Event, k: string) {
    e.Received? && Occurs(s, e) && k != "" && Decode(e.message) == PlayFinished(k)
  }

  /** In the session that is running the stream's peer connection closed, and no `play_finished` for it has come since. */
  ghost predicate ClosedUnderneath(es: seq<Event>, k: string) {
    es != []
    && Run(New(), es).setup.communicating
    && var s, e := Run(New(), es[..|es| - 1]), es[|es| - 1];
    || (e == PeerClosed(k) && Occurs(s, e))
    || (ClosedUnderneath(es[..|es| - 1], k) && !Finishes(s, e, k))
  }

  ghost predicate ClosedAreHeld(s: State) {
    s.peers.closed <= s.peers.pcs.Keys
  }

  lemma NoticeClosed(s: State, n: Notice, k: string)
    requires ClosedAreHeld(s)
    ensures ClosedAreHeld(Handle(s, n))
    ensures k in Handle(s, n).peers.closed <==> k in s.peers.closed && !(k != "" && n == PlayFinished(k))
  {
    hide SdpCalls, NoteTypes, Wire, CloseChannel, ClosePeer;
  }

  lemma SetupClosed(s: State, k: string)
    requires ClosedAreHeld(s)
    ensures ClosedAreHeld(SetupPublishPeer(s, k)) && SetupPublishPeer(s, k).peers.closed == s.peers.closed
  {
    hide SetupCalls;
  }

  lemma MinorClosed(s: State, e: Event)
    requires IsMinor(e)
    ensures Step(s, e).peers.pcs == s.peers.pcs && Step(s, e).setup.communicating == s.setup.communicating
    ensures Step(s, e).peers.closed == s.peers.closed + if e.PeerClosed? && Occurs(s, e) then {e.stream} else {}
  {
    hide Handle, Decode, Begin, OnOpened, Cleanup;
  }

  lemma StepClosed(s: State, e: Event, k: string)
    requires FreshSessions.Tidy(s) && ClosedAreHeld(s)
    ensures ClosedAreHeld(Step(s, e))
    ensures Step(s, e).setup.communicating ==>
              (k in Step(s, e).peers.closed <==>
               (e == PeerClosed(k) && Occurs(s, e)) || (k in s.peers.closed && !Finishes(s, e, k)))
  {
    hide Handle, Decode, SetupPublishPeer, Closings, Farewell, Hangup;
    if IsMinor(e) {
      MinorClosed(s, e);
    } else if Occurs(s, e) {
      match e
      case Start(isPlayer, _, _) => SetupClosed(Opening(s, isPlayer), s.setup.publishStreamId);
      case Stop(_) =>
      case WsOpened => SetupClosed(SetOpen(s, true), s.setup.publishStreamId);
      case Received(message) => NoticeClosed(s, Decode(message), k);
    }
  }

  /** In every run the manager's peer connections that have closed are those the history says. */
  lemma {:induction false} ClosedMeaning(es: seq<Event>, k: string)
    ensures ClosedAreHeld(Run(New(), es))
    ensures k in Run(New(), es).peers.closed <==> ClosedUnderneath(es, k)
  {
    FreshSessions.TidyRun(es);
    if es == [] {
    } else {
      hide Step, Finishes, Occurs;
      var front, e := es[..|es| - 1], es[|es| - 1];
      FreshSessions.TidyRun(front);
      ClosedMeaning(front, k);
      StepClosed(Run(New(), front), e, k);
    }
  }

  // ---- when one is used

  /** A call on a held peer connection that has closed, other than parting with it. */
  ghost predicate UsesClosed(s: State, e: Entry) {
    && e.Called? && !e.call.Close? && !e.call.Detach?
    && Holds(s, e.peer) && e.peer.stream in s.peers.closed
  }

  /** The event made the manager use a peer connection that had closed. */
  ghost predicate Touches(s: State, s': State) {
    exists i :: |s.trace| <= i < |s'.trace| && UsesClosed(s, s'.trace[i])
  }

  /** The stream a message is for, if it is a start, a description, or a candidate that is not empty. */
  function Addressee(n: Notice): Option<string> {
    match n
    case StartOffer(k) => Some(k)
    case RemoteSdp(k, _, _, _) => Some(k)
    case RemoteCandidate(k, text, _) => if text == "" then None else Some(k)
    case _ => None
  }

  lemma TailTouches(s: State, s': State, u: seq<Entry>)
    requires s'.trace == s.trace + u
    ensures Touches(s, s') <==> exists i :: 0 <= i < |u| && UsesClosed(s, u[i])
  {
    hide UsesClosed;
    if i :| 0 <= i < |u| && UsesClosed(s, u[i]) {
      assert s'.trace[|s.trace| + i] == u[i];
    }
    if i :| |s.trace| <= i < |s'.trace| && UsesClosed(s, s'.trace[i]) {
      assert u[i - |s.trace|] == s'.trace[i];
    }
  }

  lemma SdpReplyUses(s: State, k: string, kind: string, sdp: string, media: seq<Section>)
    requires Conserved(s) && ClosedAreHeld(s)
    ensures var u := Reply(s, RemoteSdp(k, kind, sdp, media));
            (exists i :: 0 <= i < |u| && UsesClosed(s, u[i])) <==> k in s.peers.closed
  {
    var room := k == s.setup.roomId;
    var p := PeerOf(s.peers, k, room);
    var a, b := Making(s.peers, k, room), SdpCalls(p, kind, sdp, media, Pending(s.pending, k));
    var u := a + b;
    SdpReplyIs(s, k, kind, sdp, media);
    assert p.stream == k && (k in s.peers.pcs ==> Holds(s, p));
    hide Conserved, Making;
    if k in s.peers.closed {
      var i := SdpSetsRemote(p, kind, sdp, media, Pending(s.pending, k));
      assert UsesClosed(s, u[|a| + i]);
    }
    hide SdpCalls;
  }

  lemma SdpSetsRemote(p: Peer, kind: string, sdp: string, media: seq<Section>, queue: seq<Candidate>) returns (i: nat)
    ensures var u := SdpCalls(p, kind, sdp, media, queue);
            i < |u| && u[i] == Called(p, SetRemote(KindOf(kind), sdp))
  {
    hide OfferedTracks;
    i := |OfferedTracks(kind, media)|;
  }

  lemma OtherReplyUses(s: State, n: Notice)
    requires !n.RemoteSdp? && ClosedAreHeld(s)
    requires forall k :: k in s.peers.pcs ==> s.peers.pcs[k].stream == k
    ensures var u := Reply(s, n);
            (exists i :: 0 <= i < |u| && UsesClosed(s, u[i])) <==>
            Addressee(n).Some? && Addressee(n).value in s.peers.closed
  {
    hide Ending;
    match n
    case PlayFinished(k) => EndingIs(s, k);
    case StartOffer(k) =>
      if k in s.peers.closed { assert UsesClosed(s, Reply(s, n)[0]); }
    case RemoteCandidate(k, text, mid) =>
      if text != "" && k in s.peers.closed { assert UsesClosed(s, Reply(s, n)[0]); }
    case _ =>
  }

  lemma NoticeTouches(s: State, n: Notice)
    requires Conserved(s) && ClosedAreHeld(s)
    ensures Touches(s, Handle(s, n)) <==> Addressee(n).Some? && Addressee(n).value in s.peers.closed
  {
    assert forall k :: k in s.peers.pcs ==> s.peers.pcs[k].stream == k;
    if n.RemoteSdp? { SdpReplyUses(s, n.stream, n.kind, n.sdp, n.media); } else { OtherReplyUses(s, n); }
    hide Conserved, Handle, Reply, ClosedAreHeld;
    HandleReplies(s, n);
    hide Touches, UsesClosed, Addressee;
    TailTouches(s, Handle(s, n), [In(n)] + Reply(s, n));
    NoticeUsesNothing(s, n, Reply(s, n));
  }

  lemma NoticeUsesNothing(s: State, n: Notice, u: seq<Entry>)
    ensures var v := [In(n)] + u;
            (exists i :: 0 <= i < |v| && UsesClosed(s, v[i])) <==> exists i :: 0 <= i < |u| && UsesClosed(s, u[i])
  {
    var v := [In(n)] + u;
    assert !UsesClosed(s, v[0]);
    hide UsesClosed;
    if i :| 0 <= i < |u| && UsesClosed(s, u[i]) { assert v[i + 1] == u[i]; }
    if i :| 0 <= i < |v| && UsesClosed(s, v[i]) { assert v[i] == u[i - 1]; }
  }

  lemma SetupCallsAreOn(s: State, p: Peer, k: string)
    ensures forall i :: 0 <= i < |SetupCalls(s, p, k)| ==> SetupCalls(s, p, k)[i].Called? && SetupCalls(s, p, k)[i].peer == p
  {
  }

  /** What sets up the own peer connection concerns a new one. */
  lemma SetupUsesNone(s: State, s': State, k: string) returns (u: seq<Entry>)
    requires s'.peers == s.peers && s'.trace == s.trace
    ensures SetupPublishPeer(s', k).trace == s.trace + u
    ensures forall i :: 0 <= i < |u| ==> !UsesClosed(s, u[i])
  {
    hide SetupCalls;
    if k in s.peers.pcs {
      u := [];
    } else {
      var p := Peer(s.peers.made, k, true);
      u := [Made(p)] + SetupCalls(s', p, k);
      SetupCallsAreOn(s', p, k);
      hide SetupPublishPeer;
      assert !Holds(s, p);
    }
  }

  lemma BeginTouches(s: State, isPlayer: bool)
    ensures !Touches(s, Begin(s, isPlayer))
  {
    hide SetupPublishPeer, UsesClosed;
    var u := SetupUsesNone(s, Opening(s, isPlayer), s.setup.publishStreamId);
    TailTouches(s, Begin(s, isPlayer), u);
  }

  lemma OpenTouches(s: State)
    requires s.context.Some?
    ensures !Touches(s, OnOpened(s))
  {
    hide SetupPublishPeer, UsesClosed;
    var s1 := SetOpen(s, true);
    var u := SetupUsesNone(s, s1, s.setup.publishStreamId);
    var s2 := SetupPublishPeer(s1, s.setup.publishStreamId);
    var w := Wire(s2, JoinRoom(ClientSelf(s2), ClientRoom(s2)));
    assert s.trace + u + w == s.trace + (u + w);
    TailTouches(s, OnOpened(s), u + w);
    WireUsesNone(s, s2, JoinRoom(ClientSelf(s2), ClientRoom(s2)));
  }

  lemma WireUsesNone(s: State, s2: State, c: Command)
    ensures forall i :: 0 <= i < |Wire(s2, c)| ==> !UsesClosed(s, Wire(s2, c)[i])
  {
  }

  lemma MinorTouches(s: State, e: Event)
    requires IsMinor(e)
    ensures !Touches(s, Step(s, e))
  {
    hide Step;
    MinorStep(s, e);
  }

  /**
    In every run, an event makes the manager use a peer connection that has closed if and only if it is a start, a
    description or a candidate for a stream whose peer connection closed with no `play_finished` for it since.
   */
  lemma {:induction false} TouchesIff(es: seq<Event>, e: Event)
    ensures var s := Run(New(), es);
            Touches(s, Step(s, e)) <==>
            && e.Received? && Occurs(s, e)
            && Addressee(Decode(e.message)).Some? && ClosedUnderneath(es, Addressee(Decode(e.message)).value)
  {
    var s := Run(New(), es);
    RunIsConserved(es);
    ClosedMeaning(es, "");
    if e.Received? && Addressee(Decode(e.message)).Some? {
      ClosedMeaning(es, Addressee(Decode(e.message)).value);
    }
    hide Run, Conserved, ClosedAreHeld, ClosedUnderneath, Addressee, Decode, Handle, Begin, OnOpened, Touches, Closings, Farewell, Hangup;
    if IsMinor(e) {
      MinorTouches(s, e);
    } else if !Occurs(s, e) {
      NothingTouches(s, s);
    } else {
      match e
      case Start(isPlayer, connects, _) =>
        BeginTouches(s, isPlayer);
        NothingTouches(s, Step(s, e));
      case Stop(_) => NothingTouches(s, Step(s, e));
      case WsOpened => OpenTouches(s);
      case Received(message) => NoticeTouches(s, Decode(message));
    }
  }

  lemma NothingTouches(s: State, s': State)
    ensures s'.trace == s.trace || s'.trace == [] ==> !Touches(s, s')
  {
  }

  /**
    A track whose peer connection has closed is asked for again; but the offer that answers makes no new peer connection,
    and is set on the closed one.
   */
  lemma AnswerMeetsClosed(s: State, k: string, sdp: string, media: seq<Section>)
    requires Conserved(s) && ClosedAreHeld(s) && s.Online() && k in s.peers.closed && Wanted(s, k)
    ensures var s1 := Handle(s, SubtrackAdded(k));
            var s2 := Handle(s1, RemoteSdp(k, "offer", sdp, media));
            && s1.trace == s.trace + [In(SubtrackAdded(k)), Sent(Play(ClientRoom(s), k))]
            && s2.peers == s1.peers == s.peers
            && Touches(s1, s2)
  {
    var n := SubtrackAdded(k);
    HandleReplies(s, n);
    assert [In(n)] + Reply(s, n) == [In(n), Sent(Play(ClientRoom(s), k))];
    var s1 := Handle(s, n);
    assert s1.peers == s.peers;
    HandlingKeeps(s, n);
    NoticeTouches(s1, RemoteSdp(k, "offer", sdp, media));
    hide SdpCalls, NoteTypes, Conserved;
    assert k in s1.peers.pcs;
  }

  /** It comes to that from any open session: a track's peer connection closes, the track leaves, and is about to return. */
  lemma LeavingMakesWanted(s: State, k: string)
    requires s.Online() && k in s.peers.pcs && k != "" && k != s.setup.publishStreamId
    ensures var s1 := Step(s, PeerClosed(k));
            var s2 := Handle(s1, SubtrackRemoved(k));
            s2.Online() && s2.peers.pcs == s.peers.pcs && k in s2.peers.closed && Wanted(s2, k)
  {
    hide Begin, OnOpened, Cleanup, Decode;
    var s1 := Step(s, PeerClosed(k));
    assert s1 == s.(peers := s.peers.(closed := s.peers.closed + {k}));
    hide Step;
  }
}
