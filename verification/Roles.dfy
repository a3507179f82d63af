/** A session keeps the role it was started in: a player is given no media to send, and a publisher always both kinds. */
module Roles {
  import opened RecvTracks
  import opened Signaling
  import opened Conference
  import opened Effects
  import FreshSessions
  import Protocol

  /** The running session was begun by event `i`, with this role, and has run since. */
  ghost predicate BegunBy(es: seq<Event>, i: nat, isPlayer: bool) {
    && i < |es| && es[i].Start? && es[i].isPlayer == isPlayer
    && !Run(New(), es[..i]).setup.communicating
    && forall j :: i < j <= |es| ==> Run(New(), es[..j]).setup.communicating
  }

  // ---- the role is kept

  /** Within a session only its end touches the role. */
  lemma RoleStays(s: State, e: Event)
    requires s.setup.communicating && Step(s, e).setup.communicating
    ensures Step(s, e).setup.onlyPlayer == s.setup.onlyPlayer
  {
    hide Handle, SetupPublishPeer;
    match e
    case Received(message) => if Occurs(s, e) { HandlingKeepsSetup(s, Decode(message)); }
    case WsOpened => SetupKeepsRole(SetOpenIf(s), s.setup.publishStreamId);
    case _ =>
  }

  function SetOpenIf(s: State): State {
    if s.context.Some? then SetOpen(s, true) else s
  }

  lemma SetupKeepsRole(s: State, k: string)
    ensures SetupPublishPeer(s, k).setup.onlyPlayer == s.setup.onlyPlayer
    ensures SetupPublishPeer(s, k).setup.communicating == s.setup.communicating
  {
  }

  /** A session begins with a start, in its role, with an own peer connection fitted out for it. */
  lemma BeginningIs(s: State, e: Event)
    requires !s.setup.communicating && Step(s, e).setup.communicating && FreshSessions.Tidy(s)
    ensures e.Start? && Step(s, e).setup.onlyPlayer == e.isPlayer
    ensures Step(s, e).trace == s.trace + OwnCalls(Peer(s.peers.made, s.setup.publishStreamId, true), s.setup.publishStreamId, e.isPlayer, false)
  {
    hide Handle, SetupPublishPeer, OwnCalls, SetupCalls;
    match e
    case Start(isPlayer, connects, order) =>
      if connects {
        StartsIff(s, isPlayer, order);
        BegunIs(s, isPlayer, order);
      }
    case Received(message) => if Occurs(s, e) { HandlingKeepsSetup(s, Decode(message)); }
    case WsOpened => SetupKeepsRole(SetOpenIf(s), s.setup.publishStreamId);
    case _ =>
  }

  /** While a session runs, its role is the one its start asked for. */
  lemma {:induction false} RoleIsKept(es: seq<Event>, i: nat, isPlayer: bool)
    requires BegunBy(es, i, isPlayer)
    ensures Run(New(), es).setup.communicating && Run(New(), es).setup.onlyPlayer == isPlayer
  {
    assert es[..|es|] == es;
    var front, e := es[..|es| - 1], es[|es| - 1];
    assert Run(New(), es) == Step(Run(New(), front), e);
    hide Step, Run;
    if i == |es| - 1 {
      FreshSessions.TidyRun(front);
      BeginningIs(Run(New(), front), e);
    } else {
      BegunBefore(es, i, isPlayer);
      RoleIsKept(front, i, isPlayer);
      RoleStays(Run(New(), front), e);
    }
  }

  lemma BegunBefore(es: seq<Event>, i: nat, isPlayer: bool)
    requires BegunBy(es, i, isPlayer) && i < |es| - 1
    ensures BegunBy(es[..|es| - 1], i, isPlayer)
    ensures Run(New(), es[..|es| - 1]).setup.communicating
  {
    hide Run;
    var front := es[..|es| - 1];
    assert front[..i] == es[..i];
    forall j | i < j <= |front| ensures Run(New(), front[..j]).setup.communicating {
      assert front[..j] == es[..j];
    }
    assert front[..|front|] == front;
  }

  /** Every running session was begun by some start. */
  lemma {:induction false} SomeStartBegan(es: seq<Event>) returns (i: nat)
    requires Run(New(), es).setup.communicating
    ensures i < |es| && es[i].Start? && BegunBy(es, i, es[i].isPlayer)
  {
    assert es != [] && es[..|es|] == es;
    var front, e := es[..|es| - 1], es[|es| - 1];
    assert Run(New(), es) == Step(Run(New(), front), e);
    hide Step, Run;
    if Run(New(), front).setup.communicating {
      i := SomeStartBegan(front);
      assert front[..i] == es[..i];
      forall j | i < j <= |es| ensures Run(New(), es[..j]).setup.communicating {
        if j < |es| { assert front[..j] == es[..j]; }
      }
    } else {
      FreshSessions.TidyRun(front);
      BeginningIs(Run(New(), front), e);
      i := |front|;
    }
  }

  /** A session that has joined its room publishes with media exactly if it was not begun as a player. */
  lemma {:induction false} JoinedFollowsRole(es: seq<Event>, i: nat, isPlayer: bool, message: Message)
    requires BegunBy(es, i, isPlayer) && Run(New(), es).Online() && Protocol.Notifies(message.fields, "joinedTheRoom")
    ensures var s := Run(New(), es);
            var client := s.context.value.client.value;
            Run(New(), es + [Received(message)]).trace ==
            s.trace + [In(JoinedRoom), Sent(Publish(client.self, client.room, !isPlayer, !isPlayer))]
  {
    var s := Run(New(), es);
    Protocol.DecodeIs(message);
    assert Decode(message) == JoinedRoom;
    assert (es + [Received(message)])[..|es|] == es;
    assert Run(New(), es + [Received(message)]) == Handle(s, JoinedRoom) by { hide Handle, Decode; }
    hide Run, Handle, Decode;
    RoleIsKept(es, i, isPlayer);
    JoinedIs(s);
  }

  // ---- the media of own peer connections

  /** A track of the client's own media is added. */
  predicate IsLocal(e: Entry) {
    e.Called? && e.call.AddTrack? && (e.call.mid == "video-stream" || e.call.mid == "audio-stream")
  }

  predicate IsDescription(e: Entry) {
    e.In? && e.notice.RemoteSdp?
  }

  /** The client sets up a peer connection of its own accord: it is not made in answer to a description. */
  predicate SetUpAt(t: seq<Entry>, j: nat) {
    j < |t| && t[j].Made? && !Answers(t, j)
  }

  /** It is given a video and then an audio track at once. */
  predicate FittedAt(t: seq<Entry>, j: nat)
    requires j < |t| && t[j].Made?
  {
    && j + 2 < |t|
    && t[j + 1] == Called(t[j].peer, AddTrack("video-stream", "video"))
    && t[j + 2] == Called(t[j].peer, AddTrack("audio-stream", "audio"))
  }

  ghost predicate HasMedia(t: seq<Entry>, isPlayer: bool) {
    && (isPlayer ==> forall j :: 0 <= j < |t| ==> !IsLocal(t[j]))
    && (!isPlayer ==> forall j: nat :: SetUpAt(t, j) ==> FittedAt(t, j))
    && (forall j: nat :: j < |t| && IsLocal(t[j]) ==> (j >= 1 && SetUpAt(t, j - 1)) || (j >= 2 && SetUpAt(t, j - 2)))
    && (t == [] || !IsDescription(t[|t| - 1]))
  }

  /** What comes right before is a description. */
  predicate Answers(t: seq<Entry>, j: nat) {
    1 <= j <= |t| && IsDescription(t[j - 1])
  }

  /** Entries without media: a peer connection is made only in answer to a description, and is given none. */
  ghost predicate Plain(u: seq<Entry>) {
    && (forall j :: 0 <= j < |u| ==> !IsLocal(u[j]) && (u[j].Made? ==> Answers(u, j)))
    && (u == [] || !IsDescription(u[|u| - 1]))
  }

  lemma PlainKeeps(t: seq<Entry>, u: seq<Entry>, isPlayer: bool)
    requires HasMedia(t, isPlayer) && Plain(u)
    ensures HasMedia(t + u, isPlayer)
  {
    hide IsLocal, IsDescription;
    assert forall j :: |t| <= j < |t + u| ==> (t + u)[j] == u[j - |t|] && (u[j - |t|].Made? ==> Answers(u, j - |t|));
    forall j: nat | SetUpAt(t + u, j) ensures SetUpAt(t, j) {
    }
    forall j: nat | j < |t + u| && IsLocal((t + u)[j]) ensures j < |t| && IsLocal(t[j]) {
    }
  }

  /** An own peer connection just made, fitted out for the role. */
  lemma OwnKeeps(t: seq<Entry>, p: Peer, own: string, isPlayer: bool, hasChannel: bool)
    requires HasMedia(t, isPlayer)
    ensures HasMedia(t + OwnCalls(p, own, isPlayer, hasChannel), isPlayer)
  {
    var u := OwnCalls(p, own, isPlayer, hasChannel);
    var n := |t|;
    assert u[0] == Made(p) && forall j :: 1 <= j < |u| ==> u[j].Called?;
    assert !isPlayer ==> |u| >= 3 && u[1] == Called(p, AddTrack("video-stream", "video")) && u[2] == Called(p, AddTrack("audio-stream", "audio"));
    assert forall j :: 0 <= j < |u| && IsLocal(u[j]) ==> !isPlayer && 1 <= j <= 2;
    hide OwnCalls, IsLocal;
    assert SetUpAt(t + u, n) by { assert (t + u)[n] == u[0]; }
    forall j: nat | SetUpAt(t + u, j) ensures SetUpAt(t, j) || j == n {
      assert n <= j ==> (t + u)[j] == u[j - n];
    }
    forall j: nat | j < |t + u| && IsLocal((t + u)[j]) ensures (j < n && IsLocal(t[j])) || (!isPlayer && n + 1 <= j <= n + 2) {
      if j >= n { assert (t + u)[j] == u[j - n]; }
    }
    OwnIsFitted(t, u, isPlayer);
  }

  lemma OwnIsFitted(t: seq<Entry>, u: seq<Entry>, isPlayer: bool)
    requires HasMedia(t, isPlayer) && u != [] && u[0].Made? && !IsDescription(u[|u| - 1])
    requires forall j: nat :: SetUpAt(t + u, j) ==> SetUpAt(t, j) || j == |t|
    requires forall j: nat :: j < |t + u| && IsLocal((t + u)[j]) ==> (j < |t| && IsLocal(t[j])) || (!isPlayer && |t| + 1 <= j <= |t| + 2)
    requires SetUpAt(t + u, |t|)
    requires !isPlayer ==> |u| >= 3 && u[1] == Called(u[0].peer, AddTrack("video-stream", "video"))
                           && u[2] == Called(u[0].peer, AddTrack("audio-stream", "audio"))
    ensures HasMedia(t + u, isPlayer)
  {
    hide IsLocal, IsDescription;
    var w := t + u;
    forall j: nat | !isPlayer && SetUpAt(w, j) ensures FittedAt(w, j) {
      if j < |t| {
        assert SetUpAt(t, j) && FittedAt(t, j);
      }
    }
    forall j: nat | j < |w| && IsLocal(w[j]) ensures (j >= 1 && SetUpAt(w, j - 1)) || (j >= 2 && SetUpAt(w, j - 2)) {
      if j < |t| { assert IsLocal(t[j]); }
    }
    assert w[|w| - 1] == u[|u| - 1];
  }

  // ---- which entries each event adds

  lemma DescriptionIsPlain(s: State, k: string, kind: string, sdp: string, media: seq<Section>)
    ensures Plain([In(RemoteSdp(k, kind, sdp, media))] + Reply(s, RemoteSdp(k, kind, sdp, media)))
  {
    var p := PeerOf(s.peers, k, k == s.setup.roomId);
    var ts := OfferedTracks(kind, media);
    var u := SdpCalls(p, kind, sdp, media, Pending(s.pending, k));
    forall i | 0 <= i < |ts| ensures ts[i].mid != "video-stream" && ts[i].mid != "audio-stream" {
      NoLocalMid(media, i);
    }
    SdpCallsArePeers(p, kind, sdp, media, Pending(s.pending, k));
    CallsAreForeign(p, kind, sdp, media, Pending(s.pending, k));
    hide SdpCalls, OfferedTracks, IsLocal, Pending, Plain;
    MadeThenCalled(In(RemoteSdp(k, kind, sdp, media)), Making(s.peers, k, k == s.setup.roomId), u);
  }

  lemma MadeThenCalled(description: Entry, making: seq<Entry>, calls: seq<Entry>)
    requires IsDescription(description) && |making| <= 1 && (making != [] ==> making[0].Made?) && calls != []
    requires forall i :: 0 <= i < |calls| ==> calls[i].Called? && !IsLocal(calls[i])
    ensures Plain([description] + (making + calls))
  {
    var u := [description] + (making + calls);
    assert u[0] == description && forall j :: 0 < j < |u| ==> u[j] == if j <= |making| then making[j - 1] else calls[j - 1 - |making|];
  }

  lemma NoLocalMid(media: seq<Section>, i: nat)
    requires i < |Tracks(media)|
    ensures Tracks(media)[i].mid != "video-stream" && Tracks(media)[i].mid != "audio-stream"
  {
    hide Tracks, ChosenPayload, OffersToSend;
    TracksAreWellNamed(media, i);
    assert "video-stream"[0] == 'v' && "audio-stream"[0] == 'a';
  }

  lemma CallsAreForeign(p: Peer, kind: string, sdp: string, media: seq<Section>, queue: seq<Candidate>)
    requires var ts := OfferedTracks(kind, media); forall i :: 0 <= i < |ts| ==> ts[i].mid != "video-stream" && ts[i].mid != "audio-stream"
    ensures var u := SdpCalls(p, kind, sdp, media, queue); u != [] && forall i :: 0 <= i < |u| ==> !IsLocal(u[i])
  {
    hide OfferedTracks;
  }

  lemma NoticeIsPlain(s: State, n: Notice)
    ensures Plain([In(n)] + Reply(s, n))
  {
    hide SdpCalls, Ending, Making;
    match n
    case RemoteSdp(k, kind, sdp, media) => DescriptionIsPlain(s, k, kind, sdp, media);
    case PlayFinished(k) => EndingIs(s, k);
    case _ =>
  }

  lemma NoticeKeepsMedia(s: State, n: Notice, isPlayer: bool)
    requires HasMedia(s.trace, isPlayer)
    ensures HasMedia(Handle(s, n).trace, isPlayer)
  {
    hide Handle, Reply, Plain, HasMedia;
    HandleReplies(s, n);
    NoticeIsPlain(s, n);
    PlainKeeps(s.trace, [In(n)] + Reply(s, n), isPlayer);
  }

  lemma MinorKeepsMedia(s: State, e: Event, isPlayer: bool)
    requires IsMinor(e) && HasMedia(s.trace, isPlayer)
    ensures HasMedia(Step(s, e).trace, isPlayer)
  {
    hide Step, HasMedia;
    MinorStep(s, e);
    var s' := Step(s, e);
    assert s'.trace == s.trace + s'.trace[|s.trace|..];
    PlainKeeps(s.trace, s'.trace[|s.trace|..], isPlayer);
  }

  lemma OpeningKeepsMedia(s: State, isPlayer: bool)
    requires s.context.Some? && s.context.value.client.Some? && s.setup.onlyPlayer == isPlayer && HasMedia(s.trace, isPlayer)
    ensures HasMedia(Step(s, WsOpened).trace, isPlayer)
  {
    hide Step, HasMedia, OwnCalls;
    OpenedIs(s);
    var own, client := s.setup.publishStreamId, s.context.value.client.value;
    var p, had := Peer(s.peers.made, own, true), own in s.channels.local;
    var t := s.trace + if own in s.peers.pcs then [] else OwnCalls(p, own, isPlayer, had);
    if own in s.peers.pcs { assert t == s.trace; } else { OwnKeeps(s.trace, p, own, isPlayer, had); }
    PlainKeeps(t, [Sent(JoinRoom(client.self, client.room))], isPlayer);
  }

  lemma StepKeepsMedia(s: State, e: Event, isPlayer: bool)
    requires FreshSessions.Tidy(s) && s.setup.communicating && Step(s, e).setup.communicating
    requires s.setup.onlyPlayer == isPlayer && HasMedia(s.trace, isPlayer)
    ensures HasMedia(Step(s, e).trace, isPlayer)
  {
    if IsMinor(e) {
      MinorKeepsMedia(s, e, isPlayer);
    } else if Occurs(s, e) {
      hide HasMedia, Handle, OnOpened;
      match e
      case Received(message) => NoticeKeepsMedia(s, Decode(message), isPlayer);
      case WsOpened => OpeningKeepsMedia(s, isPlayer);
      case _ =>
    }
  }

  lemma BeginningHasMedia(s: State, e: Event)
    requires FreshSessions.Tidy(s) && !s.setup.communicating && Step(s, e).setup.communicating
    ensures e.Start? && HasMedia(Step(s, e).trace, e.isPlayer)
  {
    BeginningIs(s, e);
    assert s.trace == [];
    hide Step, OwnCalls;
    OwnKeeps([], Peer(s.peers.made, s.setup.publishStreamId, true), s.setup.publishStreamId, e.isPlayer, false);
  }

  lemma {:induction false} RunHasMedia(es: seq<Event>, i: nat, isPlayer: bool)
    requires BegunBy(es, i, isPlayer)
    ensures HasMedia(Run(New(), es).trace, isPlayer)
  {
    assert es[..|es|] == es;
    var front, e := es[..|es| - 1], es[|es| - 1];
    assert Run(New(), es) == Step(Run(New(), front), e);
    hide Step, Run, HasMedia, FreshSessions.Tidy;
    FreshSessions.TidyRun(front);
    if i == |es| - 1 {
      BeginningHasMedia(Run(New(), front), e);
    } else {
      BegunBefore(es, i, isPlayer);
      RoleIsKept(front, i, isPlayer);
      RunHasMedia(front, i, isPlayer);
      StepKeepsMedia(Run(New(), front), e, isPlayer);
    }
  }

  /**
    In every session, whatever happens in it: each peer connection the client sets up of its own accord is at once given
    the video and then the audio track of the client's media if and only if the session was not begun as a player; no
    other ever is, and a player's none.
   */
  lemma {:induction false} MediaFollowsRole(es: seq<Event>, i: nat, isPlayer: bool)
    requires BegunBy(es, i, isPlayer)
    ensures var t := Run(New(), es).trace;
            && (forall j: nat :: SetUpAt(t, j) ==> (FittedAt(t, j) <==> !isPlayer))
            && (forall j: nat :: j < |t| && IsLocal(t[j]) ==>
                  !isPlayer && ((j >= 1 && SetUpAt(t, j - 1)) || (j >= 2 && SetUpAt(t, j - 2))))
  {
    var t := Run(New(), es).trace;
    RunHasMedia(es, i, isPlayer);
    hide Run;
    forall j: nat | isPlayer && SetUpAt(t, j) ensures !FittedAt(t, j) {
      assert j + 1 < |t| ==> !IsLocal(t[j + 1]);
    }
  }
}
