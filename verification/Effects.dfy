/**
  What each event does, spelled out: the whole new state and the entries added, in terms of what the state holds and what
  the event says, and of nothing else.
 */
module Effects {
  import opened Orders
  import opened RecvTracks
  import opened Signaling
  import opened Conference
  import opened Wrappers

  // ---- descriptions

  /** The calls that add tracks to a peer connection, one for each in order. */
  ghost predicate AddsTracks(adds: seq<Entry>, p: Peer, ts: seq<Track>) {
    |adds| == |ts| && forall i :: 0 <= i < |ts| ==> adds[i] == Called(p, AddTrack(ts[i].mid, ts[i].kind))
  }

  /** The calls that hand candidates to a peer connection, one for each in order. */
  ghost predicate HandsOver(calls: seq<Entry>, p: Peer, cs: seq<Candidate>) {
    |calls| == |cs| && forall i :: 0 <= i < |cs| ==> calls[i] == Called(p, AddCandidate(cs[i]))
  }

  /** The types noted: those of the tracks under their mids, the last track of a mid counting, and all others as before. */
  ghost predicate NotesTypes(before: map<string, string>, after: map<string, string>, ts: seq<Track>) {
    && (forall mid :: mid in after <==> mid in before || exists i :: 0 <= i < |ts| && ts[i].mid == mid)
    && (forall i :: 0 <= i < |ts| && (forall j :: i < j < |ts| ==> ts[j].mid != ts[i].mid) ==>
          ts[i].mid in after && after[ts[i].mid] == ts[i].kind)
    && (forall mid :: mid in before && (forall i :: 0 <= i < |ts| ==> ts[i].mid != mid) ==>
          mid in after && after[mid] == before[mid])
  }

  lemma {:induction false} NotedMids(m: map<string, string>, ts: seq<Track>, mid: string)
    ensures mid in NoteTypes(m, ts) <==> mid in m || exists i :: 0 <= i < |ts| && ts[i].mid == mid
  {
    if ts == [] {
    } else {
      var front, last := ts[..|ts| - 1], ts[|ts| - 1];
      NotedMids(m, front, mid);
      hide NoteTypes;
      if i :| 0 <= i < |front| && front[i].mid == mid { assert ts[i].mid == mid; }
      if i :| 0 <= i < |ts| && ts[i].mid == mid { assert i == |front| || front[i].mid == mid; }
      assert last.mid == mid ==> ts[|ts| - 1].mid == mid;
      NotedLast(m, ts);
    }
  }

  lemma NotedLast(m: map<string, string>, ts: seq<Track>)
    requires ts != []
    ensures NoteTypes(m, ts) == NoteTypes(m, ts[..|ts| - 1])[ts[|ts| - 1].mid := ts[|ts| - 1].kind]
  {
  }

  lemma {:induction false} NotedKinds(m: map<string, string>, ts: seq<Track>, i: nat)
    requires i < |ts| && forall j :: i < j < |ts| ==> ts[j].mid != ts[i].mid
    ensures ts[i].mid in NoteTypes(m, ts) && NoteTypes(m, ts)[ts[i].mid] == ts[i].kind
  {
    hide NoteTypes;
    NotedLast(m, ts);
    if i < |ts| - 1 {
      assert forall j :: i < j < |ts| - 1 ==> ts[..|ts| - 1][j] == ts[j];
      NotedKinds(m, ts[..|ts| - 1], i);
    }
  }

  lemma {:induction false} NotedElsewhere(m: map<string, string>, ts: seq<Track>, mid: string)
    requires mid in m && forall i :: 0 <= i < |ts| ==> ts[i].mid != mid
    ensures mid in NoteTypes(m, ts) && NoteTypes(m, ts)[mid] == m[mid]
  {
    if ts == [] {
    } else {
      assert forall j :: 0 <= j < |ts| - 1 ==> ts[..|ts| - 1][j] == ts[j];
      NotedElsewhere(m, ts[..|ts| - 1], mid);
    }
  }

  lemma NoteTypesNotes(m: map<string, string>, ts: seq<Track>)
    ensures NotesTypes(m, NoteTypes(m, ts), ts)
  {
    hide NoteTypes;
    forall mid ensures mid in NoteTypes(m, ts) <==> mid in m || exists i :: 0 <= i < |ts| && ts[i].mid == mid {
      NotedMids(m, ts, mid);
    }
    forall i | 0 <= i < |ts| && forall j :: i < j < |ts| ==> ts[j].mid != ts[i].mid
      ensures ts[i].mid in NoteTypes(m, ts) && NoteTypes(m, ts)[ts[i].mid] == ts[i].kind
    {
      NotedKinds(m, ts, i);
    }
    forall mid | mid in m && forall i :: 0 <= i < |ts| ==> ts[i].mid != mid
      ensures mid in NoteTypes(m, ts) && NoteTypes(m, ts)[mid] == m[mid]
    {
      NotedElsewhere(m, ts, mid);
    }
  }

  /**
    A description: its peer connection is the stream's, made if there is none; an offer, and nothing else, first adds the
    tracks of its sections to it, each noted; then the description is set, the queued candidates are handed over and the
    queue is gone, and an offer is answered.
   */
  lemma DescriptionIs(s: State, k: string, kind: string, sdp: string, media: seq<Section>)
    returns (p: Peer, adds: seq<Entry>, calls: seq<Entry>)
    ensures var n := RemoteSdp(k, kind, sdp, media);
            var s' := Handle(s, n);
            && p == (if k in s.peers.pcs then s.peers.pcs[k] else Peer(s.peers.made, k, k == s.setup.roomId))
            && AddsTracks(adds, p, if kind == "offer" then Tracks(media) else [])
            && HandsOver(calls, p, if k in s.pending then s.pending[k] else [])
            && s'.trace == s.trace + [In(n)] + (if k in s.peers.pcs then [] else [Made(p)]) + adds
                           + [Called(p, SetRemote(if kind == "offer" then Offer else Answer, sdp))] + calls
                           + (if kind == "offer" then [Called(p, SetLocal(Answer))] else [])
            && NotesTypes(s.inbound.midTypeMap, s'.inbound.midTypeMap, if kind == "offer" then Tracks(media) else [])
            && s'.peers == (if k in s.peers.pcs then s.peers
                            else Peers(s.peers.pcs[k := p], s.peers.isPublisher[k := false], s.peers.closed - {k}, s.peers.made + 1))
            && s'.pending == s.pending - {k}
            && s' == s.(peers := s'.peers, pending := s'.pending, trace := s'.trace,
                        inbound := s.inbound.(midTypeMap := s'.inbound.midTypeMap))
  {
    hide *;
    p, adds, calls := DescriptionTrace(s, k, kind, sdp, media);
    DescriptionState(s, k, kind, sdp, media);
  }

  lemma DescriptionTrace(s: State, k: string, kind: string, sdp: string, media: seq<Section>)
    returns (p: Peer, adds: seq<Entry>, calls: seq<Entry>)
    ensures var n := RemoteSdp(k, kind, sdp, media);
            && p == (if k in s.peers.pcs then s.peers.pcs[k] else Peer(s.peers.made, k, k == s.setup.roomId))
            && AddsTracks(adds, p, if kind == "offer" then Tracks(media) else [])
            && HandsOver(calls, p, if k in s.pending then s.pending[k] else [])
            && Handle(s, n).trace == s.trace + [In(n)] + (if k in s.peers.pcs then [] else [Made(p)]) + adds
                           + [Called(p, SetRemote(if kind == "offer" then Offer else Answer, sdp))] + calls
                           + (if kind == "offer" then [Called(p, SetLocal(Answer))] else [])
  {
    hide Handle, TrackCalls, CandidateCalls, Tracks, AddsTracks, HandsOver;
    var n := RemoteSdp(k, kind, sdp, media);
    p := PeerOf(s.peers, k, k == s.setup.roomId);
    adds := TrackCalls(p, OfferedTracks(kind, media));
    calls := CandidateCalls(p, Pending(s.pending, k));
    var made := Making(s.peers, k, k == s.setup.roomId);
    var remote := [Called(p, SetRemote(KindOf(kind), sdp))];
    var answer := if kind == "offer" then [Called(p, SetLocal(Answer))] else [];
    HandleReplies(s, n);
    assert Reply(s, n) == made + (adds + remote + calls + answer);
    Regroup(s.trace, [In(n)], made, adds, remote, calls, answer);
    AddsAreTracks(p, OfferedTracks(kind, media));
    CallsHandOver(p, Pending(s.pending, k));
  }

  lemma Regroup<T>(t: seq<T>, a: seq<T>, b: seq<T>, c: seq<T>, d: seq<T>, e: seq<T>, f: seq<T>)
    ensures t + (a + (b + (c + d + e + f))) == t + a + b + c + d + e + f
  {
  }

  lemma DescriptionState(s: State, k: string, kind: string, sdp: string, media: seq<Section>)
    ensures var s' := Handle(s, RemoteSdp(k, kind, sdp, media));
            var p := if k in s.peers.pcs then s.peers.pcs[k] else Peer(s.peers.made, k, k == s.setup.roomId);
            && NotesTypes(s.inbound.midTypeMap, s'.inbound.midTypeMap, if kind == "offer" then Tracks(media) else [])
            && s'.peers == (if k in s.peers.pcs then s.peers
                            else Peers(s.peers.pcs[k := p], s.peers.isPublisher[k := false], s.peers.closed - {k}, s.peers.made + 1))
            && s'.pending == s.pending - {k}
            && s' == s.(peers := s'.peers, pending := s'.pending, trace := s'.trace,
                        inbound := s.inbound.(midTypeMap := s'.inbound.midTypeMap))
  {
    hide NoteTypes, NotesTypes, SdpCalls, Tracks, Making;
    NoteTypesNotes(s.inbound.midTypeMap, OfferedTracks(kind, media));
  }

  lemma AddsAreTracks(p: Peer, ts: seq<Track>)
    ensures AddsTracks(TrackCalls(p, ts), p, ts)
  {
  }

  lemma CallsHandOver(p: Peer, cs: seq<Candidate>)
    ensures HandsOver(CandidateCalls(p, cs), p, cs)
  {
  }

  /** After an offer the mid of each of its tracks is noted as that track's type: equal mids have equal types. */
  lemma OfferedAreNoted(s: State, k: string, sdp: string, media: seq<Section>, i: nat)
    requires i < |Tracks(media)|
    ensures var m := Handle(s, RemoteSdp(k, "offer", sdp, media)).inbound.midTypeMap;
            Tracks(media)[i].mid in m && m[Tracks(media)[i].mid] == Tracks(media)[i].kind
  {
    hide Handle, Tracks;
    var ts := Tracks(media);
    var p, adds, calls := DescriptionIs(s, k, "offer", sdp, media);
    var last := LastOfMid(ts, ts[i].mid, i);
    MidsDecide(media, i, last);
  }

  lemma {:induction false} LastOfMid(ts: seq<Track>, mid: string, i: nat) returns (j: nat)
    requires i < |ts| && ts[i].mid == mid
    ensures j < |ts| && ts[j].mid == mid && forall h :: j < h < |ts| ==> ts[h].mid != mid
    decreases |ts| - i
  {
    if h :| i < h < |ts| && ts[h].mid == mid {
      j := LastOfMid(ts, mid, h);
    } else {
      j := i;
    }
  }

  lemma MidsDecide(media: seq<Section>, i: nat, j: nat)
    requires i < |Tracks(media)| && j < |Tracks(media)| && Tracks(media)[i].mid == Tracks(media)[j].mid
    ensures Tracks(media)[i].kind == Tracks(media)[j].kind
  {
    hide Tracks, TrackName, ChosenPayload;
    TracksAreWellNamed(media, i);
    TracksAreWellNamed(media, j);
    var a, p: nat :| a in media && OffersToSend(a) && p == ChosenPayload(a) && Tracks(media)[i] == Track(TrackName(a.kind, p), a.kind);
    var b, q: nat :| b in media && OffersToSend(b) && q == ChosenPayload(b) && Tracks(media)[j] == Track(TrackName(b.kind, q), b.kind);
    TrackNameInjective(a.kind, p, b.kind, q);
  }

  // ---- the other messages

  /** A start: the stream's peer connection, if it has one, sets a local offer. */
  lemma StartIs(s: State, k: string)
    ensures var s' := Handle(s, StartOffer(k));
            s' == s.(trace := s.trace + [In(StartOffer(k))]
                              + if k in s.peers.pcs then [Called(s.peers.pcs[k], SetLocal(Offer))] else [])
  {
  }

  /** Having joined, the client publishes its own stream into its room, with media unless it only plays. */
  lemma JoinedIs(s: State)
    requires s.Online()
    ensures var client := s.context.value.client.value;
            var media := !s.setup.onlyPlayer;
            Handle(s, JoinedRoom) ==
            s.(trace := s.trace + [In(JoinedRoom), Sent(Publish(client.self, client.room, media, media))])
  {
    assert [In(JoinedRoom)] + Reply(s, JoinedRoom) == [In(JoinedRoom), Reply(s, JoinedRoom)[0]];
  }

  /** Once publishing has started the room is asked for, unless it has been. */
  lemma PublishStartedIs(s: State)
    requires s.Online()
    ensures var room := s.context.value.client.value.room;
            Handle(s, PublishStarted) ==
            if s.setup.roomId in s.requests.sendPlay then s.(trace := s.trace + [In(PublishStarted)])
            else s.(requests := s.requests.(sendPlay := s.requests.sendPlay[s.setup.roomId := true]),
                    trace := s.trace + [In(PublishStarted), Sent(Play(room, room))])
  {
    var room := s.context.value.client.value.room;
    assert s.trace + [In(PublishStarted)] + [Sent(Play(room, room))] == s.trace + [In(PublishStarted), Sent(Play(room, room))];
  }

  /** A stream that plays is noted, if it has a name. */
  lemma PlayStartedIs(s: State, k: string)
    ensures Handle(s, PlayStarted(k)) ==
            s.(requests := s.requests.(played := if k == "" then s.requests.played else s.requests.played[k := true]),
               trace := s.trace + [In(PlayStarted(k))])
  {
  }

  /**
    A named stream that finished: its open data channels are closed, its peer connection too, and all three forgotten with
    its two flags; the room is asked for again.
   */
  lemma PlayFinishedIs(s: State, k: string)
    requires s.Online() && k != ""
    ensures var room := s.context.value.client.value.room;
            var flags := s.requests.sendPlay - {k};
            Handle(s, PlayFinished(k)) ==
            s.(channels := s.channels.(local := s.channels.local - {k}, remote := s.channels.remote - {k}),
               peers := s.peers.(pcs := s.peers.pcs - {k}, closed := s.peers.closed - {k}),
               requests := Requests(if k == s.setup.roomId then flags[k := true] else flags, s.requests.played - {k}),
               trace := s.trace + [In(PlayFinished(k))]
                        + (if k in s.channels.local && s.channels.local[k] then [ChannelClosed(k)] else [])
                        + (if k in s.channels.remote && s.channels.remote[k] then [ChannelClosed(k)] else [])
                        + (if k in s.peers.pcs then [Called(s.peers.pcs[k], Close)] else [])
                        + (if k == s.setup.roomId then [Sent(Play(room, room))] else []))
  {
  }

  lemma UnnamedFinishIs(s: State)
    ensures Handle(s, PlayFinished("")) == s.(trace := s.trace + [In(PlayFinished(""))])
  {
  }

  /**
    A track added is asked for if and only if it has a name, is not the own stream, has no peer connection or one that has
    closed, and is not flagged as asked for; and then it is flagged.
   */
  lemma SubtrackAddedIs(s: State, k: string)
    requires s.Online()
    ensures var asks := && k != "" && k != s.setup.publishStreamId
                        && (k !in s.peers.pcs || k in s.peers.closed)
                        && (k !in s.requests.sendPlay || !s.requests.sendPlay[k]);
            Handle(s, SubtrackAdded(k)) ==
            s.(requests := s.requests.(sendPlay := if asks then s.requests.sendPlay[k := true] else s.requests.sendPlay),
               trace := s.trace + [In(SubtrackAdded(k))]
                        + if asks then [Sent(Play(s.context.value.client.value.room, k))] else [])
  {
  }

  /** A track removed is no longer flagged. */
  lemma SubtrackRemovedIs(s: State, k: string)
    ensures Handle(s, SubtrackRemoved(k)) ==
            s.(requests := s.requests.(sendPlay := if k == "" then s.requests.sendPlay else s.requests.sendPlay - {k}),
               trace := s.trace + [In(SubtrackRemoved(k))])
  {
  }

  /** What is ignored is only recorded. */
  lemma IgnoredIs(s: State)
    ensures Handle(s, Ignored) == s.(trace := s.trace + [In(Ignored)])
  {
  }

  /**
    A candidate: an empty one is dropped; one for a stream without a peer connection waits, last in its stream's queue; any
    other is handed over.
   */
  lemma RemoteCandidateIs(s: State, k: string, text: string, mid: string)
    ensures var n, c := RemoteCandidate(k, text, mid), Candidate(text, mid);
            var waiting := if k in s.pending then s.pending[k] else [];
            Handle(s, n) ==
            if text == "" then s.(trace := s.trace + [In(n)])
            else if k in s.peers.pcs then s.(trace := s.trace + [In(n)] + [Called(s.peers.pcs[k], AddCandidate(c))])
            else s.(trace := s.trace + [In(n)], pending := s.pending[k := waiting + [c]])
  {
  }

  /** A message is handled if there is a client and its socket is open, and only then. */
  lemma ReceivedIs(s: State, message: Message)
    ensures Step(s, Received(message)) ==
            if s.context.Some? && s.context.value.client.Some? && s.context.value.wsOpen
            then Handle(s, Decode(message)) else s
  {
    hide Handle, Decode;
  }

  // ---- callbacks

  /** A local candidate is sent for its stream with its text and mid under the next label. */
  lemma LocalCandidateIs(s: State, k: string, c: Candidate)
    requires s.Online() && k in s.peers.pcs
    ensures var client := s.context.value.client.value;
            Step(s, LocalCandidate(k, c)) ==
            s.(context := Some(s.context.value.(client := Some(client.(nextLabel := client.nextLabel + 1)))),
               trace := s.trace + [Sent(TakeCandidate(k, c.text, c.mid, client.nextLabel))])
  {
  }

  /** While the socket is closed it is not, but takes its label. */
  lemma UnsentCandidateIs(s: State, k: string, c: Candidate)
    requires s.context.Some? && s.context.value.client.Some? && !s.context.value.wsOpen && k in s.peers.pcs
    ensures var client := s.context.value.client.value;
            Step(s, LocalCandidate(k, c)) ==
            s.(context := Some(s.context.value.(client := Some(client.(nextLabel := client.nextLabel + 1)))))
  {
    assert s.trace + [] == s.trace;
  }

  /** A local description is sent for its stream, called an offer or an answer, with its text. */
  lemma LocalDescriptionIs(s: State, k: string, kind: SdpKind, sdp: string)
    requires k in s.peers.pcs
    ensures Step(s, LocalDescription(k, kind, sdp)) ==
            s.(trace := s.trace + if !s.Online() then []
                                  else [Sent(TakeConfiguration(k, if kind == Offer then "offer" else "answer", sdp))])
  {
  }

  /** A track is kept last among its stream's, handled as the type noted for its mid, or as the type it states. */
  lemma TrackArrivedIs(s: State, k: string, mid: string, stated: string)
    requires k in s.peers.pcs
    ensures var known := if k in s.inbound.remoteTracks then s.inbound.remoteTracks[k] else [];
            var kind := if mid in s.inbound.midTypeMap then s.inbound.midTypeMap[mid] else stated;
            Step(s, TrackArrived(k, mid, stated)) ==
            s.(inbound := s.inbound.(remoteTracks := s.inbound.remoteTracks[k := known + [RemoteTrack(mid, stated, kind)]]))
  {
  }

  /** A remote data channel is kept, closed as yet, unless one of its name is. */
  lemma ChannelArrivedIs(s: State, k: string, name: string)
    requires k in s.peers.pcs && s.peers.pcs[k].channels
    ensures Step(s, ChannelArrived(k, name)) ==
            if name in s.channels.remote then s
            else s.(channels := s.channels.(remote := s.channels.remote[name := false]))
  {
  }

  /** The two talk messages say who talks and who does not; any other text says nothing. */
  lemma ChannelTextIs(s: State, name: string, sender: string, text: string)
    requires name in s.channels.local || name in s.channels.remote
    ensures var talking := s.channels.talking;
            Step(s, ChannelText(name, sender, text)) ==
            s.(channels := s.channels.(talking :=
                 if text == "iamtalking" then talking[sender := true]
                 else if text == "iammute" then talking[sender := false]
                 else talking))
  {
    assert "iamtalking"[3] == 't' && "iammute"[3] == 'm';
  }

  /** A data channel that turns open or closed, of those kept for the side it is on. */
  lemma ChannelStateIs(s: State, name: string, open: bool)
    ensures Step(s, ChannelState(true, name, open)) ==
            if name in s.channels.remote then s.(channels := s.channels.(remote := s.channels.remote[name := open])) else s
    ensures Step(s, ChannelState(false, name, open)) ==
            if name in s.channels.local then s.(channels := s.channels.(local := s.channels.local[name := open])) else s
  {
    hide Handle;
  }

  lemma PeerClosedIs(s: State, k: string)
    ensures Step(s, PeerClosed(k)) ==
            if k in s.peers.pcs then s.(peers := s.peers.(closed := s.peers.closed + {k})) else s
  {
    hide Handle;
  }

  // ---- sessions

  /** What an own peer connection just made is given: media unless only playing, and a data channel if none is kept. */
  function OwnCalls(p: Peer, own: string, onlyPlayer: bool, hasChannel: bool): seq<Entry> {
    [Made(p)]
    + (if onlyPlayer then []
       else [Called(p, AddTrack("video-stream", "video")), Called(p, AddTrack("audio-stream", "audio"))])
    + (if hasChannel then [] else [Called(p, OpenChannel(own))])
  }

  /** The socket opens: the own peer connection is set up if it is not there, and the client joins its room. */
  lemma OpenedIs(s: State)
    requires s.context.Some? && s.context.value.client.Some?
    ensures var own, client := s.setup.publishStreamId, s.context.value.client.value;
            var p := Peer(s.peers.made, own, true);
            Step(s, WsOpened).trace == s.trace
              + (if own in s.peers.pcs then []
                 else OwnCalls(p, own, s.setup.onlyPlayer, own in s.channels.local))
              + [Sent(JoinRoom(client.self, client.room))]
  {
    hide OwnCalls;
    OwnCallsAre(s, s.setup.publishStreamId);
    hide SetupCalls;
    var s1 := SetOpen(s, true);
    OwnCallsOpen(s, s.setup.publishStreamId);
    OpenedTrace(s);
  }

  lemma OwnCallsAre(s: State, own: string)
    ensures var p := Peer(s.peers.made, own, true);
            [Made(p)] + SetupCalls(s, p, own) == OwnCalls(p, own, s.setup.onlyPlayer, own in s.channels.local)
  {
  }

  lemma OwnCallsOpen(s: State, own: string)
    requires s.context.Some?
    ensures var p := Peer(s.peers.made, own, true); SetupCalls(SetOpen(s, true), p, own) == SetupCalls(s, p, own)
  {
  }

  lemma OpenedTrace(s: State)
    requires s.context.Some? && s.context.value.client.Some?
    ensures var own, client := s.setup.publishStreamId, s.context.value.client.value;
            var p := Peer(s.peers.made, own, true);
            Step(s, WsOpened).trace == s.trace
              + (if own in s.peers.pcs then [] else [Made(p)] + SetupCalls(SetOpen(s, true), p, own))
              + [Sent(JoinRoom(client.self, client.room))]
  {
    hide SetupCalls;
  }

  /** What else an opening changes: the flag, and the own peer connection, which publishes, and its channel. */
  lemma OpenedStateIs(s: State)
    requires s.context.Some?
    ensures var own, s' := s.setup.publishStreamId, Step(s, WsOpened);
            && s'.context == Some(s.context.value.(wsOpen := true))
            && s' == s.(context := s'.context, peers := s'.peers, channels := s'.channels, trace := s'.trace)
            && s'.peers == (if own in s.peers.pcs then s.peers
                            else Peers(s.peers.pcs[own := Peer(s.peers.made, own, true)], s.peers.isPublisher[own := true],
                                       s.peers.closed - {own}, s.peers.made + 1))
            && s'.channels == (if own in s.peers.pcs || own in s.channels.local then s.channels
                               else s.channels.(local := s.channels.local[own := false]))
  {
    hide SetupCalls;
  }

  /** The socket closes: nothing else changes. */
  lemma ClosedIs(s: State)
    requires s.context.Some?
    ensures Step(s, WsClosed) == s.(context := Some(s.context.value.(wsOpen := false)))
  {
  }

  /** A start begins a session if none runs and the URL has been set to one that can be used; otherwise nothing happens. */
  lemma StartsIff(s: State, isPlayer: bool, order: seq<string>)
    ensures if !s.setup.communicating && s.setup.url != "" && s.setup.url != "AMS_WEBSOCKET_URL"
            then Step(s, Start(isPlayer, true, order)).setup.communicating && Step(s, Start(isPlayer, true, order)).context.Some?
            else Step(s, Start(isPlayer, true, order)) == s
  {
    hide SetupCalls;
  }

  /** The session begun: its role, its client for the own stream and the room, and the own peer connection with its calls. */
  lemma BegunIs(s: State, isPlayer: bool, order: seq<string>)
    requires !s.setup.communicating && s.setup.url != "" && s.setup.url != "AMS_WEBSOCKET_URL"
    requires s.peers.pcs == map[] && s.channels == NO_CHANNELS
    ensures var own, s' := s.setup.publishStreamId, Step(s, Start(isPlayer, true, order));
            var p := Peer(s.peers.made, own, true);
            && s'.setup == s.setup.(onlyPlayer := isPlayer, communicating := true, media := true)
            && s'.context == Some(Context(s.setup.roomId, false, Some(Client(own, s.setup.roomId, 0))))
            && s'.peers.pcs == map[own := p] && s'.peers.made == s.peers.made + 1
            && s'.channels.local == map[own := false] && s'.channels.remote == map[]
            && s'.trace == s.trace + OwnCalls(p, own, isPlayer, false)
            && s'.requests == s.requests && s'.pending == s.pending && s'.inbound == s.inbound && s'.past == s.past
  {
    var own := s.setup.publishStreamId;
    OwnCallsAre(Opening(s, isPlayer), own);
    hide SetupCalls, OwnCalls;
  }

  /** A start whose connection fails: the own peer connection is made and parted with, and nothing else stays changed. */
  lemma FailedStartIs(s: State, isPlayer: bool)
    requires !s.setup.communicating && s.setup.url != "" && s.setup.url != "AMS_WEBSOCKET_URL"
    requires s.peers.pcs == map[] && s.channels == NO_CHANNELS
    ensures var own := s.setup.publishStreamId;
            var p := Peer(s.peers.made, own, true);
            var s' := Step(s, Start(isPlayer, false, [own]));
            && s'.past == s.past + (s.trace + OwnCalls(p, own, isPlayer, false))
                 + [Called(p, Detach(TrackHook)), Called(p, Detach(CandidateHook)), Called(p, Detach(DescriptionHook)), Called(p, Close)]
            && s' == State(s.setup.(onlyPlayer := isPlayer, communicating := false, media := false), None,
                           Peers(map[], map[], {}, s.peers.made + 1),
                           Requests(map[], map[]), map[], Inbound(map[], map[]), Channels(map[], map[], map[]), s'.past, [])
  {
    var own := s.setup.publishStreamId;
    var p := Peer(s.peers.made, own, true);
    BegunIs(s, isPlayer, [own]);
    var b := Begin(s, isPlayer);
    assert Enumerates([own], b.peers.pcs.Keys);
    assert Closings(b.peers.pcs, [own]) == Parting(p) by { assert [own][..0] == []; }
    assert Farewell(b) == [] && Hangup(b) == [];
    hide Begin, OwnCalls, Closings, Farewell, Hangup, Parting;
    FailedEndsClean(s, isPlayer);
  }

  lemma FailedEndsClean(s: State, isPlayer: bool)
    requires !s.setup.communicating && s.setup.url != "" && s.setup.url != "AMS_WEBSOCKET_URL"
    requires var own := s.setup.publishStreamId; Enumerates([own], Begin(s, isPlayer).peers.pcs.Keys)
    ensures var own := s.setup.publishStreamId;
            Step(s, Start(isPlayer, false, [own])) == Idle(Cleanup(Begin(s, isPlayer), [own]))
  {
    hide Begin, Cleanup;
  }

  // ---- the end of a session

  /** Each held peer connection, in order: the three callbacks are detached, then it is closed. */
  ghost predicate Parts(entries: seq<Entry>, pcs: map<string, Peer>, order: seq<string>)
    requires forall i :: 0 <= i < |order| ==> order[i] in pcs
  {
    && |entries| == 4 * |order|
    && forall i :: 0 <= i < |order| ==>
         && entries[4 * i] == Called(pcs[order[i]], Detach(TrackHook))
         && entries[4 * i + 1] == Called(pcs[order[i]], Detach(CandidateHook))
         && entries[4 * i + 2] == Called(pcs[order[i]], Detach(DescriptionHook))
         && entries[4 * i + 3] == Called(pcs[order[i]], Close)
  }

  lemma {:induction false} ClosingsPart(pcs: map<string, Peer>, order: seq<string>)
    requires forall i :: 0 <= i < |order| ==> order[i] in pcs
    ensures Parts(Closings(pcs, order), pcs, order)
  {
    hide Parts, Parting;
    if order == [] {
      NoneParts(pcs);
    } else {
      var front := order[..|order| - 1];
      ClosingsPart(pcs, front);
      MoreParts(Closings(pcs, front), pcs, order);
    }
  }

  lemma NoneParts(pcs: map<string, Peer>)
    ensures Parts([], pcs, [])
  {
  }

  lemma MoreParts(entries: seq<Entry>, pcs: map<string, Peer>, order: seq<string>)
    requires order != [] && forall i :: 0 <= i < |order| ==> order[i] in pcs
    requires Parts(entries, pcs, order[..|order| - 1])
    ensures Parts(entries + Parting(pcs[order[|order| - 1]]), pcs, order)
  {
    var front, u := order[..|order| - 1], entries + Parting(pcs[order[|order| - 1]]);
    assert |u| == 4 * |order|;
    forall i | 0 <= i < |front|
      ensures front[i] == order[i] && u[4 * i] == entries[4 * i] && u[4 * i + 1] == entries[4 * i + 1]
      ensures u[4 * i + 2] == entries[4 * i + 2] && u[4 * i + 3] == entries[4 * i + 3]
    {
    }
  }

  /**
    The end of a session: the farewell of one that announced its stream, on an open socket; the partings in the order the
    hash map is walked; the closing of an open socket. Nothing stays tracked but the number of peer connections made.
   */
  lemma StopIs(s: State, order: seq<string>) returns (partings: seq<Entry>)
    requires s.setup.communicating && Enumerates(order, s.peers.pcs.Keys)
    requires s.context.Some? && s.context.value.client.Some?
    ensures Parts(partings, s.peers.pcs, order)
    ensures var own, client, open := s.setup.publishStreamId, s.context.value.client.value, s.context.value.wsOpen;
            var announced := own != "" && own in s.peers.isPublisher && s.peers.isPublisher[own];
            var s' := Step(s, Stop(order));
            && s'.past == s.past + s.trace
                 + (if announced && open
                    then [Sent(StopStream(client.self)), Sent(StopStream(client.room)), Sent(LeaveRoom(client.room))] else [])
                 + partings + (if open then [SocketClosed] else [])
            && s' == State(s.setup.(media := false, communicating := false), None, Peers(map[], map[], {}, s.peers.made),
                           Requests(map[], map[]), map[], Inbound(map[], map[]), Channels(map[], map[], map[]), s'.past, [])
  {
    partings := Closings(s.peers.pcs, order);
    ClosingsPart(s.peers.pcs, order);
    hide Closings, Parts;
  }

  /** What the callers set, and a manager just built. */
  lemma SettingsAre(s: State, text: string)
    ensures Step(s, SetUrl(text)) == s.(setup := s.setup.(url := text))
    ensures Step(s, SetRoom(text)) == s.(setup := s.setup.(roomId := text))
    ensures Step(s, SetStream(text)) == s.(setup := s.setup.(publishStreamId := text))
    ensures New().setup.roomId == "room1" && New().setup.url == "" && New().setup.publishStreamId == ""
  {
  }
}
