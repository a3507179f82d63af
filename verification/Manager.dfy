/**
  The manager as it is written: objects whose methods insert into and erase from the tracking maps and call out as they
  go. Every method is proved to take the abstract state exactly where the state machine of module Conference says.
 */
module Manager {
  import opened Wrappers
  import opened RecvTracks
  import opened Signaling
  import opened Conference
  import opened Orders

  /** The outside as the manager meets it: the trace of what was told to it and what it was told. */
  class Outside {
    ghost var past: seq<Entry>
    ghost var trace: seq<Entry>

    constructor ()
      ensures past == [] && trace == []
    {
      past, trace := [], [];
    }

    method Note(e: Entry)
      modifies `trace
      ensures trace == old(trace) + [e]
    {
      trace := trace + [e];
    }
  }

  /** The signalling client: it numbers the candidates it sends, and hands what it reads to the callbacks attached. */
  class SignalingClient {
    const self: string
    const room: string
    var nextLabel: nat
    var attached: bool

    constructor (self: string, room: string)
      ensures this.self == self && this.room == room && nextLabel == 0 && !attached
    {
      this.self, this.room, nextLabel, attached := self, room, 0, false;
    }

    function Abs(): Client
      reads this
    {
      Client(self, room, nextLabel)
    }

    method Shutdown()
      modifies `attached
      ensures !attached
    {
      attached := false;
    }
  }

  /** The signalling context: the socket, whether it is open and listened to, and, once connected, the client. */
  class SignalingContext {
    const outside: Outside
    const room: string
    var wsOpen: bool
    var listening: bool
    var client: SignalingClient?

    constructor (outside: Outside, room: string)
      ensures this.outside == outside && Abs() == Context(room, false, None) && client == null && !listening
    {
      this.outside, this.room, wsOpen, listening, client := outside, room, false, false, null;
    }

    function Abs(): Context
      reads this, client
    {
      Context(room, wsOpen, if client == null then None else Some(client.Abs()))
    }

    /** Replace the client, attach its callbacks and the socket's; whether the socket then opens is up to the network. */
    method Connect(self: string, connects: bool) returns (ok: bool)
      modifies this
      ensures ok == connects
      ensures client != null && fresh(client) && client.attached && listening
      ensures Abs() == Context(room, false, Some(Client(self, room, 0)))
    {
      wsOpen := false;
      client := new SignalingClient(self, room);
      client.attached := true;
      listening := true;
      ok := connects;
    }

    /** Stop listening to the socket, and close it if it is open. */
    method Disconnect()
      modifies this, outside`trace
      ensures client == old(client) && !wsOpen && !listening
      ensures outside.trace == old(outside.trace) + if old(wsOpen) then [SocketClosed] else []
    {
      listening := false;
      if wsOpen {
        outside.Note(SocketClosed);
      }
      wsOpen := false;
    }

    /** Detach the client's callbacks, then drop it. */
    method ShutdownClient()
      modifies this, client
      ensures client == null && wsOpen == old(wsOpen) && listening == old(listening)
      ensures old(client) != null ==> !old(client).attached
    {
      if client != null {
        client.Shutdown();
        client := null;
      }
    }

    method Transmit(c: Command)
      modifies outside`trace
      ensures outside.trace == old(outside.trace) + if client != null && wsOpen then [Sent(c)] else []
    {
      if client != null && wsOpen {
        outside.Note(Sent(c));
      }
    }

    /** The label is taken before the command is handed to the socket. */
    method SendTakeCandidate(stream: string, c: Candidate)
      modifies outside`trace, client
      ensures client == old(client)
      ensures Abs() == if client == null then old(Abs())
                       else old(Abs()).(client := Some(old(client.Abs()).(nextLabel := old(client.nextLabel) + 1)))
      ensures outside.trace == old(outside.trace)
              + if client != null && wsOpen then [Sent(TakeCandidate(stream, c.text, c.mid, old(client.nextLabel)))] else []
    {
      if client != null {
        var n := client.nextLabel;
        client.nextLabel := n + 1;
        Transmit(TakeCandidate(stream, c.text, c.mid, n));
      }
    }
  }

  class WebRTCManager {
    const outside: Outside
    var setup: Setup
    var context: SignalingContext?
    var peers: Peers
    var requests: Requests
    var pending: map<string, seq<Candidate>>
    var inbound: Inbound
    var channels: Channels

    ghost predicate Valid()
      reads this, context
    {
      context != null ==> context.outside == outside
    }

    ghost function Parts(): set<object>
      reads this, context
    {
      {this, outside}
      + (if context == null then {} else {context})
      + if context == null || context.client == null then {} else {context.client}
    }

    ghost function Abs(): State
      reads this, outside, context, if context == null then null else context.client
    {
      State(setup, if context == null then None else Some(context.Abs()),
            peers, requests, pending, inbound, channels, outside.past, outside.trace)
    }

    constructor ()
      ensures Valid() && Abs() == New() && fresh(outside)
    {
      outside := new Outside();
      setup := Setup("", "room1", "", false, false, false);
      context := null;
      peers, requests, pending, inbound, channels := NO_PEERS, NO_REQUESTS, map[], NO_INBOUND, NO_CHANNELS;
    }

    // ---- what the callers set

    method SetSignalingServerURL(url: string)
      requires Valid()
      modifies this`setup
      ensures Abs() == Step(old(Abs()), SetUrl(url))
    {
      setup := setup.(url := url);
    }

    method SetRoomId(room: string)
      requires Valid()
      modifies this`setup
      ensures Abs() == Step(old(Abs()), SetRoom(room))
    {
      setup := setup.(roomId := room);
    }

    method SetStreamId(stream: string)
      requires Valid()
      modifies this`setup
      ensures Abs() == Step(old(Abs()), SetStream(stream))
    {
      setup := setup.(publishStreamId := stream);
    }

    // ---- commands

    method SendCommand(c: Command)
      requires Valid()
      modifies outside`trace
      ensures Abs() == Send(old(Abs()), c)
    {
      if context != null {
        context.Transmit(c);
      }
    }

    function Room(): string
      reads this, context
    {
      if context != null && context.client != null then context.client.room else ""
    }

    function Self(): string
      reads this, context
    {
      if context != null && context.client != null then context.client.self else ""
    }

    // ---- peer connections

    method CreatePeerIfNotExist(k: string, notifies: bool) returns (pc: Peer)
      requires Valid()
      modifies this`peers, outside`trace
      ensures Abs() == CreatePeer(old(Abs()), k, notifies)
      ensures k in peers.pcs && pc == peers.pcs[k]
    {
      if k in peers.pcs {
        return peers.pcs[k];
      }
      pc := Peer(peers.made, k, notifies);
      peers := peers.(closed := peers.closed - {k}, made := peers.made + 1);
      peers := peers.(pcs := peers.pcs[k := pc]);
      peers := peers.(isPublisher := peers.isPublisher[k := false]);
      outside.Note(Made(pc));
    }

    method SetupLocalTracks(pc: Peer)
      requires Valid()
      modifies outside`trace
      ensures Abs() == Emit(old(Abs()), LocalTracks(pc))
    {
      outside.Note(Called(pc, AddTrack("video-stream", "video")));
      outside.Note(Called(pc, AddTrack("audio-stream", "audio")));
    }

    /** What an own peer connection is given: media unless only playing, and a data channel if it lost its old one. */
    method Equip(pc: Peer, k: string)
      requires Valid()
      modifies this`channels, outside`trace
      ensures channels == OpenLocal(old(channels), k)
      ensures outside.trace == old(outside.trace) + SetupCalls(old(Abs()), pc, k)
    {
      if !setup.onlyPlayer {
        SetupLocalTracks(pc);
      }
      if k !in channels.local {
        outside.Note(Called(pc, OpenChannel(k)));
        channels := channels.(local := channels.local[k := false]);
      }
    }

    method SetupOwnPeer(k: string)
      requires Valid()
      modifies this`peers, this`setup, this`channels, outside`trace
      ensures Abs() == SetupPublishPeer(old(Abs()), k)
    {
      if k in peers.pcs {
        return;
      }
      var pc := CreatePeerIfNotExist(k, true);
      setup := setup.(publishStreamId := k);
      peers := peers.(isPublisher := peers.isPublisher[k := true]);
      assert peers.isPublisher == old(peers.isPublisher)[k := true];
      Equip(pc, k);
    }

    method CloseDataChannels(k: string)
      requires Valid()
      modifies this`channels, outside`trace
      ensures channels == old(channels).(local := old(channels).local - {k}, remote := old(channels).remote - {k})
      ensures outside.trace == old(outside.trace) + CloseChannel(old(channels).local, k) + CloseChannel(old(channels).remote, k)
    {
      if k in channels.local {
        if channels.local[k] {
          outside.Note(ChannelClosed(k));
        }
        channels := channels.(local := channels.local - {k});
      }
      if k in channels.remote {
        if channels.remote[k] {
          outside.Note(ChannelClosed(k));
        }
        channels := channels.(remote := channels.remote - {k});
      }
    }

    method RemovePeerIfNotExist(k: string)
      requires Valid()
      modifies this`channels, this`peers, this`requests, outside`trace
      ensures Abs() == RemovePeer(old(Abs()), k)
    {
      CloseDataChannels(k);
      if k in peers.pcs {
        outside.Note(Called(peers.pcs[k], Close));
        peers := peers.(pcs := peers.pcs - {k});
      }
      peers := peers.(closed := peers.closed - {k});
      requests := requests.(played := requests.played - {k});
      requests := requests.(sendPlay := requests.sendPlay - {k});
    }

    // ---- descriptions and candidates

    /** The codec loop of one section: the payload of the first codec that matches, and no further. */
    method PayloadOf(sec: Section) returns (payload: int)
      ensures payload == ChosenPayload(sec)
    {
      payload := -1;
      var j := 0;
      while j < |sec.rtp|
        invariant 0 <= j <= |sec.rtp|
        invariant payload == -1
        invariant forall i :: 0 <= i < j ==> !Matches(sec.kind, sec.rtp[i])
      {
        if Matches(sec.kind, sec.rtp[j]) {
          payload := sec.rtp[j].payload.GetOr(-1);
          ChosenPayloadIs(sec, j);
          return;
        }
        j := j + 1;
      }
    }

    method PrepareSection(pc: Peer, sec: Section)
      requires Valid()
      modifies this`inbound, outside`trace
      ensures inbound == old(inbound).(midTypeMap := NoteTypes(old(inbound).midTypeMap, SectionTracks(sec)))
      ensures outside.trace == old(outside.trace) + TrackCalls(pc, SectionTracks(sec))
    {
      hide NoteTypes, TrackCalls;
      FewTracks(pc, inbound.midTypeMap, Track("", ""));
      if OffersToSend(sec) {
        var payload := PayloadOf(sec);
        if payload >= 0 {
          var name := TrackName(sec.kind, payload);
          FewTracks(pc, inbound.midTypeMap, Track(name, sec.kind));
          outside.Note(Called(pc, AddTrack(name, sec.kind)));
          inbound := inbound.(midTypeMap := inbound.midTypeMap[name := sec.kind]);
        }
      }
    }

    method PrepareRecvTracksFromSDP(pc: Peer, sections: seq<Section>)
      requires Valid()
      modifies this`inbound, outside`trace
      ensures inbound == old(inbound).(midTypeMap := NoteTypes(old(inbound).midTypeMap, Tracks(sections)))
      ensures outside.trace == old(outside.trace) + TrackCalls(pc, Tracks(sections))
    {
      hide NoteTypes, TrackCalls, SectionTracks;
      var n := 0;
      FewTracks(pc, inbound.midTypeMap, Track("", ""));
      while n < |sections|
        invariant 0 <= n <= |sections|
        invariant inbound == old(inbound).(midTypeMap := NoteTypes(old(inbound).midTypeMap, Tracks(sections[..n])))
        invariant outside.trace == old(outside.trace) + TrackCalls(pc, Tracks(sections[..n]))
      {
        NextTracks(pc, old(inbound).midTypeMap, sections, n);
        PrepareSection(pc, sections[n]);
        n := n + 1;
      }
      assert sections[..n] == sections;
    }

    method FlushPendingCandidates(pc: Peer, k: string)
      requires Valid()
      modifies this`pending, outside`trace
      ensures pending == old(pending) - {k}
      ensures outside.trace == old(outside.trace) + CandidateCalls(pc, Pending(old(pending), k))
    {
      if k in pending {
        var cs := pending[k];
        var n := 0;
        while n < |cs|
          invariant 0 <= n <= |cs|
          invariant pending == old(pending)
          invariant outside.trace == old(outside.trace) + CandidateCalls(pc, cs[..n])
        {
          assert cs[..n + 1] == cs[..n] + [cs[n]];
          assert CandidateCalls(pc, cs[..n + 1]) == CandidateCalls(pc, cs[..n]) + [Called(pc, AddCandidate(cs[n]))];
          outside.Note(Called(pc, AddCandidate(cs[n])));
          n := n + 1;
        }
        assert cs[..n] == cs;
        pending := pending - {k};
      }
    }

    /** The tracks an offer asks for come before its description, the queued candidates after it, the answer last. */
    method Apply(pc: Peer, k: string, kind: string, sdp: string, sections: seq<Section>)
      requires Valid()
      modifies this`pending, this`inbound, outside`trace
      ensures pending == old(pending) - {k}
      ensures inbound == old(inbound).(midTypeMap := NoteTypes(old(inbound).midTypeMap, OfferedTracks(kind, sections)))
      ensures outside.trace == old(outside.trace) + SdpCalls(pc, kind, sdp, sections, Pending(old(pending), k))
    {
      hide NoteTypes, TrackCalls, CandidateCalls, Pending, Tracks;
      if kind == "offer" {
        PrepareRecvTracksFromSDP(pc, sections);
      } else {
        FewTracks(pc, inbound.midTypeMap, Track("", ""));
      }
      outside.Note(Called(pc, SetRemote(KindOf(kind), sdp)));
      FlushPendingCandidates(pc, k);
      if kind == "offer" {
        outside.Note(Called(pc, SetLocal(Answer)));
      }
    }

    method OnRemoteSdp(k: string, kind: string, sdp: string, sections: seq<Section>)
      requires Valid()
      modifies this, outside
      ensures Abs() == HandleRemoteSdp(old(Abs()), k, kind, sdp, sections)
      ensures Valid() && context == old(context)
    {
      var pc := CreatePeerIfNotExist(k, k == setup.roomId);
      Apply(pc, k, kind, sdp, sections);
    }

    method OnRemoteCandidate(k: string, text: string, mid: string)
      requires Valid()
      modifies this`pending, outside`trace
      ensures Abs() == AddRemoteCandidate(old(Abs()), k, text, mid)
    {
      if text == "" {
        return;
      }
      if k !in peers.pcs {
        var queue := if k in pending then pending[k] else [];
        pending := pending[k := queue + [Candidate(text, mid)]];
        return;
      }
      outside.Note(Called(peers.pcs[k], AddCandidate(Candidate(text, mid))));
    }

    method StartOfferTo(k: string)
      requires Valid()
      modifies outside`trace
      ensures Abs() == OfferTo(old(Abs()), k)
    {
      if k in peers.pcs {
        outside.Note(Called(peers.pcs[k], SetLocal(Offer)));
      }
    }

    // ---- notifications

    method RequestRoom()
      requires Valid()
      modifies this`requests, outside`trace
      ensures Abs() == PlayRoom(old(Abs()))
    {
      requests := requests.(sendPlay := requests.sendPlay[setup.roomId := true]);
      SendCommand(Play(Room(), Room()));
    }

    method OnPlayFinishedNotification(k: string)
      requires Valid()
      modifies this, outside
      ensures Abs() == OnPlayFinished(old(Abs()), k)
      ensures Valid() && context == old(context)
    {
      if k != "" {
        RemovePeerIfNotExist(k);
        if k == setup.roomId {
          RequestRoom();
        }
      }
    }

    method OnSubtrackAddedNotification(k: string)
      requires Valid()
      modifies this`requests, outside`trace
      ensures Abs() == OnSubtrackAdded(old(Abs()), k)
    {
      if k != "" && k != setup.publishStreamId {
        if k in peers.pcs {
          if k !in peers.closed {
            return;
          }
        }
        if k in requests.sendPlay && requests.sendPlay[k] {
          return;
        }
        requests := requests.(sendPlay := requests.sendPlay[k := true]);
        SendCommand(Play(Room(), k));
      }
    }

    /** The notifications, each to its handler. */
    method DispatchNotification(notice: Notice)
      requires Valid() && !notice.StartOffer? && !notice.RemoteSdp? && !notice.RemoteCandidate?
      modifies this, outside
      ensures Abs() == Dispatch(old(Abs()), notice)
      ensures Valid() && context == old(context)
    {
      hide OnPlayFinished, OnSubtrackAdded, PlayRoom, Send;
      match notice
      case JoinedRoom => SendCommand(Publish(Self(), Room(), !setup.onlyPlayer, !setup.onlyPlayer));
      case PublishStarted =>
        if setup.roomId !in requests.sendPlay {
          RequestRoom();
        }
      case PlayStarted(k) =>
        if k != "" {
          requests := requests.(played := requests.played[k := true]);
        }
      case PlayFinished(k) => OnPlayFinishedNotification(k);
      case SubtrackAdded(k) => OnSubtrackAddedNotification(k);
      case SubtrackRemoved(k) =>
        if k != "" {
          requests := requests.(sendPlay := requests.sendPlay - {k});
        }
      case Ignored =>
    }

    method OnMessage(message: Message)
      requires Valid()
      modifies this, outside
      ensures Abs() == Handle(old(Abs()), Decode(message))
      ensures Valid() && context == old(context)
    {
      hide Decode, OfferTo, HandleRemoteSdp, AddRemoteCandidate, OnPlayFinished, OnSubtrackAdded, PlayRoom, Send;
      var notice := Decode(message);
      outside.Note(In(notice));
      match notice
      case StartOffer(k) => StartOfferTo(k);
      case RemoteSdp(k, kind, sdp, sections) => OnRemoteSdp(k, kind, sdp, sections);
      case RemoteCandidate(k, text, mid) => OnRemoteCandidate(k, text, mid);
      case _ => DispatchNotification(notice);
    }

    // ---- callbacks of the socket, the peer connections and the data channels

    method OnConnected()
      requires Valid() && context != null
      modifies this, outside, context
      ensures Abs() == OnOpened(old(Abs()))
      ensures Valid() && context == old(context) && context.client == old(context.client)
    {
      context.wsOpen := true;
      SetupOwnPeer(setup.publishStreamId);
      SendCommand(JoinRoom(Self(), Room()));
    }

    method OnDisconnected()
      requires Valid() && context != null
      modifies context
      ensures Abs() == SetOpen(old(Abs()), false)
      ensures Valid() && context == old(context) && context.client == old(context.client)
    {
      context.wsOpen := false;
    }

    method OnPeerDescription(k: string, kind: SdpKind, sdp: string)
      requires Valid()
      modifies outside`trace
      ensures Abs() == OnLocalDescription(old(Abs()), k, kind, sdp)
    {
      SendCommand(TakeConfiguration(k, if kind.Offer? then "offer" else "answer", sdp));
    }

    method OnDataChannel(name: string)
      requires Valid()
      modifies this`channels
      ensures Abs() == OnChannel(old(Abs()), name)
    {
      if name in channels.remote {
        return;
      }
      channels := channels.(remote := channels.remote[name := false]);
    }

    method OnPeerCandidate(k: string, c: Candidate)
      requires Valid()
      modifies Parts()
      ensures Abs() == OnLocalCandidate(old(Abs()), k, c)
      ensures Valid() && context == old(context)
      ensures context != null ==> context.client == old(context.client)
    {
      if context != null {
        context.SendTakeCandidate(k, c);
      }
    }

    method AddRemoteTrack(k: string, mid: string, stated: string)
      requires Valid()
      modifies this`inbound
      ensures Abs() == OnTrack(old(Abs()), k, mid, stated)
    {
      var kind := if mid in inbound.midTypeMap then inbound.midTypeMap[mid] else stated;
      var known := if k in inbound.remoteTracks then inbound.remoteTracks[k] else [];
      inbound := inbound.(remoteTracks := inbound.remoteTracks[k := known + [RemoteTrack(mid, stated, kind)]]);
    }

    /** The handler of a remote track's frames: what it reads of who is talking is put to no use. */
    method OnTrackFrame(k: string, i: nat, binary: bool)
      requires Valid() && k in inbound.remoteTracks && i < |inbound.remoteTracks[k]|
      modifies outside`trace
      ensures Abs() == OnFrame(old(Abs()), k, i, binary)
    {
      if inbound.remoteTracks[k][i].kind == "audio" && binary {
        var playStream := false;
        if k in channels.talking {
          playStream := channels.talking[k];
        }
        if setup.media {
          outside.Note(Pushed(k));
        }
      }
    }

    method HandleDataChannelText(sender: string, text: string)
      requires Valid()
      modifies this`channels
      ensures Abs() == OnChannelText(old(Abs()), sender, text)
    {
      if text == "iamtalking" {
        channels := channels.(talking := channels.talking[sender := true]);
      } else if text == "iammute" {
        channels := channels.(talking := channels.talking[sender := false]);
      }
    }

    // ---- sessions

    /** Detach the callbacks of a peer connection, then close it. */
    method Part(pc: Peer)
      requires Valid()
      modifies outside`trace
      ensures outside.trace == old(outside.trace) + Parting(pc)
    {
      outside.Note(Called(pc, Detach(TrackHook)));
      outside.Note(Called(pc, Detach(CandidateHook)));
      outside.Note(Called(pc, Detach(DescriptionHook)));
      outside.Note(Called(pc, Close));
    }

    /** Part with what the hash map holds, in whatever order it is walked; `order` reports that order. */
    method CloseAll() returns (ghost order: seq<string>)
      requires Valid()
      modifies outside`trace
      ensures Enumerates(order, peers.pcs.Keys)
      ensures outside.trace == old(outside.trace) + Closings(peers.pcs, order)
    {
      hide Parting;
      order := [];
      var pcs := peers.pcs;
      var rest := pcs.Keys;
      while rest != {}
        invariant rest <= pcs.Keys
        invariant Enumerates(order, pcs.Keys - rest)
        invariant outside.trace == old(outside.trace) + Closings(pcs, order)
        decreases |rest|
      {
        var k :| k in rest;
        assert (order + [k])[..|order|] == order;
        Part(pcs[k]);
        order := order + [k];
        rest := rest - {k};
      }
    }

    method SayGoodbye()
      requires Valid()
      modifies outside`trace
      ensures outside.trace == old(outside.trace) + Farewell(old(Abs()))
    {
      var own := setup.publishStreamId;
      if context != null && own != "" && own in peers.isPublisher && peers.isPublisher[own] {
        context.Transmit(StopStream(Self()));
        context.Transmit(StopStream(Room()));
        context.Transmit(LeaveRoom(Room()));
      }
    }

    /** Disconnect the signalling context, shut its client down, and drop it. */
    method DropContext()
      requires Valid()
      modifies this`context, outside`trace, context, if context == null then null else context.client
      ensures context == null
      ensures outside.trace == old(outside.trace) + if old(context) != null && old(context.wsOpen) then [SocketClosed] else []
      ensures old(context) != null ==> old(context).client == null && !old(context).listening
    {
      if context != null {
        context.Disconnect();
        context.ShutdownClient();
        context := null;
      }
    }

    /** Say goodbye, drop the media, part with every peer connection. */
    method PartWithAll() returns (ghost order: seq<string>)
      requires Valid()
      modifies this`setup, outside`trace
      ensures setup == old(setup).(media := false)
      ensures Enumerates(order, peers.pcs.Keys)
      ensures outside.trace == old(outside.trace) + Farewell(old(Abs())) + Closings(peers.pcs, order)
    {
      hide Farewell, Closings, Enumerates;
      SayGoodbye();
      setup := setup.(media := false);
      order := CloseAll();
    }

    /** Clear every tracking map. */
    method Forget()
      modifies this`peers, this`channels, this`inbound, this`requests, this`pending
      ensures peers == Peers(map[], map[], {}, old(peers).made) && channels == NO_CHANNELS && inbound == NO_INBOUND
      ensures requests == NO_REQUESTS && pending == map[]
    {
      peers := Peers(map[], map[], {}, peers.made);
      channels, inbound, requests, pending := NO_CHANNELS, NO_INBOUND, NO_REQUESTS, map[];
    }

    method CleanupResources() returns (ghost order: seq<string>)
      requires Valid()
      modifies this, outside, context, if context == null then null else context.client
      ensures Enumerates(order, old(peers.pcs).Keys)
      ensures Abs() == Cleanup(old(Abs()), order)
      ensures Valid() && context == null
      ensures old(context) != null ==> old(context).client == null && !old(context).listening
    {
      hide Farewell, Closings;
      ghost var s := Abs();
      order := PartWithAll();
      assert outside.trace == s.trace + Farewell(s) + Closings(s.peers.pcs, order);
      Forget();
      DropContext();
      assert outside.trace == s.trace + Farewell(s) + Closings(s.peers.pcs, order) + Hangup(s);
      outside.past, outside.trace := outside.past + outside.trace, [];
      assert outside.past == s.past + s.trace + Farewell(s) + Closings(s.peers.pcs, order) + Hangup(s);
    }

    method BeginSession(isPlayer: bool, connects: bool) returns (ok: bool)
      requires Valid()
      modifies this, outside`trace
      ensures Abs() == Begin(old(Abs()), isPlayer)
      ensures Valid() && ok == connects
      ensures context != null && fresh(context) && context.client != null && fresh(context.client)
    {
      setup := setup.(onlyPlayer := isPlayer, communicating := true, media := true);
      context := new SignalingContext(outside, setup.roomId);
      SetupOwnPeer(setup.publishStreamId);
      ok := context.Connect(setup.publishStreamId, connects);
    }

    method Start2WayCommunication(isPlayer: bool, connects: bool) returns (ok: bool, ghost order: seq<string>)
      requires Valid()
      modifies this, outside
      ensures Occurs(old(Abs()), Start(isPlayer, connects, order))
      ensures Abs() == Step(old(Abs()), Start(isPlayer, connects, order))
      ensures ok == (old(setup.communicating) || (old(setup.url) != "" && old(setup.url) != "AMS_WEBSOCKET_URL" && connects))
      ensures Valid() && fresh(Parts() - old(Parts()))
    {
      hide SetupPublishPeer, Farewell, Closings, Hangup, Handle, OnOpened;
      order := [];
      if setup.communicating {
        return true, [];
      }
      if setup.url == "" || setup.url == NO_URL {
        return false, [];
      }
      ok := BeginSession(isPlayer, connects);
      if !ok {
        order := CleanupResources();
        setup := setup.(communicating := false);
      }
    }

    method Stop2WayCommunication() returns (ghost order: seq<string>)
      requires Valid()
      modifies Parts()
      ensures Occurs(old(Abs()), Stop(order))
      ensures Abs() == Step(old(Abs()), Stop(order))
      ensures Valid() && Parts() <= old(Parts())
    {
      hide SetupPublishPeer, Farewell, Closings, Hangup, Handle, OnOpened;
      order := [];
      if setup.communicating {
        order := CleanupResources();
        setup := setup.(communicating := false);
      }
    }

    // ---- what the library's objects do by themselves

    method ChannelTurned(remote: bool, name: string, open: bool)
      requires Valid() && name in (if remote then channels.remote else channels.local)
      modifies this`channels
      ensures Abs() == Step(old(Abs()), ChannelState(remote, name, open))
    {
      if remote {
        channels := channels.(remote := channels.remote[name := open]);
      } else {
        channels := channels.(local := channels.local[name := open]);
      }
    }

    method PeerTurnedClosed(k: string)
      requires Valid() && k in peers.pcs
      modifies this`peers
      ensures Abs() == Step(old(Abs()), PeerClosed(k))
    {
      peers := peers.(closed := peers.closed + {k});
    }
  }
}
