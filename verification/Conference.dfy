/**
  The conference manager as a state machine: its tracking maps, its signalling context, and the trace of what it
  did to the outside (calls on peer connections, commands on the wire) in reply to what it was told.
 */
module Conference {
  import opened Orders
  import opened Wrappers
  import opened RecvTracks
  import opened Signaling

  datatype Candidate = Candidate(text: string, mid: string)

  datatype SdpKind = Offer | Answer

  /** The identity of a peer connection: when it was made, for which stream, and whether it reports data channels. */
  datatype Peer = Peer(serial: nat, stream: string, channels: bool)

  /** The callbacks a peer connection is given when it is made. */
  datatype Hook = TrackHook | CandidateHook | DescriptionHook

  /** A call on a peer connection. */
  datatype Call =
    | AddTrack(mid: string, media: string)
    | OpenChannel(name: string)
    | SetRemote(remote: SdpKind, sdp: string)
    | SetLocal(local: SdpKind)
    | AddCandidate(candidate: Candidate)
    | Detach(hook: Hook)
    | Close

  datatype Entry =
    | In(notice: Notice)
    | Made(peer: Peer)
    | Called(peer: Peer, call: Call)
    | ChannelClosed(name: string)
    | Sent(command: Command)
    | Pushed(stream: string)
    | SocketClosed

  /** A remote track: its mid, the type its description states, and the type its audio handler goes by. */
  datatype RemoteTrack = RemoteTrack(mid: string, stated: string, kind: string)

  /** The signalling client made at connection: whom it speaks for, and the next candidate's number. */
  datatype Client = Client(self: string, room: string, nextLabel: nat)

  datatype Context = Context(room: string, wsOpen: bool, client: Option<Client>)

  /** What the callers of the API set, and how the session was started. */
  datatype Setup = Setup(url: string, roomId: string, publishStreamId: string,
                         onlyPlayer: bool, communicating: bool, media: bool)

  /** The peer connections by stream, which of them publish, and those closed underneath the manager. */
  datatype Peers = Peers(pcs: map<string, Peer>, isPublisher: map<string, bool>, closed: set<string>, made: nat)

  datatype Requests = Requests(sendPlay: map<string, bool>, played: map<string, bool>)

  datatype Inbound = Inbound(remoteTracks: map<string, seq<RemoteTrack>>, midTypeMap: map<string, string>)

  /** The data channels by name, with whether each is open, and who is talking. */
  datatype Channels = Channels(local: map<string, bool>, remote: map<string, bool>, talking: map<string, bool>)

  datatype State = State(
    setup: Setup,
    context: Option<Context>,
    peers: Peers,
    requests: Requests,
    pending: map<string, seq<Candidate>>,
    inbound: Inbound,
    channels: Channels,
    past: seq<Entry>,
    trace: seq<Entry>)
  {
    /** Commands reach the wire only through an existing client and an open socket. */
    predicate Online() {
      context.Some? && context.value.client.Some? && context.value.wsOpen
    }
  }

  /** Everything that can happen to a manager. `order` is the order in which the hash map of peers is walked. */
  datatype Event =
    | SetUrl(url: string)
    | SetRoom(room: string)
    | SetStream(stream: string)
    | Start(isPlayer: bool, connects: bool, order: seq<string>)
    | Stop(order: seq<string>)
    | WsOpened
    | WsClosed
    | Received(message: Message)
    | LocalCandidate(stream: string, candidate: Candidate)
    | LocalDescription(stream: string, kind: SdpKind, sdp: string)
    | TrackArrived(stream: string, mid: string, stated: string)
    | FrameArrived(stream: string, index: nat, binary: bool)
    | ChannelArrived(stream: string, name: string)
    | ChannelState(remote: bool, name: string, open: bool)
    | ChannelText(name: string, sender: string, text: string)
    | PeerClosed(stream: string)

  const NO_URL := "AMS_WEBSOCKET_URL"

  const NO_PEERS := Peers(map[], map[], {}, 0)
  const NO_REQUESTS := Requests(map[], map[])
  const NO_INBOUND := Inbound(map[], map[])
  const NO_CHANNELS := Channels(map[], map[], map[])

  /** A manager just built. */
  function New(): State {
    State(Setup("", "room1", "", false, false, false), None, NO_PEERS, NO_REQUESTS, map[], NO_INBOUND, NO_CHANNELS, [], [])
  }

  function Emit(s: State, es: seq<Entry>): State {
    s.(trace := s.trace + es)
  }

  function Wire(s: State, c: Command): seq<Entry> {
    if s.Online() then [Sent(c)] else []
  }

  function Send(s: State, c: Command): State {
    Emit(s, Wire(s, c))
  }

  // ---- peer connections

  function PeerOf(ps: Peers, k: string, channels: bool): Peer {
    if k in ps.pcs then ps.pcs[k] else Peer(ps.made, k, channels)
  }

  function Make(ps: Peers, k: string, channels: bool): Peers {
    if k in ps.pcs then ps
    else Peers(ps.pcs[k := Peer(ps.made, k, channels)], ps.isPublisher[k := false], ps.closed - {k}, ps.made + 1)
  }

  function Making(ps: Peers, k: string, channels: bool): seq<Entry> {
    if k in ps.pcs then [] else [Made(Peer(ps.made, k, channels))]
  }

  function CreatePeer(s: State, k: string, channels: bool): State {
    s.(peers := Make(s.peers, k, channels), trace := s.trace + Making(s.peers, k, channels))
  }

  function LocalTracks(p: Peer): seq<Entry> {
    [Called(p, AddTrack("video-stream", "video")), Called(p, AddTrack("audio-stream", "audio"))]
  }

  function SetupCalls(s: State, p: Peer, k: string): seq<Entry> {
    (if s.setup.onlyPlayer then [] else LocalTracks(p))
    + (if k in s.channels.local then [] else [Called(p, OpenChannel(k))])
  }

  function OpenLocal(cs: Channels, k: string): Channels {
    if k in cs.local then cs else cs.(local := cs.local[k := false])
  }

  /** The own peer connection, if the stream has none yet: media unless only playing, and a data channel. */
  function SetupPublishPeer(s: State, k: string): State {
    if k in s.peers.pcs then s
    else
      var p := Peer(s.peers.made, k, true);
      s.(setup := s.setup.(publishStreamId := k),
         peers := Peers(s.peers.pcs[k := p], s.peers.isPublisher[k := true], s.peers.closed - {k}, s.peers.made + 1),
         channels := OpenLocal(s.channels, k),
         trace := s.trace + [Made(p)] + SetupCalls(s, p, k))
  }

  function CloseChannel(open: map<string, bool>, k: string): seq<Entry> {
    if k in open && open[k] then [ChannelClosed(k)] else []
  }

  function ClosePeer(pcs: map<string, Peer>, k: string): seq<Entry> {
    if k in pcs then [Called(pcs[k], Close)] else []
  }

  /** Drop what is tracked under a stream, except its queued candidates, its publisher flag and its tracks. */
  function RemovePeer(s: State, k: string): State {
    s.(peers := s.peers.(pcs := s.peers.pcs - {k}, closed := s.peers.closed - {k}),
       requests := Requests(s.requests.sendPlay - {k}, s.requests.played - {k}),
       channels := s.channels.(local := s.channels.local - {k}, remote := s.channels.remote - {k}),
       trace := s.trace + CloseChannel(s.channels.local, k) + CloseChannel(s.channels.remote, k)
                + ClosePeer(s.peers.pcs, k))
  }

  // ---- descriptions and candidates

  function TrackCalls(p: Peer, ts: seq<Track>): seq<Entry> {
    seq(|ts|, i requires 0 <= i < |ts| => Called(p, AddTrack(ts[i].mid, ts[i].kind)))
  }

  /** The track-type map after the tracks `ts` were added: a later track overrides an earlier one of the same mid. */
  function NoteTypes(m: map<string, string>, ts: seq<Track>): map<string, string> {
    if ts == [] then m
    else NoteTypes(m, ts[..|ts| - 1])[ts[|ts| - 1].mid := ts[|ts| - 1].kind]
  }

  lemma FewTracks(p: Peer, m: map<string, string>, t: Track)
    ensures TrackCalls(p, []) == [] && NoteTypes(m, []) == m
    ensures TrackCalls(p, [t]) == [Called(p, AddTrack(t.mid, t.kind))] && NoteTypes(m, [t]) == m[t.mid := t.kind]
  {
    assert [t][..0] == [];
  }

  lemma MoreTracks(p: Peer, m: map<string, string>, ts: seq<Track>, us: seq<Track>)
    requires |us| <= 1
    ensures TrackCalls(p, ts + us) == TrackCalls(p, ts) + TrackCalls(p, us)
    ensures NoteTypes(m, ts + us) == NoteTypes(NoteTypes(m, ts), us)
  {
    if us == [] {
      assert ts + us == ts;
    } else {
      assert (ts + us)[..|ts|] == ts;
      assert us[..0] == [];
    }
  }

  /** Preparing the sections one after the other comes to the same as preparing them all. */
  lemma NextTracks(p: Peer, m: map<string, string>, media: seq<Section>, n: nat)
    requires n < |media|
    ensures TrackCalls(p, Tracks(media[..n + 1])) == TrackCalls(p, Tracks(media[..n])) + TrackCalls(p, SectionTracks(media[n]))
    ensures NoteTypes(m, Tracks(media[..n + 1])) == NoteTypes(NoteTypes(m, Tracks(media[..n])), SectionTracks(media[n]))
  {
    hide Tracks, TrackCalls, NoteTypes;
    TracksOfNext(media, n);
    MoreTracks(p, m, Tracks(media[..n]), SectionTracks(media[n]));
  }

  function CandidateCalls(p: Peer, cs: seq<Candidate>): seq<Entry> {
    seq(|cs|, i requires 0 <= i < |cs| => Called(p, AddCandidate(cs[i])))
  }

  function Pending(pending: map<string, seq<Candidate>>, k: string): seq<Candidate> {
    if k in pending then pending[k] else []
  }

  function KindOf(kind: string): SdpKind {
    if kind == "offer" then Offer else Answer
  }

  ghost function OfferedTracks(kind: string, media: seq<Section>): seq<Track> {
    if kind == "offer" then Tracks(media) else []
  }

  /** The calls a remote description leads to: its tracks, itself, the queued candidates, and the answer to an offer. */
  ghost function SdpCalls(p: Peer, kind: string, sdp: string, media: seq<Section>, queue: seq<Candidate>): seq<Entry> {
    TrackCalls(p, OfferedTracks(kind, media)) + [Called(p, SetRemote(KindOf(kind), sdp))] + CandidateCalls(p, queue)
    + if kind == "offer" then [Called(p, SetLocal(Answer))] else []
  }

  lemma SdpCallsArePeers(p: Peer, kind: string, sdp: string, media: seq<Section>, queue: seq<Candidate>)
    ensures var u := SdpCalls(p, kind, sdp, media, queue);
            forall i :: 0 <= i < |u| ==> u[i].Called? && u[i].peer == p
  {
    hide OfferedTracks;
  }

  ghost function HandleRemoteSdp(s: State, k: string, kind: string, sdp: string, media: seq<Section>): State {
    var room := k == s.setup.roomId;
    s.(peers := Make(s.peers, k, room),
       pending := s.pending - {k},
       inbound := s.inbound.(midTypeMap := NoteTypes(s.inbound.midTypeMap, OfferedTracks(kind, media))),
       trace := s.trace + Making(s.peers, k, room)
                + SdpCalls(PeerOf(s.peers, k, room), kind, sdp, media, Pending(s.pending, k)))
  }

  function AddRemoteCandidate(s: State, k: string, text: string, mid: string): State {
    if text == "" then s
    else if k !in s.peers.pcs then
      s.(pending := s.pending[k := Pending(s.pending, k) + [Candidate(text, mid)]])
    else Emit(s, [Called(s.peers.pcs[k], AddCandidate(Candidate(text, mid)))])
  }

  function OfferTo(s: State, k: string): State {
    Emit(s, if k in s.peers.pcs then [Called(s.peers.pcs[k], SetLocal(Offer))] else [])
  }

  // ---- notifications

  /** Commands speak with the client's own copies of the room and stream ids. */
  function ClientRoom(s: State): string {
    if s.context.Some? && s.context.value.client.Some? then s.context.value.client.value.room else ""
  }

  function ClientSelf(s: State): string {
    if s.context.Some? && s.context.value.client.Some? then s.context.value.client.value.self else ""
  }

  function Request(s: State, k: string, c: Command): State {
    s.(requests := s.requests.(sendPlay := s.requests.sendPlay[k := true]), trace := s.trace + Wire(s, c))
  }

  function PlayRoom(s: State): State {
    Request(s, s.setup.roomId, Play(ClientRoom(s), ClientRoom(s)))
  }

  function OnPlayFinished(s: State, k: string): State {
    if k == "" then s
    else if k == s.setup.roomId then PlayRoom(RemovePeer(s, k))
    else RemovePeer(s, k)
  }

  predicate Wanted(s: State, k: string) {
    && k != "" && k != s.setup.publishStreamId
    && (k in s.peers.pcs ==> k in s.peers.closed)
    && !(k in s.requests.sendPlay && s.requests.sendPlay[k])
  }

  function OnSubtrackAdded(s: State, k: string): State {
    if Wanted(s, k) then Request(s, k, Play(ClientRoom(s), k)) else s
  }

  /** The handler a notice is dispatched to. */
  ghost function Dispatch(s: State, n: Notice): State {
    match n
    case Ignored => s
    case StartOffer(k) => OfferTo(s, k)
    case RemoteSdp(k, kind, sdp, media) => HandleRemoteSdp(s, k, kind, sdp, media)
    case RemoteCandidate(k, text, mid) => AddRemoteCandidate(s, k, text, mid)
    case JoinedRoom => Send(s, Publish(ClientSelf(s), ClientRoom(s), !s.setup.onlyPlayer, !s.setup.onlyPlayer))
    case PublishStarted => if s.setup.roomId in s.requests.sendPlay then s else PlayRoom(s)
    case PlayStarted(k) => if k == "" then s else s.(requests := s.requests.(played := s.requests.played[k := true]))
    case PlayFinished(k) => OnPlayFinished(s, k)
    case SubtrackAdded(k) => OnSubtrackAdded(s, k)
    case SubtrackRemoved(k) => if k == "" then s else s.(requests := s.requests.(sendPlay := s.requests.sendPlay - {k}))
  }

  ghost function Handle(s: State, n: Notice): State {
    Dispatch(Emit(s, [In(n)]), n)
  }

  // ---- sessions

  /** A peer connection torn down: its callbacks are detached before it is closed. */
  function Parting(p: Peer): seq<Entry> {
    [Called(p, Detach(TrackHook)), Called(p, Detach(CandidateHook)), Called(p, Detach(DescriptionHook)), Called(p, Close)]
  }

  function Closings(pcs: map<string, Peer>, order: seq<string>): seq<Entry>
    requires forall i :: 0 <= i < |order| ==> order[i] in pcs
  {
    if order == [] then [] else Closings(pcs, order[..|order| - 1]) + Parting(pcs[order[|order| - 1]])
  }

  predicate Announced(s: State) {
    && s.context.Some? && s.setup.publishStreamId != ""
    && s.setup.publishStreamId in s.peers.isPublisher && s.peers.isPublisher[s.setup.publishStreamId]
  }

  /** What is still said on the way out: only by a session that announced its stream, and only on an open socket. */
  function Farewell(s: State): seq<Entry> {
    if Announced(s) && s.Online()
    then [Sent(StopStream(ClientSelf(s))), Sent(StopStream(ClientRoom(s))), Sent(LeaveRoom(ClientRoom(s)))]
    else []
  }

  /** The socket is closed if it is open. */
  function Hangup(s: State): seq<Entry> {
    if s.context.Some? && s.context.value.wsOpen then [SocketClosed] else []
  }

  /** Tear the session down: say goodbye, close every peer connection, forget everything tracked, hang up. */
  function Cleanup(s: State, order: seq<string>): State
    requires Enumerates(order, s.peers.pcs.Keys)
  {
    State(s.setup.(media := false), None, Peers(map[], map[], {}, s.peers.made),
          NO_REQUESTS, map[], NO_INBOUND, NO_CHANNELS,
          s.past + s.trace + Farewell(s) + Closings(s.peers.pcs, order) + Hangup(s), [])
  }

  function Idle(s: State): State {
    s.(setup := s.setup.(communicating := false))
  }

  predicate ValidUrl(url: string) {
    url != "" && url != NO_URL
  }

  function Opening(s: State, isPlayer: bool): State {
    s.(setup := s.setup.(onlyPlayer := isPlayer, communicating := true, media := true),
       context := Some(Context(s.setup.roomId, false, None)))
  }

  /** The session up to the point where the socket has been asked to open. */
  function Begin(s: State, isPlayer: bool): State {
    var own := s.setup.publishStreamId;
    SetupPublishPeer(Opening(s, isPlayer), own)
      .(context := Some(Context(s.setup.roomId, false, Some(Client(own, s.setup.roomId, 0)))))
  }

  predicate Starts(s: State) {
    !s.setup.communicating && ValidUrl(s.setup.url)
  }

  function SetOpen(s: State, open: bool): State
    requires s.context.Some?
  {
    s.(context := Some(s.context.value.(wsOpen := open)))
  }

  function OnOpened(s: State): State
    requires s.context.Some?
  {
    var s1 := SetOpen(s, true);
    var s2 := SetupPublishPeer(s1, s1.setup.publishStreamId);
    Send(s2, JoinRoom(ClientSelf(s2), ClientRoom(s2)))
  }

  function OnLocalCandidate(s: State, k: string, c: Candidate): State {
    if s.context.Some? && s.context.value.client.Some? then
      var client := s.context.value.client.value;
      var s1 := s.(context := Some(s.context.value.(client := Some(client.(nextLabel := client.nextLabel + 1)))));
      Send(s1, TakeCandidate(k, c.text, c.mid, client.nextLabel))
    else s
  }

  function OnLocalDescription(s: State, k: string, kind: SdpKind, sdp: string): State {
    Send(s, TakeConfiguration(k, if kind.Offer? then "offer" else "answer", sdp))
  }

  /** A remote data channel is kept under its name, unless one is kept already. */
  function OnChannel(s: State, name: string): State {
    if name in s.channels.remote then s else s.(channels := s.channels.(remote := s.channels.remote[name := false]))
  }

  function OnTrack(s: State, k: string, mid: string, stated: string): State {
    var kind := if mid in s.inbound.midTypeMap then s.inbound.midTypeMap[mid] else stated;
    var known := if k in s.inbound.remoteTracks then s.inbound.remoteTracks[k] else [];
    s.(inbound := s.inbound.(remoteTracks := s.inbound.remoteTracks[k := known + [RemoteTrack(mid, stated, kind)]]))
  }

  /** A frame on a remote track is played if the track is handled as audio, whoever is said to be talking. */
  function OnFrame(s: State, k: string, i: nat, binary: bool): State
    requires k in s.inbound.remoteTracks && i < |s.inbound.remoteTracks[k]|
  {
    if s.inbound.remoteTracks[k][i].kind == "audio" && binary && s.setup.media then Emit(s, [Pushed(k)]) else s
  }

  function OnChannelText(s: State, sender: string, text: string): State {
    if text == "iamtalking" then s.(channels := s.channels.(talking := s.channels.talking[sender := true]))
    else if text == "iammute" then s.(channels := s.channels.(talking := s.channels.talking[sender := false]))
    else s
  }

  /**
    When an event can happen at all: a message arrives on an open socket, a callback comes from a live peer connection
    or channel of the running session, and the hash map is walked over exactly its keys.
   */
  predicate Occurs(s: State, e: Event) {
    match e
    case SetUrl(_) => true
    case SetRoom(_) => true
    case SetStream(_) => true
    case Start(isPlayer, connects, order) =>
      Starts(s) && !connects ==> Enumerates(order, Begin(s, isPlayer).peers.pcs.Keys)
    case Stop(order) => s.setup.communicating ==> Enumerates(order, s.peers.pcs.Keys)
    case WsOpened => s.context.Some?
    case WsClosed => s.context.Some?
    case Received(_) => s.Online()
    case LocalCandidate(k, _) => k in s.peers.pcs
    case LocalDescription(k, _, _) => k in s.peers.pcs
    case TrackArrived(k, _, _) => k in s.peers.pcs
    case FrameArrived(k, i, _) => k in s.inbound.remoteTracks && i < |s.inbound.remoteTracks[k]|
    case ChannelArrived(k, _) => k in s.peers.pcs && s.peers.pcs[k].channels
    case ChannelState(remote, name, _) => name in (if remote then s.channels.remote else s.channels.local)
    case ChannelText(name, _, _) => name in s.channels.local || name in s.channels.remote
    case PeerClosed(k) => k in s.peers.pcs
  }

  ghost function Step(s: State, e: Event): State {
    if !Occurs(s, e) then s
    else match e
      case SetUrl(url) => s.(setup := s.setup.(url := url))
      case SetRoom(room) => s.(setup := s.setup.(roomId := room))
      case SetStream(stream) => s.(setup := s.setup.(publishStreamId := stream))
      case Start(isPlayer, connects, order) =>
        if !Starts(s) then s
        else if connects then Begin(s, isPlayer)
        else Idle(Cleanup(Begin(s, isPlayer), order))
      case Stop(order) => if s.setup.communicating then Idle(Cleanup(s, order)) else s
      case WsOpened => OnOpened(s)
      case WsClosed => SetOpen(s, false)
      case Received(message) => Handle(s, Decode(message))
      case LocalCandidate(k, c) => OnLocalCandidate(s, k, c)
      case LocalDescription(k, kind, sdp) => OnLocalDescription(s, k, kind, sdp)
      case TrackArrived(k, mid, stated) => OnTrack(s, k, mid, stated)
      case FrameArrived(k, i, binary) => OnFrame(s, k, i, binary)
      case ChannelArrived(_, name) => OnChannel(s, name)
      case ChannelState(remote, name, open) =>
        if remote then s.(channels := s.channels.(remote := s.channels.remote[name := open]))
        else s.(channels := s.channels.(local := s.channels.local[name := open]))
      case ChannelText(_, sender, text) => OnChannelText(s, sender, text)
      case PeerClosed(k) => s.(peers := s.peers.(closed := s.peers.closed + {k}))
  }

  /** The state after a run. */
  ghost function Run(s: State, es: seq<Event>): State {
    if es == [] then s else Step(Run(s, es[..|es| - 1]), es[|es| - 1])
  }

  /** Everything a manager ever did, the sessions already torn down included. */
  function Full(s: State): seq<Entry> {
    s.past + s.trace
  }

  // ---- events that leave the tracking of streams alone

  /** A command other than `play`, or a frame played. */
  predicate IsMinorEntry(e: Entry) {
    e.Pushed? || (e.Sent? && !e.command.Play?)
  }

  /** At most such an entry is added, and no peer connection, queue or play request is touched. */
  ghost predicate Minor(s: State, s': State) {
    && s'.past == s.past && s'.pending == s.pending
    && s'.peers.pcs == s.peers.pcs && s'.peers.made == s.peers.made && s'.peers.isPublisher == s.peers.isPublisher
    && s'.requests.sendPlay == s.requests.sendPlay
    && (s'.trace == s.trace
        || (|s'.trace| == |s.trace| + 1 && s'.trace[..|s.trace|] == s.trace
            && IsMinorEntry(s'.trace[|s.trace|])))
  }

  predicate IsMinor(e: Event) {
    !e.Start? && !e.Stop? && !e.WsOpened? && !e.Received?
  }

  lemma MinorStep(s: State, e: Event)
    requires IsMinor(e)
    ensures Minor(s, Step(s, e))
  {
    hide Handle, Begin, OnOpened, Cleanup;
  }

  // ---- what each event adds to the trace

  lemma HandlingKeepsSetup(s: State, n: Notice)
    ensures Handle(s, n).setup == s.setup
  {
  }

  /** The entries a notice is answered with. */
  ghost function Reply(s: State, n: Notice): seq<Entry> {
    match n
    case Ignored => []
    case StartOffer(k) => if k in s.peers.pcs then [Called(s.peers.pcs[k], SetLocal(Offer))] else []
    case RemoteSdp(k, kind, sdp, media) =>
      var room := k == s.setup.roomId;
      Making(s.peers, k, room) + SdpCalls(PeerOf(s.peers, k, room), kind, sdp, media, Pending(s.pending, k))
    case RemoteCandidate(k, text, mid) =>
      if text != "" && k in s.peers.pcs then [Called(s.peers.pcs[k], AddCandidate(Candidate(text, mid)))] else []
    case JoinedRoom => Wire(s, Publish(ClientSelf(s), ClientRoom(s), !s.setup.onlyPlayer, !s.setup.onlyPlayer))
    case PublishStarted =>
      if s.setup.roomId in s.requests.sendPlay then [] else Wire(s, Play(ClientRoom(s), ClientRoom(s)))
    case PlayStarted(_) => []
    case PlayFinished(k) =>
      if k == "" then []
      else Ending(s, k) + if k == s.setup.roomId then Wire(s, Play(ClientRoom(s), ClientRoom(s))) else []
    case SubtrackAdded(k) => if Wanted(s, k) then Wire(s, Play(ClientRoom(s), k)) else []
    case SubtrackRemoved(_) => []
  }

  function Ending(s: State, k: string): seq<Entry> {
    CloseChannel(s.channels.local, k) + CloseChannel(s.channels.remote, k) + ClosePeer(s.peers.pcs, k)
  }

  /** A description is answered with making its peer connection, if need be, and with calls on it. */
  lemma SdpReplyIs(s: State, k: string, kind: string, sdp: string, media: seq<Section>)
    ensures var u, p := Reply(s, RemoteSdp(k, kind, sdp, media)), PeerOf(s.peers, k, k == s.setup.roomId);
            forall i :: 0 <= i < |u| ==> u[i] == Made(p) || (u[i].Called? && u[i].peer == p)
  {
    hide SdpCalls;
    SdpCallsArePeers(PeerOf(s.peers, k, k == s.setup.roomId), kind, sdp, media, Pending(s.pending, k));
  }

  lemma EndingIs(s: State, k: string)
    ensures forall i :: 0 <= i < |Ending(s, k)| ==>
              Ending(s, k)[i].ChannelClosed? || (k in s.peers.pcs && Ending(s, k)[i] == Called(s.peers.pcs[k], Close))
  {
  }

  lemma RemoveReplies(s: State, k: string)
    ensures RemovePeer(s, k).past == s.past && RemovePeer(s, k).setup == s.setup && RemovePeer(s, k).context == s.context
    ensures RemovePeer(s, k).trace == s.trace + Ending(s, k)
  {
    hide CloseChannel, ClosePeer;
  }

  lemma FinishReplies(s: State, k: string)
    ensures OnPlayFinished(s, k).past == s.past
    ensures OnPlayFinished(s, k).trace == s.trace + Reply(s, PlayFinished(k))
  {
    hide RemovePeer, Ending;
    RemoveReplies(s, k);
    var s1 := RemovePeer(s, k);
    assert Wire(s1, Play(ClientRoom(s1), ClientRoom(s1))) == Wire(s, Play(ClientRoom(s), ClientRoom(s)));
  }

  lemma SdpReplies(s: State, k: string, kind: string, sdp: string, media: seq<Section>)
    ensures HandleRemoteSdp(s, k, kind, sdp, media).past == s.past
    ensures HandleRemoteSdp(s, k, kind, sdp, media).trace == s.trace + Reply(s, RemoteSdp(k, kind, sdp, media))
  {
    hide SdpCalls;
  }

  lemma HandleReplies(s: State, n: Notice)
    ensures Handle(s, n).past == s.past
    ensures Handle(s, n).trace == s.trace + ([In(n)] + Reply(s, n))
  {
    hide HandleRemoteSdp, OnPlayFinished, SdpCalls, Making;
    var s0 := Emit(s, [In(n)]);
    assert s.trace + [In(n)] + Reply(s, n) == s.trace + ([In(n)] + Reply(s, n));
    match n
    case RemoteSdp(k, kind, sdp, media) => SdpReplies(s0, k, kind, sdp, media);
    case PlayFinished(k) => FinishReplies(s0, k);
    case _ =>
  }

  /** What setting up the own peer connection and joining the room consist of. */
  predicate IsEquipping(e: Entry) {
    || e.Made?
    || (e.Called? && (e.call.AddTrack? || e.call.OpenChannel?))
    || (e.Sent? && e.command.JoinRoom?)
  }

  lemma SetupReplies(s: State, k: string) returns (u: seq<Entry>)
    ensures SetupPublishPeer(s, k).trace == s.trace + u
    ensures forall i :: 0 <= i < |u| ==> IsEquipping(u[i])
  {
    if k in s.peers.pcs {
      u := [];
    } else {
      var p := Peer(s.peers.made, k, true);
      u := [Made(p)] + SetupCalls(s, p, k);
    }
  }

  lemma BeginReplies(s: State, isPlayer: bool) returns (u: seq<Entry>)
    ensures Begin(s, isPlayer).past == s.past && Begin(s, isPlayer).trace == s.trace + u
    ensures forall i :: 0 <= i < |u| ==> IsEquipping(u[i])
  {
    hide SetupCalls, IsEquipping;
    u := SetupReplies(Opening(s, isPlayer), s.setup.publishStreamId);
  }

  lemma OpenReplies(s: State) returns (u: seq<Entry>)
    requires s.context.Some?
    ensures OnOpened(s).past == s.past && OnOpened(s).trace == s.trace + u
    ensures forall i :: 0 <= i < |u| ==> IsEquipping(u[i])
  {
    hide SetupCalls;
    var s1 := SetOpen(s, true);
    var s2 := SetupPublishPeer(s1, s1.setup.publishStreamId);
    var v := SetupReplies(s1, s1.setup.publishStreamId);
    var w := Wire(s2, JoinRoom(ClientSelf(s2), ClientRoom(s2)));
    u := v + w;
    assert s.trace + v + w == s.trace + u;
  }

  lemma {:induction false} RunAppend(s: State, es: seq<Event>, fs: seq<Event>)
    ensures Run(s, es + fs) == Run(Run(s, es), fs)
  {
    if fs == [] {
      assert es + fs == es;
    } else {
      assert (es + fs)[..|es + fs| - 1] == es + fs[..|fs| - 1];
      RunAppend(s, es, fs[..|fs| - 1]);
    }
  }
}
