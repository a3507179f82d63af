/**
  Sessions leave no residue: outside a session every tracking map is empty and the context is gone, and a session
  started on a used manager does exactly what it would do on a new one.
 */
module FreshSessions {
  import opened Wrappers
  import opened RecvTracks
  import opened Signaling
  import opened Conference
  import opened Orders

  /** Outside a session nothing is tracked; inside one there is a context with a client. */
  ghost predicate Tidy(s: State) {
    && (!s.setup.communicating ==>
          && s == State(s.setup, None, Peers(map[], map[], {}, s.peers.made),
                        NO_REQUESTS, map[], NO_INBOUND, NO_CHANNELS, s.past, [])
          && !s.setup.media)
    && (s.setup.communicating ==> s.context.Some? && s.context.value.client.Some?)
  }

  lemma TidyNotice(s: State, n: Notice)
    requires s.setup.communicating && s.context.Some? && s.context.value.client.Some?
    ensures Handle(s, n).setup == s.setup && Handle(s, n).context == s.context
  {
  }

  lemma TidyMinor(s: State, e: Event)
    requires Tidy(s) && IsMinor(e)
    ensures Tidy(Step(s, e))
  {
    hide Handle, Decode, Begin, OnOpened, Cleanup;
  }

  lemma TidyStep(s: State, e: Event)
    requires Tidy(s)
    ensures Tidy(Step(s, e))
  {
    hide Handle, Decode, SetupCalls, Farewell, Closings;
    if IsMinor(e) {
      TidyMinor(s, e);
    } else if e.Received? && s.setup.communicating {
      TidyNotice(s, Decode(e.message));
    }
  }

  lemma {:induction false} TidyRun(es: seq<Event>)
    ensures Tidy(Run(New(), es))
  {
    if es == [] {
    } else {
      TidyRun(es[..|es| - 1]);
      TidyStep(Run(New(), es[..|es| - 1]), es[|es| - 1]);
    }
  }

  // ---- a manager that made `n` more peer connections before, and did `q` more

  function Later(p: Peer, n: nat): Peer {
    p.(serial := p.serial + n)
  }

  function LaterEntry(e: Entry, n: nat): Entry {
    match e
    case Made(p) => Made(Later(p, n))
    case Called(p, c) => Called(Later(p, n), c)
    case _ => e
  }

  function LaterTrace(t: seq<Entry>, n: nat): seq<Entry> {
    seq(|t|, i requires 0 <= i < |t| => LaterEntry(t[i], n))
  }

  function LaterPeers(ps: Peers, n: nat): Peers {
    Peers(map k | k in ps.pcs :: Later(ps.pcs[k], n), ps.isPublisher, ps.closed, ps.made + n)
  }

  /** The same state, on a manager that was used before. */
  function After(s: State, n: nat, q: seq<Entry>): State {
    s.(peers := LaterPeers(s.peers, n), past := q + LaterTrace(s.past, n), trace := LaterTrace(s.trace, n))
  }

  lemma LaterAppend(t: seq<Entry>, u: seq<Entry>, n: nat)
    ensures LaterTrace(t + u, n) == LaterTrace(t, n) + LaterTrace(u, n)
  {
  }

  lemma AfterEmit(s: State, u: seq<Entry>, n: nat, q: seq<Entry>)
    ensures After(Emit(s, u), n, q) == Emit(After(s, n, q), LaterTrace(u, n))
  {
    hide LaterTrace;
    LaterAppend(s.trace, u, n);
  }

  lemma LaterWire(s: State, c: Command, n: nat, q: seq<Entry>)
    ensures LaterTrace(Wire(s, c), n) == Wire(s, c) == Wire(After(s, n, q), c)
  {
  }

  lemma LaterMake(ps: Peers, k: string, channels: bool, n: nat)
    ensures LaterPeers(Make(ps, k, channels), n) == Make(LaterPeers(ps, n), k, channels)
    ensures LaterTrace(Making(ps, k, channels), n) == Making(LaterPeers(ps, n), k, channels)
    ensures Later(PeerOf(ps, k, channels), n) == PeerOf(LaterPeers(ps, n), k, channels)
  {
    assert LaterPeers(Make(ps, k, channels), n).pcs == Make(LaterPeers(ps, n), k, channels).pcs;
  }

  lemma LaterDrop(ps: Peers, k: string, n: nat)
    ensures LaterPeers(ps.(pcs := ps.pcs - {k}, closed := ps.closed - {k}), n) ==
            LaterPeers(ps, n).(pcs := LaterPeers(ps, n).pcs - {k}, closed := ps.closed - {k})
    ensures LaterTrace(ClosePeer(ps.pcs, k), n) == ClosePeer(LaterPeers(ps, n).pcs, k)
  {
    assert LaterPeers(ps.(pcs := ps.pcs - {k}, closed := ps.closed - {k}), n).pcs == LaterPeers(ps, n).pcs - {k};
  }

  lemma LaterSetup(s: State, p: Peer, k: string, n: nat, q: seq<Entry>)
    ensures LaterTrace(SetupCalls(s, p, k), n) == SetupCalls(After(s, n, q), Later(p, n), k)
  {
  }

  lemma LaterSdp(p: Peer, kind: string, sdp: string, media: seq<Section>, queue: seq<Candidate>, n: nat)
    ensures LaterTrace(SdpCalls(p, kind, sdp, media, queue), n) == SdpCalls(Later(p, n), kind, sdp, media, queue)
  {
    hide OfferedTracks;
  }

  lemma {:induction false} LaterClosings(ps: Peers, order: seq<string>, n: nat)
    requires forall i :: 0 <= i < |order| ==> order[i] in ps.pcs
    ensures LaterTrace(Closings(ps.pcs, order), n) == Closings(LaterPeers(ps, n).pcs, order)
  {
    if order == [] {
    } else {
      hide LaterTrace, Parting;
      var front, k := order[..|order| - 1], order[|order| - 1];
      LaterClosings(ps, front, n);
      LaterAppend(Closings(ps.pcs, front), Parting(ps.pcs[k]), n);
      LaterParting(ps.pcs[k], n);
    }
  }

  lemma LaterParting(p: Peer, n: nat)
    ensures LaterTrace(Parting(p), n) == Parting(Later(p, n))
  {
  }

  lemma AfterSetupPeer(s: State, k: string, n: nat, q: seq<Entry>)
    ensures After(SetupPublishPeer(s, k), n, q) == SetupPublishPeer(After(s, n, q), k)
  {
    hide SetupCalls, LaterTrace;
    if k !in s.peers.pcs {
      var p := Peer(s.peers.made, k, true);
      LaterSetup(s, p, k, n, q);
      LaterAppend(s.trace + [Made(p)], SetupCalls(s, p, k), n);
      LaterAppend(s.trace, [Made(p)], n);
      LaterMake(s.peers, k, true, n);
    }
  }

  lemma {:induction false} AfterSdp(s: State, k: string, kind: string, sdp: string, media: seq<Section>, n: nat, q: seq<Entry>)
    ensures After(HandleRemoteSdp(s, k, kind, sdp, media), n, q) == HandleRemoteSdp(After(s, n, q), k, kind, sdp, media)
  {
    hide SdpCalls, LaterTrace, LaterPeers, Make, Making, PeerOf, NoteTypes;
    var room := k == s.setup.roomId;
    var u := SdpCalls(PeerOf(s.peers, k, room), kind, sdp, media, Pending(s.pending, k));
    LaterMake(s.peers, k, room, n);
    LaterSdp(PeerOf(s.peers, k, room), kind, sdp, media, Pending(s.pending, k), n);
    LaterAppend(s.trace + Making(s.peers, k, room), u, n);
    LaterAppend(s.trace, Making(s.peers, k, room), n);
  }

  lemma AfterRemove(s: State, k: string, n: nat, q: seq<Entry>)
    ensures After(RemovePeer(s, k), n, q) == RemovePeer(After(s, n, q), k)
  {
    hide LaterTrace, LaterPeers, CloseChannel, ClosePeer;
    var a, b := CloseChannel(s.channels.local, k), CloseChannel(s.channels.remote, k);
    LaterDrop(s.peers, k, n);
    LaterAppend(s.trace + a + b, ClosePeer(s.peers.pcs, k), n);
    LaterAppend(s.trace + a, b, n);
    LaterAppend(s.trace, a, n);
    LaterChannel(s.channels.local, k, n);
    LaterChannel(s.channels.remote, k, n);
    LaterPeersFields(s.peers, n);
  }

  lemma LaterChannel(open: map<string, bool>, k: string, n: nat)
    ensures LaterTrace(CloseChannel(open, k), n) == CloseChannel(open, k)
  {
  }

  lemma LaterPeersFields(ps: Peers, n: nat)
    ensures LaterPeers(ps, n).pcs.Keys == ps.pcs.Keys
    ensures LaterPeers(ps, n).isPublisher == ps.isPublisher && LaterPeers(ps, n).closed == ps.closed
  {
  }

  lemma AfterRequest(s: State, k: string, c: Command, n: nat, q: seq<Entry>)
    ensures After(Request(s, k, c), n, q) == Request(After(s, n, q), k, c)
  {
    hide LaterTrace;
    LaterWire(s, c, n, q);
    LaterAppend(s.trace, Wire(s, c), n);
  }

  lemma AfterPlayRoom(s: State, n: nat, q: seq<Entry>)
    ensures After(PlayRoom(s), n, q) == PlayRoom(After(s, n, q))
  {
    AfterRequest(s, s.setup.roomId, Play(ClientRoom(s), ClientRoom(s)), n, q);
  }

  lemma AfterCandidate(s: State, k: string, text: string, mid: string, n: nat, q: seq<Entry>)
    ensures After(AddRemoteCandidate(s, k, text, mid), n, q) == AddRemoteCandidate(After(s, n, q), k, text, mid)
  {
    hide LaterTrace;
    if text != "" && k in s.peers.pcs {
      AfterEmitOne(s, s.peers.pcs[k], AddCandidate(Candidate(text, mid)), n, q);
    }
  }

  lemma AfterEmitOne(s: State, p: Peer, c: Call, n: nat, q: seq<Entry>)
    ensures After(Emit(s, [Called(p, c)]), n, q) == Emit(After(s, n, q), [Called(Later(p, n), c)])
  {
    AfterEmit(s, [Called(p, c)], n, q);
  }

  lemma AfterOffer(s: State, k: string, n: nat, q: seq<Entry>)
    ensures After(OfferTo(s, k), n, q) == OfferTo(After(s, n, q), k)
  {
    if k in s.peers.pcs {
      AfterEmitOne(s, s.peers.pcs[k], SetLocal(Offer), n, q);
    }
  }

  lemma AfterSend(s: State, c: Command, n: nat, q: seq<Entry>)
    ensures After(Send(s, c), n, q) == Send(After(s, n, q), c)
  {
    LaterWire(s, c, n, q);
    AfterEmit(s, Wire(s, c), n, q);
  }

  lemma {:induction false} AfterFinished(s: State, k: string, n: nat, q: seq<Entry>)
    ensures After(OnPlayFinished(s, k), n, q) == OnPlayFinished(After(s, n, q), k)
  {
    hide RemovePeer, PlayRoom;
    AfterRemove(s, k, n, q);
    AfterPlayRoom(RemovePeer(s, k), n, q);
  }

  lemma {:induction false} AfterHandle(s: State, x: Notice, n: nat, q: seq<Entry>)
    ensures After(Handle(s, x), n, q) == Handle(After(s, n, q), x)
  {
    hide LaterTrace, HandleRemoteSdp, OnPlayFinished, PlayRoom, Request, AddRemoteCandidate, OfferTo, Send;
    var s0 := Emit(s, [In(x)]);
    AfterNotice(s, x, n, q);
    match x
    case StartOffer(k) => AfterOffer(s0, k, n, q);
    case RemoteSdp(k, kind, sdp, media) => AfterSdp(s0, k, kind, sdp, media, n, q);
    case RemoteCandidate(k, text, mid) => AfterCandidate(s0, k, text, mid, n, q);
    case JoinedRoom =>
      AfterSend(s0, Publish(ClientSelf(s), ClientRoom(s), !s.setup.onlyPlayer, !s.setup.onlyPlayer), n, q);
    case PublishStarted => AfterPlayRoom(s0, n, q);
    case PlayFinished(k) => AfterFinished(s0, k, n, q);
    case SubtrackAdded(k) => AfterRequest(s0, k, Play(ClientRoom(s), k), n, q);
    case _ =>
  }

  lemma AfterNotice(s: State, x: Notice, n: nat, q: seq<Entry>)
    ensures After(Emit(s, [In(x)]), n, q) == Emit(After(s, n, q), [In(x)])
  {
    AfterEmit(s, [In(x)], n, q);
  }

  lemma {:induction false} AfterCleanup(s: State, order: seq<string>, n: nat, q: seq<Entry>)
    requires Enumerates(order, s.peers.pcs.Keys)
    ensures After(s, n, q).peers.pcs.Keys == s.peers.pcs.Keys
    ensures After(Cleanup(s, order), n, q) == Cleanup(After(s, n, q), order)
  {
    hide LaterTrace, Farewell, Closings, Hangup;
    var f, c, h := Farewell(s), Closings(s.peers.pcs, order), Hangup(s);
    LaterPeersFields(s.peers, n);
    LaterClosings(s.peers, order, n);
    LaterFarewell(s, n, q);
    LaterAppend(s.past + s.trace + f + c, h, n);
    LaterAppend(s.past + s.trace + f, c, n);
    LaterAppend(s.past + s.trace, f, n);
    LaterAppend(s.past, s.trace, n);
    LaterNone(n);
    var p, t, d := LaterTrace(s.past, n), LaterTrace(s.trace, n), LaterTrace(c, n);
    assert q + (p + t + f + d + h) == q + p + t + f + d + h;
  }

  lemma LaterNone(n: nat)
    ensures LaterTrace([], n) == []
    ensures LaterPeers(Peers(map[], map[], {}, 0), n).pcs == map[]
  {
  }

  lemma LaterFarewell(s: State, n: nat, q: seq<Entry>)
    ensures LaterTrace(Farewell(s), n) == Farewell(s) == Farewell(After(s, n, q))
    ensures LaterTrace(Hangup(s), n) == Hangup(s) == Hangup(After(s, n, q))
  {
  }

  lemma {:induction false} AfterBegin(s: State, isPlayer: bool, n: nat, q: seq<Entry>)
    ensures After(Begin(s, isPlayer), n, q) == Begin(After(s, n, q), isPlayer)
  {
    hide SetupPublishPeer, LaterTrace, LaterPeers;
    AfterSetupPeer(Opening(s, isPlayer), s.setup.publishStreamId, n, q);
  }

  lemma AfterOpened(s: State, n: nat, q: seq<Entry>)
    requires s.context.Some?
    ensures After(OnOpened(s), n, q) == OnOpened(After(s, n, q))
  {
    hide SetupPublishPeer, LaterTrace, LaterPeers, Send;
    var s1 := SetOpen(s, true);
    var s2 := SetupPublishPeer(s1, s.setup.publishStreamId);
    AfterSetupPeer(s1, s.setup.publishStreamId, n, q);
    AfterSend(s2, JoinRoom(ClientSelf(s2), ClientRoom(s2)), n, q);
  }

  lemma AfterOccurs(s: State, e: Event, n: nat, q: seq<Entry>)
    ensures Occurs(After(s, n, q), e) == Occurs(s, e)
  {
    hide SetupPublishPeer, LaterTrace, Begin;
    LaterPeersFields(s.peers, n);
    if e.Start? {
      AfterBegin(s, e.isPlayer, n, q);
      LaterPeersFields(Begin(s, e.isPlayer).peers, n);
    }
  }

  lemma AfterLocalCandidate(s: State, k: string, c: Candidate, n: nat, q: seq<Entry>)
    ensures After(OnLocalCandidate(s, k, c), n, q) == OnLocalCandidate(After(s, n, q), k, c)
  {
    hide LaterTrace, LaterPeers, Send;
    if s.context.Some? && s.context.value.client.Some? {
      var client := s.context.value.client.value;
      var s1 := s.(context := Some(s.context.value.(client := Some(client.(nextLabel := client.nextLabel + 1)))));
      AfterSend(s1, TakeCandidate(k, c.text, c.mid, client.nextLabel), n, q);
    }
  }

  /** What a manager does next does not depend on what it was used for before. */
  lemma {:induction false} AfterStep(s: State, e: Event, n: nat, q: seq<Entry>)
    ensures After(Step(s, e), n, q) == Step(After(s, n, q), e)
  {
    hide LaterTrace, Begin, OnOpened, Cleanup, Handle, Send, OnLocalCandidate, Occurs;
    AfterOccurs(s, e, n, q);
    if Occurs(s, e) {
      match e
      case Start(isPlayer, connects, order) =>
        AfterBegin(s, isPlayer, n, q);
        if Starts(s) && !connects {
          OrderIsGiven(s, e);
          AfterCleanup(Begin(s, isPlayer), order, n, q);
        }
      case Stop(order) =>
        OrderIsGiven(s, e);
        if s.setup.communicating { AfterCleanup(s, order, n, q); }
      case WsOpened => OrderIsGiven(s, e); AfterOpened(s, n, q);
      case Received(message) => AfterHandle(s, Decode(message), n, q);
      case _ => AfterMinor(s, e, n, q);
    }
  }

  lemma AfterMinor(s: State, e: Event, n: nat, q: seq<Entry>)
    requires IsMinor(e)
    ensures After(Step(s, e), n, q) == Step(After(s, n, q), e)
  {
    hide LaterTrace, Begin, OnOpened, Cleanup, Handle, Send, OnLocalCandidate, OnFrame, Occurs;
    AfterOccurs(s, e, n, q);
    if Occurs(s, e) {
      match e
      case LocalCandidate(k, c) => AfterLocalCandidate(s, k, c, n, q);
      case LocalDescription(k, kind, sdp) =>
        AfterSend(s, TakeConfiguration(k, if kind.Offer? then "offer" else "answer", sdp), n, q);
      case FrameArrived(k, i, binary) => OrderIsGiven(s, e); AfterFrame(s, k, i, binary, n, q);
      case WsClosed => OrderIsGiven(s, e);
      case _ =>
    }
  }

  lemma AfterFrame(s: State, k: string, i: nat, binary: bool, n: nat, q: seq<Entry>)
    requires k in s.inbound.remoteTracks && i < |s.inbound.remoteTracks[k]|
    ensures After(OnFrame(s, k, i, binary), n, q) == OnFrame(After(s, n, q), k, i, binary)
  {
    hide LaterTrace;
    AfterEmit(s, [Pushed(k)], n, q);
    LaterPushed(k, n);
  }

  lemma LaterPushed(k: string, n: nat)
    ensures LaterTrace([Pushed(k)], n) == [Pushed(k)]
  {
  }

  lemma OrderIsGiven(s: State, e: Event)
    requires Occurs(s, e)
    ensures e.Start? && Starts(s) && !e.connects ==> Enumerates(e.order, Begin(s, e.isPlayer).peers.pcs.Keys)
    ensures e.Stop? && s.setup.communicating ==> Enumerates(e.order, s.peers.pcs.Keys)
    ensures e.WsOpened? || e.WsClosed? ==> s.context.Some?
    ensures e.FrameArrived? ==> e.stream in s.inbound.remoteTracks && e.index < |s.inbound.remoteTracks[e.stream]|
  {
    hide Begin;
  }

  lemma {:induction false} AfterRun(s: State, es: seq<Event>, n: nat, q: seq<Entry>)
    ensures After(Run(s, es), n, q) == Run(After(s, n, q), es)
  {
    if es == [] {
    } else {
      hide Step, After;
      AfterRun(s, es[..|es| - 1], n, q);
      AfterStep(Run(s, es[..|es| - 1]), es[|es| - 1], n, q);
    }
  }

  // ---- the theorem

  /** A new manager told the same URL, room and own stream. */
  ghost function Fresh(u: Setup): State {
    Run(New(), [SetUrl(u.url), SetRoom(u.roomId), SetStream(u.publishStreamId)])
  }

  lemma FreshIs(u: Setup)
    ensures Fresh(u) == New().(setup := Setup(u.url, u.roomId, u.publishStreamId, false, false, false))
  {
    var a, b, c := SetUrl(u.url), SetRoom(u.roomId), SetStream(u.publishStreamId);
    assert [a, b, c][..2] == [a, b] && [a, b][..1] == [a] && [a][..0] == [];
    assert Run(New(), [a]) == Step(New(), a);
    assert Run(New(), [a, b]) == Step(Run(New(), [a]), b);
  }

  /** A start overwrites the one thing a finished session leaves behind: whether it was only playing. */
  lemma StartForgetsRole(s: State, role: bool, isPlayer: bool, connects: bool, order: seq<string>)
    requires Starts(s) && Occurs(s, Start(isPlayer, connects, order))
    ensures var e := Start(isPlayer, connects, order);
            Step(s.(setup := s.setup.(onlyPlayer := role)), e) == Step(s, e)
  {
    hide SetupPublishPeer, Cleanup;
    assert Opening(s.(setup := s.setup.(onlyPlayer := role)), isPlayer) == Opening(s, isPlayer);
  }

  /** The commands a session has put on the wire. */
  ghost function Wired(e: Entry): seq<Command> {
    if e.Sent? then [e.command] else []
  }

  ghost function Commands(t: seq<Entry>): seq<Command> {
    if t == [] then [] else Commands(t[..|t| - 1]) + Wired(t[|t| - 1])
  }

  lemma {:induction false} LaterCommands(t: seq<Entry>, n: nat)
    ensures Commands(LaterTrace(t, n)) == Commands(t)
  {
    if t == [] {
    } else {
      LaterCommands(t[..|t| - 1], n);
      assert LaterTrace(t, n)[..|t| - 1] == LaterTrace(t[..|t| - 1], n);
    }
  }

  /** An idle manager is a fresh one, but for its history and its last role. */
  lemma IdleIsFresh(es: seq<Event>)
    requires !Run(New(), es).setup.communicating
    ensures var s := Run(New(), es);
            s == After(Fresh(s.setup).(setup := s.setup), s.peers.made, s.past)
  {
    hide Step, Run, LaterTrace, Fresh;
    var s := Run(New(), es);
    TidyRun(es);
    FreshIs(s.setup);
    LaterNone(s.peers.made);
    assert s.past + [] == s.past;
  }

  /**
    No residue: after any run that has come to rest, a new session goes exactly as on a new manager with the same URL,
    room and own stream: the same state but for the serial numbers of the peer connections, and the same commands, the
    candidate labels included.
   */
  lemma SessionsLeaveNoResidue(es: seq<Event>, isPlayer: bool, connects: bool, order: seq<string>, fs: seq<Event>)
    requires var s := Run(New(), es); Starts(s) && Occurs(s, Start(isPlayer, connects, order))
    ensures var s, run := Run(New(), es), [Start(isPlayer, connects, order)] + fs;
            && Run(s, run) == After(Run(Fresh(s.setup), run), s.peers.made, s.past)
            && Commands(Run(s, run).trace) == Commands(Run(Fresh(s.setup), run).trace)
  {
    hide Step, After, Fresh, Occurs, Commands, LaterTrace;
    var s, e := Run(New(), es), Start(isPlayer, connects, order);
    var run, n, q := [e] + fs, s.peers.made, s.past;
    var f := Fresh(s.setup);
    var g := f.(setup := s.setup);
    IdleIsFresh(es);
    FreshIs(s.setup);
    IdleRole(es);
    AfterOccurs(g, e, n, q);
    assert f == g.(setup := g.setup.(onlyPlayer := false));
    StartForgetsRole(g, false, isPlayer, connects, order);
    RunFrom(g, e, fs);
    RunFrom(f, e, fs);
    AfterRun(g, run, n, q);
    AfterTrace(Run(g, run), n, q);
  }

  lemma {:induction false} IdleRole(es: seq<Event>)
    ensures var s := Run(New(), es);
            !s.setup.communicating ==>
              s.setup == Setup(s.setup.url, s.setup.roomId, s.setup.publishStreamId, s.setup.onlyPlayer, false, false)
  {
    hide Step, Run;
    TidyRun(es);
  }

  lemma RunFrom(s: State, e: Event, fs: seq<Event>)
    ensures Run(s, [e] + fs) == Run(Step(s, e), fs)
  {
    hide Step;
    RunAppend(s, [e], fs);
    RunOnce(s, e);
  }

  lemma AfterTrace(s: State, n: nat, q: seq<Entry>)
    ensures Commands(After(s, n, q).trace) == Commands(s.trace)
  {
    hide Commands, LaterTrace;
    LaterCommands(s.trace, n);
  }

  /** Nothing is tracked, and context and media are gone. */
  ghost predicate AtRest(s: State) {
    && s.context == None && !s.setup.media
    && s.peers.pcs == map[] && s.peers.isPublisher == map[] && s.peers.closed == {}
    && s.requests == NO_REQUESTS && s.pending == map[] && s.inbound == NO_INBOUND && s.channels == NO_CHANNELS
  }

  /** Outside a session a manager is at rest, whatever it was used for before. */
  lemma {:induction false} EndedMeansEmpty(es: seq<Event>)
    requires !Run(New(), es).setup.communicating
    ensures AtRest(Run(New(), es))
  {
    hide Step, Run;
    TidyRun(es);
  }

  /** So it is after every stop, and after every start whose connection fails. */
  lemma {:induction false} SessionsEndEmpty(es: seq<Event>, e: Event)
    requires Occurs(Run(New(), es), e)
    requires e.Stop? || (e.Start? && !e.connects && !Run(New(), es).setup.communicating)
    ensures AtRest(Run(New(), es + [e]))
  {
    hide Run, AtRest;
    RunAppend(New(), es, [e]);
    RunOnce(Run(New(), es), e);
    EndingStep(Run(New(), es), e);
    EndedMeansEmpty(es + [e]);
  }

  lemma RunOnce(s: State, e: Event)
    ensures Run(s, [e]) == Step(s, e)
  {
    hide Step;
    assert [e][..0] == [];
  }

  lemma EndingStep(s: State, e: Event)
    requires Occurs(s, e) && (e.Stop? || (e.Start? && !e.connects && !s.setup.communicating))
    ensures !Step(s, e).setup.communicating
  {
    hide Begin;
  }
}
