/** A manager object over a whole run: it goes where the state machine goes, so the theorems over runs hold of it. */
module ManagerRuns {
  import opened Signaling
  import opened Conference
  import opened Manager
  import PeerLifecycle
  import CandidateDelivery
  import OfferAnswer

  /** The same event, but for the order in which a hash map turned out to be walked. */
  predicate SameButOrder(e: Event, done: Event) {
    match e
    case Start(isPlayer, connects, _) => done.Start? && done.isPlayer == isPlayer && done.connects == connects
    case Stop(_) => done.Stop?
    case _ => done == e
  }

  // Each of the following delivers an event when there is anything to make the call; otherwise nothing happens.

  method SocketCall(m: WebRTCManager, e: Event)
    requires m.Valid() && (e.WsOpened? || e.WsClosed? || e.Received?)
    modifies m.Parts()
    ensures m.Abs() == Step(old(m.Abs()), e)
    ensures m.Valid() && m.Parts() == old(m.Parts())
  {
    hide Handle, Decode, OnOpened, Begin, Cleanup;
    match e
    case WsOpened => if m.context != null { m.OnConnected(); }
    case WsClosed => if m.context != null { m.OnDisconnected(); }
    case Received(message) =>
      if m.context != null && m.context.client != null && m.context.wsOpen { m.OnMessage(message); }
  }

  method PeerCall(m: WebRTCManager, e: Event)
    requires m.Valid() && (e.LocalCandidate? || e.LocalDescription? || e.TrackArrived? || e.FrameArrived? || e.PeerClosed?)
    modifies m.Parts()
    ensures m.Abs() == Step(old(m.Abs()), e)
    ensures m.Valid() && m.Parts() == old(m.Parts())
  {
    hide OnLocalCandidate, OnLocalDescription, OnTrack, OnFrame, Begin, Cleanup, OnOpened, Handle;
    match e
    case LocalCandidate(k, c) => if k in m.peers.pcs { m.OnPeerCandidate(k, c); }
    case LocalDescription(k, kind, sdp) => if k in m.peers.pcs { m.OnPeerDescription(k, kind, sdp); }
    case TrackArrived(k, mid, stated) => if k in m.peers.pcs { m.AddRemoteTrack(k, mid, stated); }
    case FrameArrived(k, i, binary) =>
      if k in m.inbound.remoteTracks && i < |m.inbound.remoteTracks[k]| { m.OnTrackFrame(k, i, binary); }
    case PeerClosed(k) => if k in m.peers.pcs { m.PeerTurnedClosed(k); }
  }

  method ChannelCall(m: WebRTCManager, e: Event)
    requires m.Valid() && (e.ChannelArrived? || e.ChannelState? || e.ChannelText?)
    modifies m.Parts()
    ensures m.Abs() == Step(old(m.Abs()), e)
    ensures m.Valid() && m.Parts() == old(m.Parts())
  {
    hide OnChannel, OnChannelText, Begin, Cleanup, OnOpened, Handle;
    match e
    case ChannelArrived(k, name) => if k in m.peers.pcs && m.peers.pcs[k].channels { m.OnDataChannel(name); }
    case ChannelState(remote, name, open) =>
      if name in (if remote then m.channels.remote else m.channels.local) { m.ChannelTurned(remote, name, open); }
    case ChannelText(name, sender, text) =>
      if name in m.channels.local || name in m.channels.remote { m.HandleDataChannelText(sender, text); }
  }

  /** Any event at all. */
  method Deliver(m: WebRTCManager, e: Event) returns (ghost done: Event)
    requires m.Valid()
    modifies m.Parts()
    ensures SameButOrder(e, done) && m.Abs() == Step(old(m.Abs()), done)
    ensures m.Valid() && fresh(m.Parts() - old(m.Parts()))
  {
    hide Step;
    done := e;
    match e
    case Start(isPlayer, connects, _) =>
      var ok, order := m.Start2WayCommunication(isPlayer, connects);
      done := Start(isPlayer, connects, order);
    case Stop(_) =>
      var order := m.Stop2WayCommunication();
      done := Stop(order);
    case SetUrl(url) => m.SetSignalingServerURL(url);
    case SetRoom(room) => m.SetRoomId(room);
    case SetStream(stream) => m.SetStreamId(stream);
    case WsOpened => SocketCall(m, e);
    case WsClosed => SocketCall(m, e);
    case Received(_) => SocketCall(m, e);
    case ChannelArrived(_, _) => ChannelCall(m, e);
    case ChannelState(_, _, _) => ChannelCall(m, e);
    case ChannelText(_, _, _) => ChannelCall(m, e);
    case _ => PeerCall(m, e);
  }

  /** A manager driven through any events ends where the machine's run over the same events does. */
  method Drive(es: seq<Event>) returns (m: WebRTCManager, ghost done: seq<Event>)
    ensures |done| == |es| && forall i :: 0 <= i < |es| ==> SameButOrder(es[i], done[i])
    ensures m.Valid() && fresh(m.Parts()) && m.Abs() == Run(New(), done)
    ensures forall p :: PeerLifecycle.AccountedFor(m.Abs(), p)
    ensures forall k :: CandidateDelivery.Accounted(m.Abs(), k) && OfferAnswer.Answered(m.Abs(), k)
  {
    hide Step, SameButOrder, PeerLifecycle.AccountedFor, CandidateDelivery.Accounted, OfferAnswer.Answered;
    m := new WebRTCManager();
    done := [];
    var n := 0;
    while n < |es|
      invariant 0 <= n == |done| <= |es|
      invariant forall i :: 0 <= i < n ==> SameButOrder(es[i], done[i])
      invariant m.Valid() && fresh(m.Parts()) && m.Abs() == Run(New(), done)
    {
      ghost var e := Deliver(m, es[n]);
      assert (done + [e])[..n] == done;
      done := done + [e];
      n := n + 1;
    }
    forall p ensures PeerLifecycle.AccountedFor(m.Abs(), p) { PeerLifecycle.PeersAreConserved(done, p); }
    forall k ensures CandidateDelivery.Accounted(m.Abs(), k) && OfferAnswer.Answered(m.Abs(), k) {
      CandidateDelivery.DeliveredExactlyOnce(done, k);
      OfferAnswer.EveryOfferIsAnswered(done, k);
    }
  }
}
