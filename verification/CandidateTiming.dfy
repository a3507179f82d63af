/** Candidates come after a description: for every stream but the own one, in every steady run. */
module CandidateTiming {
  import opened Wrappers
  import opened Traces
  import opened Signaling
  import opened Conference
  import opened PeerLifecycle
  import opened SteadyRuns
  import PlayRequests

  datatype Prime = Bare | Described | Early

  /** A candidate handed to a peer connection that has no remote description yet comes too early, for good. */
  ghost function PrimeStep(p: Peer): (Prime, Entry) -> Prime {
    (d: Prime, e: Entry) =>
      if d.Early? then Early
      else if e.Called? && e.peer == p && e.call.SetRemote? then Described
      else if e.Called? && e.peer == p && e.call.AddCandidate? && d.Bare? then Early
      else d
  }

  ghost function PrimeOf(s: State, p: Peer): Prime {
    Fold(s.trace, Bare, PrimeStep(p))
  }

  ghost predicate Timely(s: State) {
    forall p: Peer :: p.stream != s.setup.publishStreamId ==>
      PrimeOf(s, p) != Early && (Holds(s, p) ==> PrimeOf(s, p) == Described)
  }

  predicate NoTiming(e: Entry) {
    e.Called? ==> !e.call.SetRemote? && !e.call.AddCandidate?
  }

  lemma AsidePrime(s: State, s': State, u: seq<Entry>, p: Peer)
    requires s'.trace == s.trace + u
    requires forall i :: 0 <= i < |u| ==> NoTiming(u[i]) || (u[i].Called? && u[i].peer != p)
    ensures PrimeOf(s', p) == PrimeOf(s, p)
  {
    hide Fold;
    FoldAppend(s.trace, u, Bare, PrimeStep(p));
    FoldStays(u, PrimeOf(s, p), PrimeStep(p));
  }

  lemma AsideTimely(s: State, s': State, u: seq<Entry>)
    requires s'.trace == s.trace + u && forall i :: 0 <= i < |u| ==> NoTiming(u[i])
    requires s'.setup.publishStreamId == s.setup.publishStreamId
    requires forall p :: Holds(s', p) && p.stream != s.setup.publishStreamId ==> Holds(s, p)
    ensures Timely(s) ==> Timely(s')
  {
    hide Fold;
    forall p: Peer ensures PrimeOf(s', p) == PrimeOf(s, p) { AsidePrime(s, s', u, p); }
  }

  /** Once described, a peer connection takes any number of candidates. */
  lemma {:induction false} DescribedTakes(p: Peer, cs: seq<Candidate>)
    ensures Fold(CandidateCalls(p, cs), Described, PrimeStep(p)) == Described
  {
    if cs == [] {
    } else {
      DescribedTakes(p, cs[..|cs| - 1]);
      assert CandidateCalls(p, cs)[..|cs| - 1] == CandidateCalls(p, cs[..|cs| - 1]);
    }
  }

  lemma SdpPrimes(p: Peer, kind: string, sdp: string, media: seq<RecvTracks.Section>, queue: seq<Candidate>, d: Prime)
    requires d != Early
    ensures Fold(SdpCalls(p, kind, sdp, media, queue), d, PrimeStep(p)) == Described
  {
    hide Fold, OfferedTracks;
    var a := TrackCalls(p, OfferedTracks(kind, media));
    var e := Called(p, SetRemote(KindOf(kind), sdp));
    var b := CandidateCalls(p, queue);
    var c := if kind == "offer" then [Called(p, SetLocal(Answer))] else [];
    FoldAppend(a + [e] + b, c, d, PrimeStep(p));
    FoldAppend(a + [e], b, d, PrimeStep(p));
    FoldAppend(a, [e], d, PrimeStep(p));
    FoldStays(a, d, PrimeStep(p));
    FoldOne(e, d, PrimeStep(p));
    DescribedTakes(p, queue);
    FoldStays(c, Described, PrimeStep(p));
  }

  lemma SdpTimely(s: State, k: string, kind: string, sdp: string, media: seq<RecvTracks.Section>)
    ensures Timely(s) ==> Timely(Handle(s, RemoteSdp(k, kind, sdp, media)))
  {
    hide Fold, Handle, SdpCalls;
    var n := RemoteSdp(k, kind, sdp, media);
    var room := k == s.setup.roomId;
    var s', p := Handle(s, n), PeerOf(s.peers, k, room);
    var a, b := [In(n)] + Making(s.peers, k, room), SdpCalls(p, kind, sdp, media, Pending(s.pending, k));
    HandleReplies(s, n);
    SdpHolds(s, k, kind, sdp, media);
    assert s'.trace == s.trace + (a + b);
    if Timely(s) {
      forall q: Peer | q.stream != s.setup.publishStreamId
        ensures PrimeOf(s', q) != Early && (Holds(s', q) ==> PrimeOf(s', q) == Described)
      {
        if q == p {
          FoldAppend(s.trace, a + b, Bare, PrimeStep(p));
          FoldAppend(a, b, PrimeOf(s, p), PrimeStep(p));
          FoldStays(a, PrimeOf(s, p), PrimeStep(p));
          SdpPrimes(p, kind, sdp, media, Pending(s.pending, k), PrimeOf(s, p));
        } else {
          SdpCallsArePeers(p, kind, sdp, media, Pending(s.pending, k));
          AsidePrime(s, s', a + b, q);
        }
      }
    }
  }

  lemma SdpHolds(s: State, k: string, kind: string, sdp: string, media: seq<RecvTracks.Section>)
    ensures var s', p := Handle(s, RemoteSdp(k, kind, sdp, media)), PeerOf(s.peers, k, k == s.setup.roomId);
            && s'.setup == s.setup
            && (forall q :: Holds(s', q) ==> q == p || Holds(s, q))
  {
    hide SdpCalls;
  }

  lemma CandidateTimely(s: State, k: string, text: string, mid: string)
    requires forall j :: j in s.peers.pcs ==> s.peers.pcs[j].stream == j
    ensures Timely(s) ==> Timely(Handle(s, RemoteCandidate(k, text, mid)))
  {
    hide Fold, Handle;
    var n := RemoteCandidate(k, text, mid);
    var s' := Handle(s, n);
    HandleReplies(s, n);
    CandidateHolds(s, k, text, mid);
    if Timely(s) {
      forall q: Peer | q.stream != s.setup.publishStreamId
        ensures PrimeOf(s', q) != Early && (Holds(s', q) ==> PrimeOf(s', q) == Described)
      {
        var u := [In(n)] + Reply(s, n);
        if Holds(s, q) {
          FoldAppend(s.trace, u, Bare, PrimeStep(q));
          FoldStays(u, Described, PrimeStep(q));
        } else {
          AsidePrime(s, s', u, q);
        }
      }
    }
  }

  lemma CandidateHolds(s: State, k: string, text: string, mid: string)
    ensures var s' := Handle(s, RemoteCandidate(k, text, mid)); s'.setup == s.setup && s'.peers == s.peers
  {
  }

  lemma OtherHolds(s: State, n: Notice)
    requires !n.RemoteSdp?
    ensures Handle(s, n).setup == s.setup && forall p :: Holds(Handle(s, n), p) ==> Holds(s, p)
  {
  }

  lemma NoticeTimely(s: State, n: Notice)
    requires forall j :: j in s.peers.pcs ==> s.peers.pcs[j].stream == j
    ensures Timely(s) ==> Timely(Handle(s, n))
  {
    hide Timely, Handle;
    match n
    case RemoteSdp(k, kind, sdp, media) => SdpTimely(s, k, kind, sdp, media);
    case RemoteCandidate(k, text, mid) => CandidateTimely(s, k, text, mid);
    case _ =>
      HandleReplies(s, n);
      OtherHolds(s, n);
      AsideTimely(s, Handle(s, n), [In(n)] + Reply(s, n));
  }

  lemma SetupHolds(s: State, k: string)
    ensures forall p :: Holds(SetupPublishPeer(s, k), p) && p.stream != k ==> Holds(s, p)
    ensures k == s.setup.publishStreamId ==> SetupPublishPeer(s, k).setup == s.setup
  {
  }

  lemma EmptyTimely(s: State)
    requires s.trace == [] && s.peers.pcs == map[]
    ensures Timely(s)
  {
  }

  lemma StartTimely(s: State, isPlayer: bool)
    ensures Timely(s) ==> Timely(Begin(s, isPlayer))
  {
    hide Timely, SetupPublishPeer;
    var u := BeginReplies(s, isPlayer);
    SetupHolds(Opening(s, isPlayer), s.setup.publishStreamId);
    AsideTimely(s, Begin(s, isPlayer), u);
  }

  lemma OpenTimely(s: State)
    requires s.context.Some?
    ensures Timely(s) ==> Timely(OnOpened(s))
  {
    hide Timely, SetupPublishPeer;
    var u := OpenReplies(s);
    SetupHolds(SetOpen(s, true), s.setup.publishStreamId);
    AsideTimely(s, OnOpened(s), u);
  }

  lemma MinorTimely(s: State, e: Event)
    requires IsMinor(e) && Aligned(s) && Steady(s, e)
    ensures Timely(s) ==> Timely(Step(s, e))
  {
    hide Timely, Step, Steady, Aligned;
    MinorStep(s, e);
    var s' := Step(s, e);
    assert s'.trace == s.trace + s'.trace[|s.trace|..];
    if s.setup.communicating {
      PlayRequests.OwnStays(s, e);
      AsideTimely(s, s', s'.trace[|s.trace|..]);
    } else {
      AlignedIdle(s, e);
      EmptyTimely(s');
    }
  }

  /** A minor event outside a session leaves nothing tracked. */
  lemma AlignedIdle(s: State, e: Event)
    requires IsMinor(e) && Aligned(s) && !s.setup.communicating
    ensures Step(s, e).trace == [] && Step(s, e).peers.pcs == map[]
  {
    hide Handle, Decode, Begin, OnOpened, Cleanup;
  }

  lemma StepTimely(s: State, e: Event)
    requires Aligned(s) && Steady(s, e) && Timely(s)
    requires forall j :: j in s.peers.pcs ==> s.peers.pcs[j].stream == j
    ensures Timely(Step(s, e))
  {
    hide Timely, Handle, Begin, OnOpened, Decode, Farewell, Closings, Hangup;
    if IsMinor(e) {
      MinorTimely(s, e);
    } else if Occurs(s, e) {
      match e
      case Start(isPlayer, connects, order) =>
        if Starts(s) {
          if connects { StartTimely(s, isPlayer); } else { EmptyTimely(Step(s, e)); }
        }
      case Stop(order) => if s.setup.communicating { EmptyTimely(Step(s, e)); }
      case WsOpened => OpenTimely(s);
      case Received(message) => NoticeTimely(s, Decode(message));
    }
  }

  lemma {:induction false} RunIsTimely(es: seq<Event>)
    requires SteadyRun(es)
    ensures Timely(Run(New(), es))
  {
    if es == [] {
      EmptyTimely(New());
    } else {
      hide Step, Steady, Timely, Aligned;
      var s, e := Run(New(), es[..|es| - 1]), es[|es| - 1];
      SteadyPrefix(es);
      SteadyRunIsAligned(es[..|es| - 1]);
      RunIsConserved(es[..|es| - 1]);
      RunIsTimely(es[..|es| - 1]);
      StepTimely(s, e);
    }
  }

  lemma {:induction false} PrimeMeaning(t: seq<Entry>, p: Peer, j: nat) returns (i: nat)
    requires Fold(t, Bare, PrimeStep(p)) != Early
    requires j < |t| && t[j].Called? && t[j].peer == p && t[j].call.AddCandidate?
    ensures i < j && t[i].Called? && t[i].peer == p && t[i].call.SetRemote?
  {
    var front := t[..|t| - 1];
    if j < |front| {
      i := PrimeMeaning(front, p, j);
    } else {
      i := DescribedBy(front, p);
    }
  }

  lemma {:induction false} DescribedBy(t: seq<Entry>, p: Peer) returns (i: nat)
    requires Fold(t, Bare, PrimeStep(p)) == Described
    ensures i < |t| && t[i].Called? && t[i].peer == p && t[i].call.SetRemote?
  {
    var e := t[|t| - 1];
    if e.Called? && e.peer == p && e.call.SetRemote? {
      i := |t| - 1;
    } else {
      i := DescribedBy(t[..|t| - 1], p);
    }
  }

  /**
    In every steady run, a candidate given to a peer connection of any stream but the own one comes after a remote
    description was set on that same peer connection.
   */
  lemma {:induction false} CandidatesComeAfterDescription(es: seq<Event>, j: nat)
    requires SteadyRun(es) && j < |Run(New(), es).trace|
    requires var e := Run(New(), es).trace[j];
             e.Called? && e.call.AddCandidate? && e.peer.stream != Run(New(), es).setup.publishStreamId
    ensures var t := Run(New(), es).trace;
            exists i :: 0 <= i < j && t[i].Called? && t[i].peer == t[j].peer && t[i].call.SetRemote?
  {
    hide Run, Step, Fold;
    RunIsTimely(es);
    var t := Run(New(), es).trace;
    var i := PrimeMeaning(t, t[j].peer, j);
    assert t[i].Called?;
  }
}
