/**
  The offer/answer discipline of the session description state machine (section 3.2 of RFC 8829): every description
  received is applied once and in order, every offer is answered, and the calls on each peer connection are legal
  exactly as long as the server offers to settled peers and answers only outstanding offers.
 */
module OfferAnswer {
  import opened Wrappers
  import opened Traces
  import opened Signaling
  import opened Conference
  import opened Orders
  import opened PeerLifecycle

  datatype Signal = Stable | HaveLocalOffer | HaveRemoteOffer | Illegal

  /** The state machine of section 3.2, over the two description kinds this client uses. */
  function Move(g: Signal, c: Call): Signal {
    match c
    case SetRemote(Offer, _) => if g.Stable? || g.HaveRemoteOffer? then HaveRemoteOffer else Illegal
    case SetRemote(Answer, _) => if g.HaveLocalOffer? then Stable else Illegal
    case SetLocal(Offer) => if g.Stable? || g.HaveLocalOffer? then HaveLocalOffer else Illegal
    case SetLocal(Answer) => if g.HaveRemoteOffer? then Stable else Illegal
    case _ => g
  }

  ghost function SignalStep(p: Peer): (Signal, Entry) -> Signal {
    (g: Signal, e: Entry) => if e.Called? && e.peer == p then Move(g, e.call) else g
  }

  /** Where the descriptions set on `p` have taken it. */
  ghost function SignalOf(s: State, p: Peer): Signal {
    Fold(Full(s), Stable, SignalStep(p))
  }

  /** Between handlers no peer connection owes an answer, and nothing illegal was ever asked of one. */
  ghost predicate Settled(s: State) {
    forall p :: SignalOf(s, p) == Stable || SignalOf(s, p) == HaveLocalOffer
  }

  /** What the server may send: offers to peers that are stable or new, answers to an outstanding offer. */
  ghost predicate Polite(s: State, n: Notice) {
    n.RemoteSdp? ==>
      if n.kind == "offer" then n.stream in s.peers.pcs ==> SignalOf(s, s.peers.pcs[n.stream]) == Stable
      else n.stream in s.peers.pcs && SignalOf(s, s.peers.pcs[n.stream]) == HaveLocalOffer
  }

  // ---- stretches of a trace that set no description

  predicate Silent(e: Entry) {
    && (e.Called? ==> !e.call.SetRemote? && !e.call.SetLocal?)
    && (e.In? ==> !e.notice.RemoteSdp?)
  }

  ghost predicate Grows(s: State, s': State, u: seq<Entry>) {
    Full(s') == Full(s) + u
  }

  lemma SignalGrows(s: State, s': State, u: seq<Entry>, p: Peer)
    requires Grows(s, s', u)
    ensures SignalOf(s', p) == Fold(u, SignalOf(s, p), SignalStep(p))
  {
    hide Fold;
    FoldAppend(Full(s), u, Stable, SignalStep(p));
  }

  lemma SignalStays(s: State, s': State, u: seq<Entry>, p: Peer)
    requires Grows(s, s', u)
    requires forall i :: 0 <= i < |u| ==> Silent(u[i]) || u[i].In? || (u[i].Called? && u[i].peer != p)
    ensures SignalOf(s', p) == SignalOf(s, p)
  {
    hide Fold;
    SignalGrows(s, s', u, p);
    FoldStays(u, SignalOf(s, p), SignalStep(p));
  }

  // ---- a remote description

  lemma {:induction false} FoldThree<A>(a: seq<Entry>, e: Entry, b: seq<Entry>, c: seq<Entry>, g: A, step: (A, Entry) -> A)
    requires forall i, h :: 0 <= i < |a| ==> step(h, a[i]) == h
    requires forall i, h :: 0 <= i < |b| ==> step(h, b[i]) == h
    requires |c| <= 1
    ensures Fold(a + [e] + b + c, g, step) == if c == [] then step(g, e) else step(step(g, e), c[0])
  {
    hide Fold;
    FoldAppend(a + [e] + b, c, g, step);
    FoldAppend(a + [e], b, g, step);
    FoldAppend(a, [e], g, step);
    FoldStays(a, g, step);
    FoldOne(e, g, step);
    FoldStays(b, step(g, e), step);
    if c == [] {
      FoldStays(c, step(g, e), step);
    } else {
      FoldOne(c[0], step(g, e), step);
      assert c == [c[0]];
    }
  }

  /** Setting a remote offer and answering it takes a stable peer back to stable; an answer needs an offer out. */
  lemma SdpMoves(p: Peer, kind: string, sdp: string, media: seq<RecvTracks.Section>, queue: seq<Candidate>, g: Signal)
    ensures Fold(SdpCalls(p, kind, sdp, media, queue), g, SignalStep(p)) ==
            if kind == "offer" then Move(Move(g, SetRemote(Offer, sdp)), SetLocal(Answer))
            else Move(g, SetRemote(Answer, sdp))
  {
    hide Fold, OfferedTracks;
    FoldThree(TrackCalls(p, OfferedTracks(kind, media)), Called(p, SetRemote(KindOf(kind), sdp)),
              CandidateCalls(p, queue), if kind == "offer" then [Called(p, SetLocal(Answer))] else [], g, SignalStep(p));
  }

  /** A peer connection that was not yet made has been asked nothing. */
  lemma UnbornIsStable(s: State, p: Peer)
    requires LifeOf(Full(s), p) == Unborn
    ensures SignalOf(s, p) == Stable
  {
    hide Fold, LifeOf;
    LifeMeaning(Full(s), p);
    var t := Full(s);
    assert Made(p) !in t by {
      assert multiset(t)[Made(p)] == 0;
    }
    assert forall i :: 0 <= i <= |t| ==> Made(p) !in t[..i];
    assert forall i :: 0 <= i < |t| ==> !(t[i].Called? && t[i].peer == p);
    FoldStays(t, Stable, SignalStep(p));
  }

  lemma SdpSignals(s: State, k: string, kind: string, sdp: string, media: seq<RecvTracks.Section>, q: Peer)
    requires Conserved(s)
    ensures var s' := Handle(s, RemoteSdp(k, kind, sdp, media));
            var p := PeerOf(s.peers, k, k == s.setup.roomId);
            && SignalOf(s, p) == (if k in s.peers.pcs then SignalOf(s, s.peers.pcs[k]) else Stable)
            && SignalOf(s', q) ==
               if q != p then SignalOf(s, q)
               else if kind == "offer" then Move(Move(SignalOf(s, p), SetRemote(Offer, sdp)), SetLocal(Answer))
               else Move(SignalOf(s, p), SetRemote(Answer, sdp))
  {
    hide Fold, LifeOf, Handle, SdpCalls;
    var s' := Handle(s, RemoteSdp(k, kind, sdp, media));
    var room := k == s.setup.roomId;
    var p := PeerOf(s.peers, k, room);
    var a := [In(RemoteSdp(k, kind, sdp, media))] + Making(s.peers, k, room);
    var b := SdpCalls(p, kind, sdp, media, Pending(s.pending, k));
    if k !in s.peers.pcs {
      assert !(LifeOf(Full(s), p) != Unborn);
      UnbornIsStable(s, p);
    }
    HandleReplies(s, RemoteSdp(k, kind, sdp, media));
    assert a + b == [In(RemoteSdp(k, kind, sdp, media))] + (Making(s.peers, k, room) + b);
    assert Full(s') == Full(s) + (a + b);
    if q != p {
      SdpCallsArePeers(p, kind, sdp, media, Pending(s.pending, k));
      SignalStays(s, s', a + b, q);
    } else {
      SignalGrows(s, s', a + b, p);
      FoldAppend(a, b, SignalOf(s, p), SignalStep(p));
      FoldStays(a, SignalOf(s, p), SignalStep(p));
      SdpMoves(p, kind, sdp, media, Pending(s.pending, k), SignalOf(s, p));
    }
  }

  lemma SdpSettledIff(s: State, k: string, kind: string, sdp: string, media: seq<RecvTracks.Section>)
    requires Conserved(s) && Settled(s)
    ensures Settled(Handle(s, RemoteSdp(k, kind, sdp, media))) <==> Polite(s, RemoteSdp(k, kind, sdp, media))
  {
    hide SignalOf, LifeOf, Handle;
    var n := RemoteSdp(k, kind, sdp, media);
    var s', p := Handle(s, n), PeerOf(s.peers, k, k == s.setup.roomId);
    SdpSignals(s, k, kind, sdp, media, p);
    if Polite(s, n) {
      forall q ensures SignalOf(s', q) == Stable || SignalOf(s', q) == HaveLocalOffer {
        SdpSignals(s, k, kind, sdp, media, q);
      }
    }
  }

  // ---- every step

  lemma OfferToSettled(s: State, k: string)
    requires Settled(s)
    ensures Settled(Handle(s, StartOffer(k)))
  {
    hide Fold, Handle;
    var s', n := Handle(s, StartOffer(k)), StartOffer(k);
    var u := [In(n)] + Reply(s, n);
    HandleReplies(s, n);
    assert Full(s') == Full(s) + u;
    forall q ensures SignalOf(s', q) == if k in s.peers.pcs && q == s.peers.pcs[k] then HaveLocalOffer else SignalOf(s, q) {
      if k in s.peers.pcs && q == s.peers.pcs[k] {
        SignalGrows(s, s', u, q);
        FoldAppend([u[0]], [u[1]], SignalOf(s, q), SignalStep(q));
        FoldOne(u[0], SignalOf(s, q), SignalStep(q));
        FoldOne(u[1], SignalOf(s, q), SignalStep(q));
      } else {
        SignalStays(s, s', u, q);
      }
    }
  }

  lemma SilentSettled(s: State, s': State, u: seq<Entry>)
    requires Grows(s, s', u) && forall i :: 0 <= i < |u| ==> Silent(u[i])
    ensures Settled(s) ==> Settled(s')
  {
    hide Fold;
    forall p ensures SignalOf(s', p) == SignalOf(s, p) { SignalStays(s, s', u, p); }
  }

  /** Every other event only adds entries that set no description. */
  lemma OtherNoticeSilent(s: State, n: Notice) returns (u: seq<Entry>)
    requires !n.RemoteSdp? && !n.StartOffer?
    ensures Grows(s, Handle(s, n), u) && forall i :: 0 <= i < |u| ==> Silent(u[i])
  {
    hide Handle;
    HandleReplies(s, n);
    u := [In(n)] + Reply(s, n);
    assert Full(Handle(s, n)) == Full(s) + u;
  }

  lemma StartSilent(s: State, isPlayer: bool) returns (u: seq<Entry>)
    ensures Grows(s, Begin(s, isPlayer), u) && forall i :: 0 <= i < |u| ==> Silent(u[i])
  {
    hide Begin;
    u := BeginReplies(s, isPlayer);
    assert Full(Begin(s, isPlayer)) == Full(s) + u;
  }

  lemma OpenSilent(s: State) returns (u: seq<Entry>)
    requires s.context.Some?
    ensures Grows(s, OnOpened(s), u) && forall i :: 0 <= i < |u| ==> Silent(u[i])
  {
    hide OnOpened;
    u := OpenReplies(s);
    assert Full(OnOpened(s)) == Full(s) + u;
  }

  lemma {:induction false} ClosingsSetNothing(pcs: map<string, Peer>, order: seq<string>)
    requires forall i :: 0 <= i < |order| ==> order[i] in pcs
    ensures forall i :: 0 <= i < |Closings(pcs, order)| ==> Silent(Closings(pcs, order)[i])
  {
    if order == [] {
    } else {
      ClosingsSetNothing(pcs, order[..|order| - 1]);
    }
  }

  lemma StopSilent(s: State, order: seq<string>) returns (u: seq<Entry>)
    requires Enumerates(order, s.peers.pcs.Keys)
    ensures Grows(s, Idle(Cleanup(s, order)), u) && forall i :: 0 <= i < |u| ==> Silent(u[i])
  {
    hide Closings;
    ClosingsSetNothing(s.peers.pcs, order);
    u := Farewell(s) + Closings(s.peers.pcs, order) + Hangup(s);
    assert Full(Cleanup(s, order)) == Full(s) + u;
  }

  /** Every event but a notice only adds entries that set no description. */
  lemma EventSilent(s: State, e: Event) returns (u: seq<Entry>)
    requires !e.Received?
    ensures Grows(s, Step(s, e), u) && forall i :: 0 <= i < |u| ==> Silent(u[i])
  {
    hide Begin, OnOpened, Handle, Decode, Cleanup;
    if IsMinor(e) {
      MinorStep(s, e);
      var s' := Step(s, e);
      u := s'.trace[|s.trace|..];
      assert s'.trace == s.trace + u;
    } else if !Occurs(s, e) {
      u := [];
      assert Full(s) == Full(s) + u;
    } else {
      match e
      case Start(isPlayer, connects, order) =>
        u := [];
        assert Full(s) == Full(s) + u;
        if Starts(s) {
          u := StartSilent(s, isPlayer);
          if !connects {
            var v := StopSilent(Begin(s, isPlayer), order);
            assert Full(s) + u + v == Full(s) + (u + v);
            u := u + v;
          }
        }
      case Stop(order) =>
        u := [];
        assert Full(s) == Full(s) + u;
        if s.setup.communicating { u := StopSilent(s, order); }
      case WsOpened => u := OpenSilent(s);
    }
  }

  /** One event keeps every peer connection settled exactly when what arrived, if anything did, was polite. */
  lemma StepSettledIff(s: State, e: Event)
    requires Conserved(s) && Settled(s)
    ensures Settled(Step(s, e)) <==> (e.Received? && Occurs(s, e) ==> Polite(s, Decode(e.message)))
  {
    hide Settled, LifeOf, Handle, Conserved, SignalOf, Decode;
    if e.Received? {
      if Occurs(s, e) {
        var n := Decode(e.message);
        match n
        case RemoteSdp(k, kind, sdp, media) => SdpSettledIff(s, k, kind, sdp, media);
        case StartOffer(k) => OfferToSettled(s, k);
        case _ => var u := OtherNoticeSilent(s, n); SilentSettled(s, Handle(s, n), u);
      }
    } else {
      var u := EventSilent(s, e);
      SilentSettled(s, Step(s, e), u);
    }
  }

  // ---- every run

  /** Every message of the run was polite when it arrived. */
  ghost predicate PoliteRun(es: seq<Event>) {
    forall i :: 0 <= i < |es| && es[i].Received? && Occurs(Run(New(), es[..i]), es[i]) ==>
      Polite(Run(New(), es[..i]), Decode(es[i].message))
  }

  /**
    If the server offers only to stable peers and answers only outstanding offers, every call is legal and between
    handlers each peer connection is stable or waits for the answer to its own offer.
   */
  lemma {:induction false} PoliteServerSettles(es: seq<Event>)
    requires PoliteRun(es)
    ensures Settled(Run(New(), es))
  {
    hide Polite, Step;
    if es == [] {
    } else {
      var front := es[..|es| - 1];
      forall i | 0 <= i < |front| && front[i].Received? && Occurs(Run(New(), front[..i]), front[i])
        ensures Polite(Run(New(), front[..i]), Decode(front[i].message))
      {
        assert front[..i] == es[..i] && es[i] == front[i];
      }
      PoliteServerSettles(front);
      RunIsConserved(front);
      assert es[..|es| - 1] == front;
      StepSettledIff(Run(New(), front), es[|es| - 1]);
    }
  }

  /** Every event adds to what was done, and takes nothing back. */
  lemma StepGrows(s: State, e: Event) returns (u: seq<Entry>)
    ensures Grows(s, Step(s, e), u)
  {
    hide Handle, Decode, Begin, OnOpened, Cleanup, Reply;
    if e.Received? {
      u := [];
      assert Full(s) == Full(s) + u;
      if Occurs(s, e) {
        var n := Decode(e.message);
        HandleReplies(s, n);
        u := [In(n)] + Reply(s, n);
        assert Full(Handle(s, n)) == Full(s) + u;
      }
    } else {
      u := EventSilent(s, e);
    }
  }

  /** An illegal call is never made good. */
  lemma {:induction false} IllegalStays(s: State, es: seq<Event>, p: Peer)
    requires SignalOf(s, p) == Illegal
    ensures SignalOf(Run(s, es), p) == Illegal
  {
    hide Fold, Step;
    if es == [] {
    } else {
      var s1 := Run(s, es[..|es| - 1]);
      IllegalStays(s, es[..|es| - 1], p);
      var u := StepGrows(s1, es[|es| - 1]);
      SignalGrows(s1, Run(s, es), u, p);
      FoldStays(u, Illegal, SignalStep(p));
    }
  }

  /** And only then: after the first impolite message of a run the discipline is broken, whatever comes later. */
  lemma ImpoliteMessageBreaks(es: seq<Event>, message: Message, fs: seq<Event>)
    requires PoliteRun(es) && Occurs(Run(New(), es), Received(message))
    requires !Polite(Run(New(), es), Decode(message))
    ensures !Settled(Run(New(), es + [Received(message)] + fs))
  {
    hide SignalOf, Handle, Decode, LifeOf;
    var s, n := Run(New(), es), Decode(message);
    var p := PeerOf(s.peers, n.stream, n.stream == s.setup.roomId);
    PoliteServerSettles(es);
    RunIsConserved(es);
    assert (es + [Received(message)])[..|es|] == es;
    SdpSignals(s, n.stream, n.kind, n.sdp, n.media, p);
    IllegalStays(Run(New(), es + [Received(message)]), fs, p);
    RunAppend(New(), es + [Received(message)], fs);
  }

  // ---- every description is applied, every offer answered

  ghost function ReceivedFor(k: string): Entry -> seq<(SdpKind, string)> {
    (e: Entry) =>
      if e.In? && e.notice.RemoteSdp? && e.notice.stream == k then [(KindOf(e.notice.kind), e.notice.sdp)] else []
  }

  ghost function AppliedTo(k: string): Entry -> seq<(SdpKind, string)> {
    (e: Entry) =>
      if e.Called? && e.peer.stream == k && e.call.SetRemote? then [(e.call.remote, e.call.sdp)] else []
  }

  /** An offer received counts one, an answer given takes one away. */
  ghost function DebtOf(k: string): (int, Entry) -> int {
    (n: int, e: Entry) =>
      if e.In? && e.notice.RemoteSdp? && e.notice.stream == k && e.notice.kind == "offer" then n + 1
      else if e.Called? && e.peer.stream == k && e.call == SetLocal(Answer) then n - 1
      else n
  }

  ghost predicate Answered(s: State, k: string) {
    && Collect(Full(s), ReceivedFor(k)) == Collect(Full(s), AppliedTo(k))
    && Fold(Full(s), 0, DebtOf(k)) == 0
  }

  predicate Unrelated(e: Entry) {
    && (e.Called? ==> !e.call.SetRemote? && e.call != SetLocal(Answer))
    && (e.In? ==> !e.notice.RemoteSdp?)
  }

  lemma UnrelatedKeeps(s: State, s': State, u: seq<Entry>, k: string)
    requires Grows(s, s', u) && forall i :: 0 <= i < |u| ==> Unrelated(u[i])
    ensures Answered(s, k) ==> Answered(s', k)
  {
    hide Fold, Collect;
    CollectAppend(Full(s), u, ReceivedFor(k));
    CollectAppend(Full(s), u, AppliedTo(k));
    FoldAppend(Full(s), u, 0, DebtOf(k));
    CollectNothing(u, ReceivedFor(k));
    CollectNothing(u, AppliedTo(k));
    FoldStays(u, Fold(Full(s), 0, DebtOf(k)), DebtOf(k));
  }

  lemma {:induction false} CollectMiddle<T>(a: seq<Entry>, e: Entry, b: seq<Entry>, pick: Entry -> seq<T>)
    requires forall i :: 0 <= i < |a| ==> pick(a[i]) == []
    requires forall i :: 0 <= i < |b| ==> pick(b[i]) == []
    ensures Collect(a + [e] + b, pick) == pick(e)
  {
    hide Collect;
    CollectAppend(a + [e], b, pick);
    CollectAppend(a, [e], pick);
    CollectNothing(a, pick);
    CollectOne(e, pick);
    CollectNothing(b, pick);
  }

  lemma SdpApplies(p: Peer, kind: string, sdp: string, media: seq<RecvTracks.Section>, queue: seq<Candidate>, k: string, n: int)
    ensures var u := SdpCalls(p, kind, sdp, media, queue);
            && Collect(u, ReceivedFor(k)) == []
            && Collect(u, AppliedTo(k)) == (if p.stream == k then [(KindOf(kind), sdp)] else [])
            && Fold(u, n, DebtOf(k)) == n - if p.stream == k && kind == "offer" then 1 else 0
  {
    hide Collect, Fold, OfferedTracks;
    var a := TrackCalls(p, OfferedTracks(kind, media));
    var e := Called(p, SetRemote(KindOf(kind), sdp));
    var b := CandidateCalls(p, queue);
    var c := if kind == "offer" then [Called(p, SetLocal(Answer))] else [];
    assert a + [e] + b + c == a + [e] + (b + c);
    CollectMiddle(a, e, b + c, ReceivedFor(k));
    CollectMiddle(a, e, b + c, AppliedTo(k));
    FoldThree(a, e, b, c, n, DebtOf(k));
  }

  lemma {:induction false} SdpAnswered(s: State, j: string, kind: string, sdp: string, media: seq<RecvTracks.Section>, k: string)
    requires Conserved(s)
    ensures Answered(s, k) ==> Answered(Handle(s, RemoteSdp(j, kind, sdp, media)), k)
  {
    hide Collect, Fold, LifeOf, Handle, SdpCalls;
    var n := RemoteSdp(j, kind, sdp, media);
    var room := j == s.setup.roomId;
    var p := PeerOf(s.peers, j, room);
    var a, b := Making(s.peers, j, room), SdpCalls(p, kind, sdp, media, Pending(s.pending, j));
    HandleReplies(s, n);
    assert Full(Handle(s, n)) == Full(s) + [In(n)] + a + b;
    var t := Full(s) + [In(n)];
    CollectAppend(Full(s), [In(n)], ReceivedFor(k));
    CollectAppend(Full(s), [In(n)], AppliedTo(k));
    FoldAppend(Full(s), [In(n)], 0, DebtOf(k));
    CollectOne(In(n), ReceivedFor(k));
    CollectOne(In(n), AppliedTo(k));
    FoldOne(In(n), Fold(Full(s), 0, DebtOf(k)), DebtOf(k));
    MakingIsNothing(t, s.peers, j, room, k);
    var d := Fold(t + a, 0, DebtOf(k));
    SdpApplies(p, kind, sdp, media, Pending(s.pending, j), k, d);
    CollectAppend(t + a, b, ReceivedFor(k));
    CollectAppend(t + a, b, AppliedTo(k));
    FoldAppend(t + a, b, 0, DebtOf(k));
  }

  lemma MakingIsNothing(t: seq<Entry>, ps: Peers, j: string, room: bool, k: string)
    ensures Collect(t + Making(ps, j, room), ReceivedFor(k)) == Collect(t, ReceivedFor(k))
    ensures Collect(t + Making(ps, j, room), AppliedTo(k)) == Collect(t, AppliedTo(k))
    ensures Fold(t + Making(ps, j, room), 0, DebtOf(k)) == Fold(t, 0, DebtOf(k))
  {
    hide Collect, Fold;
    var a := Making(ps, j, room);
    CollectAppend(t, a, ReceivedFor(k));
    CollectAppend(t, a, AppliedTo(k));
    FoldAppend(t, a, 0, DebtOf(k));
    CollectNothing(a, ReceivedFor(k));
    CollectNothing(a, AppliedTo(k));
    FoldStays(a, Fold(t, 0, DebtOf(k)), DebtOf(k));
  }

  lemma StepAnswered(s: State, e: Event, k: string)
    requires Conserved(s)
    ensures Answered(s, k) ==> Answered(Step(s, e), k)
  {
    hide Answered, Conserved, Handle, Decode;
    if !e.Received? {
      var u := EventSilent(s, e);
      UnrelatedKeeps(s, Step(s, e), u, k);
    } else if Occurs(s, e) {
      var n := Decode(e.message);
      if n.RemoteSdp? {
        SdpAnswered(s, n.stream, n.kind, n.sdp, n.media, k);
      } else {
        HandleReplies(s, n);
        var u := [In(n)] + Reply(s, n);
        assert Full(Handle(s, n)) == Full(s) + u;
        UnrelatedKeeps(s, Handle(s, n), u, k);
      }
    }
  }

  /**
    In every run, whatever the server sends: the descriptions set on the peer connections of a stream are those received
    for it, in order, and there are as many answers as offers.
   */
  lemma {:induction false} EveryOfferIsAnswered(es: seq<Event>, k: string)
    ensures Answered(Run(New(), es), k)
  {
    if es == [] {
    } else {
      hide Step, Answered;
      EveryOfferIsAnswered(es[..|es| - 1], k);
      RunIsConserved(es[..|es| - 1]);
      StepAnswered(Run(New(), es[..|es| - 1]), es[|es| - 1], k);
    }
  }
}
