/**
  Peer connections are conserved: over every run, sessions torn down and started again included, each one ever made is
  held under its own stream or was closed exactly once, and nothing is asked of one before it is made or after it is
  closed.
 */
module PeerLifecycle {
  import opened Traces
  import opened Signaling
  import opened Conference
  import opened Orders

  datatype Life = Unborn | Live | Closed | Broken

  /** What one entry does to the life of peer connection `p`; a call out of turn breaks it for good. */
  ghost function LifeStep(p: Peer): (Life, Entry) -> Life {
    (l: Life, e: Entry) =>
      if e == Made(p) then (if l.Unborn? then Live else Broken)
      else if e.Called? && e.peer == p then
        (if !l.Live? then Broken else if e.call.Close? then Closed else Live)
      else l
  }

  ghost function LifeOf(t: seq<Entry>, p: Peer): Life {
    Fold(t, Unborn, LifeStep(p))
  }

  ghost predicate Holds(s: State, p: Peer) {
    p.stream in s.peers.pcs && s.peers.pcs[p.stream] == p
  }

  ghost predicate Conserved(s: State) {
    && (forall k :: k in s.peers.pcs ==> s.peers.pcs[k].stream == k && s.peers.pcs[k].serial < s.peers.made)
    && (forall p :: LifeOf(Full(s), p) != Broken)
    && (forall p :: LifeOf(Full(s), p) == Live <==> Holds(s, p))
    && (forall p :: LifeOf(Full(s), p) != Unborn ==> p.serial < s.peers.made)
  }

  // ---- one step

  /** An entry that neither makes nor closes a peer connection, and calls only one that is held. */
  ghost predicate Harmless(s: State, e: Entry) {
    && !e.Made?
    && (e.Called? ==> Holds(s, e.peer) && !e.call.Close?)
  }

  ghost predicate Extends(s: State, s': State) {
    && s'.past == s.past && s'.peers.pcs == s.peers.pcs && s'.peers.made == s.peers.made
    && |s.trace| <= |s'.trace| && s'.trace[..|s.trace|] == s.trace
    && forall i :: |s.trace| <= i < |s'.trace| ==> Harmless(s, s'.trace[i])
  }

  lemma LifeAppend(t: seq<Entry>, u: seq<Entry>, p: Peer)
    ensures LifeOf(t + u, p) == Fold(u, LifeOf(t, p), LifeStep(p))
  {
    FoldAppend(t, u, Unborn, LifeStep(p));
  }

  lemma ExtendingKeeps(s: State, s': State)
    requires Conserved(s) && Extends(s, s')
    ensures Conserved(s')
  {
    hide Fold;
    var u := s'.trace[|s.trace|..];
    assert Full(s') == Full(s) + u;
    forall p ensures LifeOf(Full(s'), p) == LifeOf(Full(s), p) {
      LifeAppend(Full(s), u, p);
      var l := LifeOf(Full(s), p);
      forall i | 0 <= i < |u| ensures LifeStep(p)(l, u[i]) == l {
        assert u[i] == s'.trace[|s.trace| + i];
      }
      FoldStays(u, l, LifeStep(p));
    }
  }

  lemma LifeAfterOne(s: State, s': State, e: Entry, q: Peer)
    requires s'.past == s.past && s'.trace == s.trace + [e]
    ensures LifeOf(Full(s'), q) == LifeStep(q)(LifeOf(Full(s), q), e)
  {
    hide Fold, LifeStep;
    assert Full(s') == Full(s) + [e];
    LifeAppend(Full(s), [e], q);
    FoldOne(e, LifeOf(Full(s), q), LifeStep(q));
  }

  lemma MakingKeeps(s: State, s': State, p: Peer)
    requires Conserved(s) && p.serial == s.peers.made && p.stream !in s.peers.pcs
    requires s'.past == s.past && s'.trace == s.trace + [Made(p)]
    requires s'.peers.pcs == s.peers.pcs[p.stream := p] && s'.peers.made == s.peers.made + 1
    ensures Conserved(s')
  {
    hide LifeOf, Full;
    forall q ensures LifeOf(Full(s'), q) == if q == p then Live else LifeOf(Full(s), q) {
      LifeAfterOne(s, s', Made(p), q);
      assert LifeOf(Full(s), p) == Unborn by { assert !(LifeOf(Full(s), p) != Unborn); }
    }
  }

  lemma ClosingKeeps(s: State, s': State, k: string)
    requires Conserved(s) && k in s.peers.pcs
    requires s'.past == s.past && s'.trace == s.trace + [Called(s.peers.pcs[k], Close)]
    requires s'.peers.pcs == s.peers.pcs - {k} && s'.peers.made == s.peers.made
    ensures Conserved(s')
  {
    hide LifeOf, Full;
    var p := s.peers.pcs[k];
    forall q ensures LifeOf(Full(s'), q) == if q == p then Closed else LifeOf(Full(s), q) {
      LifeAfterOne(s, s', Called(p, Close), q);
      assert Holds(s, p);
    }
  }

  /** The four calls of a parting end a live peer connection, and concern no other. */
  lemma PartingCloses(q: Peer, p: Peer, l: Life)
    requires q == p ==> l == Live
    ensures Fold(Parting(q), l, LifeStep(p)) == if q == p then Closed else l
  {
    hide Fold;
    var t := Parting(q);
    var step := LifeStep(p);
    assert t == [t[0]] + [t[1]] + [t[2]] + [t[3]];
    FoldAppend([t[0]] + [t[1]] + [t[2]], [t[3]], l, step);
    FoldAppend([t[0]] + [t[1]], [t[2]], l, step);
    FoldAppend([t[0]], [t[1]], l, step);
    FoldOne(t[0], l, step);
    FoldOne(t[1], l, step);
    FoldOne(t[2], l, step);
    FoldOne(t[3], l, step);
  }

  /** Walking the hash map closes each peer connection it holds, once. */
  lemma {:induction false} ClosingsClose(pcs: map<string, Peer>, order: seq<string>, p: Peer, l: Life)
    requires forall i :: 0 <= i < |order| ==> order[i] in pcs
    requires forall i, j :: 0 <= i < j < |order| ==> order[i] != order[j]
    requires forall k :: k in pcs ==> pcs[k].stream == k
    requires l == Live <==> p.stream in pcs && pcs[p.stream] == p
    ensures Fold(Closings(pcs, order), l, LifeStep(p)) ==
            if p.stream in order && pcs[p.stream] == p then Closed else l
  {
    if order == [] {
    } else {
      hide Fold, Parting, LifeStep;
      var front, k := order[..|order| - 1], order[|order| - 1];
      ClosingsClose(pcs, front, p, l);
      assert k !in front && order == front + [k];
      FoldAppend(Closings(pcs, front), Parting(pcs[k]), l, LifeStep(p));
      PartingCloses(pcs[k], p, if p.stream in front && pcs[p.stream] == p then Closed else l);
    }
  }

  lemma CleaningKeeps(s: State, order: seq<string>)
    requires Conserved(s) && Enumerates(order, s.peers.pcs.Keys)
    ensures Conserved(Idle(Cleanup(s, order)))
  {
    hide Fold, Closings;
    var s' := Idle(Cleanup(s, order));
    var u, c, h := Farewell(s), Closings(s.peers.pcs, order), Hangup(s);
    assert Full(s') == Full(s) + u + c + h;
    forall p ensures LifeOf(Full(s'), p) == if Holds(s, p) then Closed else LifeOf(Full(s), p) {
      var l := LifeOf(Full(s), p);
      LifeAppend(Full(s), u, p);
      FoldStays(u, l, LifeStep(p));
      LifeAppend(Full(s) + u, c, p);
      ClosingsClose(s.peers.pcs, order, p, l);
      LifeAppend(Full(s) + u + c, h, p);
      FoldStays(h, LifeOf(Full(s) + u + c, p), LifeStep(p));
    }
  }

  // ---- the handlers, and every step

  lemma SettingUpKeeps(s: State, k: string)
    requires Conserved(s)
    ensures Conserved(SetupPublishPeer(s, k))
  {
    hide Conserved;
    if k !in s.peers.pcs {
      var p := Peer(s.peers.made, k, true);
      var s1 := s.(peers := Make(s.peers, k, true), trace := s.trace + [Made(p)]);
      MakingKeeps(s, s1, p);
      ExtendingKeeps(s1, SetupPublishPeer(s, k));
    }
  }

  lemma HandlingSdpKeeps(s: State, k: string, kind: string, sdp: string, media: seq<RecvTracks.Section>)
    requires Conserved(s)
    ensures Conserved(HandleRemoteSdp(s, k, kind, sdp, media))
  {
    var room := k == s.setup.roomId;
    var p := PeerOf(s.peers, k, room);
    var s1 := CreatePeer(s, k, room);
    if k in s.peers.pcs {
      assert s1.trace == s.trace;
    } else {
      MakingKeeps(s, s1, p);
    }
    SdpCallsHarmless(s1, p, kind, sdp, media, Pending(s.pending, k));
    ExtendingKeeps(s1, HandleRemoteSdp(s, k, kind, sdp, media));
  }

  lemma SdpCallsHarmless(s: State, p: Peer, kind: string, sdp: string, media: seq<RecvTracks.Section>, queue: seq<Candidate>)
    requires Holds(s, p)
    ensures forall i :: 0 <= i < |SdpCalls(p, kind, sdp, media, queue)| ==>
              Harmless(s, SdpCalls(p, kind, sdp, media, queue)[i])
  {
  }

  lemma RemovingKeeps(s: State, k: string)
    requires Conserved(s)
    ensures Conserved(RemovePeer(s, k))
  {
    hide Conserved;
    var s' := RemovePeer(s, k);
    var s1 := s.(trace := s.trace + CloseChannel(s.channels.local, k) + CloseChannel(s.channels.remote, k));
    ExtendingKeeps(s, s1);
    if k in s.peers.pcs {
      ClosingKeeps(s1, s', k);
    } else {
      assert s'.peers.pcs == s.peers.pcs && s'.trace == s1.trace;
      ExtendingKeeps(s1, s');
    }
  }

  lemma OtherRepliesAreHarmless(s: State, n: Notice)
    requires !n.RemoteSdp? && !n.PlayFinished?
    requires forall k :: k in s.peers.pcs ==> s.peers.pcs[k].stream == k
    ensures forall i :: 0 <= i < |Reply(s, n)| ==> Harmless(s, Reply(s, n)[i])
    ensures Handle(s, n).peers == s.peers
  {
  }

  lemma HandlingKeeps(s: State, n: Notice)
    requires Conserved(s)
    ensures Conserved(Handle(s, n))
  {
    hide Conserved, HandleRemoteSdp, OnPlayFinished;
    var s0 := Emit(s, [In(n)]);
    ExtendingKeeps(s, s0);
    match n
    case RemoteSdp(k, kind, sdp, media) => HandlingSdpKeeps(s0, k, kind, sdp, media);
    case PlayFinished(k) => FinishingKeeps(s0, k);
    case _ => OtherHandlingKeeps(s, n);
  }

  lemma OtherHandlingKeeps(s: State, n: Notice)
    requires Conserved(s) && !n.RemoteSdp? && !n.PlayFinished?
    ensures Conserved(Handle(s, n))
  {
    assert forall k :: k in s.peers.pcs ==> s.peers.pcs[k].stream == k;
    hide Conserved, Handle, Reply;
    HandleReplies(s, n);
    OtherRepliesAreHarmless(s, n);
    ExtendingKeeps(s, Handle(s, n));
  }

  lemma FinishingKeeps(s: State, k: string)
    requires Conserved(s)
    ensures Conserved(OnPlayFinished(s, k))
  {
    hide Conserved, RemovePeer;
    RemovingKeeps(s, k);
    if k != "" {
      ExtendingKeeps(RemovePeer(s, k), OnPlayFinished(s, k));
    }
  }

  lemma BeginningKeeps(s: State, isPlayer: bool)
    requires Conserved(s)
    ensures Conserved(Begin(s, isPlayer))
  {
    var s1 := Opening(s, isPlayer);
    ExtendingKeeps(s, s1);
    SettingUpKeeps(s1, s.setup.publishStreamId);
    ExtendingKeeps(SetupPublishPeer(s1, s.setup.publishStreamId), Begin(s, isPlayer));
  }

  lemma OpeningKeeps(s: State)
    requires Conserved(s) && s.context.Some?
    ensures Conserved(OnOpened(s))
  {
    var s1 := SetOpen(s, true);
    ExtendingKeeps(s, s1);
    SettingUpKeeps(s1, s.setup.publishStreamId);
    ExtendingKeeps(SetupPublishPeer(s1, s.setup.publishStreamId), OnOpened(s));
  }

  lemma {:induction false} StepKeeps(s: State, e: Event)
    requires Conserved(s)
    ensures Conserved(Step(s, e))
  {
    hide Conserved, Handle, Decode, Begin, OnOpened, Cleanup;
    if IsMinor(e) {
      MinorStep(s, e);
      ExtendingKeeps(s, Step(s, e));
    } else if Occurs(s, e) {
      match e
      case Start(isPlayer, connects, order) =>
        if Starts(s) {
          BeginningKeeps(s, isPlayer);
          if !connects {
            CleaningKeeps(Begin(s, isPlayer), order);
          }
        }
      case Stop(order) => if s.setup.communicating { CleaningKeeps(s, order); }
      case WsOpened => OpeningKeeps(s);
      case Received(message) => HandlingKeeps(s, Decode(message));
    }
  }

  lemma {:induction false} RunKeeps(s: State, es: seq<Event>)
    requires Conserved(s)
    ensures Conserved(Run(s, es))
  {
    if es == [] {
    } else {
      RunKeeps(s, es[..|es| - 1]);
      StepKeeps(Run(s, es[..|es| - 1]), es[|es| - 1]);
    }
  }

  // ---- the theorem

  /** Calls on `p` happen after it is made and before it is closed. */
  ghost predicate InTurn(t: seq<Entry>, p: Peer) {
    && (forall j :: 0 <= j < |t| && t[j].Called? && t[j].peer == p ==> Made(p) in t[..j])
    && (forall j :: 0 <= j < |t| && t[j].Called? && t[j].peer == p ==> Called(p, Close) !in t[..j])
  }

  /** What an unbroken life says in plain counts. */
  lemma {:induction false} LifeMeaning(t: seq<Entry>, p: Peer)
    requires LifeOf(t, p) != Broken
    ensures multiset(t)[Made(p)] == if LifeOf(t, p).Unborn? then 0 else 1
    ensures multiset(t)[Called(p, Close)] == if LifeOf(t, p).Closed? then 1 else 0
    ensures InTurn(t, p)
  {
    if t == [] {
    } else {
      var front, e := t[..|t| - 1], t[|t| - 1];
      LifeMeaning(front, p);
      assert t == front + [e];
      assert Made(p) in front <==> multiset(front)[Made(p)] > 0;
      assert Called(p, Close) in front <==> multiset(front)[Called(p, Close)] > 0;
      forall j | 0 <= j < |t| && t[j].Called? && t[j].peer == p
        ensures Made(p) in t[..j] && Called(p, Close) !in t[..j]
      {
        assert t[..j] == front[..j];
        assert front[..|front|] == front;
      }
    }
  }

  /**
    If it was ever made it was made once, and either its stream still holds it and it was never closed, or it was closed
    exactly once and no stream holds it; no stream but its own ever holds it; and every call on it falls between its
    making and its closing.
   */
  ghost predicate AccountedFor(s: State, p: Peer) {
    && (Made(p) in Full(s) ==>
          && multiset(Full(s))[Made(p)] == 1
          && multiset(Full(s))[Called(p, Close)] == if Holds(s, p) then 0 else 1)
    && (Holds(s, p) ==> Made(p) in Full(s))
    && (forall k :: k in s.peers.pcs && s.peers.pcs[k] == p ==> k == p.stream)
    && InTurn(Full(s), p)
  }

  lemma {:induction false} RunIsConserved(es: seq<Event>)
    ensures Conserved(Run(New(), es))
  {
    assert forall q :: LifeOf(Full(New()), q) == Unborn;
    RunKeeps(New(), es);
  }

  /** Conservation, over every run of a manager and for every peer connection. */
  lemma {:induction false} PeersAreConserved(es: seq<Event>, p: Peer)
    ensures AccountedFor(Run(New(), es), p)
  {
    hide Run, Step, LifeOf;
    var s := Run(New(), es);
    RunIsConserved(es);
    LifeMeaning(Full(s), p);
    assert Made(p) in Full(s) <==> multiset(Full(s))[Made(p)] > 0;
  }

  /** A torn-down manager holds nothing, so every peer connection it ever made has been closed. */
  lemma {:induction false} NothingIsLeftOpen(es: seq<Event>, order: seq<string>, p: Peer)
    requires Occurs(Run(New(), es), Stop(order)) && Run(New(), es).setup.communicating
    ensures var t := Full(Run(New(), es + [Stop(order)]));
            Made(p) in t ==> multiset(t)[Called(p, Close)] == 1
  {
    PeersAreConserved(es + [Stop(order)], p);
    assert (es + [Stop(order)])[..|es|] == es;
  }
}
