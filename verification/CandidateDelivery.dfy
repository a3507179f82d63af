/**
  Remote candidates are delivered exactly once, in every run; and in the order they came, for as long as the socket
  does not open while candidates of an absent own peer connection are queued.
 */
module CandidateDelivery {
  import opened Wrappers
  import opened Traces
  import opened Signaling
  import opened Conference
  import PeerLifecycle
  import FreshSessions

  // ---- what came in and what went out

  /** The non-empty candidates received for a stream. */
  ghost function GotFor(k: string): Entry -> seq<Candidate> {
    (e: Entry) =>
      if e.In? && e.notice.RemoteCandidate? && e.notice.stream == k && e.notice.candidate != ""
      then [Candidate(e.notice.candidate, e.notice.mid)]
      else []
  }

  /** The candidates handed to the peer connections of a stream. */
  ghost function GivenTo(k: string): Entry -> seq<Candidate> {
    (e: Entry) => if e.Called? && e.peer.stream == k && e.call.AddCandidate? then [e.call.candidate] else []
  }

  ghost function Got(s: State, k: string): seq<Candidate> {
    Collect(s.trace, GotFor(k))
  }

  ghost function Given(s: State, k: string): seq<Candidate> {
    Collect(s.trace, GivenTo(k))
  }

  ghost function Queue(s: State, k: string): seq<Candidate> {
    Pending(s.pending, k)
  }

  /** Every candidate of the session is accounted for once: handed over, or still queued. */
  ghost predicate Accounted(s: State, k: string) {
    multiset(Got(s, k)) == multiset(Given(s, k)) + multiset(Queue(s, k))
  }

  /** Handed over in the order received, what is queued comes last, and nothing is queued beside a live peer. */
  ghost predicate InOrder(s: State, k: string) {
    && Got(s, k) == Given(s, k) + Queue(s, k)
    && (k in s.peers.pcs ==> Queue(s, k) == [])
  }

  ghost predicate Rooted(s: State) {
    forall k :: k in s.peers.pcs ==> s.peers.pcs[k].stream == k
  }

  /** Opening the socket sets up the own peer connection, which does not flush what was queued for it. */
  ghost predicate OpenSafe(s: State, k: string) {
    k == s.setup.publishStreamId && k !in s.peers.pcs ==> Queue(s, k) == []
  }

  // ---- entries that carry no candidate

  predicate Bare(e: Entry) {
    && !(e.In? && e.notice.RemoteCandidate?)
    && !(e.Called? && e.call.AddCandidate?)
  }

  lemma BareTail(s: State, s': State, k: string)
    requires |s.trace| <= |s'.trace| && s'.trace[..|s.trace|] == s.trace
    requires forall i :: |s.trace| <= i < |s'.trace| ==> Bare(s'.trace[i])
    ensures Got(s', k) == Got(s, k) && Given(s', k) == Given(s, k)
  {
    hide Collect;
    var u := s'.trace[|s.trace|..];
    assert s'.trace == s.trace + u;
    CollectAppend(s.trace, u, GotFor(k));
    CollectAppend(s.trace, u, GivenTo(k));
    CollectNothing(u, GotFor(k));
    CollectNothing(u, GivenTo(k));
  }

  lemma OneEntry(s: State, e: Entry, k: string)
    ensures Got(Emit(s, [e]), k) == Got(s, k) + GotFor(k)(e)
    ensures Given(Emit(s, [e]), k) == Given(s, k) + GivenTo(k)(e)
  {
    hide Collect;
    CollectAppend(s.trace, [e], GotFor(k));
    CollectAppend(s.trace, [e], GivenTo(k));
    CollectOne(e, GotFor(k));
    CollectOne(e, GivenTo(k));
  }

  // ---- handing over the queue

  lemma CallsNext(p: Peer, cs: seq<Candidate>)
    ensures CandidateCalls(p, []) == []
    ensures cs != [] ==> CandidateCalls(p, cs) == CandidateCalls(p, cs[..|cs| - 1]) + [Called(p, AddCandidate(cs[|cs| - 1]))]
  {
  }

  lemma CollectNone<T>(pick: Entry -> seq<T>)
    ensures Collect([], pick) == []
  {
  }

  lemma {:induction false} CallsGive(p: Peer, cs: seq<Candidate>, k: string)
    ensures Collect(CandidateCalls(p, cs), GotFor(k)) == []
    ensures Collect(CandidateCalls(p, cs), GivenTo(k)) == if p.stream == k then cs else []
  {
    hide Collect, CandidateCalls;
    CallsNext(p, cs);
    if cs == [] {
      CollectNone(GotFor(k));
      CollectNone(GivenTo(k));
    } else {
      var front, c := cs[..|cs| - 1], cs[|cs| - 1];
      var e := Called(p, AddCandidate(c));
      CallsGive(p, front, k);
      assert cs == front + [c];
      CollectAppend(CandidateCalls(p, front), [e], GotFor(k));
      CollectAppend(CandidateCalls(p, front), [e], GivenTo(k));
      CollectOne(e, GotFor(k));
      CollectOne(e, GivenTo(k));
    }
  }

  lemma CollectThree<T>(a: seq<Entry>, b: seq<Entry>, c: seq<Entry>, pick: Entry -> seq<T>)
    requires forall i :: 0 <= i < |a| ==> pick(a[i]) == []
    requires forall i :: 0 <= i < |c| ==> pick(c[i]) == []
    ensures Collect(a + b + c, pick) == Collect(b, pick)
  {
    hide Collect;
    CollectNothing(a, pick);
    CollectNothing(c, pick);
    CollectAppend(a, b, pick);
    CollectAppend(a + b, c, pick);
  }

  lemma SdpGives(p: Peer, kind: string, sdp: string, media: seq<RecvTracks.Section>, cs: seq<Candidate>, k: string)
    ensures Collect(SdpCalls(p, kind, sdp, media, cs), GotFor(k)) == []
    ensures Collect(SdpCalls(p, kind, sdp, media, cs), GivenTo(k)) == if p.stream == k then cs else []
  {
    hide Collect, OfferedTracks;
    var a := TrackCalls(p, OfferedTracks(kind, media)) + [Called(p, SetRemote(KindOf(kind), sdp))];
    var c := if kind == "offer" then [Called(p, SetLocal(Answer))] else [];
    CallsGive(p, cs, k);
    CollectThree(a, CandidateCalls(p, cs), c, GotFor(k));
    CollectThree(a, CandidateCalls(p, cs), c, GivenTo(k));
  }

  /** A description hands over the whole queue of its stream, and touches no other stream. */
  lemma HandlingSdp(s: State, j: string, kind: string, sdp: string, media: seq<RecvTracks.Section>, k: string)
    requires Rooted(s)
    ensures var s' := HandleRemoteSdp(s, j, kind, sdp, media);
            && Got(s', k) == Got(s, k)
            && Given(s', k) == Given(s, k) + (if k == j then Queue(s, k) else [])
            && Queue(s', k) == (if k == j then [] else Queue(s, k))
            && (k in s'.peers.pcs <==> k == j || k in s.peers.pcs)
  {
    hide Collect;
    var room := j == s.setup.roomId;
    var p := PeerOf(s.peers, j, room);
    var s1 := s.(trace := s.trace + Making(s.peers, j, room));
    var u := SdpCalls(p, kind, sdp, media, Pending(s.pending, j));
    BareTail(s, s1, k);
    SdpGives(p, kind, sdp, media, Pending(s.pending, j), k);
    CollectAppend(s1.trace, u, GotFor(k));
    CollectAppend(s1.trace, u, GivenTo(k));
  }

  // ---- one step

  /** A step that keeps both readings, keeps the queue, and gains no peer connection with a queue. */
  lemma AsideKeeps(s: State, s': State, k: string)
    requires |s.trace| <= |s'.trace| && s'.trace[..|s.trace|] == s.trace
    requires forall i :: |s.trace| <= i < |s'.trace| ==> Bare(s'.trace[i])
    requires Queue(s', k) == Queue(s, k)
    ensures Accounted(s, k) ==> Accounted(s', k)
    ensures InOrder(s, k) && (k in s'.peers.pcs ==> k in s.peers.pcs || Queue(s, k) == []) ==> InOrder(s', k)
  {
    hide Collect;
    BareTail(s, s', k);
  }

  /** A candidate is handed over at once when its stream has a peer connection, and queued when it has none. */
  lemma HandlingCandidate(s: State, j: string, text: string, mid: string, k: string)
    requires Rooted(s)
    ensures var s' := Handle(s, RemoteCandidate(j, text, mid));
            var x := if k == j && text != "" then [Candidate(text, mid)] else [];
            && Got(s', k) == Got(s, k) + x
            && Given(s', k) == Given(s, k) + (if k in s.peers.pcs then x else [])
            && Queue(s', k) == Queue(s, k) + (if k in s.peers.pcs then [] else x)
            && s'.peers == s.peers
  {
    hide Collect;
    var n := RemoteCandidate(j, text, mid);
    var s0 := Emit(s, [In(n)]);
    OneEntry(s, In(n), k);
    if j in s.peers.pcs && text != "" {
      OneEntry(s0, Called(s.peers.pcs[j], AddCandidate(Candidate(text, mid))), k);
    }
  }

  lemma Arrival(got: seq<Candidate>, given: seq<Candidate>, queue: seq<Candidate>, x: seq<Candidate>)
    ensures multiset(got) == multiset(given) + multiset(queue) ==>
              && multiset(got + x) == multiset(given + x) + multiset(queue)
              && multiset(got + x) == multiset(given) + multiset(queue + x)
    ensures got == given + queue ==> got + x == given + (queue + x)
    ensures got == given + queue && queue == [] ==> got + x == given + x + queue
  {
  }

  lemma CandidateKeeps(s: State, j: string, text: string, mid: string, k: string)
    requires Rooted(s)
    ensures var s' := Handle(s, RemoteCandidate(j, text, mid));
            (Accounted(s, k) ==> Accounted(s', k)) && (InOrder(s, k) ==> InOrder(s', k))
  {
    hide Collect, Handle;
    var x := if k == j && text != "" then [Candidate(text, mid)] else [];
    HandlingCandidate(s, j, text, mid, k);
    var got, given, queue := Got(s, k), Given(s, k), Queue(s, k);
    assert given + [] == given && queue + [] == queue;
    Arrival(got, given, queue, x);
  }

  lemma SdpKeeps(s: State, j: string, kind: string, sdp: string, media: seq<RecvTracks.Section>, k: string)
    requires Rooted(s)
    ensures var s' := HandleRemoteSdp(s, j, kind, sdp, media);
            (Accounted(s, k) ==> Accounted(s', k)) && (InOrder(s, k) ==> InOrder(s', k))
  {
    hide Collect, HandleRemoteSdp;
    HandlingSdp(s, j, kind, sdp, media, k);
  }

  lemma OtherNoticeQueues(s: State, n: Notice)
    requires !n.RemoteSdp? && !n.RemoteCandidate?
    ensures Handle(s, n).pending == s.pending && Handle(s, n).peers.pcs.Keys <= s.peers.pcs.Keys
  {
  }

  lemma OtherRepliesAreBare(s: State, n: Notice)
    requires !n.RemoteSdp? && !n.RemoteCandidate?
    ensures forall i :: 0 <= i < |Reply(s, n)| ==> Bare(Reply(s, n)[i])
  {
  }

  lemma {:induction false} OtherNoticeKeeps(s: State, n: Notice, k: string)
    requires !n.RemoteSdp? && !n.RemoteCandidate?
    ensures Accounted(s, k) ==> Accounted(Handle(s, n), k)
    ensures InOrder(s, k) ==> InOrder(Handle(s, n), k)
  {
    hide Collect, Handle, Reply, InOrder, Accounted;
    HandleReplies(s, n);
    OtherRepliesAreBare(s, n);
    OtherNoticeQueues(s, n);
    AsideKeeps(s, Handle(s, n), k);
  }

  lemma NoticeKeeps(s: State, n: Notice, k: string)
    requires Rooted(s)
    ensures Accounted(s, k) ==> Accounted(Handle(s, n), k)
    ensures InOrder(s, k) ==> InOrder(Handle(s, n), k)
  {
    hide Collect, HandleRemoteSdp, AddRemoteCandidate;
    match n
    case RemoteSdp(j, kind, sdp, media) =>
      OneEntry(s, In(n), k);
      SdpKeeps(Emit(s, [In(n)]), j, kind, sdp, media, k);
    case RemoteCandidate(j, text, mid) => CandidateKeeps(s, j, text, mid, k);
    case _ => OtherNoticeKeeps(s, n, k);
  }

  lemma SettingUpKeeps(s: State, own: string, k: string)
    ensures var s' := SetupPublishPeer(s, own);
            && (Accounted(s, k) ==> Accounted(s', k))
            && (InOrder(s, k) && (k == own && k !in s.peers.pcs ==> Queue(s, k) == []) ==> InOrder(s', k))
            && Queue(s', k) == Queue(s, k)
  {
    hide Collect;
    AsideKeeps(s, SetupPublishPeer(s, own), k);
  }

  lemma OpeningKeeps(s: State, k: string)
    requires s.context.Some?
    ensures Accounted(s, k) ==> Accounted(OnOpened(s), k)
    ensures InOrder(s, k) && OpenSafe(s, k) ==> InOrder(OnOpened(s), k)
    ensures Queue(OnOpened(s), k) == Queue(s, k)
    ensures Got(OnOpened(s), k) == Got(s, k) && Given(OnOpened(s), k) == Given(s, k)
  {
    hide Collect;
    var s1 := SetOpen(s, true);
    var s2 := SetupPublishPeer(s1, s.setup.publishStreamId);
    SettingUpKeeps(s1, s.setup.publishStreamId, k);
    AsideKeeps(s2, OnOpened(s), k);
    BareTail(s1, s2, k);
    BareTail(s2, OnOpened(s), k);
  }

  lemma EmptyIsInOrder(s: State, k: string)
    requires s.trace == [] && s.pending == map[] && s.peers.pcs == map[]
    ensures Accounted(s, k) && InOrder(s, k)
  {
  }

  lemma StartingKeeps(s: State, isPlayer: bool, k: string)
    requires FreshSessions.Tidy(s) && Starts(s)
    ensures Accounted(Begin(s, isPlayer), k) && InOrder(Begin(s, isPlayer), k)
  {
    hide Collect;
    EmptyIsInOrder(s, k);
    AsideKeeps(s, Begin(s, isPlayer), k);
  }

  lemma MinorKeeps(s: State, e: Event, k: string)
    requires IsMinor(e)
    ensures Accounted(s, k) ==> Accounted(Step(s, e), k)
    ensures InOrder(s, k) ==> InOrder(Step(s, e), k)
  {
    hide Collect, Step, Got, Given;
    MinorStep(s, e);
    AsideKeeps(s, Step(s, e), k);
  }

  /** One event: nothing is lost or repeated, and order is lost only if an unsafe opening of the socket takes it. */
  lemma StepKeeps(s: State, e: Event, k: string)
    requires Rooted(s) && FreshSessions.Tidy(s)
    ensures Accounted(s, k) ==> Accounted(Step(s, e), k)
    ensures InOrder(s, k) && (e.WsOpened? ==> OpenSafe(s, k)) ==> InOrder(Step(s, e), k)
  {
    hide Collect, Handle, Decode, Begin, OnOpened, InOrder, Accounted, Closings, Farewell;
    if IsMinor(e) {
      MinorKeeps(s, e, k);
    } else if Occurs(s, e) {
      match e
      case Start(isPlayer, connects, _) =>
        if Starts(s) {
          StartingKeeps(s, isPlayer, k);
          if !connects { EmptyIsInOrder(Step(s, e), k); }
        }
      case Stop(_) => if s.setup.communicating { EmptyIsInOrder(Step(s, e), k); }
      case WsOpened => OpeningKeeps(s, k);
      case Received(message) => NoticeKeeps(s, Decode(message), k);
    }
  }

  // ---- every run

  lemma {:induction false} RunIsRooted(es: seq<Event>)
    ensures Rooted(Run(New(), es)) && FreshSessions.Tidy(Run(New(), es))
  {
    PeerLifecycle.RunIsConserved(es);
    FreshSessions.TidyRun(es);
  }

  /**
    Exactly once, in every run whatsoever: the candidates received in the current session for a stream are, as a
    multiset, those handed to its peer connections (re-created ones included) together with those still queued.
   */
  lemma {:induction false} DeliveredExactlyOnce(es: seq<Event>, k: string)
    ensures Accounted(Run(New(), es), k)
  {
    if es == [] {
    } else {
      DeliveredExactlyOnce(es[..|es| - 1], k);
      RunIsRooted(es[..|es| - 1]);
      StepKeeps(Run(New(), es[..|es| - 1]), es[|es| - 1], k);
    }
  }

  /** Every opening of the socket in the run finds no queue for an absent own peer connection of this stream. */
  ghost predicate SafelyOpened(es: seq<Event>, k: string) {
    forall i :: 0 <= i < |es| && es[i].WsOpened? ==> OpenSafe(Run(New(), es[..i]), k)
  }

  /** In order: as long as the socket opens safely, and then no stream has both a live peer and a queue. */
  lemma {:induction false} DeliveredInOrder(es: seq<Event>, k: string)
    requires SafelyOpened(es, k)
    ensures InOrder(Run(New(), es), k)
  {
    if es == [] {
    } else {
      var front := es[..|es| - 1];
      forall i | 0 <= i < |front| && front[i].WsOpened? ensures OpenSafe(Run(New(), front[..i]), k) {
        assert front[..i] == es[..i] && es[i].WsOpened?;
      }
      DeliveredInOrder(front, k);
      RunIsRooted(front);
      assert es[..|es| - 1] == front;
      StepKeeps(Run(New(), front), es[|es| - 1], k);
    }
  }

  /** A stream that is not the own one when the socket opens keeps its order in every run. */
  lemma {:induction false} OthersInOrder(es: seq<Event>, k: string)
    requires forall i :: 0 <= i < |es| && es[i].WsOpened? ==> Run(New(), es[..i]).setup.publishStreamId != k
    ensures InOrder(Run(New(), es), k)
  {
    DeliveredInOrder(es, k);
  }

  /** The socket opens before the session's first message: then every stream, the own one included, keeps its order. */
  lemma OpenedFirstInOrder(es: seq<Event>, k: string)
    requires forall i :: 0 <= i < |es| && es[i].WsOpened? ==>
               forall j :: 0 <= j < |Run(New(), es[..i]).trace| ==> !Run(New(), es[..i]).trace[j].In?
    ensures InOrder(Run(New(), es), k)
  {
    hide Collect;
    forall i | 0 <= i < |es| && es[i].WsOpened? ensures OpenSafe(Run(New(), es[..i]), k) {
      var s := Run(New(), es[..i]);
      DeliveredExactlyOnce(es[..i], k);
      CollectNothing(s.trace, GotFor(k));
      assert |multiset(Queue(s, k))| == 0;
    }
    DeliveredInOrder(es, k);
  }

  // ---- one opening per session

  /** The socket has opened in the session that is running, if one is. */
  ghost predicate OpenedAlready(es: seq<Event>) {
    es != []
    && Run(New(), es).setup.communicating
    && ((es[|es| - 1].WsOpened? && Occurs(Run(New(), es[..|es| - 1]), es[|es| - 1])) || OpenedAlready(es[..|es| - 1]))
  }

  /** No message has come in this session, and none can. */
  ghost predicate Quiet(s: State) {
    && (forall i :: 0 <= i < |s.trace| ==> !s.trace[i].In?)
    && (s.context.Some? ==> !s.context.value.wsOpen)
  }

  lemma QuietStays(s: State, e: Event)
    requires FreshSessions.Tidy(s) && Quiet(s) && !(e.WsOpened? && Occurs(s, e))
    ensures Quiet(Step(s, e))
  {
    hide Handle, Decode, Begin, OnOpened, Closings, Farewell, Hangup;
    if IsMinor(e) {
      MinorStep(s, e);
    } else if e.Start? && Starts(s) && e.connects {
      var u := BeginReplies(s, e.isPlayer);
      BeginIsClosed(s, e.isPlayer);
    }
  }

  lemma BeginIsClosed(s: State, isPlayer: bool)
    ensures Begin(s, isPlayer).context == Some(Context(s.setup.roomId, false, Some(Client(s.setup.publishStreamId, s.setup.roomId, 0))))
  {
    hide SetupPublishPeer;
  }

  /** Messages come only after an opening of the same session. */
  lemma {:induction false} UnopenedIsQuiet(es: seq<Event>)
    requires !OpenedAlready(es)
    ensures Quiet(Run(New(), es))
  {
    if es == [] {
    } else {
      hide Step, Occurs;
      var front, e := es[..|es| - 1], es[|es| - 1];
      FreshSessions.TidyRun(es);
      FreshSessions.TidyRun(front);
      if Run(New(), es).setup.communicating {
        UnopenedIsQuiet(front);
        QuietStays(Run(New(), front), e);
      }
    }
  }

  /** The socket opens at most once a session, as it is asked to: then every stream keeps its order, the own one included. */
  lemma {:induction false} OpensOnceInOrder(es: seq<Event>, k: string)
    requires forall i :: 0 <= i < |es| && es[i].WsOpened? ==> !OpenedAlready(es[..i])
    ensures InOrder(Run(New(), es), k)
  {
    hide Run, InOrder;
    forall i, j | 0 <= i < |es| && es[i].WsOpened? && 0 <= j < |Run(New(), es[..i]).trace|
      ensures !Run(New(), es[..i]).trace[j].In?
    {
      UnopenedIsQuiet(es[..i]);
    }
    OpenedFirstInOrder(es, k);
  }

  // ---- exactly when an opening of the socket is harmless

  ghost predicate AllReceived(es: seq<Event>) {
    forall i :: 0 <= i < |es| ==> es[i].Received?
  }

  ghost predicate OrderKept(s: State, k: string) {
    Got(s, k) == Given(s, k) + Queue(s, k)
  }

  lemma {:induction false} MessagesKeepOrder(s: State, es: seq<Event>, k: string)
    requires PeerLifecycle.Conserved(s) && InOrder(s, k) && AllReceived(es)
    ensures InOrder(Run(s, es), k)
  {
    hide Collect;
    if es == [] {
    } else {
      var front := es[..|es| - 1];
      MessagesKeepOrder(s, front, k);
      PeerLifecycle.RunKeeps(s, front);
      var e := es[|es| - 1];
      if Occurs(Run(s, front), e) {
        NoticeKeeps(Run(s, front), Decode(e.message), k);
      }
    }
  }

  /** A candidate message for stream `k`, as another client's signalling would send it. */
  ghost function CandidateMessage(k: string, text: string): Event {
    Received(Message(Encode(TakeCandidate(k, text, "", 0)), []))
  }

  /** After an unsafe opening, one more candidate for the own stream overtakes the queued ones. */
  lemma Overtaking(given: seq<Candidate>, queue: seq<Candidate>, c: Candidate)
    requires queue != [] && c != queue[0]
    ensures given + queue + [c] != given + [c] + queue
  {
    assert (given + queue + [c])[|given|] == queue[0];
    assert (given + [c] + queue)[|given|] == c;
  }

  lemma {:induction false} UnsafeOpeningOvertakes(s: State, k: string) returns (e: Event)
    requires PeerLifecycle.Conserved(s) && InOrder(s, k)
    requires s.context.Some? && s.context.value.client.Some? && !OpenSafe(s, k)
    ensures e.Received? && !OrderKept(Step(OnOpened(s), e), k)
  {
    hide Collect, Handle, PeerLifecycle.LifeOf, SetupCalls, Decode, Encode, Got, Given;
    var text := Queue(s, k)[0].text + "x";
    e := CandidateMessage(k, text);
    SentIsReadBack(TakeCandidate(k, text, "", 0), []);
    OpeningKeeps(s, k);
    HandlingCandidate(OnOpened(s), k, text, "", k);
    Overtaking(Given(s, k), Queue(s, k), Candidate(text, ""));
    assert Queue(s, k) + [] == Queue(s, k);
  }

  /**
    The guard is exact: from any state in order, an opening of the socket is safe for the own stream if and only if
    order survives every sequence of messages after it.
   */
  lemma OpeningIsSafeIff(s: State, k: string)
    requires PeerLifecycle.Conserved(s) && InOrder(s, k)
    requires s.context.Some? && s.context.value.client.Some?
    ensures OpenSafe(s, k) <==> forall es :: AllReceived(es) ==> OrderKept(Run(Step(s, WsOpened), es), k)
  {
    hide Collect, Run, Step, OnOpened, Got, Given, PeerLifecycle.Conserved;
    OpeningIs(s);
    if OpenSafe(s, k) {
      OpeningKeeps(s, k);
      PeerLifecycle.StepKeeps(s, WsOpened);
      forall es | AllReceived(es) ensures OrderKept(Run(Step(s, WsOpened), es), k) {
        MessagesKeepOrder(Step(s, WsOpened), es, k);
      }
    } else {
      var e := UnsafeOpeningOvertakes(s, k);
      FreshSessions.RunOnce(Step(s, WsOpened), e);
      assert AllReceived([e]);
    }
  }

  // ---- a run in which a second opening loses the order

  ghost function FinishedMessage(k: string): Event {
    Received(Message(map["command" := Str("notification"), "definition" := Str("play_finished"), "streamId" := Str(k)], []))
  }

  lemma FinishedIsRead(k: string)
    ensures Decode(FinishedMessage(k).message) == PlayFinished(k)
  {
    hide Integer;
    var m := FinishedMessage(k).message.fields;
    assert Text(m, "command") == Some("notification") && Text(m, "definition") == Some("play_finished");
    assert Text(m, "streamId") == Some(k) && Text(m, "trackId") == Some("");
    hide Text;
    assert "start"[0] == 's' && "takeConfiguration"[0] == 't' && "takeCandidate"[0] == 't' && "bitrateMeasurement"[0] == 'b';
    assert "joinedTheRoom"[0] == 'j' && "publish_started"[1] == 'u' && |"play_started"| == 12;
  }

  lemma FinishedLeaves(s: State, k: string)
    requires s.Online() && k != ""
    ensures var s' := Step(s, FinishedMessage(k)); k !in s'.peers.pcs && s'.context == s.context && s'.setup == s.setup
  {
    hide Decode, OnPlayFinished;
    FinishedIsRead(k);
    var s0 := Emit(s, [In(PlayFinished(k))]);
    assert Step(s, FinishedMessage(k)) == OnPlayFinished(s0, k);
    FinishedIs(s0, k);
  }

  lemma FinishedIs(s: State, k: string)
    requires k != ""
    ensures var s' := OnPlayFinished(s, k); k !in s'.peers.pcs && s'.context == s.context && s'.setup == s.setup
  {
  }

  /** The own stream's playing is reported finished, and a candidate for it follows: now an opening would be unsafe. */
  lemma EndedThenQueued(s: State, k: string)
    requires s.Online() && k == s.setup.publishStreamId && k != ""
    ensures var s' := Step(Step(s, FinishedMessage(k)), CandidateMessage(k, "a"));
            s'.context == s.context && s'.setup == s.setup && !OpenSafe(s', k)
  {
    hide Decode, Encode, FinishedMessage;
    FinishedLeaves(s, k);
    SentIsReadBack(TakeCandidate(k, "a", "", 0), []);
    var s1 := Step(s, FinishedMessage(k));
    var s2 := Handle(s1, RemoteCandidate(k, "a", ""));
    assert s2.pending[k] == Queue(s1, k) + [Candidate("a", "")];
  }

  lemma RunOne(s: State, es: seq<Event>, e: Event)
    ensures Run(s, es + [e]) == Step(Run(s, es), e)
  {
    hide Step;
    assert (es + [e])[..|es|] == es;
  }

  /** A session of an only player for stream `k`, with its socket open. */
  lemma OpenSession(k: string) returns (es: seq<Event>)
    ensures Run(New(), es).Online() && Run(New(), es).setup.publishStreamId == k
    ensures SafelyOpened(es, k)
  {
    hide Handle, Decode, Cleanup;
    var a, b, c := SetUrl("ws"), SetStream(k), Start(true, true, []);
    assert Run(New(), []) == New();
    RunOne(New(), [], a);
    RunOne(New(), [] + [a], b);
    RunOne(New(), [] + [a] + [b], c);
    RunOne(New(), [] + [a] + [b] + [c], WsOpened);
    var before := [] + [a] + [b] + [c];
    es := before + [WsOpened];
    assert "ws"[0] == 'w' && NO_URL[0] == 'A';
    assert k in Run(New(), before).peers.pcs;
    assert es[..3] == before;
  }

  /**
    That the socket opens at most once a session is needed: in a run of the machine in which it opened a second time, which
    this client never asks for, the own stream's candidates would be handed over out of order.
   */
  lemma {:induction false} ReopeningCanOvertake(k: string) returns (es: seq<Event>)
    requires k != ""
    ensures !OrderKept(Run(New(), es), k)
  {
    hide Run, Step, Decode, Encode, OpenSafe;
    var es0 := OpenSession(k);
    var es1 := es0 + [FinishedMessage(k)];
    var es2 := es1 + [CandidateMessage(k, "a")];
    RunOne(New(), es0, FinishedMessage(k));
    RunOne(New(), es1, CandidateMessage(k, "a"));
    EndedThenQueued(Run(New(), es0), k);
    StillSafelyOpened(es0, FinishedMessage(k), k);
    StillSafelyOpened(es1, CandidateMessage(k, "a"), k);
    DeliveredInOrder(es2, k);
    PeerLifecycle.RunIsConserved(es2);
    var e := UnsafeOpeningOvertakes(Run(New(), es2), k);
    es := es2 + [WsOpened] + [e];
    RunOne(New(), es2, WsOpened);
    RunOne(New(), es2 + [WsOpened], e);
    OpeningIs(Run(New(), es2));
  }

  lemma OpeningIs(s: State)
    requires s.context.Some?
    ensures Step(s, WsOpened) == OnOpened(s)
  {
  }

  lemma StillSafelyOpened(es: seq<Event>, e: Event, k: string)
    requires SafelyOpened(es, k) && !e.WsOpened?
    ensures SafelyOpened(es + [e], k)
  {
    hide Run, OpenSafe;
    forall i | 0 <= i < |es + [e]| && (es + [e])[i].WsOpened? ensures OpenSafe(Run(New(), (es + [e])[..i]), k) {
      assert (es + [e])[..i] == es[..i] && (es + [e])[i] == es[i];
    }
  }
}
