/** Which entry points can take which mutexes, over every performance of their code. */
module LockUse {
  import opened Threads
  import opened LockOrder

  /** Some performance takes the mutex. */
  ghost predicate CanTake(c: Code, l: Lock) {
    exists ops :: Performs(c, ops) && Acquire(l) in ops
  }

  predicate Mentions(c: Code, l: Lock) {
    match c
    case Nothing => false
    case With(m, b) => m == l || Mentions(b, l)
    case Then(a, b) => Mentions(a, l) || Mentions(b, l)
    case May(b) => Mentions(b, l)
    case Loop(b) => Mentions(b, l)
  }

  /** Whatever is written down somewhere in the code can happen. */
  lemma {:induction false} Taking(c: Code, l: Lock) returns (ops: seq<Op>)
    requires Mentions(c, l)
    ensures Performs(c, ops) && Acquire(l) in ops
  {
    hide Performs;
    match c
    case With(m, b) =>
      var inner := Minimal(b);
      MinimalPerforms(b);
      if m != l { inner := Taking(b, l); }
      ScopePerforms(m, b, inner);
      ops := [Acquire(m)] + inner + [Release(m)];
    case Then(a, b) =>
      var x, y := Minimal(a), Minimal(b);
      MinimalPerforms(a);
      MinimalPerforms(b);
      if Mentions(a, l) { x := Taking(a, l); } else { y := Taking(b, l); }
      ThenPerforms(a, b, x, y);
      ops := x + y;
    case May(b) =>
      ops := Taking(b, l);
      MayPerforms(b, ops);
    case Loop(b) =>
      ops := Taking(b, l);
      LoopPerformsOnce(b, ops);
  }

  lemma LoopPerformsOnce(b: Code, ops: seq<Op>)
    requires Performs(b, ops)
    ensures Performs(Loop(b), ops)
  {
    var parts := [ops];
    assert parts[..0] == [] && Flatten(parts) == [] + ops == ops;
  }

  lemma {:induction false} FlattenHas(parts: seq<seq<Op>>, op: Op) returns (i: nat)
    requires op in Flatten(parts)
    ensures i < |parts| && op in parts[i]
  {
    if op in parts[|parts| - 1] {
      i := |parts| - 1;
    } else {
      i := FlattenHas(parts[..|parts| - 1], op);
    }
  }

  /** And nothing else can. */
  lemma {:induction false} Taken(c: Code, l: Lock, ops: seq<Op>)
    requires Performs(c, ops) && Acquire(l) in ops
    ensures Mentions(c, l)
  {
    hide Performs;
    match c
    case Nothing => MayParts(c, ops); assert false;
    case With(m, b) =>
      var inner := ScopeParts(m, b, ops);
      if m != l { Taken(b, l, inner); }
    case Then(a, b) =>
      var x, y := ThenParts(a, b, ops);
      if Acquire(l) in x { Taken(a, l, x); } else { Taken(b, l, y); }
    case May(b) =>
      MayParts(b, ops);
      Taken(b, l, ops);
    case Loop(b) =>
      var parts := LoopParts(b, ops);
      var i := FlattenHas(parts, Acquire(l));
      Taken(b, l, parts[i]);
  }

  lemma CanTakeIff(c: Code, l: Lock)
    ensures CanTake(c, l) <==> Mentions(c, l)
  {
    hide Performs;
    if Mentions(c, l) {
      var ops := Taking(c, l);
    } else if ops :| Performs(c, ops) && Acquire(l) in ops {
      Taken(c, l, ops);
    }
  }

  lemma {:induction false} EachMentions(ids: seq<nat>, l: Lock)
    ensures Mentions(Each(ids), l) <==> l.Detachable? && l.id in ids
  {
    if ids != [] {
      EachMentions(ids[1..], l);
    }
  }

  lemma LeavesMention(l: Lock)
    ensures Mentions(DBG, l) <==> l.Log?
    ensures Mentions(GST_START, l) <==> l.Gst? || l.Log?
    ensures Mentions(GST_PLAYER, l) <==> l.Gst?
    ensures Mentions(SETUP_PEER, l) <==> l.State? || l.Log?
  {
    assert Mentions(With(Log, Nothing), l) <==> l.Log?;
    assert Mentions(DBG, l) <==> l.Log?;
    assert Mentions(Nothing, l) <==> false;
  }

  lemma CleanupMentions(ids: seq<nat>, l: Lock)
    ensures Mentions(Cleanup(ids), l) <==> l.State? || l.Gst? || l.Log? || (l.Detachable? && l.id in ids)
  {
    LeavesMention(l);
    EachMentions(ids, l);
    hide DBG, GST_PLAYER, Each;
    assert Mentions(Then(Each(ids), Loop(DBG)), l) <==> l.Log? || (l.Detachable? && l.id in ids);
    assert Mentions(Clearing(ids), l) <==> l.State? || l.Log? || (l.Detachable? && l.id in ids);
    assert Mentions(May(Loop(GST_PLAYER)), l) <==> l.Gst?;
    assert Mentions(Then(DBG, Clearing(ids)), l) <==> Mentions(Clearing(ids), l);
    assert Mentions(Cleanup(ids), l) <==> l.Log? || Mentions(May(Loop(GST_PLAYER)), l) || Mentions(Then(DBG, Clearing(ids)), l);
  }

  lemma StartMentions(ids: seq<nat>, l: Lock)
    ensures Mentions(Body(Start2WayCommunication, ids), l) <==> l.Api? || Mentions(Cleanup(ids), l)
  {
    LeavesMention(l);
    CleanupMentions(ids, l);
    hide DBG, GST_PLAYER, GST_START, SETUP_PEER, Cleanup;
    var end := May(Then(DBG, Cleanup(ids)));
    assert Mentions(end, l) <==> Mentions(Cleanup(ids), l);
    var session := Then(GST_PLAYER, Then(SETUP_PEER, end));
    assert Mentions(session, l) <==> Mentions(Cleanup(ids), l);
    var begin := May(Loop(GST_START));
    assert Mentions(begin, l) <==> l.Gst? || l.Log?;
    assert Mentions(Then(begin, session), l) <==> Mentions(Cleanup(ids), l);
    assert Mentions(Then(Loop(DBG), May(Then(begin, session))), l) <==> Mentions(Cleanup(ids), l);
  }

  lemma StopMentions(ids: seq<nat>, l: Lock)
    ensures Mentions(Body(Stop2WayCommunication, ids), l) <==> l.Api? || Mentions(Cleanup(ids), l)
  {
    LeavesMention(l);
    CleanupMentions(ids, l);
    hide DBG, Cleanup;
    assert Mentions(Then(Cleanup(ids), DBG), l) <==> Mentions(Cleanup(ids), l);
    assert Mentions(Then(DBG, Then(Cleanup(ids), DBG)), l) <==> Mentions(Cleanup(ids), l);
    assert Mentions(May(Then(DBG, Then(Cleanup(ids), DBG))), l) <==> Mentions(Cleanup(ids), l);
  }

  lemma OtherMentions(e: EntryPoint, ids: seq<nat>, l: Lock)
    requires !e.Start2WayCommunication? && !e.Stop2WayCommunication?
    ensures Mentions(Body(e, ids), l) <==>
            match l
            case Api => e.SetSignalingServerURL? || e.SendChatMessage?
            case State => !e.SetSignalingServerURL? && !e.OnMessage? && !e.OnLocalTrackOpen? && !e.OnLocalCandidate? && !e.LogMaintenance?
            case Gst => e.OnAudioFrame? || e.OnLocalTrackOpen?
            case Log => !e.SendBinaryMessage?
            case _ => false
  {
    LeavesMention(l);
    ScopesMention(l);
    hide DBG, GST_PLAYER, GST_START, SETUP_PEER;
    assert Mentions(Loop(DBG), l) <==> l.Log?;
    assert Mentions(With(Log, Nothing), l) <==> l.Log?;
  }

  lemma ScopesMention(l: Lock)
    ensures Mentions(With(State, DBG), l) <==> l.State? || l.Log?
    ensures Mentions(With(State, Nothing), l) <==> l.State?
    ensures Mentions(With(State, Loop(DBG)), l) <==> l.State? || l.Log?
    ensures Mentions(With(State, May(GST_PLAYER)), l) <==> l.State? || l.Gst?
    ensures Mentions(May(With(State, DBG)), l) <==> l.State? || l.Log?
    ensures Mentions(May(With(State, Nothing)), l) <==> l.State?
    ensures Mentions(May(With(State, Loop(DBG))), l) <==> l.State? || l.Log?
  {
    LeavesMention(l);
    hide DBG, GST_PLAYER;
    assert Mentions(Nothing, l) <==> false;
    assert Mentions(Loop(DBG), l) <==> l.Log?;
    assert Mentions(May(GST_PLAYER), l) <==> l.Gst?;
    assert Mentions(With(State, Loop(DBG)), l) <==> l.State? || l.Log?;
  }

  /**
    Exactly what each can take: the API mutex only calls from outside; the state mutex all but those that only set the URL,
    log or send, and a local track that opens; GStreamer's what starts, ends or plays media; the log's all that logs; and a
    callback object's, under the state mutex, only a start or a stop.
   */
  lemma TakesIff(e: EntryPoint, ids: seq<nat>, l: Lock)
    ensures var outside := e.SetSignalingServerURL? || e.Start2WayCommunication? || e.Stop2WayCommunication? || e.SendChatMessage?;
            var session := e.Start2WayCommunication? || e.Stop2WayCommunication?;
            CanTake(Body(e, ids), l) <==>
              match l
              case Api => outside
              case State => !e.SetSignalingServerURL? && !e.OnMessage? && !e.OnLocalTrackOpen? && !e.OnLocalCandidate? && !e.LogMaintenance?
              case Gst => session || e.OnAudioFrame? || e.OnLocalTrackOpen?
              case Log => !e.SendBinaryMessage?
              case Detachable(id) => session && id in ids
              case Kept(_) => false
  {
    CanTakeIff(Body(e, ids), l);
    CleanupMentions(ids, l);
    hide CanTake, Body, Cleanup;
    match e
    case Start2WayCommunication => StartMentions(ids, l);
    case Stop2WayCommunication => StopMentions(ids, l);
    case _ => OtherMentions(e, ids, l);
  }
}
