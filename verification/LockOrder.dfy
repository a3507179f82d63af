/**
  The order of the mutexes. The manager's own are taken in one order (API, then state, then GStreamer, then log), so any
  number of threads in its entry points and callbacks never deadlock over them. A callback object also holds a mutex of its
  own while its callback runs (include/rtc/utils.hpp); a tear-down takes that mutex under the state mutex, and callbacks
  take the state mutex under it. Where the libraries' objects are of that class, threads may deadlock if and only if one of
  them tears a session down while another runs such a callback, of the same object, that wants the state mutex.
 */
module LockOrder {
  import opened Threads

  // ---- the entry points and callbacks

  const DBG := May(With(Log, Nothing))
  const GST_START := With(Gst, DBG)
  const GST_PLAYER := With(Gst, Nothing)
  const SETUP_PEER := With(State, DBG)

  /** Taking away the callbacks of the given objects, one after the other. */
  function Each(ids: seq<nat>): Code {
    if ids == [] then Nothing else Then(With(Detachable(ids[0]), Nothing), Each(ids[1..]))
  }

  function Clearing(ids: seq<nat>): Code {
    With(State, Then(Loop(DBG), Then(Each(ids), Loop(DBG))))
  }

  function Cleanup(ids: seq<nat>): Code {
    Then(Loop(DBG), Then(May(Loop(GST_PLAYER)), Then(DBG, Clearing(ids))))
  }

  datatype EntryPoint =
    | SetSignalingServerURL | Start2WayCommunication | Stop2WayCommunication | SendChatMessage | SendBinaryMessage
    | OnConnected | OnMessage | OnPlayFinished | OnSubtrackAdded | OnRemoteSdp | OnRemoteCandidate | OnStartOffer
    | OnTrack | OnAudioFrame | OnLocalTrackOpen | OnDataChannel | OnChannelText | OnLocalCandidate
    | LogMaintenance

  /** What an entry point does to the mutexes; `ids` are the objects whose callbacks its tear-down, if any, takes away. */
  function Body(e: EntryPoint, ids: seq<nat>): Code {
    match e
    case SetSignalingServerURL => With(Api, DBG)
    case Start2WayCommunication =>
      With(Api, Then(Loop(DBG), May(Then(May(Loop(GST_START)), Then(GST_PLAYER, Then(SETUP_PEER, May(Then(DBG, Cleanup(ids)))))))))
    case Stop2WayCommunication => With(Api, May(Then(DBG, Then(Cleanup(ids), DBG))))
    case SendChatMessage => With(Api, Then(DBG, May(With(State, DBG))))
    case SendBinaryMessage => With(State, Nothing)
    case OnConnected => Then(DBG, Then(SETUP_PEER, DBG))
    case OnMessage => Loop(DBG)
    case OnPlayFinished => Then(With(State, Nothing), Loop(DBG))
    case OnSubtrackAdded => With(State, Loop(DBG))
    case OnRemoteSdp => Then(DBG, With(State, Loop(DBG)))
    case OnRemoteCandidate => Then(DBG, May(With(State, Nothing)))
    case OnStartOffer => Then(DBG, With(State, Nothing))
    case OnTrack => With(State, DBG)
    case OnAudioFrame => Then(DBG, With(State, May(GST_PLAYER)))
    case OnLocalTrackOpen => May(GST_START)
    case OnDataChannel => With(State, DBG)
    case OnChannelText => Then(DBG, May(With(State, Loop(DBG))))
    case OnLocalCandidate => Loop(DBG)
    case LogMaintenance => With(Log, Nothing)
  }

  /** A call, over the repository's own mutexes alone or with the callback objects' mutexes as well. */
  datatype Call = Plain(entry: EntryPoint) | Hooked(entry: EntryPoint, id: nat, detached: seq<nat>)

  /** Callbacks of the socket and of peer connections that a tear-down takes away. */
  predicate IsDetachable(e: EntryPoint) {
    || e.OnConnected? || e.OnMessage? || e.OnPlayFinished? || e.OnSubtrackAdded? || e.OnRemoteSdp?
    || e.OnRemoteCandidate? || e.OnStartOffer? || e.OnTrack? || e.OnLocalCandidate?
  }

  /** Callbacks of tracks and data channels, and for new data channels, which it leaves. */
  predicate IsKept(e: EntryPoint) {
    e.OnAudioFrame? || e.OnLocalTrackOpen? || e.OnDataChannel? || e.OnChannelText?
  }

  function CodeOf(c: Call): Code {
    match c
    case Plain(e) => Body(e, [])
    case Hooked(e, id, detached) =>
      if IsDetachable(e) then With(Detachable(id), Body(e, []))
      else if IsKept(e) then With(Kept(id), Body(e, []))
      else Body(e, detached)
  }

  /** A thread makes one call after another. */
  function Program(calls: seq<Call>): Code {
    if calls == [] then Nothing else Then(CodeOf(calls[0]), Program(calls[1..]))
  }

  /** A callback that takes the state mutex while it holds that of a callback object a tear-down may want. */
  predicate WantsState(c: Call) {
    c.Hooked? && IsDetachable(c.entry) && !c.entry.OnMessage? && !c.entry.OnLocalCandidate?
  }

  /** A call that may take the mutex of a callback object while it holds the state mutex. */
  predicate TearsDown(c: Call, id: nat) {
    c.Hooked? && (c.entry.Start2WayCommunication? || c.entry.Stop2WayCommunication?) && id in c.detached
  }

  /** One call tears down what the other is called back from. */
  predicate Clash(c: Call, d: Call) {
    WantsState(d) && TearsDown(c, d.id)
  }

  ghost predicate Clashing(progs: seq<seq<Call>>) {
    exists i, j, a, b :: 0 <= i < |progs| && 0 <= j < |progs| && i != j && 0 <= a < |progs[i]| && 0 <= b < |progs[j]|
                         && Clash(progs[i][a], progs[j][b])
  }

  // ---- each call keeps an order

  /** The orders a call keeps: those that put its own object early if it is called back, and late what it tears down. */
  predicate Suits(early: set<nat>, c: Call) {
    && (WantsState(c) ==> c.id in early)
    && (c.Hooked? ==> forall k :: 0 <= k < |c.detached| && TearsDown(c, c.detached[k]) ==> c.detached[k] !in early)
  }

  function SuitableOrder(c: Call): (early: set<nat>)
    ensures Suits(early, c)
  {
    if WantsState(c) then {c.id} else {}
  }

  /** What logs and what plays stays in order wherever the mutexes already held rank below its own. */
  lemma LeavesAreOrdered(early: set<nat>, held: seq<Lock>)
    requires forall i :: 0 <= i < |held| ==> Rank(early, held[i]) < 5
    ensures Ordered(early, DBG, held) && Ordered(early, GST_PLAYER, held) && Ordered(early, GST_START, held)
    ensures Ordered(early, Loop(DBG), held) && Ordered(early, May(GST_PLAYER), held) && Ordered(early, Nothing, held)
  {
    assert Allowed(early, held, Log) && Allowed(early, held, Gst) && Allowed(early, held + [Gst], Log);
    assert Ordered(early, With(Log, Nothing), held) && Ordered(early, With(Log, Nothing), held + [Gst]);
    assert Ordered(early, DBG, held + [Gst]);
  }

  lemma {:induction false} EachIsOrdered(early: set<nat>, ids: seq<nat>, held: seq<Lock>)
    requires forall k :: 0 <= k < |ids| ==> ids[k] !in early
    requires forall i :: 0 <= i < |held| ==> Rank(early, held[i]) < 4
    ensures Ordered(early, Each(ids), held)
  {
    if ids == [] {
    } else {
      EachIsOrdered(early, ids[1..], held);
      assert Allowed(early, held, Detachable(ids[0]));
    }
  }

  lemma StateIsOrdered(early: set<nat>, held: seq<Lock>)
    requires forall i :: 0 <= i < |held| ==> Rank(early, held[i]) < 3
    ensures Allowed(early, held, State)
    ensures Ordered(early, With(State, Nothing), held) && Ordered(early, SETUP_PEER, held)
    ensures Ordered(early, With(State, Loop(DBG)), held) && Ordered(early, With(State, May(GST_PLAYER)), held)
  {
    LeavesAreOrdered(early, held + [State]);
    hide DBG, GST_PLAYER;
  }

  lemma CleanupIsOrdered(early: set<nat>, ids: seq<nat>)
    requires forall k :: 0 <= k < |ids| ==> ids[k] !in early
    ensures Ordered(early, Cleanup(ids), [Api])
  {
    LeavesAreOrdered(early, [Api]);
    LeavesAreOrdered(early, [Api] + [State]);
    EachIsOrdered(early, ids, [Api] + [State]);
    StateIsOrdered(early, [Api]);
    hide DBG, GST_PLAYER, Each;
    assert Ordered(early, Then(Loop(DBG), Then(Each(ids), Loop(DBG))), [Api] + [State]);
    assert Ordered(early, Clearing(ids), [Api]);
    assert Ordered(early, Then(DBG, Clearing(ids)), [Api]);
    assert Ordered(early, May(Loop(GST_PLAYER)), [Api]);
  }

  /** The callbacks, and what else takes the state mutex, on top of nothing or of a callback object's mutex. */
  lemma CallbackIsOrdered(early: set<nat>, e: EntryPoint, held: seq<Lock>)
    requires IsDetachable(e) || IsKept(e)
    requires forall i :: 0 <= i < |held| ==> Rank(early, held[i]) < if e.OnMessage? || e.OnLocalCandidate? then 5 else 3
    ensures Ordered(early, Body(e, []), held)
  {
    LeavesAreOrdered(early, held);
    if !e.OnMessage? && !e.OnLocalCandidate? { StateIsOrdered(early, held); }
    hide DBG, GST_PLAYER, GST_START;
  }

  lemma StopIsOrdered(early: set<nat>, ids: seq<nat>)
    requires forall k :: 0 <= k < |ids| ==> ids[k] !in early
    ensures Ordered(early, Body(Stop2WayCommunication, ids), [])
  {
    LeavesAreOrdered(early, [Api]);
    CleanupIsOrdered(early, ids);
    hide DBG, Cleanup;
    assert Allowed(early, [], Api) && [] + [Api] == [Api];
    assert Ordered(early, Then(DBG, Then(Cleanup(ids), DBG)), [Api]);
    assert Ordered(early, May(Then(DBG, Then(Cleanup(ids), DBG))), [Api]);
  }

  lemma StartIsOrdered(early: set<nat>, ids: seq<nat>)
    requires forall k :: 0 <= k < |ids| ==> ids[k] !in early
    ensures Ordered(early, Body(Start2WayCommunication, ids), [])
  {
    LeavesAreOrdered(early, [Api]);
    StateIsOrdered(early, [Api]);
    CleanupIsOrdered(early, ids);
    hide DBG, GST_START, GST_PLAYER, SETUP_PEER, Cleanup;
    assert Allowed(early, [], Api) && [] + [Api] == [Api];
    var end := May(Then(DBG, Cleanup(ids)));
    assert Ordered(early, Then(DBG, Cleanup(ids)), [Api]);
    assert Ordered(early, end, [Api]);
    assert Ordered(early, Then(SETUP_PEER, end), [Api]);
    assert Ordered(early, Then(GST_PLAYER, Then(SETUP_PEER, end)), [Api]);
    assert Ordered(early, May(Loop(GST_START)), [Api]);
    var session := Then(May(Loop(GST_START)), Then(GST_PLAYER, Then(SETUP_PEER, end)));
    assert Ordered(early, session, [Api]);
    assert Ordered(early, Then(Loop(DBG), May(session)), [Api]);
  }

  lemma EntryIsOrdered(early: set<nat>, e: EntryPoint, ids: seq<nat>)
    requires !IsDetachable(e) && !IsKept(e) && !e.Start2WayCommunication? && !e.Stop2WayCommunication?
    ensures Ordered(early, Body(e, ids), [])
  {
    LeavesAreOrdered(early, [Api]);
    StateIsOrdered(early, []);
    StateIsOrdered(early, [Api]);
    hide DBG;
    assert Allowed(early, [], Api) && Allowed(early, [], Log) && [] + [Api] == [Api] && [] + [Log] == [Log];
  }

  lemma ApiIsOrdered(early: set<nat>, e: EntryPoint, ids: seq<nat>)
    requires !IsDetachable(e) && !IsKept(e)
    requires e.Start2WayCommunication? || e.Stop2WayCommunication? ==> forall k :: 0 <= k < |ids| ==> ids[k] !in early
    ensures Ordered(early, Body(e, ids), [])
  {
    hide Body;
    match e
    case Start2WayCommunication => StartIsOrdered(early, ids);
    case Stop2WayCommunication => StopIsOrdered(early, ids);
    case _ => EntryIsOrdered(early, e, ids);
  }

  lemma CallIsOrdered(early: set<nat>, c: Call)
    requires Suits(early, c)
    ensures Ordered(early, CodeOf(c), [])
  {
    hide Body;
    match c
    case Plain(e) =>
      if IsDetachable(e) || IsKept(e) { CallbackIsOrdered(early, e, []); } else { ApiIsOrdered(early, e, []); }
    case Hooked(e, id, detached) =>
      assert [] + [Detachable(id)] == [Detachable(id)] && [] + [Kept(id)] == [Kept(id)];
      if IsDetachable(e) {
        CallbackIsOrdered(early, e, [Detachable(id)]);
      } else if IsKept(e) {
        CallbackIsOrdered(early, e, [Kept(id)]);
      } else {
        ApiIsOrdered(early, e, detached);
      }
  }

  // ---- where a thread is in its calls

  /** What is left of the call a thread is in, and of those after it. */
  datatype Plan = Plan(call: Call, now: seq<Op>, next: seq<Call>, later: seq<Op>)

  /** The rest of a call keeps every order that suits the call. */
  ghost predicate Within(c: Call, held: seq<Lock>, now: seq<Op>) {
    forall early :: Suits(early, c) ==> Disciplined(early, held, now)
  }

  ghost predicate Follows(t: Thread, p: Plan, calls: seq<Call>) {
    && t.rest == p.now + p.later
    && Within(p.call, t.held, p.now) && (p.now != [] ==> p.call in calls)
    && Performs(Program(p.next), p.later) && forall k :: 0 <= k < |p.next| ==> p.next[k] in calls
  }

  /** Between calls a thread holds nothing. */
  lemma BetweenCalls(c: Call, held: seq<Lock>)
    ensures Within(c, held, []) <==> held == []
  {
    assert Suits(SuitableOrder(c), c);
    assert Within(c, held, []) ==> Disciplined(SuitableOrder(c), held, []);
  }

  /** A thread with something left to do is in a call or enters the next one. */
  lemma {:induction false} Enter(t: Thread, p: Plan, calls: seq<Call>) returns (q: Plan)
    requires Follows(t, p, calls) && t.rest != []
    ensures Follows(t, q, calls) && q.now != []
    decreases |p.next|
  {
    if p.now != [] {
      return p;
    }
    BetweenCalls(p.call, t.held);
    assert p.later == t.rest;
    if p.next == [] {
      MayParts(Nothing, p.later);
      assert false;
    }
    var c, ds := p.next[0], p.next[1..];
    var x, y := ThenParts(CodeOf(c), Program(ds), p.later);
    hide CodeOf, Program, Performs, Within;
    if x == [] {
      assert t.rest == [] + y;
      q := Enter(t, Plan(p.call, [], ds, y), calls);
    } else {
      CallIsWithin(c, x);
      q := Plan(c, x, ds, y);
    }
  }

  lemma CallIsWithin(c: Call, ops: seq<Op>)
    requires Performs(CodeOf(c), ops)
    ensures Within(c, [], ops)
  {
    hide Performs, CodeOf, Suits;
    forall early | Suits(early, c) ensures Disciplined(early, [], ops) {
      CallIsOrdered(early, c);
      OrderedIsDisciplined(early, CodeOf(c), [], ops, []);
      assert ops + [] == ops;
    }
  }

  lemma StepFollows(t: Thread, p: Plan, calls: seq<Call>)
    requires Follows(t, p, calls) && p.now != []
    ensures Follows(StepOf(t), p.(now := p.now[1..]), calls)
  {
    hide Performs, Program, Suits;
    assert t.rest[0] == p.now[0] && t.rest[1..] == p.now[1..] + p.later;
    forall early | Suits(early, p.call) ensures Disciplined(early, HeldNext(t.held, p.now[0]), p.now[1..]) {
      assert Disciplined(early, t.held, p.now);
    }
  }

  // ---- threads that do not clash

  ghost predicate Tame(ts: seq<Thread>, plans: seq<Plan>, progs: seq<seq<Call>>) {
    && |ts| == |plans| == |progs|
    && Exclusive(ts)
    && forall i :: 0 <= i < |ts| ==> Follows(ts[i], plans[i], progs[i])
  }

  lemma StepIsTame(ts: seq<Thread>, plans: seq<Plan>, progs: seq<seq<Call>>, i: nat) returns (qs: seq<Plan>)
    requires Tame(ts, plans, progs) && CanStep(ts, i)
    ensures Tame(ts[i := StepOf(ts[i])], qs, progs)
  {
    var q := Enter(ts[i], plans[i], progs[i]);
    StepFollows(ts[i], q, progs[i]);
    StepIsExclusive(ts, i);
    hide Exclusive, Follows;
    qs := plans[i := q.(now := q.now[1..])];
  }

  lemma {:induction false} ScheduleIsTame(ts: seq<Thread>, plans: seq<Plan>, progs: seq<seq<Call>>, schedule: seq<nat>)
    returns (qs: seq<Plan>)
    requires Tame(ts, plans, progs)
    ensures Tame(Scheduled(ts, schedule), qs, progs)
  {
    hide Tame;
    if schedule == [] {
      qs := plans;
    } else {
      var front, i := schedule[..|schedule| - 1], schedule[|schedule| - 1];
      qs := ScheduleIsTame(ts, plans, progs, front);
      if CanStep(Scheduled(ts, front), i) {
        qs := StepIsTame(Scheduled(ts, front), qs, progs, i);
      }
    }
  }

  /** The objects whose callbacks are running. */
  ghost function Running(plans: seq<Plan>): set<nat> {
    set i | 0 <= i < |plans| && plans[i].now != [] && WantsState(plans[i].call) :: plans[i].call.id
  }

  lemma CallsDoNotClash(progs: seq<seq<Call>>, i: nat, j: nat, c: Call, d: Call)
    requires !Clashing(progs) && i < |progs| && j < |progs| && i != j && c in progs[i] && d in progs[j]
    ensures !Clash(c, d)
  {
    var a :| 0 <= a < |progs[i]| && progs[i][a] == c;
    var b :| 0 <= b < |progs[j]| && progs[j][b] == d;
  }

  /** The order that suits all threads at once is the one that puts the running callbacks' objects early. */
  lemma RunningSuits(plans: seq<Plan>, progs: seq<seq<Call>>, j: nat)
    requires |plans| == |progs| && !Clashing(progs) && j < |plans| && plans[j].now != []
    requires forall i :: 0 <= i < |plans| && plans[i].now != [] ==> plans[i].call in progs[i]
    ensures Suits(Running(plans), plans[j].call)
  {
    var c := plans[j].call;
    hide Clashing;
    if c.Hooked? {
      forall i, k | 0 <= k < |c.detached| && TearsDown(c, c.detached[k])
                    && 0 <= i < |plans| && plans[i].now != [] && WantsState(plans[i].call)
        ensures plans[i].call.id != c.detached[k]
      {
        if i != j { CallsDoNotClash(progs, j, i, c, plans[i].call); }
      }
    }
  }

  lemma TameIsPlaced(ts: seq<Thread>, plans: seq<Plan>, progs: seq<seq<Call>>, j: nat)
    requires Tame(ts, plans, progs) && !Clashing(progs) && j < |ts|
    ensures WellPlaced(Running(plans), ts[j])
  {
    hide Performs, Program, Suits, Clashing, Running, Exclusive;
    assert Follows(ts[j], plans[j], progs[j]);
    if plans[j].now == [] {
      BetweenCalls(plans[j].call, ts[j].held);
    } else {
      assert forall i :: 0 <= i < |plans| && plans[i].now != [] ==> Follows(ts[i], plans[i], progs[i]);
      RunningSuits(plans, progs, j);
      assert Disciplined(Running(plans), ts[j].held, plans[j].now);
    }
  }

  lemma TameGoesOn(ts: seq<Thread>, plans: seq<Plan>, progs: seq<seq<Call>>, i: nat) returns (k: nat)
    requires Tame(ts, plans, progs) && !Clashing(progs) && i < |ts| && ts[i].rest != []
    ensures k < |ts| && ts[k].rest != [] && CanStep(ts, k)
  {
    hide Follows, WellPlaced, Clashing;
    forall j | 0 <= j < |ts| ensures WellPlaced(Running(plans), ts[j]) {
      TameIsPlaced(ts, plans, progs, j);
    }
    k := SomeoneCanStep(Running(plans), ts, i);
  }

  lemma TameEnds(ts: seq<Thread>, plans: seq<Plan>, progs: seq<seq<Call>>)
    requires Tame(ts, plans, progs) && forall i :: 0 <= i < |ts| ==> ts[i].rest == []
    ensures Finished(ts)
  {
    hide Performs, Program, Within, Exclusive;
    forall i | 0 <= i < |ts| ensures ts[i] == Thread([], []) {
      assert Follows(ts[i], plans[i], progs[i]);
      BetweenCalls(plans[i].call, ts[i].held);
    }
  }

  /** Threads about to run their programs, whatever they take on the way. */
  ghost predicate Starting(ts: seq<Thread>, progs: seq<seq<Call>>) {
    |ts| == |progs| && forall i :: 0 <= i < |ts| ==> ts[i].held == [] && Performs(Program(progs[i]), ts[i].rest)
  }

  lemma StartingIsTame(ts: seq<Thread>, progs: seq<seq<Call>>) returns (plans: seq<Plan>)
    requires Starting(ts, progs)
    ensures Tame(ts, plans, progs)
  {
    hide Performs, Program;
    var none := Plain(LogMaintenance);
    plans := seq(|ts|, i requires 0 <= i < |ts| => Plan(none, [], progs[i], ts[i].rest));
    BetweenCalls(none, []);
    forall i | 0 <= i < |ts| ensures Follows(ts[i], plans[i], progs[i]) {
      assert ts[i].rest == [] + ts[i].rest;
    }
  }

  /** Whatever threads that do not clash have done so far, the schedule can be continued to where all have finished. */
  lemma {:induction false} AllCanFinish(ts: seq<Thread>, plans: seq<Plan>, progs: seq<seq<Call>>, schedule: seq<nat>)
    returns (more: seq<nat>)
    requires Tame(ts, plans, progs) && !Clashing(progs)
    ensures schedule <= more && Finished(Scheduled(ts, more))
    decreases Remaining(Scheduled(ts, schedule))
  {
    hide Tame, Clashing, CanStep, StepOf, Remaining, Finished;
    var qs := ScheduleIsTame(ts, plans, progs, schedule);
    var us := Scheduled(ts, schedule);
    if i :| 0 <= i < |us| && us[i].rest != [] {
      var k := TameGoesOn(us, qs, progs, i);
      StepTakesOne(us, k);
      assert (schedule + [k])[..|schedule|] == schedule;
      more := AllCanFinish(ts, plans, progs, schedule + [k]);
    } else {
      more := schedule;
      TameEnds(us, qs, progs);
    }
  }

  /** The schedule can be continued to where every thread has finished and holds nothing. */
  ghost predicate CanFinish(ts: seq<Thread>, schedule: seq<nat>) {
    exists more :: schedule <= more && Finished(Scheduled(ts, more))
  }

  /**
    No deadlock, unless one thread tears down what another is called back from: whatever the performances and the schedule,
    an unfinished thread means that some thread can step, and the schedule extends to one after which all have finished.
   */
  lemma NoDeadlock(progs: seq<seq<Call>>, ts: seq<Thread>, schedule: seq<nat>)
    requires Starting(ts, progs) && !Clashing(progs)
    ensures var us := Scheduled(ts, schedule);
            (exists i :: 0 <= i < |us| && us[i].rest != []) ==> exists k :: CanStep(us, k)
    ensures CanFinish(ts, schedule)
  {
    hide Starting, Tame, Clashing, CanStep, Finished, Scheduled;
    var plans := StartingIsTame(ts, progs);
    var qs := ScheduleIsTame(ts, plans, progs, schedule);
    var us := Scheduled(ts, schedule);
    if i :| 0 <= i < |us| && us[i].rest != [] {
      var k := TameGoesOn(us, qs, progs, i);
    }
    var more := AllCanFinish(ts, plans, progs, schedule);
  }

  /** Over the repository's own mutexes no threads ever deadlock. */
  lemma OwnMutexesNeverDeadlock(progs: seq<seq<Call>>, ts: seq<Thread>, schedule: seq<nat>)
    requires Starting(ts, progs)
    requires forall i, a :: 0 <= i < |progs| && 0 <= a < |progs[i]| ==> progs[i][a].Plain?
    ensures var us := Scheduled(ts, schedule);
            (exists i :: 0 <= i < |us| && us[i].rest != []) ==> exists k :: CanStep(us, k)
    ensures CanFinish(ts, schedule)
  {
    hide Starting, CanStep, Finished, Scheduled, CanFinish;
    assert !Clashing(progs);
    NoDeadlock(progs, ts, schedule);
  }

  // ---- threads that clash

  lemma {:induction false} ProgramAround(xs: seq<Call>, c: Call, ys: seq<Call>, pre: seq<Op>, ops: seq<Op>, post: seq<Op>)
    requires Performs(Program(xs), pre) && Performs(CodeOf(c), ops) && Performs(Program(ys), post)
    ensures Performs(Program(xs + [c] + ys), pre + (ops + post))
  {
    hide Performs, CodeOf;
    var all := xs + [c] + ys;
    if xs == [] {
      MayParts(Nothing, pre);
      assert all[0] == c && all[1..] == ys;
      ThenPerforms(CodeOf(c), Program(ys), ops, post);
      assert pre + (ops + post) == ops + post;
    } else {
      var x, y := ThenParts(CodeOf(xs[0]), Program(xs[1..]), pre);
      assert all[0] == xs[0] && all[1..] == xs[1..] + [c] + ys;
      ProgramAround(xs[1..], c, ys, y, ops, post);
      ThenPerforms(CodeOf(xs[0]), Program(xs[1..] + [c] + ys), x, y + (ops + post));
      assert x + y + (ops + post) == x + (y + (ops + post));
    }
  }

  /** Alone, a thread gets through any number of whole calls. */
  lemma {:induction false} CallsRunAlone(ts: seq<Thread>, i: nat, calls: seq<Call>, ops: seq<Op>, rest: seq<Op>)
    returns (schedule: seq<nat>)
    requires Alone(ts, i) && ts[i] == Thread([], ops + rest) && Performs(Program(calls), ops)
    ensures Scheduled(ts, schedule) == ts[i := Thread([], rest)]
    decreases |calls|
  {
    hide Performs, CodeOf, Scheduled, Disciplined, Suits, HeldAfter;
    if calls == [] {
      MayParts(Nothing, ops);
      assert ops + rest == rest && ts[i := Thread([], rest)] == ts;
      schedule := [];
      ScheduledNone(ts);
    } else {
      var x, y := ThenParts(CodeOf(calls[0]), Program(calls[1..]), ops);
      hide Program;
      assert ops + rest == x + (y + rest) && x + [] == x;
      CallIsWithin(calls[0], x);
      var early := SuitableOrder(calls[0]);
      var first := RunsAlone(early, ts, i, x, [], y + rest);
      DisciplinedKeepsNone(early, [], x);
      var us := ts[i := Thread([], y + rest)];
      var second := CallsRunAlone(us, i, calls[1..], y, rest);
      schedule := first + second;
      ScheduledAppend(ts, first, second);
      assert us[i := Thread([], rest)] == ts[i := Thread([], rest)];
    }
  }

  /** The operations of taking away the callbacks of the given objects. */
  function Touch(ids: seq<nat>): seq<Op> {
    if ids == [] then [] else [Acquire(Detachable(ids[0])), Release(Detachable(ids[0]))] + Touch(ids[1..])
  }

  lemma {:induction false} TouchPerforms(ids: seq<nat>)
    ensures Performs(Each(ids), Touch(ids))
  {
    if ids == [] {
    } else {
      TouchPerforms(ids[1..]);
      hide Performs;
      var l := Detachable(ids[0]);
      SkipPerforms(Nothing);
      ScopePerforms(l, Nothing, []);
      assert [Acquire(l)] + [] + [Release(l)] == [Acquire(l), Release(l)];
      ThenPerforms(With(l, Nothing), Each(ids[1..]), [Acquire(l), Release(l)], Touch(ids[1..]));
    }
  }

  lemma {:induction false} TouchSplit(ids: seq<nat>, k: nat)
    requires k < |ids|
    ensures Touch(ids) == Touch(ids[..k]) + [Acquire(Detachable(ids[k]))] + ([Release(Detachable(ids[k]))] + Touch(ids[k + 1..]))
  {
    if k == 0 {
      assert ids[..0] == [];
    } else {
      TouchSplit(ids[1..], k - 1);
      assert ids[..k][0] == ids[0] && ids[..k][1..] == ids[1..][..k - 1] && ids[1..][k..] == ids[k + 1..];
    }
  }

  lemma {:induction false} TouchKeeps(held: seq<Lock>, ids: seq<nat>)
    ensures HeldAfter(held, Touch(ids)) == held
  {
    if ids == [] {
    } else {
      var l := Detachable(ids[0]);
      var t := Touch(ids);
      assert t[0] == Acquire(l) && t[1..][0] == Release(l) && t[1..][1..] == Touch(ids[1..]);
      assert (held + [l])[..|held|] == held;
      TouchKeeps(held, ids[1..]);
      assert HeldAfter(held, t) == HeldAfter(held + [l], t[1..]);
      assert HeldAfter(held + [l], t[1..]) == HeldAfter(held, t[1..][1..]);
    }
  }

  lemma {:induction false} HeldAppend(held: seq<Lock>, a: seq<Op>, b: seq<Op>)
    ensures HeldAfter(held, a + b) == HeldAfter(HeldAfter(held, a), b)
    decreases |a|
  {
    if a == [] {
      assert a + b == b;
    } else {
      assert (a + b)[0] == a[0] && (a + b)[1..] == a[1..] + b;
      HeldAppend(HeldNext(held, a[0]), a[1..], b);
    }
  }

  /** The clearing under the state mutex, with nothing logged. */
  lemma CleanupPerforms(ids: seq<nat>)
    ensures Performs(Cleanup(ids), [Acquire(State)] + Touch(ids) + [Release(State)])
  {
    hide Performs, Each, Touch;
    var t := Touch(ids);
    TouchPerforms(ids);
    SkipPerforms(DBG);
    SkipPerforms(With(Log, Nothing));
    SkipPerforms(Loop(GST_PLAYER));
    ThenPerforms(Each(ids), Loop(DBG), t, []);
    assert t + [] == t && [] + t == t;
    ThenPerforms(Loop(DBG), Then(Each(ids), Loop(DBG)), [], t);
    ScopePerforms(State, Then(Loop(DBG), Then(Each(ids), Loop(DBG))), t);
    var c := [Acquire(State)] + t + [Release(State)];
    assert [] + c == c;
    ThenPerforms(DBG, Clearing(ids), [], c);
    ThenPerforms(May(Loop(GST_PLAYER)), Then(DBG, Clearing(ids)), [], c);
    ThenPerforms(Loop(DBG), Then(May(Loop(GST_PLAYER)), Then(DBG, Clearing(ids))), [], c);
  }

  /** A stop's operations: the two mutexes of the manager around the clearing. */
  lemma StopPerforms(ids: seq<nat>)
    ensures Performs(Body(Stop2WayCommunication, ids), [Acquire(Api)] + ([Acquire(State)] + Touch(ids) + [Release(State)]) + [Release(Api)])
  {
    hide Performs, Cleanup, Touch;
    var c := [Acquire(State)] + Touch(ids) + [Release(State)];
    CleanupPerforms(ids);
    SkipPerforms(With(Log, Nothing));
    ThenPerforms(Cleanup(ids), DBG, c, []);
    ThenPerforms(DBG, Then(Cleanup(ids), DBG), [], c + []);
    assert [] + (c + []) == c;
    MayPerforms(Then(DBG, Then(Cleanup(ids), DBG)), c);
    ScopePerforms(Api, May(Then(DBG, Then(Cleanup(ids), DBG))), c);
  }

  const PLAYER_OPS := [Acquire(Gst), Release(Gst)]
  const SETUP_OPS := [Acquire(State), Release(State)]

  /** A failing start's operations: the player, the own peer connection, the clearing. */
  lemma StartPerforms(ids: seq<nat>)
    ensures Performs(Body(Start2WayCommunication, ids),
                     [Acquire(Api)] + (PLAYER_OPS + (SETUP_OPS + ([Acquire(State)] + Touch(ids) + [Release(State)]))) + [Release(Api)])
  {
    hide Performs, Cleanup, Touch;
    var c := [Acquire(State)] + Touch(ids) + [Release(State)];
    CleanupPerforms(ids);
    SkipPerforms(With(Log, Nothing));
    SkipPerforms(DBG);
    SkipPerforms(Loop(GST_START));
    ThenPerforms(DBG, Cleanup(ids), [], c);
    assert [] + c == c;
    MayPerforms(Then(DBG, Cleanup(ids)), c);
    ScopePerforms(State, DBG, []);
    assert [Acquire(State)] + [] + [Release(State)] == SETUP_OPS;
    ThenPerforms(SETUP_PEER, May(Then(DBG, Cleanup(ids))), SETUP_OPS, c);
    ScopePerforms(Gst, Nothing, []);
    assert [Acquire(Gst)] + [] + [Release(Gst)] == PLAYER_OPS;
    var d := PLAYER_OPS + (SETUP_OPS + c);
    var code := Then(GST_PLAYER, Then(SETUP_PEER, May(Then(DBG, Cleanup(ids)))));
    ThenPerforms(GST_PLAYER, Then(SETUP_PEER, May(Then(DBG, Cleanup(ids)))), PLAYER_OPS, SETUP_OPS + c);
    assert [] + d == d;
    ThenPerforms(May(Loop(GST_START)), code, [], d);
    MayPerforms(Then(May(Loop(GST_START)), code), d);
    ThenPerforms(Loop(DBG), May(Then(May(Loop(GST_START)), code)), [], d);
    ScopePerforms(Api, Then(Loop(DBG), May(Then(May(Loop(GST_START)), code))), d);
  }

  lemma HeldInClearing(before: seq<Op>, ids: seq<nat>)
    requires HeldAfter([], before) == [Api]
    ensures HeldAfter([], before + [Acquire(State)] + Touch(ids)) == [Api, State]
  {
    HeldAppend([], before + [Acquire(State)], Touch(ids));
    HeldAppend([], before, [Acquire(State)]);
    assert [Acquire(State)][1..] == [] && [Api] + [State] == [Api, State];
    assert HeldAfter([Api], [Acquire(State)]) == HeldAfter([Api, State], []) == [Api, State];
    hide HeldAfter, Touch;
    TouchKeeps([Api, State], ids);
  }

  /** A tear-down can come to where it holds the state mutex and is about to take that of a given callback object. */
  lemma TearDownPerforms(c: Call, id: nat) returns (a: seq<Op>, b: seq<Op>)
    requires TearsDown(c, id)
    ensures Performs(CodeOf(c), a + ([Acquire(Detachable(id))] + b))
    ensures HeldAfter([], a) == [Api, State]
  {
    hide Performs, Body, Touch, HeldAfter;
    var ids := c.detached;
    var k :| 0 <= k < |ids| && ids[k] == id;
    TouchSplit(ids, k);
    var x, y := Touch(ids[..k]), [Release(Detachable(id))] + Touch(ids[k + 1..]);
    var before := if c.entry.Stop2WayCommunication? then [Acquire(Api)] else [Acquire(Api)] + PLAYER_OPS + SETUP_OPS;
    a := before + [Acquire(State)] + x;
    b := y + [Release(State)] + [Release(Api)];
    if c.entry.Stop2WayCommunication? {
      StopPerforms(ids);
      assert [Acquire(Api)] + ([Acquire(State)] + Touch(ids) + [Release(State)]) + [Release(Api)]
          == a + ([Acquire(Detachable(id))] + b);
    } else {
      StartPerforms(ids);
      assert [Acquire(Api)] + (PLAYER_OPS + (SETUP_OPS + ([Acquire(State)] + Touch(ids) + [Release(State)]))) + [Release(Api)]
          == a + ([Acquire(Detachable(id))] + b);
    }
    HeldBefore();
    HeldInClearing(before, ids[..k]);
  }

  lemma HeldBefore()
    ensures HeldAfter([], [Acquire(Api)]) == [Api]
    ensures HeldAfter([], [Acquire(Api)] + PLAYER_OPS + SETUP_OPS) == [Api]
  {
    assert [Acquire(Api)][1..] == [] && [] + [Api] == [Api];
    HeldAppend([], [Acquire(Api)] + PLAYER_OPS, SETUP_OPS);
    HeldAppend([], [Acquire(Api)], PLAYER_OPS);
    PairKeeps([Api], Gst);
    PairKeeps([Api], State);
  }

  lemma PairKeeps(held: seq<Lock>, l: Lock)
    ensures HeldAfter(held, [Acquire(l), Release(l)]) == held
  {
    var t := [Acquire(l), Release(l)];
    assert t[1..] == [Release(l)] && [Release(l)][1..] == [] && (held + [l])[..|held|] == held;
    assert HeldAfter(held + [l], t[1..]) == HeldAfter(held, []);
  }

  /** A callback that wants the state mutex can take it at once, on top of its object's. */
  lemma CallbackPerforms(d: Call)
    requires WantsState(d)
    ensures Performs(CodeOf(d), [Acquire(Detachable(d.id))] + SETUP_OPS + [Release(Detachable(d.id))])
  {
    hide Performs;
    var s := SETUP_OPS;
    SkipPerforms(With(Log, Nothing));
    SkipPerforms(DBG);
    ScopePerforms(State, Nothing, []);
    ScopePerforms(State, DBG, []);
    ScopePerforms(State, Loop(DBG), []);
    assert [Acquire(State)] + [] + [Release(State)] == s && [] + s == s && s + [] == s;
    MayPerforms(With(State, Nothing), s);
    ThenPerforms(SETUP_PEER, DBG, s, []);
    ThenPerforms(DBG, Then(SETUP_PEER, DBG), [], s);
    ThenPerforms(With(State, Nothing), Loop(DBG), s, []);
    ThenPerforms(DBG, With(State, Loop(DBG)), [], s);
    ThenPerforms(DBG, May(With(State, Nothing)), [], s);
    ThenPerforms(DBG, With(State, Nothing), [], s);
    ScopePerforms(Detachable(d.id), Body(d.entry, []), s);
  }

  /** Threads that run their programs by the shortest way, but for two of them. */
  ghost function Lined(progs: seq<seq<Call>>, i: nat, x: seq<Op>, j: nat, y: seq<Op>): seq<Thread> {
    seq(|progs|, k requires 0 <= k < |progs| =>
      Thread([], if k == i then x else if k == j then y else Minimal(Program(progs[k]))))
  }

  lemma LinedIsStarting(progs: seq<seq<Call>>, i: nat, x: seq<Op>, j: nat, y: seq<Op>)
    requires i < |progs| && j < |progs| && i != j
    requires Performs(Program(progs[i]), x) && Performs(Program(progs[j]), y)
    ensures Starting(Lined(progs, i, x, j, y), progs)
  {
    hide Performs, Program, Minimal;
    forall k | 0 <= k < |progs| ensures Performs(Program(progs[k]), Lined(progs, i, x, j, y)[k].rest) {
      MinimalPerforms(Program(progs[k]));
    }
  }

  /** A program's operations with those of one of its calls chosen. */
  lemma ChosenPerforms(calls: seq<Call>, a: nat, ops: seq<Op>) returns (pre: seq<Op>, post: seq<Op>)
    requires a < |calls| && Performs(CodeOf(calls[a]), ops)
    ensures Performs(Program(calls[..a]), pre) && Performs(Program(calls), pre + (ops + post))
  {
    hide Performs, Program, Minimal, CodeOf;
    pre, post := Minimal(Program(calls[..a])), Minimal(Program(calls[a + 1..]));
    MinimalPerforms(Program(calls[..a]));
    MinimalPerforms(Program(calls[a + 1..]));
    ProgramAround(calls[..a], calls[a], calls[a + 1..], pre, ops, post);
    assert calls[..a] + [calls[a]] + calls[a + 1..] == calls;
  }

  /** The schedule of the embrace: the callback's thread up to the callback, the other into its tear-down, the callback. */
  lemma EmbraceIsReached(ts: seq<Thread>, i: nat, j: nat, id: nat, c: Call, us: seq<Call>, p: seq<Op>, a: seq<Op>, b: seq<Op>,
                         vs: seq<Call>, q: seq<Op>, r: seq<Op>) returns (schedule: seq<nat>)
    requires Alone(ts, i) && Alone(ts, j) && i != j
    requires ts[i] == Thread([], p + (a + ([Acquire(Detachable(id))] + b)))
    requires ts[j] == Thread([], q + ([Acquire(Detachable(id)), Acquire(State)] + r))
    requires Performs(Program(us), p) && Performs(Program(vs), q)
    requires exists d :: Disciplined(SuitableOrder(c), [], a + d)
    requires HeldAfter([], a) == [Api, State]
    ensures Embraced(Scheduled(ts, schedule), i, j, State, Detachable(id))
  {
    hide Performs, Program, Scheduled, Disciplined, HeldAfter;
    var x, y := [Acquire(Detachable(id))] + b, [Acquire(Detachable(id)), Acquire(State)] + r;
    var s1 := CallsRunAlone(ts, j, vs, q, y);
    var t1 := ts[j := Thread([], y)];
    var s2 := CallsRunAlone(t1, i, us, p, a + x);
    var t2 := t1[i := Thread([], a + x)];
    var d :| Disciplined(SuitableOrder(c), [], a + d);
    var s3 := RunsAlone(SuitableOrder(c), t2, i, a, d, x);
    var t3 := t2[i := Thread([Api, State], x)];
    assert t3[j] == Thread([], y) && CanStep(t3, j);
    ScheduledOne(t3, j);
    ScheduledAppend(ts, s1, s2);
    ScheduledAppend(ts, s1 + s2, s3);
    ScheduledAppend(ts, s1 + s2 + s3, [j]);
    schedule := s1 + s2 + s3 + [j];
    assert y[1..][0] == Acquire(State) && x[0] == Acquire(Detachable(id));
  }

  /** Two clashing calls on different threads have performances and a schedule after which the threads never finish. */
  lemma ClashEmbraces(progs: seq<seq<Call>>, i: nat, a: nat, j: nat, b: nat) returns (ts: seq<Thread>, schedule: seq<nat>)
    requires i < |progs| && j < |progs| && i != j && a < |progs[i]| && b < |progs[j]| && Clash(progs[i][a], progs[j][b])
    ensures Starting(ts, progs)
    ensures Embraced(Scheduled(ts, schedule), i, j, State, Detachable(progs[j][b].id))
  {
    hide Performs, Program, CodeOf, HeldAfter, Embraced, Starting;
    var c, d := progs[i][a], progs[j][b];
    var id := d.id;
    var into, rest := TearDownPerforms(c, id);
    var ops := into + ([Acquire(Detachable(id))] + rest);
    var back := [Acquire(Detachable(id))] + SETUP_OPS + [Release(Detachable(id))];
    CallbackPerforms(d);
    var p, post := ChosenPerforms(progs[i], a, ops);
    var q, post' := ChosenPerforms(progs[j], b, back);
    var x, y := p + (ops + post), q + (back + post');
    ts := Lined(progs, i, x, j, y);
    LinedIsStarting(progs, i, x, j, y);
    CallIsWithin(c, ops);
    var r := [Release(State)] + [Release(Detachable(id))] + post';
    assert back + post' == [Acquire(Detachable(id)), Acquire(State)] + r;
    assert ops + post == into + ([Acquire(Detachable(id))] + (rest + post));
    assert Disciplined(SuitableOrder(c), [], into + ([Acquire(Detachable(id))] + rest));
    schedule := EmbraceIsReached(ts, i, j, id, c, progs[i][..a], p, into, rest + post, progs[j][..b], q, r);
  }

  /** Whatever the threads perform and however they are scheduled, all of them can still finish. */
  ghost predicate NeverDeadlocks(progs: seq<seq<Call>>) {
    forall ts, schedule :: Starting(ts, progs) ==> CanFinish(ts, schedule)
  }

  lemma EmbracedCannotFinish(ts: seq<Thread>, schedule: seq<nat>, i: nat, j: nat, l: Lock, m: Lock)
    requires Embraced(Scheduled(ts, schedule), i, j, l, m)
    ensures !CanFinish(ts, schedule)
  {
    hide Scheduled;
    forall more | schedule <= more ensures !Finished(Scheduled(ts, more)) {
      var tail := more[|schedule|..];
      assert more == schedule + tail;
      ScheduledAppend(ts, schedule, tail);
      EmbracedForever(Scheduled(ts, schedule), i, j, l, m, tail);
    }
  }

  /** Exactly: threads never deadlock if and only if none tears down what another is called back from. */
  lemma NeverDeadlocksIff(progs: seq<seq<Call>>)
    ensures NeverDeadlocks(progs) <==> !Clashing(progs)
  {
    hide Starting, Embraced, CanFinish, Scheduled;
    if Clashing(progs) {
      var i, j, a, b :| 0 <= i < |progs| && 0 <= j < |progs| && i != j && 0 <= a < |progs[i]| && 0 <= b < |progs[j]|
                        && Clash(progs[i][a], progs[j][b]);
      var ts, schedule := ClashEmbraces(progs, i, a, j, b);
      EmbracedCannotFinish(ts, schedule, i, j, State, Detachable(progs[j][b].id));
    } else {
      forall ts, schedule | Starting(ts, progs) ensures CanFinish(ts, schedule) {
        NoDeadlock(progs, ts, schedule);
      }
    }
  }
}
