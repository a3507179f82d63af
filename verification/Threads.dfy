/**
  Threads and mutexes: what code can do to the mutexes, an order in which they are taken, and why threads that keep an
  order never all wait for each other.
 */
module Threads {

  /**
    The manager's, GStreamer's and the log's mutexes, and those that callback objects hold while a callback runs: of
    objects whose callback a tear-down takes away, and of objects that keep theirs.
   */
  datatype Lock = Api | State | Gst | Log | Detachable(id: nat) | Kept(id: nat)

  /** One order for each set of callback mutexes that come before the state mutex. */
  function Rank(early: set<nat>, l: Lock): nat {
    match l
    case Api => 0
    case Kept(_) => 1
    case Detachable(h) => if h in early then 2 else 4
    case State => 3
    case Gst => 5
    case Log => 6
  }

  predicate Recursive(l: Lock) {
    !l.Gst? && !l.Log?
  }

  /** What a piece of code does to the mutexes: scoped locks, in sequence, perhaps, or any number of times. */
  datatype Code = Nothing | With(lock: Lock, body: Code) | Then(first: Code, second: Code) | May(maybe: Code) | Loop(again: Code)

  datatype Op = Acquire(lock: Lock) | Release(lock: Lock)

  ghost function Flatten(parts: seq<seq<Op>>): seq<Op> {
    if parts == [] then [] else Flatten(parts[..|parts| - 1]) + parts[|parts| - 1]
  }

  /** The sequences of lock operations a piece of code can perform. */
  ghost predicate Performs(c: Code, ops: seq<Op>) {
    match c
    case Nothing => ops == []
    case With(l, b) => exists inner :: Performs(b, inner) && ops == [Acquire(l)] + inner + [Release(l)]
    case Then(a, b) => exists x, y :: Performs(a, x) && Performs(b, y) && ops == x + y
    case May(b) => ops == [] || Performs(b, ops)
    case Loop(b) => exists parts: seq<seq<Op>> :: ops == Flatten(parts) && forall i :: 0 <= i < |parts| ==> Performs(b, parts[i])
  }

  // ---- performances put together and taken apart

  lemma ScopePerforms(l: Lock, b: Code, inner: seq<Op>)
    requires Performs(b, inner)
    ensures Performs(With(l, b), [Acquire(l)] + inner + [Release(l)])
  {
  }

  lemma ThenPerforms(a: Code, b: Code, x: seq<Op>, y: seq<Op>)
    requires Performs(a, x) && Performs(b, y)
    ensures Performs(Then(a, b), x + y)
  {
  }

  lemma SkipPerforms(b: Code)
    ensures Performs(Nothing, []) && Performs(May(b), []) && Performs(Loop(b), [])
  {
    var none: seq<seq<Op>> := [];
    assert Flatten(none) == [];
  }

  lemma MayPerforms(b: Code, ops: seq<Op>)
    requires Performs(b, ops)
    ensures Performs(May(b), ops)
  {
  }

  lemma ScopeParts(l: Lock, b: Code, ops: seq<Op>) returns (inner: seq<Op>)
    requires Performs(With(l, b), ops)
    ensures Performs(b, inner) && ops == [Acquire(l)] + inner + [Release(l)]
  {
    inner :| Performs(b, inner) && ops == [Acquire(l)] + inner + [Release(l)];
  }

  lemma ThenParts(a: Code, b: Code, ops: seq<Op>) returns (x: seq<Op>, y: seq<Op>)
    requires Performs(Then(a, b), ops)
    ensures Performs(a, x) && Performs(b, y) && ops == x + y
  {
    x, y :| Performs(a, x) && Performs(b, y) && ops == x + y;
  }

  lemma LoopParts(b: Code, ops: seq<Op>) returns (parts: seq<seq<Op>>)
    requires Performs(Loop(b), ops)
    ensures ops == Flatten(parts) && forall i :: 0 <= i < |parts| ==> Performs(b, parts[i])
  {
    parts :| ops == Flatten(parts) && forall i :: 0 <= i < |parts| ==> Performs(b, parts[i]);
  }

  lemma MayParts(b: Code, ops: seq<Op>)
    ensures Performs(May(b), ops) ==> ops == [] || Performs(b, ops)
    ensures Performs(Nothing, ops) ==> ops == []
  {
  }

  /** The shortest performance: nothing optional, no repetition. */
  function Minimal(c: Code): seq<Op> {
    match c
    case With(l, b) => [Acquire(l)] + Minimal(b) + [Release(l)]
    case Then(a, b) => Minimal(a) + Minimal(b)
    case _ => []
  }

  lemma {:induction false} MinimalPerforms(c: Code)
    ensures Performs(c, Minimal(c))
  {
    hide Performs;
    match c
    case With(l, b) => MinimalPerforms(b); ScopePerforms(l, b, Minimal(b));
    case Then(a, b) => MinimalPerforms(a); MinimalPerforms(b); ThenPerforms(a, b, Minimal(a), Minimal(b));
    case Nothing => SkipPerforms(c);
    case May(b) => SkipPerforms(b);
    case Loop(b) => SkipPerforms(b);
  }

  // ---- the order

  /** A mutex may be taken on top of those held if it ranks above them all, or is recursive and held already. */
  predicate Allowed(early: set<nat>, held: seq<Lock>, l: Lock) {
    (Recursive(l) && l in held) || forall i :: 0 <= i < |held| ==> Rank(early, held[i]) < Rank(early, l)
  }

  predicate Ordered(early: set<nat>, c: Code, held: seq<Lock>)
    decreases c
  {
    match c
    case Nothing => true
    case With(l, b) => Allowed(early, held, l) && Ordered(early, b, held + [l])
    case Then(a, b) => Ordered(early, a, held) && Ordered(early, b, held)
    case May(b) => Ordered(early, b, held)
    case Loop(b) => Ordered(early, b, held)
  }

  /** The same for a sequence of operations: each acquisition allowed, each release of the mutex taken last, none kept. */
  predicate Disciplined(early: set<nat>, held: seq<Lock>, ops: seq<Op>)
    decreases |ops|
  {
    if ops == [] then held == []
    else match ops[0]
      case Acquire(l) => Allowed(early, held, l) && Disciplined(early, held + [l], ops[1..])
      case Release(l) => held != [] && held[|held| - 1] == l && Disciplined(early, held[..|held| - 1], ops[1..])
  }

  lemma AcquireThen(early: set<nat>, held: seq<Lock>, l: Lock, rest: seq<Op>)
    requires Allowed(early, held, l) && Disciplined(early, held + [l], rest)
    ensures Disciplined(early, held, [Acquire(l)] + rest)
  {
    assert ([Acquire(l)] + rest)[1..] == rest;
  }

  lemma ReleaseThen(early: set<nat>, held: seq<Lock>, l: Lock, rest: seq<Op>)
    requires Disciplined(early, held, rest)
    ensures Disciplined(early, held + [l], [Release(l)] + rest)
  {
    assert ([Release(l)] + rest)[1..] == rest && (held + [l])[..|held|] == held;
  }

  /** Code that keeps the order leaves what comes after it as disciplined as it was. */
  lemma {:induction false} OrderedIsDisciplined(early: set<nat>, c: Code, held: seq<Lock>, ops: seq<Op>, rest: seq<Op>)
    requires Ordered(early, c, held) && Performs(c, ops) && Disciplined(early, held, rest)
    ensures Disciplined(early, held, ops + rest)
    decreases c, 1
  {
    hide Disciplined, Flatten, Allowed, Performs;
    match c
    case Nothing =>
      MayParts(c, ops);
      assert ops + rest == rest;
    case With(l, b) =>
      var inner := ScopeParts(l, b, ops);
      ScopeIsDisciplined(early, l, b, held, inner, rest);
      assert ops + rest == [Acquire(l)] + (inner + ([Release(l)] + rest));
    case Then(a, b) =>
      var x, y := ThenParts(a, b, ops);
      ThenIsDisciplined(early, a, b, held, x, y, rest);
      assert ops + rest == x + (y + rest);
    case May(b) =>
      MayParts(b, ops);
      if ops == [] {
        assert ops + rest == rest;
      } else {
        OrderedIsDisciplined(early, b, held, ops, rest);
      }
    case Loop(b) =>
      var parts := LoopParts(b, ops);
      LoopIsDisciplined(early, b, held, parts, rest);
  }

  lemma {:induction false} ThenIsDisciplined(early: set<nat>, a: Code, b: Code, held: seq<Lock>,
                                             x: seq<Op>, y: seq<Op>, rest: seq<Op>)
    requires Ordered(early, a, held) && Ordered(early, b, held)
    requires Performs(a, x) && Performs(b, y) && Disciplined(early, held, rest)
    ensures Disciplined(early, held, x + (y + rest))
    decreases Then(a, b), 0
  {
    hide *;
    OrderedIsDisciplined(early, b, held, y, rest);
    OrderedIsDisciplined(early, a, held, x, y + rest);
  }

  lemma {:induction false} ScopeIsDisciplined(early: set<nat>, l: Lock, b: Code, held: seq<Lock>, inner: seq<Op>, rest: seq<Op>)
    requires Allowed(early, held, l) && Ordered(early, b, held + [l]) && Performs(b, inner) && Disciplined(early, held, rest)
    ensures Disciplined(early, held, [Acquire(l)] + (inner + ([Release(l)] + rest)))
    decreases b, 2
  {
    hide *;
    ReleaseThen(early, held, l, rest);
    OrderedIsDisciplined(early, b, held + [l], inner, [Release(l)] + rest);
    AcquireThen(early, held, l, inner + ([Release(l)] + rest));
  }

  lemma {:induction false} LoopIsDisciplined(early: set<nat>, b: Code, held: seq<Lock>, parts: seq<seq<Op>>, rest: seq<Op>)
    requires Ordered(early, b, held) && Disciplined(early, held, rest)
    requires forall i :: 0 <= i < |parts| ==> Performs(b, parts[i])
    ensures Disciplined(early, held, Flatten(parts) + rest)
    decreases b, 2 + |parts|
  {
    hide Disciplined, Performs, Ordered;
    if parts == [] {
      assert Flatten(parts) + rest == rest;
    } else {
      var front, last := parts[..|parts| - 1], parts[|parts| - 1];
      OrderedIsDisciplined(early, b, held, last, rest);
      LoopIsDisciplined(early, b, held, front, last + rest);
      assert Flatten(parts) + rest == Flatten(front) + (last + rest);
    }
  }

  // ---- threads

  /** A thread: the mutexes it holds, innermost last, and the operations it has still to perform. */
  datatype Thread = Thread(held: seq<Lock>, rest: seq<Op>)

  /** A release never waits; an acquisition waits while another thread holds the mutex. */
  ghost predicate CanStep(ts: seq<Thread>, i: nat) {
    && i < |ts| && ts[i].rest != []
    && match ts[i].rest[0]
       case Release(_) => true
       case Acquire(l) =>
         && (Recursive(l) || l !in ts[i].held)
         && forall j :: 0 <= j < |ts| && j != i ==> l !in ts[j].held
  }

  function HeldNext(held: seq<Lock>, op: Op): seq<Lock> {
    match op
    case Acquire(l) => held + [l]
    case Release(_) => if held == [] then [] else held[..|held| - 1]
  }

  function StepOf(t: Thread): Thread
    requires t.rest != []
  {
    Thread(HeldNext(t.held, t.rest[0]), t.rest[1..])
  }

  /** The threads after a schedule; a thread that cannot go on when scheduled stays where it is. */
  ghost function Scheduled(ts: seq<Thread>, schedule: seq<nat>): seq<Thread> {
    if schedule == [] then ts
    else
      var us, i := Scheduled(ts, schedule[..|schedule| - 1]), schedule[|schedule| - 1];
      if CanStep(us, i) then us[i := StepOf(us[i])] else us
  }

  lemma {:induction false} ScheduledAppend(ts: seq<Thread>, a: seq<nat>, b: seq<nat>)
    ensures Scheduled(ts, a + b) == Scheduled(Scheduled(ts, a), b)
  {
    if b == [] {
      assert a + b == a;
    } else {
      assert (a + b)[..|a + b| - 1] == a + b[..|b| - 1];
      ScheduledAppend(ts, a, b[..|b| - 1]);
    }
  }

  lemma ScheduledOne(ts: seq<Thread>, i: nat)
    ensures Scheduled(ts, [i]) == if CanStep(ts, i) then ts[i := StepOf(ts[i])] else ts
  {
    assert [i][..0] == [];
  }

  ghost predicate Finished(ts: seq<Thread>) {
    forall i :: 0 <= i < |ts| ==> ts[i] == Thread([], [])
  }

  /** No mutex is held by two threads. */
  ghost predicate Exclusive(ts: seq<Thread>) {
    forall i, j, l :: 0 <= i < |ts| && 0 <= j < |ts| && i != j && l in ts[i].held ==> l !in ts[j].held
  }

  lemma StepIsExclusive(ts: seq<Thread>, i: nat)
    requires Exclusive(ts) && CanStep(ts, i)
    ensures Exclusive(ts[i := StepOf(ts[i])])
  {
    var t, u := ts[i], StepOf(ts[i]);
    forall l | l in u.held ensures l in t.held || t.rest[0] == Acquire(l) {}
  }

  // ---- waiting

  /** What the thread is about to take is allowed on top of what it holds; a finished thread holds nothing. */
  predicate WellPlaced(early: set<nat>, t: Thread) {
    if t.rest == [] then t.held == []
    else t.rest[0].Acquire? ==> Allowed(early, t.held, t.rest[0].lock)
  }

  /** A thread that waits does so for a mutex above all it holds. */
  lemma Waits(early: set<nat>, ts: seq<Thread>, j: nat)
    requires j < |ts| && ts[j].rest != [] && WellPlaced(early, ts[j]) && Exclusive(ts) && !CanStep(ts, j)
    ensures ts[j].rest[0].Acquire?
    ensures forall h :: 0 <= h < |ts[j].held| ==> Rank(early, ts[j].held[h]) < Rank(early, ts[j].rest[0].lock)
    ensures exists k :: 0 <= k < |ts| && k != j && ts[j].rest[0].lock in ts[k].held
  {
  }

  /** Follow the waiting to the holder of what is waited for: the ranks go up, so it ends at one that can go on. */
  lemma {:induction false} SomeoneCanStep(early: set<nat>, ts: seq<Thread>, i: nat) returns (k: nat)
    requires Exclusive(ts) && forall j :: 0 <= j < |ts| ==> WellPlaced(early, ts[j])
    requires i < |ts| && ts[i].rest != []
    ensures CanStep(ts, k)
    decreases if ts[i].rest[0].Acquire? then 7 - Rank(early, ts[i].rest[0].lock) else 0
  {
    if CanStep(ts, i) {
      return i;
    }
    Waits(early, ts, i);
    var l := ts[i].rest[0].lock;
    var j :| 0 <= j < |ts| && j != i && l in ts[j].held;
    assert WellPlaced(early, ts[j]);
    if CanStep(ts, j) {
      return j;
    }
    Waits(early, ts, j);
    var h :| 0 <= h < |ts[j].held| && ts[j].held[h] == l;
    assert Rank(early, ts[j].held[h]) < Rank(early, ts[j].rest[0].lock);
    k := SomeoneCanStep(early, ts, j);
  }

  // ---- how much is left to do

  ghost function Remaining(ts: seq<Thread>): nat {
    if ts == [] then 0 else |ts[0].rest| + Remaining(ts[1..])
  }

  lemma {:induction false} StepTakesOne(ts: seq<Thread>, i: nat)
    requires i < |ts| && ts[i].rest != []
    ensures Remaining(ts[i := StepOf(ts[i])]) == Remaining(ts) - 1
  {
    var us := ts[i := StepOf(ts[i])];
    if i == 0 {
      assert us[1..] == ts[1..];
    } else {
      assert us[1..] == ts[1..][i - 1 := StepOf(ts[i])];
      StepTakesOne(ts[1..], i - 1);
    }
  }

  // ---- a thread that runs alone

  function HeldAfter(held: seq<Lock>, ops: seq<Op>): seq<Lock>
    decreases |ops|
  {
    if ops == [] then held else HeldAfter(HeldNext(held, ops[0]), ops[1..])
  }

  lemma {:induction false} DisciplinedKeepsNone(early: set<nat>, held: seq<Lock>, ops: seq<Op>)
    requires Disciplined(early, held, ops)
    ensures HeldAfter(held, ops) == []
    decreases |ops|
  {
    if ops == [] {
    } else {
      DisciplinedKeepsNone(early, HeldNext(held, ops[0]), ops[1..]);
    }
  }

  /** The other threads hold nothing, so nothing keeps this one from going on. */
  ghost predicate Alone(ts: seq<Thread>, i: nat) {
    i < |ts| && forall j :: 0 <= j < |ts| && j != i ==> ts[j].held == []
  }

  /** Alone, a disciplined thread gets as far as one likes. */
  lemma {:induction false} RunsAlone(early: set<nat>, ts: seq<Thread>, i: nat, a: seq<Op>, b: seq<Op>, rest: seq<Op>)
    returns (schedule: seq<nat>)
    requires Alone(ts, i) && ts[i].rest == a + rest && Disciplined(early, ts[i].held, a + b)
    ensures Scheduled(ts, schedule) == ts[i := Thread(HeldAfter(ts[i].held, a), rest)]
    decreases |a|
  {
    hide Scheduled;
    if a == [] {
      schedule := [];
      ScheduledNone(ts);
      assert ts[i] == Thread(ts[i].held, rest) by { assert a + rest == rest; }
    } else {
      assert (a + b)[0] == a[0] == ts[i].rest[0] && (a + b)[1..] == a[1..] + b && (a + rest)[1..] == a[1..] + rest;
      assert CanStep(ts, i);
      var us := ts[i := StepOf(ts[i])];
      var more := RunsAlone(early, us, i, a[1..], b, rest);
      schedule := [i] + more;
      ScheduledOne(ts, i);
      ScheduledAppend(ts, [i], more);
    }
  }

  lemma ScheduledNone(ts: seq<Thread>)
    ensures Scheduled(ts, []) == ts
  {
  }

  // ---- two threads that wait for each other

  /** Each of the two is about to take what the other holds. */
  ghost predicate Embraced(ts: seq<Thread>, i: nat, j: nat, l: Lock, m: Lock) {
    && i < |ts| && j < |ts| && i != j
    && l in ts[i].held && ts[i].rest != [] && ts[i].rest[0] == Acquire(m)
    && m in ts[j].held && ts[j].rest != [] && ts[j].rest[0] == Acquire(l)
  }

  lemma {:induction false} EmbracedForever(ts: seq<Thread>, i: nat, j: nat, l: Lock, m: Lock, more: seq<nat>)
    requires Embraced(ts, i, j, l, m)
    ensures Embraced(Scheduled(ts, more), i, j, l, m)
  {
    if more == [] {
    } else {
      EmbracedForever(ts, i, j, l, m, more[..|more| - 1]);
    }
  }
}
