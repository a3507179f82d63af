/** A callback that remembers the last call it missed and replays it to the next callback that is set. */
module StoredCallback {
  import opened Wrappers

  type Id = nat

  /** What happens to the object: a callback is set or taken away, or it is called with some arguments. */
  datatype Event<A> = Set(callback: Option<Id>) | Invoke(args: A)

  /** A call that reached a callback: the position of the call among the events, and the callback that took it. */
  datatype Delivery = Delivery(call: nat, to: Id)

  /** The object over its history: the callback, the missed call it keeps, and every delivery so far. */
  datatype Machine = Machine(callback: Option<Id>, stored: Option<nat>, delivered: seq<Delivery>)

  function OnSet(m: Machine, f: Option<Id>): Machine {
    if f.Some? && m.stored.Some?
    then Machine(f, None, m.delivered + [Delivery(m.stored.value, f.value)])
    else m.(callback := f)
  }

  function OnInvoke(m: Machine, at: nat): Machine {
    if m.callback.Some? then m.(delivered := m.delivered + [Delivery(at, m.callback.value)])
    else m.(stored := Some(at))
  }

  function After<A>(es: seq<Event<A>>): Machine {
    if es == [] then Machine(None, None, [])
    else
      var m, n := After(es[..|es| - 1]), |es| - 1;
      match es[n]
      case Set(f) => OnSet(m, f)
      case Invoke(_) => OnInvoke(m, n)
  }

  // ---- the code

  class SynchronizedStoredCallback<A> {
    var callback: Option<Id>
    var stored: Option<A>
    ghost var events: seq<Event<A>>
    /** The arguments each callback was run with, in order. */
    ghost var runs: seq<(A, Id)>

    ghost predicate Valid()
      reads this
    {
      var m := After(events);
      && callback == m.callback
      && (stored.Some? <==> m.stored.Some?)
      && (m.stored.Some? ==> m.stored.value < |events| && events[m.stored.value] == Invoke(stored.value))
      && |runs| == |m.delivered|
      && forall i :: 0 <= i < |runs| ==>
           && m.delivered[i].call < |events|
           && events[m.delivered[i].call] == Invoke(runs[i].0) && m.delivered[i].to == runs[i].1
    }

    constructor ()
      ensures Valid() && events == [] && runs == []
    {
      callback, stored := None, None;
      events, runs := [], [];
    }

    method SetCallback(f: Option<Id>)
      requires Valid()
      modifies this
      ensures Valid() && events == old(events) + [Set(f)]
      ensures runs == old(runs) + if f.Some? && old(stored).Some? then [(old(stored).value, f.value)] else []
    {
      assert (events + [Set(f)])[..|events|] == events;
      callback := f;
      if f.Some? && stored.Some? {
        runs := runs + [(stored.value, f.value)];
        stored := None;
      }
      events := events + [Set(f)];
    }

    method Run(args: A) returns (taken: bool)
      requires Valid()
      modifies this
      ensures Valid() && events == old(events) + [Invoke(args)]
      ensures taken
      ensures runs == old(runs) + if callback.Some? then [(args, callback.value)] else []
    {
      assert (events + [Invoke(args)])[..|events|] == events;
      if callback.Some? {
        runs := runs + [(args, callback.value)];
      } else {
        stored := Some(args);
      }
      events := events + [Invoke(args)];
      taken := true;
    }
  }

  // ---- which calls are delivered, to whom

  /** The callback in place after the first `i` events. */
  function Active<A>(es: seq<Event<A>>, i: nat): Option<Id>
    requires i <= |es|
  {
    if i == 0 then None
    else match es[i - 1]
      case Set(f) => f
      case Invoke(_) => Active(es, i - 1)
  }

  /** Only removals of an absent callback between positions `i` and `j`. */
  ghost predicate Silent<A>(es: seq<Event<A>>, i: nat, j: nat)
    requires j <= |es|
  {
    forall m :: i < m < j ==> es[m] == Set(None)
  }

  /** Call `i` goes to the callback in place, or, missed, to the next one set if no other call comes before that. */
  ghost predicate GoesTo<A>(es: seq<Event<A>>, i: nat, c: Id) {
    && i < |es| && es[i].Invoke?
    && (Active(es, i) == Some(c)
        || (Active(es, i) == None && exists j :: i < j < |es| && es[j] == Set(Some(c)) && Silent(es, i, j)))
  }

  /** Call `i` was missed and nothing has happened since that would deliver or displace it. */
  ghost predicate Kept<A>(es: seq<Event<A>>, i: nat) {
    && i < |es| && es[i].Invoke? && Active(es, i) == None && Silent(es, i, |es|)
  }

  lemma {:induction false} ActivePrefix<A>(es: seq<Event<A>>, e: Event<A>, i: nat)
    requires i <= |es|
    ensures Active(es + [e], i) == Active(es, i)
  {
    if i == 0 {
    } else {
      ActivePrefix(es, e, i - 1);
    }
  }

  lemma {:induction false} CallbackIsActive<A>(es: seq<Event<A>>)
    ensures After(es).callback == Active(es, |es|)
  {
    if es == [] {
    } else {
      var front := es[..|es| - 1];
      CallbackIsActive(front);
      assert es == front + [es[|es| - 1]];
      ActivePrefix(front, es[|es| - 1], |front|);
    }
  }

  lemma KeptAfter<A>(es: seq<Event<A>>, e: Event<A>, i: nat)
    ensures Kept(es + [e], i) <==>
            if i == |es| then e.Invoke? && Active(es, |es|) == None else e == Set(None) && Kept(es, i)
  {
    var es' := es + [e];
    if i <= |es| {
      ActivePrefix(es, e, i);
    }
    if i < |es| {
      assert es'[i] == es[i] && es'[|es|] == e;
      if Kept(es', i) {
        forall m | i < m < |es| ensures es[m] == Set(None) { assert es'[m] == es[m]; }
      }
    }
  }

  lemma GoesAfter<A>(es: seq<Event<A>>, e: Event<A>, i: nat, c: Id)
    ensures GoesTo(es + [e], i, c) <==>
            GoesTo(es, i, c)
            || (i == |es| && e.Invoke? && Active(es, |es|) == Some(c))
            || (e == Set(Some(c)) && Kept(es, i))
  {
    var es' := es + [e];
    if i <= |es| {
      ActivePrefix(es, e, i);
    }
    if i < |es| {
      assert es'[i] == es[i];
      if j :| i < j < |es| && es[j] == Set(Some(c)) && Silent(es, i, j) {
        assert es'[j] == es[j] && Silent(es', i, j);
      }
      if j :| i < j < |es'| && es'[j] == Set(Some(c)) && Silent(es', i, j) {
        if j < |es| {
          assert es[j] == es'[j];
        }
        forall m | i < m < j ensures es[m] == Set(None) { assert es'[m] == es[m]; }
        assert Silent(es, i, j);
      }
      if e == Set(Some(c)) && Kept(es, i) {
        assert es'[|es|] == e && Silent(es', i, |es|);
      }
    }
  }

  ghost predicate Faithful<A>(es: seq<Event<A>>) {
    var m := After(es);
    && (forall i: nat :: Kept(es, i) <==> m.stored == Some(i))
    && (forall i: nat, c :: GoesTo(es, i, c) <==> Delivery(i, c) in m.delivered)
    && (forall a, b :: 0 <= a < b < |m.delivered| ==> m.delivered[a].call < m.delivered[b].call)
    && (forall a :: 0 <= a < |m.delivered| ==>
          m.delivered[a].call < |es| && (m.stored.Some? ==> m.delivered[a].call < m.stored.value))
    && (m.callback.Some? ==> m.stored == None)
  }

  lemma {:induction false} StaysFaithful<A>(es: seq<Event<A>>, e: Event<A>)
    requires Faithful(es)
    ensures Faithful(es + [e])
  {
    var m, m' := After(es), After(es + [e]);
    assert (es + [e])[..|es|] == es;
    CallbackIsActive(es);
    forall i: nat ensures Kept(es + [e], i) <==> m'.stored == Some(i) {
      KeptAfter(es, e, i);
    }
    forall i: nat, c ensures GoesTo(es + [e], i, c) <==> Delivery(i, c) in m'.delivered {
      GoesAfter(es, e, i, c);
    }
  }

  /**
    Over every history: a call is delivered exactly when its callback was in place, or when it was missed and the next
    thing to happen, but for removals, was the setting of the callback that takes it; deliveries come in the order of the
    calls and none comes twice; what is stored is the one missed call still waiting, and nothing while a callback is set.
   */
  lemma {:induction false} DeliveriesAreFaithful<A>(es: seq<Event<A>>)
    ensures Faithful(es)
  {
    if es != [] {
      DeliveriesAreFaithful(es[..|es| - 1]);
      StaysFaithful(es[..|es| - 1], es[|es| - 1]);
      assert es == es[..|es| - 1] + [es[|es| - 1]];
    } else {
      assert After(es) == Machine(None, None, []);
    }
  }

  /** A call that found no callback is lost only if another call also missed before the next callback was set. */
  lemma LostOnlyToLaterMiss<A>(es: seq<Event<A>>, i: nat)
    requires i < |es| && es[i].Invoke? && Active(es, i) == None
    requires !Kept(es, i) && forall c :: !GoesTo(es, i, c)
    ensures exists j :: i < j < |es| && es[j].Invoke? && Silent(es, i, j)
  {
    var j := i + 1;
    while j < |es| && es[j] == Set(None)
      invariant i < j <= |es| && Silent(es, i, j)
    {
      j := j + 1;
    }
    if j < |es| {
      match es[j]
      case Set(f) => assert GoesTo(es, i, f.value);
      case Invoke(_) =>
    }
  }
}
