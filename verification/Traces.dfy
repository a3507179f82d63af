/** Readings of a trace: what it collects, entry by entry, and the state an automaton reaches over it. */
module Traces {

  /** Everything `pick` reads out of the entries, in order. */
  ghost function Collect<E, T>(t: seq<E>, pick: E -> seq<T>): seq<T> {
    if t == [] then [] else Collect(t[..|t| - 1], pick) + pick(t[|t| - 1])
  }

  lemma {:induction false} CollectAppend<E, T>(t: seq<E>, u: seq<E>, pick: E -> seq<T>)
    ensures Collect(t + u, pick) == Collect(t, pick) + Collect(u, pick)
  {
    if u == [] {
      assert t + u == t;
    } else {
      var v := u[..|u| - 1];
      assert (t + u)[..|t + u| - 1] == t + v;
      CollectAppend(t, v, pick);
    }
  }

  lemma CollectOne<E, T>(e: E, pick: E -> seq<T>)
    ensures Collect([e], pick) == pick(e)
  {
    assert [e][..0] == [];
  }

  /** A stretch of entries out of which nothing is read. */
  lemma {:induction false} CollectNothing<E, T>(t: seq<E>, pick: E -> seq<T>)
    requires forall i :: 0 <= i < |t| ==> pick(t[i]) == []
    ensures Collect(t, pick) == []
  {
    if t == [] {
    } else {
      CollectNothing(t[..|t| - 1], pick);
    }
  }

  /** The state an automaton is in after a trace. */
  ghost function Fold<E, A>(t: seq<E>, start: A, step: (A, E) -> A): A {
    if t == [] then start else step(Fold(t[..|t| - 1], start, step), t[|t| - 1])
  }

  lemma {:induction false} FoldAppend<E, A>(t: seq<E>, u: seq<E>, start: A, step: (A, E) -> A)
    ensures Fold(t + u, start, step) == Fold(u, Fold(t, start, step), step)
  {
    if u == [] {
      assert t + u == t;
    } else {
      var v := u[..|u| - 1];
      assert (t + u)[..|t + u| - 1] == t + v;
      FoldAppend(t, v, start, step);
    }
  }

  lemma FoldOne<E, A>(e: E, start: A, step: (A, E) -> A)
    ensures Fold([e], start, step) == step(start, e)
  {
    assert [e][..0] == [];
  }

  /** A stretch of entries that leaves the automaton where it is. */
  lemma {:induction false} FoldStays<E, A>(t: seq<E>, start: A, step: (A, E) -> A)
    requires forall i :: 0 <= i < |t| ==> step(start, t[i]) == start
    ensures Fold(t, start, step) == start
  {
    if t == [] {
    } else {
      FoldStays(t[..|t| - 1], start, step);
    }
  }
}
