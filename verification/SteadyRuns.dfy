/** Runs in which the room and the own stream are named before a session starts, and stay so until it ends. */
module SteadyRuns {
  import opened Wrappers
  import opened Signaling
  import opened Conference
  import FreshSessions

  ghost predicate Steady(s: State, e: Event) {
    && (e.SetStream? ==> !s.setup.communicating)
    && (e.SetRoom? ==> !s.setup.communicating && e.room != "")
  }

  ghost predicate SteadyRun(es: seq<Event>) {
    forall i :: 0 <= i < |es| ==> Steady(Run(New(), es[..i]), es[i])
  }

  lemma SteadyPrefix(es: seq<Event>)
    requires SteadyRun(es) && es != []
    ensures SteadyRun(es[..|es| - 1])
    ensures Steady(Run(New(), es[..|es| - 1]), es[|es| - 1])
  {
    var front := es[..|es| - 1];
    forall i | 0 <= i < |front| ensures Steady(Run(New(), front[..i]), front[i]) {
      assert front[..i] == es[..i] && front[i] == es[i];
    }
  }

  /** The signalling client speaks for the manager's own stream and room, and the room has a name. */
  ghost predicate Aligned(s: State) {
    && FreshSessions.Tidy(s)
    && s.setup.roomId != ""
    && (s.context.Some? ==>
          && s.context.value.client.Some?
          && s.context.value.client.value.self == s.setup.publishStreamId
          && s.context.value.client.value.room == s.setup.roomId)
  }

  lemma AlignedStep(s: State, e: Event)
    requires Aligned(s) && Steady(s, e)
    ensures Aligned(Step(s, e))
  {
    hide Handle;
    FreshSessions.TidyStep(s, e);
    match e
    case Received(message) => if Occurs(s, e) { FreshSessions.TidyNotice(s, Decode(message)); }
    case _ =>
  }

  lemma {:induction false} SteadyRunIsAligned(es: seq<Event>)
    requires SteadyRun(es)
    ensures Aligned(Run(New(), es))
  {
    if es == [] {
    } else {
      hide Step, Steady;
      SteadyPrefix(es);
      SteadyRunIsAligned(es[..|es| - 1]);
      AlignedStep(Run(New(), es[..|es| - 1]), es[|es| - 1]);
    }
  }
}
