/** New participants are played: a track that is added, neither up nor asked for, is asked for at once. */
module NewTracks {
  import opened Traces
  import opened Signaling
  import opened Conference
  import opened SteadyRuns
  import opened PlayRequests
  import Effects
  import Protocol

  /** The track was asked for and has not been reported gone since. */
  ghost predicate Outstanding(t: seq<Entry>, k: string) {
    exists i :: 0 <= i < |t| && Asks(t[i], k) && forall m :: i < m < |t| ==> !Frees(t[m], k)
  }

  lemma {:induction false} AskedLast(t: seq<Entry>, k: string)
    requires Fold(t, Free, AskStep(k)) == Requested
    ensures Outstanding(t, k)
  {
    var front := t[..|t| - 1];
    if Asks(t[|t| - 1], k) {
    } else {
      AskedLast(front, k);
      var i :| 0 <= i < |front| && Asks(front[i], k) && forall m :: i < m < |front| ==> !Frees(front[m], k);
      assert Asks(t[i], k) && forall m :: i < m < |t| ==> !Frees(t[m], k);
    }
  }

  /** The automaton, read as positions in the trace. */
  lemma {:induction false} OutstandingIff(t: seq<Entry>, k: string)
    requires Fold(t, Free, AskStep(k)) != Redundant
    ensures Fold(t, Free, AskStep(k)) == Requested <==> Outstanding(t, k)
  {
    hide Fold, Asks, Frees;
    if Fold(t, Free, AskStep(k)) == Requested {
      AskedLast(t, k);
    } else if Outstanding(t, k) {
      var i :| 0 <= i < |t| && Asks(t[i], k) && forall m :: i < m < |t| ==> !Frees(t[m], k);
      var m := OutstandingUnlessFreed(t, k, i);
      assert false;
    }
  }

  /**
    In every steady run: a `subtrackAdded` message for a track that is neither the own stream nor the room is answered with
    a `play` for it in the manager's room, and with nothing else, if and only if no request for it is outstanding and no
    peer connection of it is up.
   */
  lemma {:induction false} NewTracksArePlayed(es: seq<Event>, message: Message, k: string)
    requires SteadyRun(es) && Run(New(), es).Online()
    requires Protocol.Notifies(message.fields, "subtrackAdded") && k == Protocol.Reading(message.fields, "trackId")
    requires k != "" && k != Run(New(), es).setup.publishStreamId && k != Run(New(), es).setup.roomId
    ensures var s := Run(New(), es);
            var asks := !Outstanding(s.trace, k) && (k !in s.peers.pcs || k in s.peers.closed);
            Run(New(), es + [Received(message)]).trace ==
            s.trace + [In(SubtrackAdded(k))] + if asks then [Sent(Play(s.setup.roomId, k))] else []
  {
    var s := Run(New(), es);
    Protocol.DecodeIs(message);
    assert Decode(message) == SubtrackAdded(k);
    assert (es + [Received(message)])[..|es|] == es;
    assert Run(New(), es + [Received(message)]) == Handle(s, SubtrackAdded(k)) by { hide Handle, Decode; }
    NoRedundantPlay(es, k);
    SteadyRunIsAligned(es);
    Effects.SubtrackAddedIs(s, k);
    OutstandingIff(s.trace, k);
    assert s.context.value.client.value.room == s.setup.roomId;
    hide Run, Handle, Fold, Decode, FreshSessions.Tidy, Outstanding;
  }
}
