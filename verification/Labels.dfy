/** The candidates a session sends carry numbers that only grow, those missed while the socket was closed left out. */
module Labels {
  import opened Signaling
  import opened Conference
  import FreshSessions

  predicate IsNumbered(e: Entry) {
    e.Sent? && e.command.TakeCandidate?
  }

  /** The numbers used so far grow and are all below `n`. */
  ghost predicate GrowBelow(t: seq<Entry>, n: nat) {
    && (forall i :: 0 <= i < |t| && IsNumbered(t[i]) ==> t[i].command.labelNumber < n)
    && (forall i, j :: 0 <= i < j < |t| && IsNumbered(t[i]) && IsNumbered(t[j]) ==>
          t[i].command.labelNumber < t[j].command.labelNumber)
  }

  function NextLabel(s: State): nat {
    if s.context.Some? && s.context.value.client.Some? then s.context.value.client.value.nextLabel else 0
  }

  ghost predicate Numbered(s: State) {
    GrowBelow(s.trace, NextLabel(s))
  }

  lemma Unnumbered(t: seq<Entry>, u: seq<Entry>, n: nat)
    requires GrowBelow(t, n) && forall i :: 0 <= i < |u| ==> !IsNumbered(u[i])
    ensures GrowBelow(t + u, n)
  {
    hide IsNumbered;
    assert forall i :: |t| <= i < |t + u| ==> (t + u)[i] == u[i - |t|];
  }

  lemma OneMore(t: seq<Entry>, e: Entry, n: nat)
    requires GrowBelow(t, n) && (IsNumbered(e) ==> e.command.labelNumber == n)
    ensures GrowBelow(t + [e], n + 1)
  {
  }

  lemma NoticeNumbered(s: State, n: Notice)
    requires s.setup.communicating && s.context.Some? && s.context.value.client.Some? && Numbered(s)
    ensures Numbered(Handle(s, n))
  {
    FreshSessions.TidyNotice(s, n);
    HandleReplies(s, n);
    hide Handle, SdpCalls, GrowBelow, Ending, Making;
    match n {
      case RemoteSdp(k, kind, sdp, media) => SdpReplyIs(s, k, kind, sdp, media);
      case PlayFinished(k) => EndingIs(s, k);
      case _ =>
    }
    Unnumbered(s.trace, [In(n)] + Reply(s, n), NextLabel(s));
  }

  lemma CandidateNumbered(s: State, k: string, c: Candidate)
    requires Numbered(s)
    ensures Numbered(OnLocalCandidate(s, k, c))
  {
    hide GrowBelow;
    if s.context.Some? && s.context.value.client.Some? {
      var n := NextLabel(s);
      OneMore(s.trace, Sent(TakeCandidate(k, c.text, c.mid, n)), n);
      OneMore(s.trace, SocketClosed, n);
      Shorter(s.trace, SocketClosed, n + 1);
    }
  }

  lemma Shorter(t: seq<Entry>, e: Entry, n: nat)
    requires GrowBelow(t + [e], n)
    ensures GrowBelow(t, n) && t + [] == t
  {
    assert forall i :: 0 <= i < |t| ==> (t + [e])[i] == t[i];
  }

  lemma OtherMinorNumbered(s: State, e: Event)
    requires IsMinor(e) && !e.LocalCandidate? && Numbered(s)
    ensures Numbered(Step(s, e))
  {
    hide GrowBelow, Handle, Begin, OnOpened, Cleanup, OnLocalCandidate;
    MinorStep(s, e);
    var s' := Step(s, e);
    assert NextLabel(s') == NextLabel(s);
    NoNumbers(s, e);
    assert s'.trace == s.trace + s'.trace[|s.trace|..];
    Unnumbered(s.trace, s'.trace[|s.trace|..], NextLabel(s));
  }

  lemma NoNumbers(s: State, e: Event)
    requires IsMinor(e) && !e.LocalCandidate?
    ensures forall i :: |s.trace| <= i < |Step(s, e).trace| ==> !IsNumbered(Step(s, e).trace[i])
  {
    hide Handle, Begin, OnOpened, Cleanup, OnLocalCandidate;
  }

  lemma OpenNumbered(s: State)
    requires s.context.Some? && Numbered(s)
    ensures Numbered(OnOpened(s))
  {
    hide GrowBelow;
    var u := OpenReplies(s);
    Unnumbered(s.trace, u, NextLabel(s));
    hide SetupCalls;
  }

  lemma StepNumbered(s: State, e: Event)
    requires FreshSessions.Tidy(s) && Numbered(s)
    ensures Numbered(Step(s, e))
  {
    hide GrowBelow, Handle, OnOpened, Begin, Farewell, Closings, Hangup, Decode, OnLocalCandidate;
    if e.LocalCandidate? {
      CandidateNumbered(s, e.stream, e.candidate);
    } else if IsMinor(e) {
      OtherMinorNumbered(s, e);
    } else if Occurs(s, e) {
      match e
      case Start(isPlayer, connects, order) => BeginNumbered(s, isPlayer);
      case Stop(_) => NoneYet(0);
      case WsOpened => OpenNumbered(s);
      case Received(message) => NoticeNumbered(s, Decode(message));
    }
  }

  lemma NoneYet(n: nat)
    ensures GrowBelow([], n)
  {
  }

  lemma BeginNumbered(s: State, isPlayer: bool)
    requires FreshSessions.Tidy(s)
    ensures GrowBelow([], 0) && (!s.setup.communicating ==> Numbered(Begin(s, isPlayer)))
  {
    NoneYet(0);
    var u := BeginReplies(s, isPlayer);
    if !s.setup.communicating {
      assert s.trace == [] && [] + u == u;
      hide GrowBelow;
      Unnumbered([], u, 0);
      assert Begin(s, isPlayer).trace == u;
      BeginsAtZero(s, isPlayer);
    }
  }

  lemma BeginsAtZero(s: State, isPlayer: bool)
    ensures NextLabel(Begin(s, isPlayer)) == 0
  {
  }

  lemma {:induction false} RunNumbered(es: seq<Event>)
    ensures Numbered(Run(New(), es))
  {
    if es == [] {
    } else {
      hide Step, Numbered, FreshSessions.Tidy;
      FreshSessions.TidyRun(es[..|es| - 1]);
      RunNumbered(es[..|es| - 1]);
      StepNumbered(Run(New(), es[..|es| - 1]), es[|es| - 1]);
    }
  }

  /** In every run the candidates sent in a session carry strictly growing numbers, and the next one's is greater yet. */
  lemma {:induction false} LabelsGrow(es: seq<Event>, i: nat, j: nat)
    requires i < j < |Run(New(), es).trace|
    requires Run(New(), es).trace[i].Sent? && Run(New(), es).trace[i].command.TakeCandidate?
    requires Run(New(), es).trace[j].Sent? && Run(New(), es).trace[j].command.TakeCandidate?
    ensures Run(New(), es).trace[i].command.labelNumber < Run(New(), es).trace[j].command.labelNumber
    ensures var s := Run(New(), es);
            s.context.Some? && s.context.value.client.Some? ==> s.trace[j].command.labelNumber < s.context.value.client.value.nextLabel
  {
    hide Run;
    RunNumbered(es);
  }
}
