/** The track-type map shared by all peers is never ambiguous, so every remote track is handled as what it is. */
module TrackTypes {
  import opened RecvTracks
  import opened Signaling
  import opened Conference

  /** A mid that this client could have made up for a media type. */
  ghost predicate NamedFor(mid: string, kind: string) {
    IsMediaType(kind) && exists p: nat :: mid == TrackName(kind, p)
  }

  ghost predicate Unambiguous(m: map<string, string>) {
    forall mid :: mid in m ==> NamedFor(mid, m[mid])
  }

  /** A remote track is handled as the type its mid names, or, if its mid was never noted, as the type it states. */
  ghost predicate RightKind(rt: RemoteTrack) {
    rt.kind == rt.stated || NamedFor(rt.mid, rt.kind)
  }

  ghost predicate WellTyped(s: State) {
    && Unambiguous(s.inbound.midTypeMap)
    && forall k, i :: k in s.inbound.remoteTracks && 0 <= i < |s.inbound.remoteTracks[k]| ==>
         RightKind(s.inbound.remoteTracks[k][i])
  }

  lemma {:induction false} NotingKeeps(m: map<string, string>, ts: seq<Track>)
    requires Unambiguous(m)
    requires forall i :: 0 <= i < |ts| ==> NamedFor(ts[i].mid, ts[i].kind)
    ensures Unambiguous(NoteTypes(m, ts))
  {
    if ts == [] {
    } else {
      NotingKeeps(m, ts[..|ts| - 1]);
    }
  }

  lemma OfferedAreNamed(kind: string, media: seq<Section>, i: nat)
    requires i < |OfferedTracks(kind, media)|
    ensures NamedFor(OfferedTracks(kind, media)[i].mid, OfferedTracks(kind, media)[i].kind)
  {
    TracksAreWellNamed(media, i);
    var sec, p: nat :|
      && sec in media && OffersToSend(sec) && p == ChosenPayload(sec)
      && Tracks(media)[i] == Track(TrackName(sec.kind, p), sec.kind);
    assert Tracks(media)[i].mid == TrackName(sec.kind, p);
  }

  lemma SdpWellTyped(s: State, k: string, kind: string, sdp: string, media: seq<Section>)
    requires WellTyped(s)
    ensures WellTyped(HandleRemoteSdp(s, k, kind, sdp, media))
  {
    hide SdpCalls, NoteTypes, OfferedTracks;
    forall i | 0 <= i < |OfferedTracks(kind, media)|
      ensures NamedFor(OfferedTracks(kind, media)[i].mid, OfferedTracks(kind, media)[i].kind)
    {
      OfferedAreNamed(kind, media, i);
    }
    NotingKeeps(s.inbound.midTypeMap, OfferedTracks(kind, media));
  }

  lemma OtherInbound(s: State, n: Notice)
    requires !n.RemoteSdp?
    ensures Handle(s, n).inbound == s.inbound
  {
  }

  lemma StepWellTyped(s: State, e: Event)
    requires WellTyped(s)
    ensures WellTyped(Step(s, e))
  {
    if e.Received? {
      hide Handle, SdpCalls, Decode, WellTyped, Begin, Cleanup, OnOpened;
      if Occurs(s, e) {
        var n := Decode(e.message);
        if n.RemoteSdp? {
          SdpWellTyped(Emit(s, [In(n)]), n.stream, n.kind, n.sdp, n.media);
          HandleSdpIs(s, n);
        }
        HandledWellTyped(s, n);
      }
    } else {
      OtherStepInbound(s, e);
      hide Step, NamedFor;
      if e.TrackArrived? {
        forall k, i | k in Step(s, e).inbound.remoteTracks && 0 <= i < |Step(s, e).inbound.remoteTracks[k]|
          ensures RightKind(Step(s, e).inbound.remoteTracks[k][i])
        {
        }
      }
    }
  }

  lemma HandledWellTyped(s: State, n: Notice)
    requires WellTyped(s)
    requires n.RemoteSdp? ==> WellTyped(Handle(s, n))
    ensures WellTyped(Handle(s, n))
  {
    hide Handle;
    if !n.RemoteSdp? {
      OtherInbound(s, n);
    }
  }

  lemma OtherStepInbound(s: State, e: Event)
    requires !e.Received?
    ensures var m, m' := s.inbound, Step(s, e).inbound;
            if m' == m || m' == NO_INBOUND then true
            else e.TrackArrived? && m' == OnTrack(s, e.stream, e.mid, e.stated).inbound
  {
    hide SetupCalls, Closings, Farewell, Hangup;
  }

  lemma HandleSdpIs(s: State, n: Notice)
    requires n.RemoteSdp?
    ensures Handle(s, n) == HandleRemoteSdp(Emit(s, [In(n)]), n.stream, n.kind, n.sdp, n.media)
  {
    hide HandleRemoteSdp;
  }

  /**
    After any run: every mid noted maps to the media type in its own name and to no other, and every remote track that
    arrived is handled as that type or, its mid not noted, as the type it states.
   */
  lemma {:induction false} TypesAreNeverAmbiguous(es: seq<Event>)
    ensures WellTyped(Run(New(), es))
  {
    if es == [] {
    } else {
      hide Step;
      TypesAreNeverAmbiguous(es[..|es| - 1]);
      StepWellTyped(Run(New(), es[..|es| - 1]), es[|es| - 1]);
    }
  }

  /** So a mid made up for a type is either not noted or noted as that type. */
  lemma NameDecidesType(es: seq<Event>, kind: string, p: nat)
    requires IsMediaType(kind)
    ensures var m := Run(New(), es).inbound.midTypeMap;
            TrackName(kind, p) in m ==> m[TrackName(kind, p)] == kind
  {
    hide Run, TrackName;
    TypesAreNeverAmbiguous(es);
    var m, mid := Run(New(), es).inbound.midTypeMap, TrackName(kind, p);
    if mid in m {
      var q: nat :| mid == TrackName(m[mid], q);
      TrackNameInjective(kind, p, m[mid], q);
    }
  }

  /** A track arriving under a mid noted for an offer is handled as the type in its name, whatever it states. */
  lemma {:induction false} ArrivalReadsName(es: seq<Event>, k: string, kind: string, p: nat, stated: string)
    requires IsMediaType(kind)
    requires var s := Run(New(), es); k in s.peers.pcs && TrackName(kind, p) in s.inbound.midTypeMap
    ensures var s := Run(New(), es);
            var known := if k in s.inbound.remoteTracks then s.inbound.remoteTracks[k] else [];
            var s' := Step(s, TrackArrived(k, TrackName(kind, p), stated));
            && k in s'.inbound.remoteTracks
            && s'.inbound.remoteTracks[k] == known + [RemoteTrack(TrackName(kind, p), stated, kind)]
  {
    hide Run, TrackName;
    NameDecidesType(es, kind, p);
  }
}
