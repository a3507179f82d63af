/** What a remote offer asks this side to receive: one track per audio or video section that offers to send. */
module RecvTracks {
  import opened Wrappers
  import Decimal

  /** A codec line of a media section; `payload` is absent when the parser found none. */
  datatype Codec = Codec(name: string, payload: Option<int>)

  /** A media section as the SDP parser hands it over. */
  datatype Section = Section(kind: string, direction: Option<string>, rtp: seq<Codec>)

  /** A receive-only track added to a peer connection: its mid and its media type. */
  datatype Track = Track(mid: string, kind: string)

  predicate OffersToSend(sec: Section) {
    var dir := sec.direction.GetOr("sendrecv");
    (dir == "sendrecv" || dir == "sendonly") && (sec.kind == "audio" || sec.kind == "video")
  }

  /** The one codec this client can decode for a media type. */
  predicate Matches(kind: string, c: Codec) {
    (kind == "video" && c.name == "H264") || (kind == "audio" && c.name == "opus")
  }

  ghost predicate FirstMatch(sec: Section, j: nat) {
    && j < |sec.rtp|
    && Matches(sec.kind, sec.rtp[j])
    && forall i :: 0 <= i < j ==> !Matches(sec.kind, sec.rtp[i])
  }

  /** The payload number of the first matching codec, negative when there is none to use. */
  ghost function ChosenPayload(sec: Section): int {
    if j: nat :| FirstMatch(sec, j) then sec.rtp[j].payload.GetOr(-1) else -1
  }

  lemma ChosenPayloadIs(sec: Section, j: nat)
    requires FirstMatch(sec, j)
    ensures ChosenPayload(sec) == sec.rtp[j].payload.GetOr(-1)
  {
    forall i: nat | FirstMatch(sec, i) ensures i == j {
      assert Matches(sec.kind, sec.rtp[i]) && Matches(sec.kind, sec.rtp[j]);
    }
  }

  function TrackName(kind: string, payload: nat): string {
    "remote-" + kind + "-" + Decimal.Print(payload)
  }

  ghost function SectionTracks(sec: Section): seq<Track> {
    if OffersToSend(sec) && ChosenPayload(sec) >= 0
    then [Track(TrackName(sec.kind, ChosenPayload(sec)), sec.kind)]
    else []
  }

  /** The tracks one offer leads to, in the order of its sections. */
  ghost function Tracks(media: seq<Section>): seq<Track> {
    if media == [] then []
    else Tracks(media[..|media| - 1]) + SectionTracks(media[|media| - 1])
  }

  lemma TracksOfNext(media: seq<Section>, n: nat)
    requires n < |media|
    ensures Tracks(media[..n + 1]) == Tracks(media[..n]) + SectionTracks(media[n])
  {
    assert media[..n + 1][..n] == media[..n];
  }

  predicate IsMediaType(kind: string) {
    kind == "audio" || kind == "video"
  }

  /** A track name determines both the media type and the payload number it was built from. */
  lemma TrackNameInjective(k1: string, p1: nat, k2: string, p2: nat)
    requires IsMediaType(k1) && IsMediaType(k2)
    requires TrackName(k1, p1) == TrackName(k2, p2)
    ensures k1 == k2 && p1 == p2
  {
    var a, b := TrackName(k1, p1), TrackName(k2, p2);
    assert a[7..12] == k1 && b[7..12] == k2;
    assert a[13..] == Decimal.Print(p1) && b[13..] == Decimal.Print(p2);
    Decimal.PrintInjective(p1, p2);
  }

  /** Every track added for an offer is named after its own type, and comes from a section that offers to send. */
  lemma {:induction false} TracksAreWellNamed(media: seq<Section>, i: nat)
    requires i < |Tracks(media)|
    ensures exists sec, p: nat ::
              && sec in media && OffersToSend(sec) && p == ChosenPayload(sec)
              && Tracks(media)[i] == Track(TrackName(sec.kind, p), sec.kind)
  {
    var last := media[|media| - 1];
    var front := Tracks(media[..|media| - 1]);
    if i < |front| {
      TracksAreWellNamed(media[..|media| - 1], i);
      var sec, p: nat :|
        && sec in media[..|media| - 1] && OffersToSend(sec) && p == ChosenPayload(sec)
        && front[i] == Track(TrackName(sec.kind, p), sec.kind);
      assert sec in media;
    } else {
      assert last in media && Tracks(media)[i] == SectionTracks(last)[0];
    }
  }

  /** Which sections of an offer lead to a track. */
  ghost predicate Usable(sec: Section) {
    OffersToSend(sec) && ChosenPayload(sec) >= 0
  }

  /** The sections' positions that lead to a track, in order. */
  ghost function UsableAt(media: seq<Section>): seq<nat> {
    if media == [] then []
    else UsableAt(media[..|media| - 1]) + if Usable(media[|media| - 1]) then [|media| - 1] else []
  }

  /** The positions of the usable sections: all of them, each once, in order. */
  lemma {:induction false} UsableAtIs(media: seq<Section>)
    ensures forall i :: i in UsableAt(media) <==> 0 <= i < |media| && Usable(media[i])
    ensures forall m, n :: 0 <= m < n < |UsableAt(media)| ==> UsableAt(media)[m] < UsableAt(media)[n]
  {
    hide Usable;
    if media == [] {
    } else {
      var front := media[..|media| - 1];
      UsableAtIs(front);
      forall i ensures i in UsableAt(media) <==> 0 <= i < |media| && Usable(media[i]) {
        if 0 <= i < |front| {
          assert front[i] == media[i];
        }
      }
      forall n | 0 <= n < |UsableAt(front)| ensures UsableAt(front)[n] < |front| {
        assert UsableAt(front)[n] in UsableAt(front);
      }
    }
  }

  ghost predicate MadeFor(t: Track, sec: Section) {
    Usable(sec) && t == Track(TrackName(sec.kind, ChosenPayload(sec)), sec.kind)
  }

  lemma {:induction false} TracksAreMade(media: seq<Section>)
    ensures |Tracks(media)| == |UsableAt(media)|
    ensures forall n :: 0 <= n < |UsableAt(media)| ==>
              UsableAt(media)[n] < |media| && MadeFor(Tracks(media)[n], media[UsableAt(media)[n]])
  {
    hide OffersToSend, ChosenPayload, TrackName;
    if media == [] {
    } else {
      TracksAreMade(media[..|media| - 1]);
    }
  }

  /**
    The tracks of an offer match its usable sections one to one and in order: the n-th track is the one made for the
    n-th usable section, the positions increase strictly, and they are exactly those of the usable sections.
   */
  lemma {:induction false} TracksFollowSections(media: seq<Section>)
    ensures |Tracks(media)| == |UsableAt(media)|
    ensures forall n :: 0 <= n < |UsableAt(media)| ==>
              UsableAt(media)[n] < |media| && MadeFor(Tracks(media)[n], media[UsableAt(media)[n]])
    ensures forall m, n :: 0 <= m < n < |UsableAt(media)| ==> UsableAt(media)[m] < UsableAt(media)[n]
    ensures forall i :: i in UsableAt(media) <==> 0 <= i < |media| && Usable(media[i])
  {
    hide *;
    UsableAtIs(media);
    TracksAreMade(media);
  }

  /** A section's track, said in full: which sections get one, which codec decides, and what the track is called. */
  lemma SectionMeans(sec: Section, j: nat)
    requires sec.direction in {None, Some("sendrecv"), Some("sendonly")} && j < |sec.rtp|
    requires (sec.kind == "video" && sec.rtp[j].name == "H264") || (sec.kind == "audio" && sec.rtp[j].name == "opus")
    requires forall i :: 0 <= i < j ==> sec.rtp[i].name != (if sec.kind == "video" then "H264" else "opus")
    ensures SectionTracks(sec) ==
            match sec.rtp[j].payload
            case None => []
            case Some(p) => if p < 0 then [] else [Track("remote-" + sec.kind + "-" + Decimal.Print(p), sec.kind)]
  {
    assert FirstMatch(sec, j);
    ChosenPayloadIs(sec, j);
    hide ChosenPayload;
  }

  /** Every other section gets none. */
  lemma SectionWithout(sec: Section)
    requires || sec.direction !in {None, Some("sendrecv"), Some("sendonly")}
             || (sec.kind != "video" && sec.kind != "audio")
             || forall j :: 0 <= j < |sec.rtp| ==> sec.rtp[j].name != (if sec.kind == "video" then "H264" else "opus")
    ensures SectionTracks(sec) == []
  {
  }

  /** The tracks of an offer are those of its sections, one section after the other. */
  lemma TracksOfMore(media: seq<Section>, sec: Section)
    ensures Tracks([]) == [] && Tracks(media + [sec]) == Tracks(media) + SectionTracks(sec)
  {
    assert (media + [sec])[..|media|] == media;
  }
}
