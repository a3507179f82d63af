/** The Ant Media signalling protocol: commands sent, messages received, and how each is read. */
module Signaling {
  import opened Wrappers
  import opened RecvTracks

  /** The JSON values a message field can hold; `Other` is null, an array or an object. */
  datatype Json = Str(text: string) | Num(number: int) | Flag(on: bool) | Other

  type Fields = map<string, Json>

  /** An inbound message: its fields, and what the SDP parser makes of its `sdp` text. */
  datatype Message = Message(fields: Fields, media: seq<Section>)

  /** What this client sends. */
  datatype Command =
    | JoinRoom(self: string, room: string)
    | Publish(self: string, room: string, video: bool, audio: bool)
    | Play(room: string, stream: string)
    | TakeConfiguration(stream: string, kind: string, sdp: string)
    | TakeCandidate(stream: string, candidate: string, mid: string, labelNumber: nat)
    | StopStream(stream: string)
    | LeaveRoom(room: string)

  /** What an inbound message asks the manager to do. */
  datatype Notice =
    | Ignored
    | StartOffer(stream: string)
    | RemoteSdp(stream: string, kind: string, sdp: string, media: seq<Section>)
    | RemoteCandidate(stream: string, candidate: string, mid: string)
    | JoinedRoom
    | PublishStarted
    | PlayStarted(stream: string)
    | PlayFinished(stream: string)
    | SubtrackAdded(track: string)
    | SubtrackRemoved(track: string)

  /** A text field, empty when absent; None stands for the conversion error of a value that is not text. */
  function Text(m: Fields, key: string): Option<string> {
    if key !in m then Some("")
    else match m[key]
      case Str(s) => Some(s)
      case _ => None
  }

  /** An integer field, zero when absent; None stands for the conversion error. */
  function Integer(m: Fields, key: string): Option<int> {
    if key !in m then Some(0)
    else match m[key]
      case Num(n) => Some(n)
      case Flag(b) => Some(if b then 1 else 0)
      case _ => None
  }

  /** A notification message, told apart by its definition. */
  function ReadNotification(m: Fields): Option<Notice> {
    var def :- Text(m, "definition");
    var stream :- Text(m, "streamId");
    var track :- Text(m, "trackId");
    Some(if def == "joinedTheRoom" then JoinedRoom
         else if def == "publish_started" then PublishStarted
         else if def == "play_started" then PlayStarted(stream)
         else if def == "play_finished" then PlayFinished(stream)
         else if def == "subtrackAdded" then SubtrackAdded(track)
         else if def == "subtrackRemoved" then SubtrackRemoved(track)
         else Ignored)
  }

  /** A message that has a command; None stands for any conversion error on the way. */
  function ReadCommand(msg: Message): Option<Notice> {
    var m := msg.fields;
    var command :- Text(m, "command");
    var def :- Text(m, "definition");
    if "definition" in m && def == "bitrateMeasurement" then Some(Ignored) else
    var stream :- Text(m, "streamId");
    if command == "start" then
      Some(StartOffer(stream))
    else if command == "takeConfiguration" then
      var kind :- Text(m, "type");
      var sdp :- Text(m, "sdp");
      Some(RemoteSdp(stream, kind, sdp, msg.media))
    else if command == "takeCandidate" then
      var candidate :- Text(m, "candidate");
      var mid :- Text(m, "id");
      var _ :- Integer(m, "label");
      Some(RemoteCandidate(stream, candidate, mid))
    else if command == "notification" then
      ReadNotification(m)
    else
      Some(Ignored)
  }

  /** The whole inbound path: a message without a command, or one whose fields do not convert, does nothing. */
  function Decode(msg: Message): Notice {
    if "command" in msg.fields then ReadCommand(msg).GetOr(Ignored) else Ignored
  }

  /** The JSON object a command is sent as. */
  function Encode(c: Command): Fields {
    match c
    case JoinRoom(self, room) =>
      map["command" := Str("joinRoom"), "streamId" := Str(self), "room" := Str(room), "mode" := Str("amcu")]
    case Publish(self, room, video, audio) =>
      map["command" := Str("publish"), "streamId" := Str(self), "streamName" := Str(self), "mainTrack" := Str(room),
          "metaData" := Other, "subscriberCode" := Str("client1"), "subscriberId" := Str("client1"),
          "video" := Flag(video), "audio" := Flag(audio), "role" := Str("")]
    case Play(room, stream) =>
      map["command" := Str("play"), "room" := Str(room), "streamId" := Str(stream)]
    case TakeConfiguration(stream, kind, sdp) =>
      map["command" := Str("takeConfiguration"), "streamId" := Str(stream), "type" := Str(kind), "sdp" := Str(sdp)]
    case TakeCandidate(stream, candidate, mid, labelNumber) =>
      var base := map["command" := Str("takeCandidate"), "streamId" := Str(stream),
                      "candidate" := Str(candidate), "label" := Num(labelNumber)];
      if mid == "" then base else base["id" := Str(mid)]
    case StopStream(stream) =>
      map["command" := Str("stop"), "streamId" := Str(stream)]
    case LeaveRoom(room) =>
      map["command" := Str("leaveFromRoom"), "room" := Str(room)]
  }

  lemma DescriptionIsRead(stream: string, kind: string, sdp: string, media: seq<Section>)
    ensures Decode(Message(Encode(TakeConfiguration(stream, kind, sdp)), media)) == RemoteSdp(stream, kind, sdp, media)
  {
    hide ReadNotification, Integer;
    var m := Encode(TakeConfiguration(stream, kind, sdp));
    assert "definition" !in m;
    assert Text(m, "command") == Some("takeConfiguration") && Text(m, "definition") == Some("");
    assert Text(m, "streamId") == Some(stream) && Text(m, "type") == Some(kind) && Text(m, "sdp") == Some(sdp);
    hide Text, Encode;
  }

  lemma CandidateIsRead(stream: string, candidate: string, mid: string, n: nat, media: seq<Section>)
    ensures Decode(Message(Encode(TakeCandidate(stream, candidate, mid, n)), media)) == RemoteCandidate(stream, candidate, mid)
  {
    hide ReadNotification;
    var m := Encode(TakeCandidate(stream, candidate, mid, n));
    assert "definition" !in m && Integer(m, "label").Some?;
    assert Text(m, "command") == Some("takeCandidate") && Text(m, "definition") == Some("");
    assert Text(m, "streamId") == Some(stream) && Text(m, "candidate") == Some(candidate) && Text(m, "id") == Some(mid);
    hide Text, Integer, Encode;
  }

  /** The commands that no client acts upon. */
  lemma RestIsIgnored(c: Command, media: seq<Section>)
    requires !c.TakeConfiguration? && !c.TakeCandidate?
    ensures Decode(Message(Encode(c), media)) == Ignored
  {
    hide ReadNotification, Integer;
    var m := Encode(c);
    assert "definition" !in m && Text(m, "definition") == Some("");
    var command := Text(m, "command").value;
    assert command in {"joinRoom", "publish", "play", "stop", "leaveFromRoom"};
    hide Text, Encode;
    assert command[0] == 's' ==> command == "stop" && |"start"| == 5;
    assert "takeConfiguration"[0] == 't' && "takeCandidate"[0] == 't' && "notification"[0] == 'n';
  }

  /**
    Both sides of the protocol agree: a description or candidate sent by one client is read back unchanged by the
    handler of another, an empty mid included, and no other command this client sends is ever acted upon.
   */
  lemma SentIsReadBack(c: Command, media: seq<Section>)
    ensures Decode(Message(Encode(c), media)) ==
            match c
            case TakeConfiguration(stream, kind, sdp) => RemoteSdp(stream, kind, sdp, media)
            case TakeCandidate(stream, candidate, mid, _) => RemoteCandidate(stream, candidate, mid)
            case _ => Ignored
  {
    hide Decode, Encode;
    match c
    case TakeConfiguration(stream, kind, sdp) => DescriptionIsRead(stream, kind, sdp, media);
    case TakeCandidate(stream, candidate, mid, n) => CandidateIsRead(stream, candidate, mid, n, media);
    case _ => RestIsIgnored(c, media);
  }
}
