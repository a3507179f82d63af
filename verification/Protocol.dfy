/** The protocol on the wire: exactly which messages mean what, and that a server reads the commands as they were meant. */
module Protocol {
  import opened RecvTracks
  import opened Signaling
  import opened Wrappers

  // ---- messages received

  /** The field is there and says the text. */
  predicate Says(m: Fields, key: string, text: string) {
    key in m && m[key] == Str(text)
  }

  /** The field can be read as text: it is text, or missing. */
  predicate Reads(m: Fields, key: string) {
    key in m ==> m[key].Str?
  }

  /** What is read from it. */
  function Reading(m: Fields, key: string): string
    requires Reads(m, key)
  {
    if key in m then m[key].text else ""
  }

  /** The candidate's label can be read as a number: it is one, or a truth value, or missing. */
  predicate ReadsNumber(m: Fields, key: string) {
    key in m ==> m[key].Num? || m[key].Flag?
  }

  /** A message of the command that gets as far as its command: one about bit rates does not. */
  predicate Commands(m: Fields, command: string) {
    Says(m, "command", command) && Reads(m, "definition") && !Says(m, "definition", "bitrateMeasurement") && Reads(m, "streamId")
  }

  predicate Notifies(m: Fields, definition: string) {
    Commands(m, "notification") && Says(m, "definition", definition) && Reads(m, "trackId")
  }

  lemma TextIs(m: Fields, key: string)
    ensures Text(m, key).Some? <==> Reads(m, key)
    ensures Reads(m, key) ==> Text(m, key) == Some(Reading(m, key))
  {
  }

  lemma NumberIs(m: Fields, key: string)
    ensures Integer(m, key).Some? <==> ReadsNumber(m, key)
  {
  }

  lemma DefinitionsDiffer()
    ensures |"joinedTheRoom"| == 13 && |"publish_started"| == 15 && |"play_started"| == 12
    ensures |"play_finished"| == 13 && |"subtrackAdded"| == 13 && |"subtrackRemoved"| == 15
    ensures "joinedTheRoom"[0] == 'j' && "publish_started"[0] == 'p' && "play_started"[0] == 'p' && "play_finished"[0] == 'p'
    ensures "subtrackAdded"[0] == 's' && "subtrackRemoved"[0] == 's' && |"bitrateMeasurement"| == 18
  {
  }

  lemma CommandsDiffer()
    ensures |"start"| == 5 && |"takeConfiguration"| == 17 && |"takeCandidate"| == 13 && |"notification"| == 12
  {
  }

  /** A notification that can be read, by its definition. */
  lemma NotificationIs(m: Fields)
    requires Reads(m, "definition") && Reads(m, "streamId") && Reads(m, "trackId")
    ensures var def, stream, track := Reading(m, "definition"), Reading(m, "streamId"), Reading(m, "trackId");
            && (def == "joinedTheRoom" ==> ReadNotification(m) == Some(JoinedRoom))
            && (def == "publish_started" ==> ReadNotification(m) == Some(PublishStarted))
            && (def == "play_started" ==> ReadNotification(m) == Some(PlayStarted(stream)))
            && (def == "play_finished" ==> ReadNotification(m) == Some(PlayFinished(stream)))
            && (def == "subtrackAdded" ==> ReadNotification(m) == Some(SubtrackAdded(track)))
            && (def == "subtrackRemoved" ==> ReadNotification(m) == Some(SubtrackRemoved(track)))
            && (def !in ["joinedTheRoom", "publish_started", "play_started", "play_finished", "subtrackAdded", "subtrackRemoved"] ==>
                  ReadNotification(m) == Some(Ignored))
  {
    TextIs(m, "definition");
    TextIs(m, "streamId");
    TextIs(m, "trackId");
    DefinitionsDiffer();
    hide Text;
  }

  lemma UnreadableNotification(m: Fields)
    requires !Reads(m, "definition") || !Reads(m, "streamId") || !Reads(m, "trackId")
    ensures ReadNotification(m) == None
  {
    TextIs(m, "definition");
    TextIs(m, "streamId");
    TextIs(m, "trackId");
    hide Text;
  }

  /** Which notice a message that gets as far as its command gives. */
  lemma CommandIs(msg: Message, command: string)
    requires Commands(msg.fields, command)
    ensures var m, stream := msg.fields, Reading(msg.fields, "streamId");
            && (command == "start" ==> Decode(msg) == StartOffer(stream))
            && (command == "takeConfiguration" ==>
                  Decode(msg) == if Reads(m, "type") && Reads(m, "sdp")
                                 then RemoteSdp(stream, Reading(m, "type"), Reading(m, "sdp"), msg.media) else Ignored)
            && (command == "takeCandidate" ==>
                  Decode(msg) == if Reads(m, "candidate") && Reads(m, "id") && ReadsNumber(m, "label")
                                 then RemoteCandidate(stream, Reading(m, "candidate"), Reading(m, "id")) else Ignored)
            && (command == "notification" ==> Decode(msg) == ReadNotification(m).GetOr(Ignored))
            && (command != "start" && command != "takeConfiguration" && command != "takeCandidate" && command != "notification" ==>
                  Decode(msg) == Ignored)
  {
    var m := msg.fields;
    TextIs(m, "command");
    TextIs(m, "definition");
    TextIs(m, "streamId");
    TextIs(m, "type");
    TextIs(m, "sdp");
    TextIs(m, "candidate");
    TextIs(m, "id");
    NumberIs(m, "label");
    CommandsDiffer();
    assert Text(m, "command") == Some(command);
    assert "definition" in m ==> Reading(m, "definition") != "bitrateMeasurement";
    hide Text, Integer, ReadNotification, Reading, Reads, ReadsNumber;
  }

  /** A message that does not get so far is ignored. */
  lemma NoCommandIs(msg: Message)
    requires forall command :: !Commands(msg.fields, command)
    ensures Decode(msg) == Ignored
  {
    var m := msg.fields;
    TextIs(m, "command");
    TextIs(m, "definition");
    TextIs(m, "streamId");
    if "command" in m && m["command"].Str? {
      assert !Commands(m, m["command"].text);
    }
    hide Text, Integer, ReadNotification;
  }

  /** Every message whose command is `notification`, by its definition. */
  lemma NotifiedIs(msg: Message)
    requires Commands(msg.fields, "notification")
    ensures var m := msg.fields;
            && (Notifies(m, "joinedTheRoom") ==> Decode(msg) == JoinedRoom)
            && (Notifies(m, "publish_started") ==> Decode(msg) == PublishStarted)
            && (Notifies(m, "play_started") ==> Decode(msg) == PlayStarted(Reading(m, "streamId")))
            && (Notifies(m, "play_finished") ==> Decode(msg) == PlayFinished(Reading(m, "streamId")))
            && (Notifies(m, "subtrackAdded") ==> Decode(msg) == SubtrackAdded(Reading(m, "trackId")))
            && (Notifies(m, "subtrackRemoved") ==> Decode(msg) == SubtrackRemoved(Reading(m, "trackId")))
            && ((|| Notifies(m, "joinedTheRoom") || Notifies(m, "publish_started") || Notifies(m, "play_started")
                 || Notifies(m, "play_finished") || Notifies(m, "subtrackAdded") || Notifies(m, "subtrackRemoved"))
                || Decode(msg) == Ignored)
  {
    var m := msg.fields;
    CommandIs(msg, "notification");
    if Reads(m, "trackId") {
      NotificationIs(m);
      if "definition" !in m { NotDefined(m); }
    } else {
      UnreadableNotification(m);
    }
    hide Decode, ReadNotification;
  }

  lemma NotDefined(m: Fields)
    requires Reads(m, "definition") && "definition" !in m
    ensures Reading(m, "definition") == "" && |"joinedTheRoom"| == 13 && |"publish_started"| == 15 && |"play_started"| == 12
    ensures |"play_finished"| == 13 && |"subtrackAdded"| == 13 && |"subtrackRemoved"| == 15
  {
  }

  /** What a message must be to be acted upon: one of the commands and definitions known, with every field it needs readable. */
  predicate Understood(m: Fields) {
    || Commands(m, "start")
    || (Commands(m, "takeConfiguration") && Reads(m, "type") && Reads(m, "sdp"))
    || (Commands(m, "takeCandidate") && Reads(m, "candidate") && Reads(m, "id") && ReadsNumber(m, "label"))
    || Notifies(m, "joinedTheRoom") || Notifies(m, "publish_started") || Notifies(m, "play_started")
    || Notifies(m, "play_finished") || Notifies(m, "subtrackAdded") || Notifies(m, "subtrackRemoved")
  }

  /**
    Every message, by what it says: a start, a description or a candidate for its stream; each kind of notification, with
    its stream or its track; and it is ignored if and only if it is none of these.
   */
  lemma DecodeIs(msg: Message)
    ensures var m := msg.fields;
            && (Commands(m, "start") ==> Decode(msg) == StartOffer(Reading(m, "streamId")))
            && (Commands(m, "takeConfiguration") && Reads(m, "type") && Reads(m, "sdp") ==>
                  Decode(msg) == RemoteSdp(Reading(m, "streamId"), Reading(m, "type"), Reading(m, "sdp"), msg.media))
            && (Commands(m, "takeCandidate") && Reads(m, "candidate") && Reads(m, "id") && ReadsNumber(m, "label") ==>
                  Decode(msg) == RemoteCandidate(Reading(m, "streamId"), Reading(m, "candidate"), Reading(m, "id")))
            && (Notifies(m, "joinedTheRoom") ==> Decode(msg) == JoinedRoom)
            && (Notifies(m, "publish_started") ==> Decode(msg) == PublishStarted)
            && (Notifies(m, "play_started") ==> Decode(msg) == PlayStarted(Reading(m, "streamId")))
            && (Notifies(m, "play_finished") ==> Decode(msg) == PlayFinished(Reading(m, "streamId")))
            && (Notifies(m, "subtrackAdded") ==> Decode(msg) == SubtrackAdded(Reading(m, "trackId")))
            && (Notifies(m, "subtrackRemoved") ==> Decode(msg) == SubtrackRemoved(Reading(m, "trackId")))
            && (Decode(msg) == Ignored <==> !Understood(m))
  {
    var m := msg.fields;
    if command :| Commands(m, command) {
      CommandIs(msg, command);
      if command == "notification" {
        NotifiedIs(msg);
      }
      CommandsDiffer();
      OneCommand(m, command);
    } else {
      NoCommandIs(msg);
    }
    hide Decode, ReadNotification, Reading, Reads, ReadsNumber, Commands;
  }

  lemma OneCommand(m: Fields, command: string)
    requires Commands(m, command)
    ensures forall other :: Commands(m, other) ==> other == command
  {
  }

  // ---- commands sent

  /** A command as the server reads it off its fields. */
  function ServerReads(m: Fields): Option<Command> {
    var streamId := if "streamId" in m && m["streamId"].Str? then m["streamId"].text else "";
    var room := if "room" in m && m["room"].Str? then m["room"].text else "";
    if Says(m, "command", "joinRoom") then Some(JoinRoom(streamId, room))
    else if Says(m, "command", "publish") && Reads(m, "mainTrack") && Says(m, "streamName", streamId)
            && "video" in m && m["video"].Flag? && "audio" in m && m["audio"].Flag? then
      Some(Publish(streamId, Reading(m, "mainTrack"), m["video"].on, m["audio"].on))
    else if Says(m, "command", "play") then Some(Play(room, streamId))
    else if Says(m, "command", "takeConfiguration") && Reads(m, "type") && Reads(m, "sdp") then
      Some(TakeConfiguration(streamId, Reading(m, "type"), Reading(m, "sdp")))
    else if Says(m, "command", "takeCandidate") && Reads(m, "candidate") && Reads(m, "id")
            && "label" in m && m["label"].Num? && m["label"].number >= 0 then
      Some(TakeCandidate(streamId, Reading(m, "candidate"), Reading(m, "id"), m["label"].number))
    else if Says(m, "command", "stop") then Some(StopStream(streamId))
    else if Says(m, "command", "leaveFromRoom") then Some(LeaveRoom(room))
    else None
  }

  lemma SentDiffer()
    ensures |"joinRoom"| == 8 && |"publish"| == 7 && |"play"| == 4 && |"takeConfiguration"| == 17 && |"takeCandidate"| == 13
    ensures |"stop"| == 4 && "stop"[0] == 's' && "play"[0] == 'p' && |"leaveFromRoom"| == 13 && "leaveFromRoom"[0] == 'l'
    ensures "takeCandidate"[0] == 't'
  {
  }

  lemma JoinIsRead(c: Command)
    requires c.JoinRoom? || c.Play? || c.StopStream? || c.LeaveRoom?
    ensures ServerReads(Encode(c)) == Some(c)
  {
    SentDiffer();
    hide Reading, Reads;
  }

  lemma PublishIsRead(c: Command)
    requires c.Publish?
    ensures ServerReads(Encode(c)) == Some(c)
  {
    SentDiffer();
    var m := Encode(c);
    assert Says(m, "command", "publish") && Says(m, "streamId", c.self) && Says(m, "streamName", c.self);
    assert Says(m, "mainTrack", c.room) && m["video"] == Flag(c.video) && m["audio"] == Flag(c.audio);
    hide Encode;
  }

  lemma ConfigurationIsRead(c: Command)
    requires c.TakeConfiguration?
    ensures ServerReads(Encode(c)) == Some(c)
  {
    SentDiffer();
    var m := Encode(c);
    assert Says(m, "command", "takeConfiguration") && Says(m, "streamId", c.stream) && Says(m, "type", c.kind) && Says(m, "sdp", c.sdp);
    hide Encode;
  }

  lemma CandidateFields(c: Command)
    requires c.TakeCandidate?
    ensures var m := Encode(c);
            && Says(m, "command", "takeCandidate") && Says(m, "streamId", c.stream) && Says(m, "candidate", c.candidate)
            && "label" in m && m["label"] == Num(c.labelNumber)
            && (if c.mid == "" then "id" !in m else Says(m, "id", c.mid))
  {
  }

  lemma CandidateIsRead(c: Command)
    requires c.TakeCandidate?
    ensures ServerReads(Encode(c)) == Some(c)
  {
    SentDiffer();
    CandidateFields(c);
    hide Encode;
  }

  /** Every command is read by the server as what it was, with the fields that are the same for every client. */
  lemma ServerReadsBack(c: Command)
    ensures ServerReads(Encode(c)) == Some(c)
    ensures c.JoinRoom? ==> Says(Encode(c), "mode", "amcu")
    ensures c.Publish? ==> Says(Encode(c), "subscriberCode", "client1") && Says(Encode(c), "subscriberId", "client1")
                           && Says(Encode(c), "role", "") && "metaData" in Encode(c) && Encode(c)["metaData"] == Other
    ensures c.TakeCandidate? ==> ("id" in Encode(c) <==> c.mid != "")
  {
    hide ServerReads;
    match c
    case Publish(_, _, _, _) => PublishIsRead(c);
    case TakeConfiguration(_, _, _) => ConfigurationIsRead(c);
    case TakeCandidate(_, _, _, _) =>
      CandidateFields(c);
      CandidateIsRead(c);
    case _ => JoinIsRead(c);
  }
}
