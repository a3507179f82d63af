# A verified model of the conference client

This project models the client of an Ant Media conference — the manager of its peer connections, its signalling, and the
logging, console and callback code around it — and proves what each of them keeps over whole runs.

`dafny verify dfyconfig.toml` checks everything.

## What is modelled

**The conference manager.** `Conference` is a state machine: one `State` (the ten tracking maps of the manager, its
settings, its signalling context) and one `Step` per thing that can happen — an API call, an inbound message, a callback
of the socket, of a peer connection, of a data channel. The state carries a trace of what went in (decoded messages)
and what came out (peer connections made, calls on them, data channels closed, commands on the wire, frames played, the
socket closed); `past` is the trace of the sessions already torn down. `Manager` has the same manager as objects whose
methods insert, erase, loop and call out one effect at a time; each method is proved to take the abstract state where the
state machine says. `ManagerRuns` drives a manager object through any events and proves that it ends where the state
machine's run does, so that what is proved of all runs is proved of the objects. `Signaling` decodes messages, with the
conversion errors that make a message do nothing, and encodes commands. `RecvTracks` is the reading of an offer's media
sections.

`Effects` says of every event and every notice what it changes and what it adds to the trace, in full and in terms of the
state's fields alone, without the functions the state machine is made of; `Protocol` does the same for messages: which
message means what, which are ignored, and that a server reads each command off its fields as it was meant. Together they
fix the state machine independently of how it is written.

The theorems over all runs are in one module each: `PeerLifecycle`, `CandidateDelivery`, `CandidateTiming`,
`OfferAnswer`, `PlayRequests`, `NewTracks`, `RoomPlay`, `TrackTypes`, `Roles`, `Labels`, `FreshSessions`, `Farewells`,
`TalkMessages`, `ClosedPeers`.
`SteadyRuns` names the runs in which the room and the own stream are not renamed during a session, for the theorems that
need it.

**Logging.** `LogNames` and `LogRotation` have the rotation of a log over a map from path to file; `Calendar` the
proleptic Gregorian calendar both ways, the printed day folder name and the scan that reads it back, and `CalendarLaws`
what fixes it: the first day, the day after each day, the lengths of months and years; `Retention` the archiving and removal
of day folders.

**The rest.** `LineSplitter` is the console reader, `StoredCallback` the callback that replays the last call it missed,
`Threads` has threads over mutexes, `LockOrder` the order in which this code takes them, and `LockUse` which mutexes each
entry point can take.

## What is assumed of the environment

- Library calls on peer connections, data channels and the file system succeed.
- Events are handled one at a time. The code does not see to that everywhere: three handlers of notifications touch
  `sendPlay` without the state mutex (`WebRTCManager.cpp:179-201`, `221-230`).
- `Conference.Occurs` says when an event can happen: messages arrive on an open socket; callbacks come from live peer
  connections and channels of the running session; nothing of a torn-down session is delivered. An event that cannot
  happen leaves the state alone.
- A command sent while there is no client or the socket is closed puts nothing on the wire. A send is the last effect of
  its handler, and the farewell of a tear-down is guarded, so that a send that throws changes nothing else.
- The order in which a hash map of peers is walked is a parameter of the event, arbitrary but for covering each key once
  (`Orders.Enumerates`); so is the order in which a directory is read.
- Only where a theorem says `SteadyRun`: `SetRoomId` and `SetStreamId` are not called during a session, and the room has
  a name.
- Nothing is assumed about when or how often the socket opens; the theorem that needs an assumption states it.

## Where the code is not what one might expect

- Setting up the own peer connection does not hand over the candidates queued for it. That is harmless as long as the
  socket opens at most once a session, and this code asks for one opening per connection and never re-opens:
  `CandidateDelivery.OpensOnceInOrder`. That the assumption is needed is shown by `OpeningIsSafeIff`, which says exactly
  when an opening keeps the order, and by `ReopeningCanOvertake`, a run of the machine with a second opening. Whatever the
  socket does, no candidate is lost or repeated.
- Any description whose type is not `offer` is set as an answer; `OfferAnswer.StepSettledIff` says exactly which
  messages keep the calls legal, and `ImpoliteMessageBreaks` that nothing repairs what another one breaks.
- Who is talking is kept and put to no use: the handler of audio frames reads the flag into a local that nothing depends
  on (`WebRTCManager.cpp:330-339`). Every binary frame of an audio track is played (`TalkMessages.FramesArePlayed`), and a
  run with the talk messages left out goes the same (`TalkMessages.TalkingChangesNothing`).
- A stop does not always say goodbye: an own peer connection that was re-created by a description for the own stream does
  not count as a publisher, and the session then ends without the farewell commands. `Farewells.FarewellIff` says exactly
  which sessions end with them.
- Packing an old day folder can lose something: if a folder has its archive's name and is read later, the old folder is
  removed unpacked; if an archive of other content has that name, it is overwritten. `Retention.IntactIff` says for every
  order of reading when nothing is lost, `NeverLosesIff` for which directories that is so in every order.
- A track whose peer connection has closed is asked for again, but the offer that answers is set on the closed peer
  connection (`ClosedPeers.AnswerMeetsClosed`); `TouchesIff` says exactly when an event uses one that has closed.
- A callback object holds its own mutex while its callback runs (`include/rtc/utils.hpp:52-101`). Where the libraries'
  peer connections and socket are of that kind, a tear-down and a callback that wants the state mutex can wait for each
  other for ever: `LockOrder.NeverDeadlocksIff` says for which threads that can happen. Over the repository's own mutexes
  it cannot (`OwnMutexesNeverDeadlock`).
- A read of the console is appended as a C string, so a NUL in it drops the rest of that read: `InputIsKeptIff`.
- A log whose name ends in `.logInfo` is its own counter record: `LogNames.InfoApartIff`.

## Model

| member | source | states |
|---|---|---|
| PeerLifecycle.PeersAreConserved | WebRTCManager.cpp:269-319 | over every run, sessions torn down and begun again included: a peer connection made was made once; its stream still holds it and it was never closed, or it was closed exactly once and nothing holds it; every call on it falls between |
| PeerLifecycle.NothingIsLeftOpen | WebRTCManager.cpp:495-503 | after a stop every peer connection ever made has been closed exactly once |
| PeerLifecycle.LifeMeaning | WebRTCManager.cpp:269-319 | an unbroken life, read off the trace by the automaton, means one making, at most one closing, and calls only in between |
| PeerLifecycle.StepKeeps | WebRTCManager.cpp:141-231 | every event keeps the invariant: live exactly where held, serial numbers fresh, none used out of turn |
| PeerLifecycle.CleaningKeeps | WebRTCManager.cpp:495-503 | tearing down closes each held peer connection once, in whatever order the hash map is walked |
| CandidateDelivery.DeliveredExactlyOnce | WebRTCManager.cpp:456-475 | in every run the non-empty candidates received for a stream are, as a multiset, those handed to its peer connections, re-created ones included, plus those still queued |
| CandidateDelivery.DeliveredInOrder | WebRTCManager.cpp:456-475 | in order too, with no stream both live and queued for, as long as no opening of the socket finds a queue for an absent own peer connection |
| CandidateDelivery.OpenedFirstInOrder | AMS_SFU_ConferenceSignaling.cpp:52-67 | if no opening of the socket comes after a message of its session, every stream keeps its order |
| CandidateDelivery.OpensOnceInOrder | AMS_SFU_ConferenceSignaling.cpp:52-80 | if the socket opens at most once a session, as the one request for it per connection says, every stream keeps its order, the own one included |
| CandidateDelivery.UnopenedIsQuiet | AMS_SFU_ConferenceSignaling.cpp:52-67 | in every run a message comes only after an opening of the same session |
| CandidateDelivery.OthersInOrder | WebRTCManager.cpp:456-475 | a stream that is not the own one when the socket opens keeps its order in every run |
| CandidateDelivery.OpeningIsSafeIff | WebRTCManager.cpp:233-237 | an opening is harmless if and only if order survives every sequence of messages after it |
| CandidateDelivery.UnsafeOpeningOvertakes | WebRTCManager.cpp:233-237 | after an opening that finds a queue for the absent own peer connection, one more candidate message breaks the order |
| CandidateDelivery.ReopeningCanOvertake | WebRTCManager.cpp:145-149 | the assumption of one opening per session is needed: a run of the machine, for any own stream, in which a second opening, which the source never asks for, loses the order |
| CandidateDelivery.HandlingSdp | WebRTCManager.cpp:456-468 | a description hands its stream's whole queue to the peer connection, and touches no other stream |
| CandidateDelivery.HandlingCandidate | WebRTCManager.cpp:470-475 | a candidate is handed over at once if its stream has a peer connection, queued last if not, dropped if empty |
| CandidateTiming.CandidatesComeAfterDescription | WebRTCManager.cpp:456-480 | in every steady run a candidate given to a peer connection of any stream but the own one comes after a remote description on that same peer connection |
| CandidateTiming.SdpPrimes | WebRTCManager.cpp:456-468 | within a description's calls the queued candidates come after it |
| OfferAnswer.StepSettledIff | WebRTCManager.cpp:456-480 | one event keeps every peer connection in stable or have-local-offer (section 3.2 of RFC 8829) if and only if the message, if it was one, offered to a stable or new peer or answered an outstanding offer |
| OfferAnswer.PoliteServerSettles | WebRTCManager.cpp:456-480 | so in every run with only such messages all calls are legal and no answer is owed between handlers |
| OfferAnswer.ImpoliteMessageBreaks | WebRTCManager.cpp:461 | the first other message makes an illegal call, and no later run repairs it |
| OfferAnswer.EveryOfferIsAnswered | WebRTCManager.cpp:456-468 | whatever the server sends, the descriptions set for a stream are those received for it, in order, and the answers set are as many as its offers |
| OfferAnswer.SdpSignals | WebRTCManager.cpp:456-468 | what a description does to the signalling state of its own peer connection, and that it does nothing to others |
| PlayRequests.NoRedundantPlay | WebRTCManager.cpp:203-230 | in every steady run the flag kept for a track other than the room says exactly whether a request for it is outstanding, and no request was redundant |
| PlayRequests.TwoPlaysAreSeparated | WebRTCManager.cpp:203-230 | between two `play` commands for such a track there is a `subtrackRemoved` or `play_finished` for it |
| PlayRequests.EveryPlayIsJustified | WebRTCManager.cpp:203-219 | every such command was caused by one message of the run, which found the track's peer connection absent or closed and the track not the own stream |
| PlayRequests.OwnStreamIsNeverPlayed | WebRTCManager.cpp:204 | the own stream, when it is not the room, is never played |
| PlayRequests.PlayIsJustified | WebRTCManager.cpp:203-219 | only a message makes the manager ask for a track other than the room, and then the track is named, not the own stream, and its peer connection absent or closed |
| NewTracks.NewTracksArePlayed | WebRTCManager.cpp:203-219 | in every steady run a `subtrackAdded` message for a track that is neither the own stream nor the room is answered with one `play` for it, and nothing else, if and only if no request for it is outstanding in the trace and no peer connection of it is up |
| NewTracks.OutstandingIff | WebRTCManager.cpp:203-230 | the automaton of requests in terms of positions in the trace: asked for, and not reported gone since |
| RoomPlay.RoomPlayIsCounted | WebRTCManager.cpp:179-201 | while no subtrack notification names the room, the `play` commands for it are its `play_finished`, plus one exactly if a `publish_started` came before them all; and the flag says whether there was one |
| RoomPlay.FinishedBalanced | WebRTCManager.cpp:192-201 | an end of the room's playing, and a first start of publishing, each cause one `play` for the room |
| TrackTypes.TypesAreNeverAmbiguous | WebRTCManager.cpp:364-374 | after any run every mid noted maps to the type in its own name, and every remote track is handled as that type or as the one it states |
| TrackTypes.NameDecidesType | WebRTCManager.cpp:364-374 | a made-up mid is noted as its own type or not at all, over all peers together |
| TrackTypes.ArrivalReadsName | WebRTCManager.cpp:321-341 | a track arriving under a noted mid is handled as the type in its name, whatever it states |
| RecvTracks.TrackNameInjective | WebRTCManager.cpp:363 | a track name determines type and payload |
| RecvTracks.TracksFollowSections | WebRTCManager.cpp:343-376 | the tracks of an offer are, in order, one per audio or video section that offers to send (section 6.1 of RFC 3264) and has a usable payload; that they are added for offers only, and to which peer connection, is `Effects.DescriptionIs` |
| RecvTracks.ChosenPayloadIs | WebRTCManager.cpp:352-361 | the payload taken is that of the first matching codec |
| RecvTracks.SectionMeans | WebRTCManager.cpp:347-374 | which sections get a track, which codec decides, and what the track is called, in full |
| RecvTracks.SectionWithout | WebRTCManager.cpp:348-363 | every other section gets none |
| Decimal.PrintInjective | WebRTCManager.cpp:363 | no two numbers share a decimal text |
| Decimal.PrintOfValue | WebRTCManager.cpp:363 | the text printed is the only one without idle zeros for its number |
| FreshSessions.SessionsLeaveNoResidue | WebRTCManager.cpp:46-97 | a session on a used manager goes exactly as on a new one with the same settings: the same state but for serial numbers, the same commands, candidate labels included |
| FreshSessions.EndedMeansEmpty | WebRTCManager.cpp:482-519 | outside a session every tracking map is empty and context and media are gone |
| FreshSessions.SessionsEndEmpty | WebRTCManager.cpp:78-97 | every stop and every failed start ends there |
| FreshSessions.AfterStep | WebRTCManager.cpp:46-97 | what a manager does next does not depend on what it was used for before |
| FreshSessions.StartForgetsRole | WebRTCManager.cpp:58 | a start overwrites the one setting a finished session leaves behind |
| Roles.RoleIsKept | WebRTCManager.cpp:58 | in every run, while a session runs its role is the one its start asked for |
| Roles.SomeStartBegan | WebRTCManager.cpp:46-59 | every running session was begun by one start and has run since |
| Roles.MediaFollowsRole | WebRTCManager.cpp:233-267 | in every session each peer connection the client sets up of its own accord is at once given the video and then the audio track if and only if the session was not begun as a player; no other peer connection ever is, and a player's none |
| Roles.JoinedFollowsRole | WebRTCManager.cpp:169-177 | in every session a `joinedTheRoom` message is answered with one `publish` whose two flags say whether the session was not begun as a player |
| Labels.LabelsGrow | AMS_SFU_ConferenceSignalingCommand.cpp:120-134 | in every run the candidates sent in a session carry strictly growing numbers |
| SteadyRuns.SteadyRunIsAligned | AMS_SFU_ConferenceSignaling.cpp:28-32 | in a steady run the client speaks for the manager's own stream and room |
| Signaling.SentIsReadBack | AMS_SFU_ConferenceSignalingCommand.cpp:106-134 | a description or candidate sent by one client is read back unchanged by the handler of another; no other command of this client is acted upon |
| Protocol.DecodeIs | AMS_SFU_ConferenceSignalingCommand.cpp:168-213 | which notice every message gives, by its command, definition and fields; and it is ignored if and only if it is none of those listed, every field it needs being readable |
| Protocol.NotifiedIs | AMS_SFU_ConferenceSignaling.cpp:94-135 | each of the six definitions of a notification, with its stream or its track |
| Protocol.CommandIs | AMS_SFU_ConferenceSignalingCommand.cpp:173-212 | each of the four commands acted upon, and what makes one of them fail to convert |
| Protocol.ServerReadsBack | AMS_SFU_ConferenceSignalingCommand.cpp:41-164 | each of the seven commands can be read off the fields it is sent as, with nothing mistaken for anything else |
| Farewells.FarewellIff | WebRTCManager.cpp:482-489 | in every steady run a stop sends the three farewell commands, for the own stream and the room, if and only if the socket is open, the own stream has a name, and the session's last own peer connection was not made in answer to a description |
| Farewells.RunIsVoiced | WebRTCManager.cpp:233-282 | in every steady run the publisher flag of the own stream is what the trace says of its last peer connection |
| Farewells.VoiceMeaning | WebRTCManager.cpp:233-282 | the automaton behind it, in terms of positions in the trace |
| Farewells.RecreatedIsSilent | WebRTCManager.cpp:456-459 | from any open session: the own stream's playing ends, an offer for it comes in, and in the state reached a stop would send no farewell |
| ClosedPeers.TouchesIff | WebRTCManager.cpp:456-480 | in every run an event makes the manager use a peer connection that has closed if and only if it is a start, a description or a non-empty candidate for a stream whose peer connection closed with no `play_finished` for it since |
| ClosedPeers.ClosedMeaning | WebRTCManager.cpp:303-319 | in every run the peer connections held though closed are those the history says: closed in this session, and no `play_finished` since |
| ClosedPeers.AnswerMeetsClosed | WebRTCManager.cpp:207-217 | a track whose peer connection has closed is asked for again, yet the offer that answers makes no new peer connection and uses the closed one |
| ClosedPeers.LeavingMakesWanted | WebRTCManager.cpp:203-230 | that can come about in any open session: a track's peer connection closes, the track leaves, and is then to be asked for when it returns |
| TalkMessages.TalkingChangesNothing | WebRTCManager.cpp:330-339 | from any state, a run goes the same with the talk messages left out, but for the record of who is talking |
| TalkMessages.FramesArePlayed | WebRTCManager.cpp:330-339 | in every run a frame that arrives is played if and only if it is binary and its track is handled as audio |
| Conference.HandleReplies | AMS_SFU_ConferenceSignaling.cpp:94-135 | what each notice is answered with, as the entries it adds to the trace |
| Conference.NextTracks | WebRTCManager.cpp:347-375 | preparing the sections one by one comes to preparing them all |
| Effects.DescriptionIs | WebRTCManager.cpp:456-468 | a description: the stream's peer connection, made if need be; the tracks of its sections if and only if it is an offer, in order, each noted; the description; the whole queue; an answer to an offer; and nothing else changes |
| Effects.NoteTypesNotes | WebRTCManager.cpp:364-374 | the types noted: the last track of a mid counts, all other mids keep theirs |
| Effects.OfferedAreNoted | WebRTCManager.cpp:343-376 | after an offer the mid of each of its tracks is noted as that track's type |
| Effects.RemoteCandidateIs | WebRTCManager.cpp:470-475 | a candidate is dropped, queued last or handed over |
| Effects.StartIs | WebRTCManager.cpp:477-480 | a start makes an existing peer connection set a local offer |
| Effects.JoinedIs | WebRTCManager.cpp:169-177 | having joined, the client publishes its own stream into its room, with media unless it only plays |
| Effects.PublishStartedIs | WebRTCManager.cpp:179-184 | the room is flagged and asked for, unless it has a flag |
| Effects.PlayFinishedIs | WebRTCManager.cpp:192-201 | a named stream that finished: its open data channels closed, then its peer connection, all forgotten with both flags; the room is flagged and asked for again |
| Effects.SubtrackAddedIs | WebRTCManager.cpp:203-219 | a track added is flagged and asked for if and only if it is named, not the own stream, without a peer connection or with a closed one, and not flagged |
| Effects.SubtrackRemovedIs | WebRTCManager.cpp:221-230 | a track removed loses its flag, if it is named |
| Effects.LocalCandidateIs | AMS_SFU_ConferenceSignalingCommand.cpp:120-134 | a local candidate is sent with its stream, text, mid and the next label |
| Effects.LocalDescriptionIs | WebRTCManager.cpp:287-295 | a local description is sent as an offer or an answer with its stream and text |
| Effects.TrackArrivedIs | WebRTCManager.cpp:321-328 | a track is kept last, handled as the type noted for its mid or else as it states |
| Effects.ChannelTextIs | WebRTCManager.cpp:443-451 | the two talk messages and no others set who talks |
| Effects.OpenedIs | WebRTCManager.cpp:145-149 | an opening sets up the absent own peer connection with its calls in order, and then joins the room |
| Effects.OpenedStateIs | WebRTCManager.cpp:233-267 | what else an opening changes: the flag, the own peer connection, which publishes, and its data channel |
| Effects.StartsIff | WebRTCManager.cpp:46-59 | a start begins a session if and only if none runs and the URL is neither empty nor the placeholder |
| Effects.BegunIs | WebRTCManager.cpp:58-78 | the session begun: role, context, client, the own peer connection and its calls |
| Effects.FailedStartIs | WebRTCManager.cpp:78-83 | a failed start makes and parts with the own peer connection and leaves no session |
| Effects.ClosingsPart | WebRTCManager.cpp:495-501 | each peer connection held has its three callbacks detached and is then closed, in the order walked |
| Effects.StopIs | WebRTCManager.cpp:482-519 | a stop: farewell, partings, hanging up, in this order, and what is left is empty |
| Effects.SettingsAre | WebRTCManager.cpp:28-43 | what the three setters set, and the default room |
| Manager.WebRTCManager.constructor | WebRTCManager.cpp:10-22 | a new manager tracks nothing, has the default room and no URL, and has done nothing |
| Manager.WebRTCManager.SetSignalingServerURL | WebRTCManager.cpp:39-43 | only the URL changes, and the next start uses it |
| Manager.WebRTCManager.SetRoomId | WebRTCManager.cpp:28-31 | only the manager's room changes; a running session's client keeps its own copy |
| Manager.WebRTCManager.SetStreamId | WebRTCManager.cpp:33-36 | only the manager's own stream id changes; a running session's client keeps its own copy |
| Manager.WebRTCManager.Start2WayCommunication | WebRTCManager.cpp:46-86 | a running session is left alone, an unusable URL refused, a failed connection cleaned up, each with its result; the whole state is the machine's after a start (`Effects.BegunIs`, `FailedStartIs`), and context and client are new objects |
| Manager.WebRTCManager.Stop2WayCommunication | WebRTCManager.cpp:89-97 | ends a running session as the machine does, does nothing outside one, and keeps no object it did not have |
| Manager.WebRTCManager.BeginSession | WebRTCManager.cpp:58-78 | the role asked for, a new context for the present room, the own peer connection fitted out for the role, then a client for the own stream, as `Effects.BegunIs` spells out |
| Manager.WebRTCManager.CleanupResources | WebRTCManager.cpp:482-519 | says goodbye, detaches and closes what is held, forgets what is tracked, hangs up, and drops client and context |
| Manager.WebRTCManager.CloseAll | WebRTCManager.cpp:496-501 | each held peer connection has its three callbacks detached and is then closed, exactly once, in the order the map is walked |
| Manager.WebRTCManager.Part | WebRTCManager.cpp:497-500 | the three callbacks are detached before the closing |
| Manager.WebRTCManager.PartWithAll | WebRTCManager.cpp:483-501 | the farewell comes before the media goes and before any closing |
| Manager.WebRTCManager.Forget | WebRTCManager.cpp:503-512 | every tracking map is empty, the count of peer connections made is kept |
| Manager.WebRTCManager.DropContext | WebRTCManager.cpp:514-518 | an open socket is closed, nobody listens to it, the client is gone, then the context |
| Manager.WebRTCManager.SayGoodbye | WebRTCManager.cpp:483-489 | the last commands, only of a session that announced its stream |
| Manager.WebRTCManager.CreatePeerIfNotExist | WebRTCManager.cpp:269-301 | makes a peer connection only if the stream has none, and not as a publisher |
| Manager.WebRTCManager.SetupOwnPeer | WebRTCManager.cpp:233-267 | the own peer connection with media, unless only playing, and a data channel |
| Manager.WebRTCManager.SetupLocalTracks | WebRTCManager.cpp:378-410 | one video and one audio track, in this order |
| Manager.WebRTCManager.RemovePeerIfNotExist | WebRTCManager.cpp:303-319 | closes and forgets what is tracked under a stream, but not its queue, publisher flag or tracks |
| Manager.WebRTCManager.CloseDataChannels | WebRTCManager.cpp:305-312 | closes the open ones of both data channels of a name and forgets both |
| Manager.WebRTCManager.PayloadOf | WebRTCManager.cpp:352-361 | the codec loop finds the first match's payload |
| Manager.WebRTCManager.PrepareSection | WebRTCManager.cpp:347-374 | one section's track and its noted type |
| Manager.WebRTCManager.PrepareRecvTracksFromSDP | WebRTCManager.cpp:343-376 | the tracks of all sections, in order |
| Manager.WebRTCManager.FlushPendingCandidates | WebRTCManager.cpp:463-466 | hands over the whole queue in order and erases it |
| Manager.WebRTCManager.Apply | WebRTCManager.cpp:460-467 | tracks if it is an offer, description, candidates, answer if it is an offer, in this order, as `Effects.DescriptionIs` spells out |
| Manager.WebRTCManager.OnRemoteSdp | WebRTCManager.cpp:456-468 | makes the stream's peer connection if it has none, reporting data channels only for the room, and applies the description to it; an offer adds its tracks and is answered, nothing else is |
| Manager.WebRTCManager.OnRemoteCandidate | WebRTCManager.cpp:470-475 | an empty candidate is dropped, one without a peer connection queued last, any other handed over |
| Manager.WebRTCManager.StartOfferTo | WebRTCManager.cpp:477-480 | an existing peer connection sets a local offer; an unknown stream is ignored |
| Manager.WebRTCManager.OnPlayFinishedNotification | WebRTCManager.cpp:192-201 | an unnamed stream is ignored, a named one removed, and the room asked for again if it was the room |
| Manager.WebRTCManager.OnSubtrackAddedNotification | WebRTCManager.cpp:203-219 | asks for the track if and only if it is named, not the own stream, not up and not asked for already (`Effects.SubtrackAddedIs`) |
| Manager.WebRTCManager.RequestRoom | WebRTCManager.cpp:181-182 | flags the room as asked for and asks for it |
| Manager.WebRTCManager.DispatchNotification | AMS_SFU_ConferenceSignaling.cpp:94-135 | every notification reaches its handler |
| Manager.WebRTCManager.OnMessage | AMS_SFU_ConferenceSignalingCommand.cpp:168-213 | decodes a message, as `Protocol.DecodeIs` fixes, and does what its notice asks; an undecodable one does nothing |
| Manager.WebRTCManager.OnConnected | WebRTCManager.cpp:145-149 | opens the flag, sets up the own peer connection, joins the room, and keeps context and client |
| Manager.WebRTCManager.OnDisconnected | AMS_SFU_ConferenceSignaling.cpp:69-72 | closes the flag and nothing else; context and client are kept |
| Manager.WebRTCManager.OnPeerCandidate | WebRTCManager.cpp:286 | sends a local candidate under the next label, and keeps context and client |
| Manager.WebRTCManager.OnPeerDescription | WebRTCManager.cpp:287-295 | sends a local description with its type's name |
| Manager.WebRTCManager.AddRemoteTrack | WebRTCManager.cpp:321-326 | keeps the track, last, with the type its handler goes by |
| Manager.WebRTCManager.OnTrackFrame | WebRTCManager.cpp:330-339 | plays a binary frame of an audio track while there is media, whoever is talking |
| Manager.WebRTCManager.OnDataChannel | WebRTCManager.cpp:412-427 | keeps a remote data channel unless its name is taken |
| Manager.WebRTCManager.HandleDataChannelText | WebRTCManager.cpp:443-451 | only the two talk messages change anything |
| ManagerRuns.Deliver | WebRTCManager.cpp:141-231 | any event delivered to a manager object takes it where the machine's step goes, the order of walking a map apart, and brings in only new objects |
| ManagerRuns.Drive | WebRTCManager.cpp:141-231 | a manager object driven through any events ends where the machine's run does; so every peer connection is accounted for, every candidate delivered or queued once, every offer answered |
| Manager.SignalingContext.Connect | AMS_SFU_ConferenceSignaling.cpp:28-81 | a new client with its labels at zero and its callbacks attached, on a socket that is listened to and closed |
| Manager.SignalingContext.Disconnect | AMS_SFU_ConferenceSignaling.cpp:83-92 | nobody listens to the socket any more, it is closed if it was open, and the client is kept |
| Manager.SignalingContext.ShutdownClient | AMS_SFU_ConferenceSignaling.cpp:173-178 | detaches the client's callbacks and drops it |
| Manager.SignalingContext.Transmit | AMS_SFU_ConferenceSignalingCommand.cpp:26-37 | a command reaches the wire exactly when there is a client and the socket is open |
| Manager.SignalingContext.SendTakeCandidate | AMS_SFU_ConferenceSignalingCommand.cpp:120-134 | the label is taken whether or not the command gets out |
| LogNames.NamesApart | Log.cpp:48-60 | no backup is ever called like the log or its counter record |
| LogNames.BackupNameInjective | Log.cpp:155 | backups of different numbers have different names |
| LogNames.InfoApartIff | Log.cpp:50-60 | the counter record is the log itself if and only if the log's name ends in `.logInfo` |
| LogNames.InfoPathOfExtended | Log.cpp:50-60 | the record's extension replaces one of the file's own name |
| LogNames.InfoPathOfPlain | Log.cpp:50-60 | a file without one gets it appended, whatever its directories are called |
| LogRotation.LogStore.ReadLogInfo | Log.cpp:48-83 | reads the record, creating it empty if absent; bytes that are no record may read as anything |
| LogRotation.LogStore.WriteLogInfo | Log.cpp:85-103 | overwrites the record, never creates it |
| LogRotation.LogStore.BackupLogFile | Log.cpp:148-169 | whatever is on disk the log is moved aside whole under a numbered name and no other name touched; with log and record in order the whole file map is the specification's |
| LogRotation.LogStore.DbgLog | Log.cpp:491-516 | whatever is on disk the line ends the active file, after what was there unless that was over the limit, within three passes; with log and record in order the whole file map is the specification's |
| LogRotation.LogStore.DbgSignalSafe | Log.cpp:470-489 | whatever is on disk its text ends the active file, after at most one rotation; with log and record in order the whole file map is the specification's |
| LogRotation.LogStore.Append | Log.cpp:501-507 | the data comes last, after all that was there, and no other file changes |
| LogRotation.LogStore.LogAll | Log.cpp:470-516 | any sequence of calls takes the files where the specification's does, so that they show their history |
| LogRotation.Line | Log.cpp:34-46 | a line never exceeds the buffer, its terminator counted |
| LogRotation.LineIs | Log.cpp:34-46 | a line is the stamp in brackets, a space and the text, cut after 4095 characters |
| LogRotation.RotationAt | Log.cpp:148-169 | what one rotation leaves at every path |
| LogRotation.RotationShifts | Log.cpp:148-169 | a rotation moves the active file into the window under the next number and the 64th-last out |
| LogRotation.FilesShowHistory | Log.cpp:148-169 | after any calls with n rotations: count is min(n, 63), oldest max(0, n - 63), exactly those backups exist, backup k is the k-th generation, and no other path changed |
| LogRotation.HistoryStep | Log.cpp:470-516 | a call starts a new generation if and only if the active file holds more than 20 MiB, and else adds to it |
| LogRotation.WindowIs | Log.cpp:148-169 | after any calls, in plain numbers: which backups are there, what each and the record and the log hold |
| LogRotation.ReadBackIsSuffix | Log.cpp:470-516 | the backups listed by the record and the active file concatenate to a suffix of everything written, to all of it for up to 63 rotations |
| LogRotation.NothingLost | Log.cpp:470-516 | the generations and the active text are everything ever written |
| LogRotation.GenerationsAreBounded | Log.cpp:491-516 | through `dbg_log` alone no file ever exceeds 20 MiB and one line |
| LogRotation.DiskIsBounded | Log.cpp:491-516 | so at most 64 such files' text is on disk |
| Calendar.GmTime | Log.cpp:376 | a real date whose first second is the time rounded down to its day; which date that is, is `CalendarLaws.EpochIs` and `DayStep` |
| Calendar.DateOf | Log.cpp:271 | the date of a day, inverse to the day count of a date |
| Calendar.YearLength | Log.cpp:271 | the day count grows by a year's length from year to year |
| Calendar.ScanOfPrinted | Log.cpp:268 | a printed date, whatever follows it, scans back as itself |
| Calendar.FolderNameRoundTrips | Log.cpp:376-382 | for every time, its day folder's name, with or without the archive's extension, is dated with the start of that day |
| Calendar.FolderTimeAppend | Log.cpp:337 | a dated name is dated the same with anything but a digit after it, so an archive is dated like its folder |
| Calendar.SameFolderIff | Log.cpp:376-382 | two times share a folder if and only if they fall on the same day |
| CalendarLaws.EpochIs | Log.cpp:376 | the times of the first day are dated the first of January 1970 |
| CalendarLaws.DayStep | Log.cpp:376 | a day later the date is the calendar's next, by the lengths of the twelve months and the leap rule |
| CalendarLaws.TimeGmOverflows | Log.cpp:269-271 | time 0 is the start of 1970, a day more is 86400 seconds more, and twelve months more are a year more, for any numbers |
| CalendarLaws.TimeGmMonths | Log.cpp:269-271 | from the first of a month to the first of the next it is as many days as the month has |
| CalendarLaws.FolderNameIs | Log.cpp:382 | a folder is named after the date: year, dash, month and day in two digits each |
| CalendarLaws.FirstFolderIs | Log.cpp:376-382 | the folder of time 0 is `1970-01-01` |
| CalendarLaws.SignIsRead | Log.cpp:268 | a sign is read with the digits right after it |
| CalendarLaws.NoNumber | Log.cpp:268 | what begins with neither digit, sign nor white space is no number, nor is a sign without a digit right after it |
| Retention.LogFolder.HandleOldLog | Log.cpp:262-299 | the walk, in whatever order the directory is read, as a function of that order: each old folder met is packed, unless a folder has its archive's name, and removed |
| Retention.OnlyOldFoldersGo | Log.cpp:262-299 | for every order: no folder from before today is left, nothing changes but old folders and names of their archives, and nothing but those is new |
| Retention.LaterDaysStay | Log.cpp:262-299 | for every order: whatever is dated today or later, or not dated, is left unchanged |
| Retention.LaterFoldersStay | Log.cpp:262-299 | so is the folder printed for any time of today or later |
| Retention.KeptIff | Log.cpp:272-289 | for every order: what an old folder held is in its archive afterwards if and only if no folder has the archive's name or that folder is met first |
| Retention.IntactIff | Log.cpp:272-289 | for every order: nothing is lost if and only if each old folder survives the order and none is packed over another content |
| Retention.NeverLosesIff | Log.cpp:272-289 | nothing is lost in any order, neither what an old folder held nor any other entry, if and only if each old folder's archive name is free or taken by an archive of the same content |
| Retention.OldFoldersArePacked | Log.cpp:272-289 | the folder printed for a time before today is gone, and what it held is in its archive unless a folder had that name and is met later |
| Retention.LogFolder.RemoveTheOldestLog | Log.cpp:323-356 | removes an entry of minimal date among those dated before today, or nothing if there is none |
| Retention.RemovalShrinks | Log.cpp:348-356 | each removal with something to remove leaves one dated entry fewer |
| Retention.OldestGoes | Log.cpp:313-356 | with an entry named after an earlier day than today one is removed, of no later day than any entry so named |
| Retention.RepeatedRemovalsFinish | Log.cpp:302-359 | repeating it as often as there are dated entries leaves none |
| Retention.RepeatedRemovalsSpare | Log.cpp:302-359 | and never touches an undated entry or one of today or later |
| LineSplitter.ConsoleReader.Feed | main.cpp:38-47 | one read emits the non-empty lines of buffer and read together and keeps what follows the last newline |
| LineSplitter.ReadAll | main.cpp:36-50 | over a sequence of reads the loop emits and keeps what the reads give one after the other |
| LineSplitter.ChunkingDoesNotMatter | main.cpp:36-50 | lines and rest depend only on the concatenation of what the reads kept |
| LineSplitter.SplitInTwo | main.cpp:41-47 | splitting in two steps comes to splitting at once |
| LineSplitter.LinesRejoin | main.cpp:43-47 | lines and rest hold no newline and rejoin to the text |
| LineSplitter.LinesUnique | main.cpp:43-47 | and no other such lines and rest do |
| LineSplitter.InputIsKeptIff | main.cpp:36-50 | the input comes back from its lines and rest if and only if no read holds a NUL |
| LineSplitter.NonEmptyIs | main.cpp:43-47 | what is emitted of some lines is those that are not empty, in order |
| LineSplitter.UpToNulIs | main.cpp:40-41 | what is kept of a read is what comes before its first NUL, or all of it |
| StoredCallback.SynchronizedStoredCallback.SetCallback | include/rtc/utils.hpp:113-119 | a callback set takes the stored call, if there is one; no callback set leaves it stored |
| StoredCallback.SynchronizedStoredCallback.Run | include/rtc/utils.hpp:121-126 | a call reaches the callback in place or replaces the stored one |
| StoredCallback.DeliveriesAreFaithful | include/rtc/utils.hpp:104-129 | over every history: which calls reach which callback, if and only if; in order, none twice; what is stored is the one missed call still waiting, nothing while a callback is set |
| StoredCallback.LostOnlyToLaterMiss | include/rtc/utils.hpp:121-126 | a missed call is lost only to a later missed call before the next callback |
| LockOrder.CallIsOrdered | WebRTCManager.cpp:89-132 | every entry point and callback takes the mutexes in the order api, state, GStreamer, log, with a callback object's mutex before or after the state mutex as its part in the call demands |
| Threads.OrderedIsDisciplined | WebRTCManager.cpp:330-339 | code that keeps an order nests its locks and releases them all, on every path through it |
| Threads.SomeoneCanStep | GstManager.cpp:217-219 | if one order suits all threads, following who waits for whom ends at a thread that can go on |
| LockOrder.OwnMutexesNeverDeadlock | Log.cpp:373-395 | over the repository's own mutexes, for any number of threads, any calls and any schedule: an unfinished thread means some thread can step, and the schedule extends to one after which all have finished and hold nothing |
| LockOrder.NoDeadlock | include/rtc/utils.hpp:73-82 | with the callback objects' mutexes as well the same holds, unless one thread tears down what another is called back from |
| LockOrder.ClashEmbraces | WebRTCManager.cpp:495-499 | if one does, there are performances and a schedule after which the two hold what the other waits for |
| LockOrder.NeverDeadlocksIff | include/rtc/utils.hpp:73-82 | threads can always finish, whatever they perform and however they are scheduled, if and only if none tears down what another is called back from for the state mutex |
| LockUse.TakesIff | WebRTCManager.cpp:89-132 | which mutexes each entry point can take, over all performances of its code |

## Left out

- The manager's ten maps are grouped into four records (peers, requests, inbound, channels) and one map; their contents and every update are the source's, the grouping is not.
- Peer connections, tracks and data channels are identities with a log of calls, not shared pointers; a peer connection's identity is when it was made, for which stream, and whether it reports data channels.
- Retention.LogFolder.HandleOldLog: leaves today's folder alone, because compressing the numbered backups in it (Log.cpp:105-146) takes files away from under the rotation.
- LogRotation.LogStore.ReadLogInfo: what other bytes read as when they stand in the record's place is left open; the methods are proved for every outcome.
- LogRotation.FilesShowHistory: asks that none of the log's own names is in use at the start; two logs in one folder whose names differ only in their extension share a counter record and are not modelled together.
- The counter record is a record, not eight bytes, and its numbers are unbounded.
- StoredCallback.SynchronizedStoredCallback.SetCallback: is the `set` of the class; moving and copying a callback object, a callback that calls back into its own object, and the object's mutex are not modelled.
- LockOrder.NeverDeadlocksIff: the libraries' own mutexes other than those of callback objects, setting the callbacks of an object just made, joining the GStreamer thread and the signal handler are not modelled; a thread's code is what it does to the mutexes.
- Calendar.ScanOfPrinted: scanned numbers are unbounded.
- GStreamer pipelines, sample callbacks and buffers; the encoding, transport and negotiation inside the WebRTC library.
- Manager.WebRTCManager.HandleDataChannelText: takes the sender and text of a chat message; finding them in the message's JSON, and dropping one without them or of another event type, is not modelled.
- Reading JSON and SDP text: a message is its fields and its parsed media sections.
- Sending chat and binary messages and the chat date; asking for room information.
- Shell commands, `stat`, `mkdir` and `ftw`, other than as changes of a file map that succeed; the folder size that triggers a removal.
- The command line, environment variables, the signal handler and the forwarding API wrapper.
