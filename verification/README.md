# syncRTC: what its concurrent cores guarantee

syncRTC is a video-conferencing system: a Qt client, a realtime server that keeps meetings and
signalling, and a media server that forwards audio and video. This project models the parts whose
correctness depends on interleavings, on failures half-way through, or on exact accounting, and proves
what they guarantee for every run. `dafny verify dfyconfig.toml` checks all of it.

Each component is written twice where the source works by changing things: a class with the source's
fields, whose methods are proved against functions on values, and a state machine over those functions
in which every lock-protected section, and every strand segment between two awaits, is one step. Runs
are arbitrary feasible sequences of steps, so every theorem about a run is a statement about every
interleaving.

Media server

- `RoomPool`, `RoomPoolRuns`: the pool that runs the tasks of one meeting one after another and deals
  fairly between the meetings of a worker.
- `MediaTables`, `MediaRooms`: a room's members, publishers and consumer tracks, the session's
  negotiation flags, and the subscription mesh that every event leaves behind.
- `MediaRtp`: the forwarding threads against the room worker, down to the SSRCs on the wire.
- `MediaLogic`, `MediaPhases`, `MediaHandlers`, `MediaTurns`: the index of room objects and the handlers of
  all room events, which keep every room settled, as a whole and in pieces that interleave.
- `MediaLogicRuns`: reused ids, and connections that stop while their signals are queued.
- `UdsSession`: the media server's end of the connection to the realtime server.

Realtime server

- `Scheduler`, `PoolRuns`, `QueueRuns`: slow pools with reservations, and the serial command queue whose
  operations are suspended and resumed.
- `Registry`, `RegistryQueues`: creation and retirement of meeting queues while other threads submit, first
  with lists of commands and then with the queues themselves.
- `Membership`, `MembershipRuns`, `MembershipEffects`: join, resume, disconnect, expire, leave and end as
  operations made of separate storage calls that may fail; what they keep, and what each achieves.
- `Wakeup`: the queue that wakes the I/O thread, and its loop.
- `Framing`, `SendQueue`, `Sessions`: frames on the byte stream, partial writes, partial reads.
- `MediaClient`, `EpochRuns`: the connection to the media server, its epochs, and the table of signals.

Client

- `Recovery`: reconnection, login, resumption, and the gate in front of the socket.
- `ChatMerge`: merging pages of history into the message list.
- `PcmTimeline`: the microphone queue and the stamps of encoded frames.

`Histories` holds what several of them share. Some findings are stated as theorems rather than as the
simple property one would expect. An SSRC counter of 32 bits gives unique SSRCs for up to 2^32
allocations of a room, and with one more two publishers can meet under one SSRC on the wire
(`MediaRtp.OneSourcePerSsrc`, `MediaRtp.WrapCollides`). And the stamp of an encoded audio frame is always
that of its last sample, but not always that of its first; and although the comment beside the queue
promises that no sample is ever cut (audioencodeworker.cpp:42), one can be. Both happen in some run
(`PcmTimeline.SomeStampIsLate`, `PcmTimeline.SomeSampleIsTorn`), only ever in the first frame of a turn of
the encoder, and exactly when samples were dropped while bytes, or an odd number of them, were left in
the buffer (`PcmTimeline.TornAndLateExactly`); neither chunk sizes nor earlier drops matter otherwise, and
a sample is never cut as long as the microphone delivers whole ones (`PcmTimeline.WholeChunksNeverTorn`).

A third concerns a client's Offer that repeats an earlier one of the same session while an Offer of the
server is outstanding. The library gives its own up for it, and unless another negotiation is pending the
session then waits for an answer to an Offer that is gone, and its tracks are in no Offer
(`MediaRooms.RepeatedOfferStalls`). `MediaRooms.MediaSession.SetRemoteOffer` states exactly when; from then
on a request only stays pending (`RequestRenegotiation`), and an answer breaks the session
(`SetRemoteAnswer`). The realtime server gives every Offer a new signal number, which makes it a new
session, so that none is ever repeated (`MediaLogic.NewNumbersNeverRepeat`) and no session is ever stalled
(`MediaHandlers.ServeAll`).

Assumptions. Calls into libraries are decided by nondeterministic choices: a media call may throw, a
socket takes any part of what it is given or fails, a storage call may fail with or without having taken
effect. Clocks advance by steps. Meeting data is an immutable lookup, identifiers of meetings are
nonzero, and runs cover the life of one process. Freshly generated random values (resume tickets,
request ids) are modelled as values that were never used before. A connection keeps the user it first
authenticated (LogicSystem.cpp of the realtime server, lines 402-405), so the user is part of its identity.

## Model

| member | source | states |
|---|---|---|
| RoomPool.Worker.Post | syncRTC-server/MediaServer/include/service/RoomThreadPool.h:67-85 | a task is accepted unless the worker is stopping, goes to the end of its meeting's queue, and a meeting enters the ready list only if it is neither in it nor running |
| RoomPool.Worker.BeginTask | syncRTC-server/MediaServer/include/service/RoomThreadPool.h:126-132 | the oldest task of the first ready meeting is handed out; the accesses are defined in every consistent state |
| RoomPool.Worker.EndTask | syncRTC-server/MediaServer/include/service/RoomThreadPool.h:138-149 | a meeting with more tasks goes to the end of the ready list, one without leaves the table |
| RoomPool.Worker.RunUntilExit | syncRTC-server/MediaServer/include/service/RoomThreadPool.h:111-151 | once stopping, the worker's loop ends only after it has handed every accepted task of every meeting to the handler, in order |
| RoomPoolRuns.HandledInAcceptanceOrder | syncRTC-server/MediaServer/include/service/RoomThreadPool.h:67-151 | in every run the tasks handled for a meeting are a prefix of those accepted for it, and all of them when the worker has left its loop |
| RoomPoolRuns.TurnComesExactly | syncRTC-server/MediaServer/include/service/RoomThreadPool.h:76-148 | a meeting at position k of the ready list starts its next task at exactly the (k+1)-th following dequeue, whatever is posted meanwhile |
| RoomPoolRuns.WaitIsBounded | syncRTC-server/MediaServer/include/service/RoomThreadPool.h:126-148 | the j-th queued task of a meeting is started after at most j rounds over the meetings that are active on the worker |
| RoomPoolRuns.MeetingRunsAlone | syncRTC-server/MediaServer/include/service/RoomThreadPool.h:67-91 | in every run of a fresh pool, two workers never hold or run tasks of the same meeting |
| RoomPoolRuns.DestructionDrains | syncRTC-server/MediaServer/include/service/RoomThreadPool.h:45-62 | in every run of a fresh pool, a meeting's tasks are handled by its own worker only and as a prefix of those accepted; when all workers have exited, every accepted task of every meeting has been handled |
| MediaTables.JoinKeepsMesh | syncRTC-server/MediaServer/src/media/MediaRoom.cpp:37-45 | a new member without tracks leaves the subscription mesh intact |
| MediaTables.DepartureKeepsMesh | syncRTC-server/MediaServer/src/media/MediaRoom.cpp:47-73 | when a member leaves and the others forget it, no track of a departed instance remains and the mesh of the rest is complete |
| MediaTables.RegisterStartsMesh | syncRTC-server/MediaServer/src/media/MediaRoom.cpp:109-173 | once the requests made under the room lock are carried out, the mesh is complete again, for any requests that name only current registered members and miss none that is due (MediaRooms.MediaRoom.RegisterLocked makes such) |
| MediaTables.CarryOut | syncRTC-server/MediaServer/src/media/MediaRoom.cpp:186-189 | adding a requested track takes it off what the mesh lacks and makes nothing stale |
| MediaTables.DropReceiver | syncRTC-server/MediaServer/src/media/MediaRoom.cpp:190-197 | removing the receiver for which a track could not be added keeps the mesh of the others on its way |
| MediaRooms.MediaSession.SetRemoteOffer | syncRTC-server/MediaServer/src/media/MediaSession.cpp:227-247 | after the initial or a repeated Offer no negotiation is pending, and an Offer of its own is outstanding exactly if one was pending, with every track; if the session was waiting and nothing was pending, and only then, it is stalled: the Offer it waits for is given up and covers no track any more |
| MediaRooms.MediaSession.SetRemoteAnswer | syncRTC-server/MediaServer/src/media/MediaSession.cpp:249-285 | an answer is applied only while an Offer is outstanding; a pending request becomes the one next Offer, which has every track |
| MediaRooms.MediaSession.RequestRenegotiation | syncRTC-server/MediaServer/src/media/MediaSession.cpp:333-359 | an idle session makes an Offer with every consumer track, unless the library throws; before the initial answer or while one is awaited no Offer is made and the request stays pending |
| MediaRooms.RepeatedOfferStalls | syncRTC-server/MediaServer/src/media/MediaSession.cpp:227-247 | an Offer, a track, a renegotiation and the Offer again: the session is stalled, and its track is in no Offer that is outstanding or pending |
| MediaRooms.MediaSession.AddOutgoingTrack | syncRTC-server/MediaServer/src/media/MediaSession.cpp:292-324 | a track is added once per publisher and media type; a failure leaves the tracks as they were |
| MediaRooms.MediaSession.CopyTrack | syncRTC-server/MediaServer/src/media/MediaSession.cpp:361-394 | a packet gets a track only of its own publisher instance |
| MediaRooms.MediaRoom.AddPeer | syncRTC-server/MediaServer/src/media/MediaRoom.cpp:37-45 | the member is entered under its uid, over an earlier one if there is one; if there was none, a settled room stays settled |
| MediaRooms.MediaRoom.RemovePeer | syncRTC-server/MediaServer/src/media/MediaRoom.cpp:47-73 | a removal for another instance than the current one changes nothing; otherwise member, publications and the others' tracks of it go together; a settled room stays settled, and one in which only this member's session was broken becomes settled |
| MediaRooms.MediaRoom.ForwardTargets | syncRTC-server/MediaServer/src/media/MediaRoom.cpp:220-240 | a packet goes to the sessions of all other members, and to nobody when its source is not the current instance of its uid |
| MediaRooms.MediaRoom.RegisterLocked | syncRTC-server/MediaServer/src/media/MediaRoom.cpp:109-173 | under the room lock: one SSRC per publisher and media type, and requests for the tracks now due |
| MediaRooms.MediaRoom.AddRequestedTracks | syncRTC-server/MediaServer/src/media/MediaRoom.cpp:175-198 | whichever additions fail, the remaining members form a complete mesh; exactly members whose session broke are gone |
| MediaRooms.MediaRoom.Renegotiate | syncRTC-server/MediaServer/src/media/MediaRoom.cpp:200-217 | afterwards every remaining session is negotiating properly and all its tracks are covered |
| MediaRooms.MediaRoom.RegisterPublisherTrack | syncRTC-server/MediaServer/src/media/MediaRoom.cpp:105-218 | a settled room stays settled whatever the library refuses, the tables are those of the registration restricted to the members that remain, and a member is gone if and only if its session broke |
| MediaRtp.OneSourcePerSsrc | syncRTC-server/MediaServer/src/media/MediaRoom.cpp:220-263 | in every interleaving of forwarding with joining, leaving and registering, packets under one SSRC come from one publisher instance and carry one media type, for up to 2^32 allocations |
| MediaRtp.CollideIff | syncRTC-server/MediaServer/src/media/MediaRoom.cpp:123 | two allocations get the same SSRC exactly when they are a multiple of 2^32 apart |
| MediaRtp.WrapReusesFirst | syncRTC-server/MediaServer/src/media/MediaRoom.cpp:123 | whenever 2^32 allocations have been made, the next one repeats the first SSRC, which is already owned |
| MediaRtp.AnyNumberOfGrants | syncRTC-server/MediaServer/src/media/MediaRoom.cpp:105-132 | every number of allocations is reached in some run |
| MediaRtp.WrapCollides | syncRTC-server/MediaServer/src/media/MediaRoom.cpp:123 | in some run with 2^32 + 1 allocations, packets of two different publisher instances are on the wire under one SSRC, so the bound of OneSourcePerSsrc is exact |
| MediaRtp.StepKeepsPackets | syncRTC-server/MediaServer/src/media/MediaSession.cpp:361-432 | a packet in flight carries only an SSRC owned by its source, although lookup, track snapshot and send are separate steps |
| MediaHandlers.LogicSystem.HandleOffer | syncRTC-server/MediaServer/src/service/LogicSystem.cpp:230-308 | an Offer that is carried out leaves a session with its own connection and signal number, the one there was if both were these, and a new instance otherwise; a failure leaves neither a session nor an empty room; every room stays settled |
| MediaHandlers.LogicSystem.HandleRemote | syncRTC-server/MediaServer/src/service/LogicSystem.cpp:310-365 | answers and candidates reach a session only from its own connection under its own signal number, and otherwise change nothing, neither in the index nor in the session; a failure removes that session and leaves its room settled |
| MediaHandlers.LogicSystem.HandleLeave | syncRTC-server/MediaServer/src/service/LogicSystem.cpp:367-385 | a leave removes exactly the session whose connection and signal number it has, and with any other number changes nothing; every room stays settled |
| MediaHandlers.LogicSystem.HandlePublisherTrackReady | syncRTC-server/MediaServer/src/service/LogicSystem.cpp:179-204 | a notification about an instance that is not the current one, or whose connection has stopped, changes nothing; otherwise exactly the members whose session broke during the registration leave, and every room is settled |
| MediaHandlers.LogicSystem.HandleSignalDisconnected | syncRTC-server/MediaServer/src/service/LogicSystem.cpp:387-406 | all sessions of the connection in this meeting, and no others, are removed, and every room stays settled |
| MediaHandlers.LogicSystem.RemoveSession | syncRTC-server/MediaServer/src/service/LogicSystem.cpp:408-425 | a session of an older instance is not removed in place of a newer one, a room whose member's session has broken becomes settled, and an empty room leaves the index |
| MediaHandlers.LogicSystem.HandleRoomEvent | syncRTC-server/MediaServer/src/service/LogicSystem.cpp:90-130 | whatever the event and whatever the library refuses, rooms settled before are settled afterwards, and the members change as the handlers on values say |
| MediaLogic.OfferOwns | syncRTC-server/MediaServer/src/service/LogicSystem.cpp:230-308 | what an Offer makes of the members, in terms of connection, signal number and instance: its session is the former one only if both were the same already, and nobody else's changes |
| MediaLogic.WhoLeaves | syncRTC-server/MediaServer/src/service/LogicSystem.cpp:90-130 | a member goes exactly by a leave of its own connection and signal number, a refusal of its Offer, answer or candidate, the breaking of its session in a registration, or the end of its connection |
| MediaLogic.WhoEnters | syncRTC-server/MediaServer/src/service/LogicSystem.cpp:230-308 | somebody becomes a member exactly by an Offer of a connection that has not stopped and that the library accepts |
| MediaHandlers.ServeAll | syncRTC-server/MediaServer/src/service/LogicSystem.cpp:179-425 | after every sequence of joins, answers, candidates, registrations, leaves and disconnects, of any meetings, with any failures, every indexed room has a complete subscription mesh without stale tracks and no empty room is indexed; every member's session has the connection and signal number of the last Offer for its uid; every consumer track is in an Offer made after it or in a pending one, but for stalled sessions, of which there are none unless an Offer was repeated |
| MediaLogic.SessionsAreOfLastOffer | syncRTC-server/MediaServer/src/service/LogicSystem.cpp:230-308 | after any sequence of events, dropped or not, a member's session is that of the last Offer for its uid which came over a connection that had not stopped; no session of an earlier negotiation is left in its place |
| MediaLogic.NewNumbersNeverRepeat | syncRTC-server/RealtimeServer/src/service/LogicSystem.cpp:1834-1841 | if no signal number is offered twice for a uid of a meeting, no Offer repeats an earlier one of a session that still exists, in any sequence of events |
| MediaHandlers.LogicSystem.BeginEvent | syncRTC-server/MediaServer/src/service/LogicSystem.cpp:179-406 | a worker begins an event beside the half-done handlers of other meetings: whether it is executed is decided now, and only its own meeting is touched |
| MediaHandlers.LogicSystem.Continue | syncRTC-server/MediaServer/src/service/LogicSystem.cpp:179-425 | each step of a handler, be it a library call or the removal of the member it was refused for, takes its room to the state the next one needs, brings the handler nearer to its end, and leaves the rooms of other meetings as their handlers left them |
| MediaHandlers.LogicSystem.Complete | syncRTC-server/MediaServer/src/service/LogicSystem.cpp:179-425 | every handler comes to its end |
| MediaPhases.MoveExplains | syncRTC-server/MediaServer/src/service/LogicSystem.cpp:230-425 | the steps of a handler add up to the effect of the whole event on the members of its room |
| MediaTurns.ServeInterleaved | syncRTC-server/MediaServer/src/service/LogicSystem.cpp:67-425 | for every sequence of turns each turn has its effect: an arrival at a meeting without a handler begins, any other waits, and a running handler goes on; a room whose handler is not running is then settled, not empty, and has exactly the members that the events begun at its meeting give when each is handled whole, in the order in which they began; each of them under the connection and signal number of the last such Offer for its uid; no instance number is issued twice |
| MediaTurns.RunTracks | syncRTC-server/MediaServer/src/service/LogicSystem.cpp:179-425 | every interleaved run of the workers can be read as whole events, for each meeting one after the other |
| MediaTurns.TakeTurn | syncRTC-server/MediaServer/src/service/LogicSystem.cpp:67-88 | one turn on the room objects is one step of the run, whichever handlers are half-way through |
| MediaLogicRuns.GoneConnectionsOwnNothing | syncRTC-server/MediaServer/src/service/LogicSystem.cpp:67-88 | once the disconnect events of a connection have been executed, no room holds a session of it, whatever was queued or in flight when it stopped; no empty room is indexed |
| MediaLogicRuns.NoDisconnectForgotten | syncRTC-server/MediaServer/src/service/LogicSystem.cpp:67-88 | in every run, once a connection has posted its disconnect events and the queues of the meetings it used have been worked off, every one of these events has been executed, none dropped, and no room holds a session of it |
| MediaLogicRuns.CleanedStays | syncRTC-server/MediaServer/src/service/LogicSystem.cpp:206-308 | once cleaned up, a connection owns nothing for the rest of every run |
| MediaLogicRuns.DepartedStaysOut | syncRTC-server/MediaServer/src/service/LogicSystem.cpp:179-204 | an instance that has left never comes back |
| UdsSession.Session.Send | syncRTC-server/MediaServer/src/net/Session.cpp:132-165 | a frame is accepted exactly when it fits the byte and frame limits and the connection is not stopped; one that does not fit stops it |
| UdsSession.Session.SendFrame | syncRTC-server/MediaServer/src/net/Session.cpp:167-197 | while others send and stop, whole frames are written in order of acceptance, and the counters stay exact |
| UdsSession.Session.Stop | syncRTC-server/MediaServer/src/net/Session.cpp:199-215 | what is written remains a prefix of the accepted frames, and the accounts are emptied |
| UdsSession.ReadsWhatWasSent | syncRTC-server/MediaServer/src/net/Session.cpp:108-130 | this reader, which checks no length, gets exactly the payloads the other end sent |
| Scheduler.SlowPool.Submit | syncRTC-server/RealtimeServer/src/service/BusinessScheduler.cpp:23-31 | a task is refused only when the pool is stopping or full |
| Scheduler.BusinessScheduler.Reserve | syncRTC-server/RealtimeServer/src/service/BusinessScheduler.cpp:61-68 | granted exactly when the bytes fit and, once the capacity is reached, only to terminal commands; the counters are exact |
| Scheduler.SerialCommandQueue.Submit | syncRTC-server/RealtimeServer/src/service/BusinessScheduler.cpp:84-97 | accepted exactly when the bytes fit both the queue and the process, and, once either capacity is reached, only if the command is terminal; then it is the last job of the strand, and otherwise nothing changes; the subtractions never wrap |
| Scheduler.SerialCommandQueue.RunJob | syncRTC-server/RealtimeServer/src/service/BusinessScheduler.cpp:92-164 | what each job of the strand does: take in a command, start the next operation, or continue the one that awaits it |
| PoolRuns.ReservationSuffices | syncRTC-server/RealtimeServer/src/service/BusinessScheduler.cpp:11-50 | in every run tasks never exceed reservations nor these the capacity; an operation with a reservation is not refused before the pool stops, and nobody holds one while waiting for another operation |
| PoolRuns.TasksFit | syncRTC-server/RealtimeServer/include/service/BusinessScheduler.h:83-103 | the tasks waiting or executing fit into the reservations of the operations they belong to, leaving one for every other holder |
| QueueRuns.RunsInAcceptanceOrder | syncRTC-server/RealtimeServer/src/service/BusinessScheduler.cpp:84-125 | commands start and finish in the order of acceptance, one at a time, and when the strand is empty and idle all have been carried out |
| QueueRuns.OnlyTheAwaitedResumes | syncRTC-server/RealtimeServer/src/service/BusinessScheduler.cpp:145-164 | a completion continues the operation exactly when it belongs to the wait it is in; late, foreign and repeated ones change nothing |
| QueueRuns.CountersExact | syncRTC-server/RealtimeServer/src/service/BusinessScheduler.cpp:88-116 | the counters are exactly the accepted commands that have not ended, and their bytes, within 4 MiB |
| QueueRuns.CapacityIsForOrdinary | syncRTC-server/RealtimeServer/src/service/BusinessScheduler.cpp:84-116 | in every run there are never more unfinished ordinary commands than the capacity; an ordinary command is taken exactly while fewer commands are unfinished and its bytes fit, a terminal one whenever its bytes fit |
| Registry.LogicDispatch.SubmitRoom | syncRTC-server/RealtimeServer/src/service/LogicDispatch.cpp:75-99 | an accepted command goes to the end of the list of the room registered for its meeting, which stays registered, or to a new room with nothing else in it; other rooms are as before, and a room created for a refused command does not stay registered |
| Registry.LogicDispatch.Retire | syncRTC-server/RealtimeServer/src/service/LogicDispatch.cpp:84-91 | a meeting loses its room exactly if this is still the registered one and nothing was submitted since; no work is lost and other rooms stay as they are |
| Registry.OrderSurvivesRetirement | syncRTC-server/RealtimeServer/src/service/LogicDispatch.cpp:75-99 | across retirement and re-creation the commands of a meeting start in acceptance order, each after all earlier ones have finished, and no two rooms of a meeting have work or members |
| Registry.NoRoomIsDropped | syncRTC-server/RealtimeServer/src/service/LogicDispatch.cpp:84-91 | a room with members or pending work stays registered whatever step is taken |
| RegistryQueues.Simulates | syncRTC-server/RealtimeServer/src/service/LogicDispatch.cpp:75-99 | every step of the registry with the queues of its rooms inside is the step of the registry it stands for, or changes nothing the registry sees: a queue is, from outside, its list of unfinished commands |
| RegistryQueues.OrderWithQueues | syncRTC-server/RealtimeServer/src/service/BusinessScheduler.cpp:84-125 | in every run of the registry and the actual queues, across retirement and re-creation, the commands of a meeting start in acceptance order, one at a time and each after the end of all earlier ones; two rooms of one meeting are never both in use, and a meeting without a room has nothing left to do |
| Membership.UserTable.ReserveUser | syncRTC-server/RealtimeServer/src/service/LogicDispatch.cpp:222-229 | a user who is in one meeting or joining it is not admitted to another |
| Membership.UserTable.FinishJoin | syncRTC-server/RealtimeServer/src/service/LogicDispatch.cpp:230-238 | the reservation is given back, and the entry goes when nobody joined and nobody is joining |
| Membership.UserTable.ReleaseRoomUsers | syncRTC-server/RealtimeServer/src/service/LogicDispatch.cpp:245-250 | exactly the entries of the meeting are removed |
| Membership.MeetingRoom.Bind | syncRTC-server/RealtimeServer/src/service/LogicSystem.cpp:784-814 | the membership, the sessions and the connection to be detached, as the specification of the runs has them |
| Membership.MeetingRoom.Drop | syncRTC-server/RealtimeServer/src/service/LogicSystem.cpp:1018-1050 | the connection leaves the sessions, its grace period starts, and the member is to be marked exactly when the connection was there and no other of the user is |
| MembershipRuns.BoundConnectionsAreMembers | syncRTC-server/RealtimeServer/src/service/LogicSystem.cpp:741-814 | in every run a connection with a meeting is in its sessions, is its user's recorded connection, is not marked as reconnecting, and holds the user's place, unless its own leave or disconnect is just taking it out |
| MembershipRuns.OneConnectionPerUser | syncRTC-server/RealtimeServer/src/service/LogicDispatch.cpp:187-250 | over all meetings a user has at most one connection that is in one |
| MembershipRuns.SupersededIsRetired | syncRTC-server/RealtimeServer/src/service/LogicSystem.cpp:785-806 | a takeover detaches the former connection in the same segment in which the new one is bound |
| MembershipRuns.LateDisconnectChangesNothing | syncRTC-server/RealtimeServer/src/service/LogicSystem.cpp:998-1048 | a superseded connection is never in a meeting again, and its disconnect, however late, changes nothing |
| MembershipRuns.ExpiryEvictsOnlyLapsed | syncRTC-server/RealtimeServer/src/service/LogicSystem.cpp:1134-1183 | an expiry that has passed its checks is for a user without a connection in the meeting whose grace period is over |
| MembershipRuns.NeverOverfull | syncRTC-server/RealtimeServer/src/service/LogicSystem.cpp:702-746 | the stored member set never exceeds the limit, although check and insertion are separate calls; that a join which binds is counted in it is MembershipEffects.OperationsTakeEffect |
| MembershipRuns.ResumeAccepted | syncRTC-server/RealtimeServer/src/service/LogicSystem.cpp:655-676 | an accepted resume quoted the current generation, or an older one repeating the last accepted request; the generation rises by one exactly for a takeover by another connection |
| MembershipRuns.GenerationNeverFalls | syncRTC-server/RealtimeServer/src/service/LogicSystem.cpp:784-803 | over a membership that lasts the stored generation never falls |
| MembershipRuns.ReplacedTicketStaysGone | syncRTC-server/RealtimeServer/src/service/LogicSystem.cpp:784-803 | a resume ticket that has been replaced is in no stored membership ever again |
| MembershipRuns.JoinKeepsInv | syncRTC-server/RealtimeServer/src/service/LogicSystem.cpp:599-814 | every storage outcome at every point of a join or resume keeps the membership invariant; what the join achieves is MembershipEffects.OperationsTakeEffect |
| MembershipRuns.DisconnectKeepsInv | syncRTC-server/RealtimeServer/src/service/LogicSystem.cpp:998-1113 | so does every one of a disconnect |
| MembershipRuns.LeaveKeepsInv | syncRTC-server/RealtimeServer/src/service/LogicSystem.cpp:1212-1317 | and of a leave |
| MembershipRuns.EndKeepsInv | syncRTC-server/RealtimeServer/src/service/LogicSystem.cpp:1319-1431 | and of the end of a meeting |
| MembershipRuns.ExpireKeepsInv | syncRTC-server/RealtimeServer/src/service/LogicSystem.cpp:1134-1210 | and of an expiry |
| MembershipEffects.OperationsTakeEffect | syncRTC-server/RealtimeServer/src/service/LogicSystem.cpp:599-1431 | in every run, whatever storage calls fail and whatever other meetings do meanwhile, each operation has done to store, members and connections exactly what its stage says, and ends with its whole effect: a join that binds was let in for a free place or a resume, has its user in the roster, active and bound, and stands in for the superseded connection only; one that fails leaves no membership; a leave or expiry ends with the user out of the roster and of the members, a disconnect with the grace period running, the end of a meeting with nobody left |
| MembershipEffects.Begins | syncRTC-server/RealtimeServer/src/service/LogicDispatch.cpp:154-200 | exactly when an operation takes its meeting: a join unless its user is placed elsewhere, a leave or end unless another connection of the user is in the meeting, a disconnect if the connection still has a meeting, an expiry unless the grace period runs; and what is done at once |
| MembershipEffects.NewUserGetsIn | syncRTC-server/RealtimeServer/src/service/LogicSystem.cpp:702-814 | in every run the join of a user who is not in the meeting, with a free place and storage calls that succeed, is never turned away; when it binds, the stored roster is the former one and this user, who is active and in the meeting on this connection |
| MembershipEffects.NobodyIsHeldBack | syncRTC-server/RealtimeServer/src/service/LogicDispatch.cpp:222-250 | in every run whoever has an entry in the table of users is a member of its meeting or just joining it, so a failed join or a departure never keeps a user out of other meetings |
| MembershipEffects.CommandIsDone | syncRTC-server/RealtimeServer/src/service/LogicDispatch.cpp:142-151 | whichever way an operation ends, the connection that asked for it can send its next command |
| MembershipEffects.AnswersGetLost | syncRTC-server/RealtimeServer/src/service/LogicSystem.cpp:743-771 | the runs cover storage calls whose answer is lost: such a call leaves the store as the answered one would, or as it was, at every call that changes it |
| Wakeup.IoWakeup.Notify | syncRTC-server/RealtimeServer/src/net/IoWakeup.cpp:26-37 | a token is queued once however often it is notified, and refused once the server stops |
| Wakeup.IoWakeup.Take | syncRTC-server/RealtimeServer/src/net/IoWakeup.cpp:39-55 | at most 64 tokens are taken from the front, and the descriptor stays readable exactly while some are left |
| Wakeup.NoLostWakeup | syncRTC-server/RealtimeServer/src/net/CServer.cpp:165-222 | while the server is not stopping, a connection with unwritten frames or a close request is queued, taken, being handled or watched for writability, and the loop never waits without being woken for it; tokens leave the queue in order of notification |
| Wakeup.LinkChanges | syncRTC-server/RealtimeServer/src/net/CServer.cpp:165-222 | whatever step is taken, the unwritten frames of a connection grow by those accepted and shrink by those written, a request to close it stays, watching ends only when there is nothing left to write, and only the loop removes it |
| Framing.RoundTrip | syncRTC-server/RealtimeServer/src/net/Session.cpp:270-305 | whatever the chunks, reading a stream of encoded frames yields exactly these frames and keeps nothing back |
| Framing.ReadWasSent | syncRTC-server/RealtimeServer/src/net/Session.cpp:270-305 | the inverse, for any bytes at all: the frames read may be sent over this link, and encoded again they are exactly the bytes consumed |
| Framing.GivesUpExactly | syncRTC-server/RealtimeServer/src/net/Session.cpp:270-305 | the reader gives up exactly at four bytes with which no frame that may be sent begins; otherwise what it keeps is no complete frame |
| Framing.PrefixReads | syncRTC-client/rtc_client/core/src/network/tcpmgr.cpp:78-100 | of a stream still arriving the reader has a prefix of the frames, the rest is shorter than the next frame, and nothing is refused |
| Framing.ParseResumes | syncRTC-client/rtc_client/core/src/network/tcpmgr.cpp:82-89 | keeping the incomplete rest and parsing on equals parsing everything at once |
| Framing.HeaderReadsBack | syncRTC-server/RealtimeServer/src/net/Session.cpp:126-133 | the big-endian header that is written is the one that is read |
| SendQueue.WrittenKeeps | syncRTC-server/RealtimeServer/src/net/Session.cpp:170-187 | after any partial write the bytes on the wire and those still queued are together the accepted frames, and the counters are exact |
| Sessions.Session.Send | syncRTC-server/RealtimeServer/src/net/Session.cpp:119-155 | accepted exactly when it fits 4 MiB and 1024 frames on an open connection; otherwise the connection is closed, never a frame dropped silently |
| Sessions.Session.HandleWrite | syncRTC-server/RealtimeServer/src/net/Session.cpp:157-194 | while others submit and close, at most 64 KiB are written and the wire stays a prefix of the accepted frames |
| Sessions.Session.ParseFrames | syncRTC-server/RealtimeServer/src/net/Session.cpp:270-305 | all complete frames are taken out in order, heartbeats apart, and at most one reply per heartbeat enters the queue; an internal id, a bad heartbeat or a reply that does not fit ends it |
| Sessions.PassedOnInPlace | syncRTC-server/RealtimeServer/src/net/Session.cpp:288-300 | whatever surrounds it, a heartbeat gets no further and any other frame is passed on once, in its place |
| Sessions.Session.HandleHeartbeat | syncRTC-server/RealtimeServer/src/net/Session.cpp:227-268 | unless the connection is closed over it, a heartbeat is answered exactly if it is plain and none was numbered yet, or numbered later than all before; answered numbers rise |
| Sessions.Session.HandleRead | syncRTC-server/RealtimeServer/src/net/Session.cpp:87-117 | until the connection is closed, everything that has arrived has been taken apart |
| Sessions.Session.Close | syncRTC-server/RealtimeServer/src/net/Session.cpp:202-211 | queues and counters are emptied and nothing more is written |
| Sessions.ClientReads | syncRTC-client/rtc_client/core/src/network/tcpmgr.cpp:78-100 | what the client reads, in whatever chunks, is a prefix of what the server accepted for it |
| MediaClient.MediaSignalClient.Send | syncRTC-server/RealtimeServer/src/net/MediaSignalClient.cpp:59-88 | a frame is accepted only under the epoch of the open connection and within the limits; one that does not fit gives the epoch up |
| MediaClient.MediaSignalClient.BecomeConnected | syncRTC-server/RealtimeServer/src/net/MediaSignalClient.cpp:120-131 | a new epoch begins with an empty queue and is told to the business side |
| MediaClient.MediaSignalClient.Disconnect | syncRTC-server/RealtimeServer/src/net/MediaSignalClient.cpp:133-162 | the epoch ends with its queue, its end is told once, and failed attempts back off from 1 s to 10 s |
| MediaClient.MediaSignalClient.Tick | syncRTC-server/RealtimeServer/src/net/MediaSignalClient.cpp:187-204 | an epoch that was given up is ended and told, an attempt past its deadline is dropped, one in time is left alone, and when it is time a new attempt is made |
| MediaClient.MediaSignalClient.Receive | syncRTC-server/RealtimeServer/src/net/MediaSignalClient.cpp:233-258 | exactly the complete messages are passed on, under the epoch; an impossible length ends it |
| MediaClient.MediaSignalClient.WritePiece | syncRTC-server/RealtimeServer/src/net/MediaSignalClient.cpp:259-285 | with business threads sending and invalidating meanwhile, what the socket of an epoch has taken is a prefix of what was accepted under it; a failing write ends the epoch with one Disconnected, and keeps of the record what was accepted and written |
| MediaClient.MediaSignalClient.HandleEvents | syncRTC-server/RealtimeServer/src/net/MediaSignalClient.cpp:214-287 | in whatever order events come, and whatever business threads send and invalidate between the locked sections, callbacks are only ever appended and stay in blocks; a socket that becomes usable begins the next epoch, one that does not is dropped, and a broken connection ends its epoch |
| MediaClient.CallbackKeepsBlocks | syncRTC-server/RealtimeServer/src/net/MediaSignalClient.cpp:120-162 | a callback that fits extends Connected, Message, Disconnected blocks of ever larger epochs |
| MediaClient.InItsBlock | syncRTC-server/RealtimeServer/src/net/MediaSignalClient.cpp:243-257 | every message and every end follows the beginning of its own epoch with only messages of that epoch between |
| MediaClient.EpochsRise | syncRTC-server/RealtimeServer/src/net/MediaSignalClient.cpp:124-130 | every beginning has a larger epoch than everything before it |
| EpochRuns.SignalTable.AcceptLineEvent | syncRTC-server/RealtimeServer/src/service/LogicDispatch.cpp:292-303 | news about the connection clears the table and the sessions' own numbers; old news changes nothing |
| EpochRuns.NoResponseOfAnOldEpoch | syncRTC-server/RealtimeServer/src/service/LogicDispatch.cpp:256-328 | the table holds only associations of its current epoch, which is the client's once events are handled; a response reaches a session only under the epoch of its offer |
| EpochRuns.NewsMeans | syncRTC-server/RealtimeServer/src/service/LogicDispatch.cpp:292-328 | what each message of the media connection does: later news and the end of this connection clear the table, older news do nothing, and a response is queued exactly if it came over the connection that is up for a signal registered under it |
| EpochRuns.OfferIsAnswered | syncRTC-server/RealtimeServer/src/service/LogicSystem.cpp:1834-1850 | whatever went before, over a connection that begins an offer is registered and the response to it is handed over |
| EpochRuns.DeliveredIsCurrent | syncRTC-server/RealtimeServer/src/service/LogicSystem.cpp:2004-2015 | what is handed over was received under the epoch that is connected now, for the connection whose offer registered the signal |
| EpochRuns.CheckPasses | syncRTC-server/RealtimeServer/src/service/LogicSystem.cpp:2004-2015 | a response passes the check exactly when its signal is registered as it was found, is the session's own number, and its epoch is the table's and the connected one |
| EpochRuns.DeliveredWasOwn | syncRTC-server/RealtimeServer/src/service/LogicSystem.cpp:2004-2015 | in every run, whatever has been handed over to a session was, when it was checked, for the signal number the session had then, registered under the epoch connected then |
| Recovery.BusinessOnlyWhenRestored | syncRTC-client/rtc_client/core/src/network/tcpmgr.cpp:177-198 | a business frame is written only after the login was accepted on that generation and a kept meeting was joined or resumed on it |
| Recovery.RecoveryKeepsMoving | syncRTC-client/rtc_client/core/src/controllers/meeting/recoverycontroller.cpp:72-103 | every recovering state has the timer armed that gets it on, and the budget timer runs in exactly these states |
| Recovery.BudgetIsNotExtended | syncRTC-client/rtc_client/core/src/controllers/meeting/recoverycontroller.cpp:75-83 | nothing that happens while recovering restarts the budget |
| Recovery.RecoveryEnds | syncRTC-client/rtc_client/core/src/controllers/meeting/recoverycontroller.cpp:12-24 | no stretch of recovering states lasts 45 seconds, whatever is lost, refused or answered in it, when the timer fires at its time |
| Recovery.Losses | syncRTC-client/rtc_client/core/src/controllers/meeting/recoverycontroller.cpp:72-96 | a lost connection in normal operation begins recovery with a new request id and the whole budget, keeping the meeting; while recovering it is tried again with request, meeting and budget as they are |
| Recovery.EndsOnlyFor | syncRTC-client/rtc_client/core/src/controllers/meeting/recoverycontroller.cpp:72-164 | in every run recovery fails only by a refused login, an answer to the resumption that does not fit, or the end of the budget, and gives a kept meeting up only by one of these, a refused resumption, missing support, or the user |
| Recovery.SentKeepsInv | syncRTC-client/rtc_client/core/src/network/tcpmgr.cpp:44-50 | a send that loses the connection, and so calls back into the controller in the middle of an event, keeps the invariant |
| Recovery.RecoveryController.Retry | syncRTC-client/rtc_client/core/src/controllers/meeting/recoverycontroller.cpp:86-96 | the connection is closed and the retry timer armed, once |
| Recovery.RecoveryController.Disconnected | syncRTC-client/rtc_client/core/src/controllers/meeting/recoverycontroller.cpp:72-84 | recovery starts with a new request id and a full budget, or goes on with the old ones |
| Recovery.RecoveryController.HandleAuthReply | syncRTC-client/rtc_client/core/src/controllers/meeting/recoverycontroller.cpp:105-141 | a temporary error leads to Waiting with the retry timer armed and meeting, request and budget kept; a refused login to Failed without timers and meeting; success to Resuming for a kept meeting that can be resumed, and otherwise to Ready without one |
| Recovery.RecoveryController.HandleResumeReply | syncRTC-client/rtc_client/core/src/controllers/meeting/recoverycontroller.cpp:142-164 | a temporary error is tried again with the meeting kept; a matching success whose snapshot fits leads to Ready with the meeting on this connection, one that does not fit to Failed; a refusal to Ready without the meeting; replies to other requests change nothing |
| ChatMerge.MergeMeaning | syncRTC-client/rtc_client/core/src/controllers/meeting/chatcontroller.cpp:433-462 | a merged list is the confirmed messages in strictly ascending order, the page's version replacing older ones, followed by the messages still waiting in their old order |
| ChatMerge.MergeKeepsDistinct | syncRTC-client/rtc_client/core/src/controllers/meeting/chatcontroller.cpp:441-451 | no message appears twice, by client id or by server id |
| ChatMerge.MergeIsIdempotent | syncRTC-client/rtc_client/core/src/controllers/meeting/chatcontroller.cpp:433-462 | merging a page again changes nothing |
| ChatMerge.MergesCommute | syncRTC-client/rtc_client/core/src/controllers/meeting/chatcontroller.cpp:433-462 | pages that agree give the same list in either order |
| ChatMerge.SortedShape | syncRTC-client/rtc_client/core/src/controllers/meeting/chatcontroller.cpp:453-458 | the stable sort with this comparator puts confirmed messages first, strictly ascending, and keeps the others in order |
| ChatMerge.ChatController.MergeHistoryMessages | syncRTC-client/rtc_client/core/src/controllers/meeting/chatcontroller.cpp:433-462 | the loop computes the merge and counts exactly the messages that are new |
| ChatMerge.ChatController.FindMessage | syncRTC-client/rtc_client/core/src/controllers/meeting/chatcontroller.cpp:409-417 | the first row with the client id |
| ChatMerge.UpsertedPlace | syncRTC-client/rtc_client/core/src/controllers/meeting/chatcontroller.cpp:440-452 | for any list and message: the first message with the client id is replaced, or else the first with the server id unless the message has none, or else the message is added |
| ChatMerge.NeverTwice | syncRTC-client/rtc_client/core/src/controllers/meeting/chatcontroller.cpp:178-275 | in every sequence of sending, answers, receipts, merged pages, interruptions and changes of the meeting, no message is in the list twice, by client id or by server id |
| ChatMerge.NoneLost | syncRTC-client/rtc_client/core/src/controllers/meeting/chatcontroller.cpp:178-472 | no message that was in the list is lost from it while the meeting stays |
| ChatMerge.ChatController.ApplySendMessageAck | syncRTC-client/rtc_client/core/src/controllers/meeting/chatcontroller.cpp:216-247 | in the first row with the client id a failed answer changes only the delivery, to failed, and a successful one leaves the server's id and content, delivered and own; every other row stays, nothing changes when there is no such row, and the list stays free of duplicates |
| ChatMerge.ChatController.SendMessage | syncRTC-client/rtc_client/core/src/controllers/meeting/chatcontroller.cpp:178-214 | a row is added at the end, without a server id, own and being sent; all others stay |
| ChatMerge.ChatController.ApplyMessageReceived | syncRTC-client/rtc_client/core/src/controllers/meeting/chatcontroller.cpp:249-275 | the first row with the client id becomes the received message, delivered and own; if there is none, the message is added at the end as delivered and somebody else's; every other row stays |
| ChatMerge.ChatController.ConnectionInterrupted | syncRTC-client/rtc_client/core/src/controllers/meeting/chatcontroller.cpp:464-472 | messages still being sent become unknown, and nothing else changes |
| PcmTimeline.AudioEncodeWorker.EnqueueAudioPcmData | syncRTC-client/rtc_client/core/src/media/audioencodeworker.cpp:31-63 | the newest bytes are kept, an even number of the oldest dropped and counted |
| PcmTimeline.AudioEncodeWorker.ProcessPendingPcm | syncRTC-client/rtc_client/core/src/media/audioencodeworker.cpp:129-154 | the loop encodes every complete frame and leaves less than one |
| PcmTimeline.Conservation | syncRTC-client/rtc_client/core/src/media/audioencodeworker.cpp:31-154 | accepted bytes are twice the dropped samples plus pending, buffered and encoded bytes; pending stays at most 5761; pts is 960 per frame plus the applied drops and the timestamp is pts modulo 2^32 |
| PcmTimeline.FramesEndOnTime | syncRTC-client/rtc_client/core/src/media/audioencodeworker.cpp:144-194 | every frame holds captured bytes in capture order, and its stamp is that of its last sample less the frame's length |
| PcmTimeline.StampOfFirstSample | syncRTC-client/rtc_client/core/src/media/audioencodeworker.cpp:144-147 | the stamp fits the first sample if and only if the frame was captured without a gap |
| PcmTimeline.TornExactly | syncRTC-client/rtc_client/core/src/media/audioencodeworker.cpp:42-50 | taking a batch on a buffer of whole samples tears one if and only if something was dropped while the buffer ended in the middle of a sample |
| PcmTimeline.RunKeepsTail | syncRTC-client/rtc_client/core/src/media/audioencodeworker.cpp:129-154 | before every turn of the encoder, in every run with chunks of any size, what is buffered was captured without a gap, so it holds no torn sample |
| PcmTimeline.TornAndLateExactly | syncRTC-client/rtc_client/core/src/media/audioencodeworker.cpp:42-50 | in every run a turn tears a sample in at most one frame, its first, and exactly if samples were dropped while the buffer ended in the middle of one; a stamp is later than the first sample exactly in the first frame of a turn with samples dropped and bytes left in the buffer |
| PcmTimeline.SomeSampleIsTorn | syncRTC-client/rtc_client/core/src/media/audioencodeworker.cpp:42-50 | a chunk of one byte, a turn, and 5762 bytes: the next turn makes a frame with a torn sample |
| PcmTimeline.SomeStampIsLate | syncRTC-client/rtc_client/core/src/media/audioencodeworker.cpp:144-147 | a chunk of one sample, a turn, and 5762 bytes: the next frame begins before its stamp |
| PcmTimeline.WholeChunksStayWhole | syncRTC-client/rtc_client/core/src/media/audioencodeworker.cpp:42-50 | chunks of whole samples keep everything queued, buffered and encoded whole |
| PcmTimeline.WholeChunksNeverTorn | syncRTC-client/rtc_client/core/src/media/audioencodeworker.cpp:42-50 | in every run with chunks of whole samples no frame holds a torn sample |

## Left out

- MediaLogicRuns.GoneConnectionsOwnNothing: the body of a handler is one step at its end, which changes the members as MediaHandlers.LogicSystem.HandleRoomEvent proves of the room objects.
- MediaHandlers.ServeAll: handlers of different meetings run one after another here; MediaTurns.ServeInterleaved has them in pieces.
- MediaTurns.ServeInterleaved: a step is one library call with the lookups before it, one registration under the room lock, or one removal; a removal and the forgetting of its tracks by the others are one step here, because only forwarding threads come between them, which MediaRtp has; which connections have stopped is given with each event.
- MediaRooms.MediaSession.SetRemoteOffer: that the library gives up its own Offer for the client's is an assumption about libdatachannel, whose source is not part of this model.
- MediaRtp.OneSourcePerSsrc: rooms are taken one at a time; SSRCs of different rooms are not compared, since receivers belong to one room.
- QueueRuns.RunsInAcceptanceOrder: the admission check of the whole process appears only in the class; a refused command is no step of the run.
- Registry.OrderSurvivesRetirement: the queue of a room is its list of unfinished commands; RegistryQueues.Simulates puts the queue in its place.
- RegistryQueues.OrderWithQueues: the limits of the whole process are a free choice at each submission, since only the queue itself is in this model.
- MembershipRuns.BoundConnectionsAreMembers: the check of the device's login token, the meeting status and the password are nondeterministic failures; the wall-clock deadline in the store is too, so only the process's own deadline protects the grace period.
- MembershipRuns.JoinKeepsInv: the handlers are steps on values, because an operation is suspended between its storage calls; the segments that change a room's own members and sessions are also methods of Membership.MeetingRoom.
- MembershipRuns.ExpiryEvictsOnlyLapsed: the index of deadlines in the store is not modelled; an expiry may be asked for any user at any time.
- MembershipRuns.LateDisconnectChangesNothing: weak pointers that have expired are connections whose handle a step removes.
- Wakeup.NoLostWakeup: the I/O loop is a state machine on values, without the scan for silent connections, which handles a connection as a socket event does; the number of unwritten frames stands for the queue, which Sessions models with its bytes.
- Sessions.Session.HandleWrite: what another thread does between two writes is any sequence of sends and close requests.
- EpochRuns.NoResponseOfAnOldEpoch: the checks of a response are two steps, the second being the last check before it is sent; closed sessions and changed meetings only drop more responses.
- Recovery.RecoveryKeepsMoving: delays of the retry timer and the lengths of the connect and stage timers are not modelled, only that they are armed; heartbeat deadlines are losses of the connection at any time.
- Recovery.BusinessOnlyWhenRestored: the login page connects only while recovery is idle, which it makes sure of by stopping recovery first; callbacks of an earlier socket are ignored by the source and are no events here.
- ChatMerge.MergesCommute: server ids and client ids are assumed to belong together one to one, as the server assigns them; other fields of a message are one content value.
- PcmTimeline.FramesEndOnTime: the frame buffer is writable and the codec takes every frame; conversion to floating point is not modelled.
- Shutdown: draining of the scheduler at process end, and the pools' threads as such.
- Starting an operation's coroutine is a step of its own, at any time after the queue has chosen it.
- The scratch room used for requests without a meeting, and requests that only read.
- Session liveness rules (unauthenticated timeout, heartbeat rate limits) beyond "may close the connection".
- Sessions.Session.HandleHeartbeat: what a heartbeat's payload parses to and the bytes of the reply are chosen freely.
- MediaClient.MediaSignalClient.HandleEvents: within the parsing of one batch no other thread acts; it reads and writes nothing that they share.
- Recovery.RecoveryEnds: the event loop is taken to fire the budget timer at its time; a thread that is blocked fires it later by that much.
- JSON parsing, password hashing, tokens, HTTP services, AI service, database and cache clients, libdatachannel, FFmpeg and Qt.
- Candidates that are trickled, media flow after negotiation, decoding and audio/video synchronisation on the client.
