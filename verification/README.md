# Owlnest protocols, modelled and proved in Dafny

The project models four pieces of Owlnest and proves what they keep over whole runs:

- the blob protocol, by which two peers move a file with offer, acceptance, chunks and cancellation:
  the behaviour and its tables, the connection handler, the protobuf messages and the framing;
- the messaging behaviour and handler, with a callback per message, and the advertise handler;
- the "universal" send and receive that messaging and advertise use;
- the in-memory topic store of the gossipsub protocol.

## How it is built

`BlobState` says what each operation of the blob behaviour does to its state as a value. `BlobBehaviour`
is the behaviour as an object that updates its tables, counters and queues in place; each method is
proved to do what `BlobState` says and to keep the table invariant of `BlobTables`. `BlobOutcomes` has what
cancelling, expiry and the clock achieve on one behaviour, `BlobReports` what the user and the other side have
to hear of every operation and that they hear it, and `BlobHistory` what a run says about the records it
leaves; neither says what an operation does by calling it. `BlobMessages` and `BlobFraming` are
the bytes; `BlobDecoding` and `BlobNames` say which bytes are accepted and what they mean. `Outbound` is the stream machine that all three handlers share, with the source's three variants;
`BlobHandler`, `MessagingHandler` and `AdvertiseHandler` are the handlers that run it, as objects.

`TwoPeers` puts two blob behaviours and their handlers at the ends of a connection. A run interleaves
requests of both users, hand-overs of notifications, turns of both outbound machines, arriving and lost
frames, broken and new connections in any order. `BlobTransfer` is one transfer seen from outside, as a
small state machine with its own invariant. `TwoPeersView`, `TwoPeersSteps`, `TwoPeersWires` and
`TwoPeersRuns` prove that every act of the full system moves every transfer by steps of that machine, so
its invariant holds of all transfers in all runs; `TwoPeersTheorems` says what that means for the two peers, and
`TwoPeersOffers` that each user is told the terms the other one gave.
What comes of a lost chunk is in `TwoPeersLoss` (over `BlobTransferLoss`), what a first connection that loses
nothing achieves in `TwoPeersLiveness`, `TwoPeersTermination` and `TwoPeersDelivery` (over
`BlobTransferLiveness`), and what a later connection achieves, which may find notifications of an earlier one,
in `TwoPeersReconnect` (over `BlobTransferRest`). `TwoPeersPolls` shows that a handler's poll, taken as a
whole, is a run of the acts that the system interleaves.

Reading a file returns some of the bytes that are left, none only at its end, or fails; a write accepts
at least one byte or fails. What the file system, the clock and a hash table's iteration order answer are
parameters. A frame that reaches the other handler and the acknowledgement for it are one step. Digests
are an arbitrary function. Callbacks are records of what they were told.

## What the code does not do

These are proved of the code as it is:

- A body that cannot be decoded and is shorter than 20 bytes panics its receiver: the error report slices
  `&bytes[..20]`. A poll survives a message if and only if it can be decoded or is that long
  (`PollSurvivesWhen`, with the single byte of `ShortBodyPanics`); no event of the protocol comes to that
  (`EventsArePolledSafely`).
- `remove_recv_record` searches the table keyed by the remote's send id with a local id. Cancelling an
  ongoing receive therefore works if and only if the two ids are equal (`CancelOngoingRecvEndsIt`, with
  `CancelMissesItsRecord` as the counterexample), and the last stage of expiry removes exactly the
  expired receives if and only if their local ids, taken together, are their remote send ids
  (`OngoingRecvExpiryExactWhen`, with `ExpiryMissesItsRecord`).
- When the remote withdraws an offer that is still pending, the local user is told the remote's id. It is
  the local one if and only if the two agree (`WithdrawnOfferReport`, with `WithdrawnOfferMisreported`).
- The doc comment of the `RecvProgressed` event promises one per chunk; the code emits it at the end of the
  file only (`OnlyTheEndCompletes`).
- A file that cannot be read any more ends its send without a word to either user: no event and no
  notification (`NextPieceIsSent`).
- An empty message sent with the universal protocol is not received: its receiver waits for bytes of
  something else and returns those (`EmptyMessageMisread`).
- Callbacks can go unanswered. In the messaging handler a callback is answered exactly if its send did not
  break (`CallbacksAnsweredOnce`), in the blob handler exactly if the offer or acceptance it belongs to was
  sent, so a timeout drops it as well (`CallbacksTold`, which every method of that handler keeps, with
  `NumberedAsReceived`).
- A disconnection does not clear the notifications the behaviour has queued, so those that were not taken
  reach the next connection. What holds of all runs, such as `PrefixSafety`, holds in spite of this; that every
  transfer is settled in the end does not. A stale offer can be accepted, and then its receiver has an ongoing
  record that no chunk will come for. On a new connection a transfer is always settled if and only if no offer
  of it was left queued without its withdrawal (`SettlesExactlyWhen`; `StaleOfferLeavesARecord` for every such
  offer, `StaleOfferHappens` for a run that leaves one). What is offered on the new connection is not touched
  by this (`NewFilesGetThere`). `NothingStuck`, `AcceptedFilesArrive` and `AcceptedFilesGetThere` are about a
  first connection.

## Model

| member | source | states |
|---|---|---|
| `TwoPeersTheorems.PrefixSafety` | protocols/owlnest-blob/src/behaviour.rs:470-582 | in every reachable state of two peers, under any interleaving of chunks, lost frames, timeouts, cancels, disconnections and failed writes, what a receiver wrote is a prefix of the file the sender reads |
| `TwoPeersTheorems.NeverPanics` | protocols/owlnest-blob/src/behaviour.rs:362-379 | an acceptance of a send that is ongoing, which would reach `expect("Already handled")`, is never next in any reachable state |
| `TwoPeersTheorems.StopAndWait` | protocols/owlnest-blob/src/behaviour.rs:497-505 | per send id, chunks queued or unacknowledged plus unhandled progress events are at most one, and none while the send is pending |
| `TwoPeersTheorems.CompletionIsTruthful` | protocols/owlnest-blob/src/behaviour.rs:529-550 | when the empty chunk meets a live record the received file equals the sent one; completion is reported if the file has its announced length and an unexpected end otherwise |
| `TwoPeersTheorems.ProgressIsTruthful` | protocols/owlnest-blob/src/behaviour.rs:739-748 | while the receiver's record is ongoing, the bytes a sender reports as sent are exactly the part of the file that is written at the other peer or held by its handler |
| `TwoPeersOffers.OffersAreTruthful` | protocols/owlnest-blob/src/behaviour.rs:277-308 | in every reachable state, an offer that a user is told of comes from the other peer, whose user asked to send a file of that name and length under the id kept with it |
| `TwoPeersOffers.RecordsAreTruthful` | protocols/owlnest-blob/src/behaviour.rs:311-358 | so does every receive record, pending or ongoing |
| `TwoPeersLoss.LostChunkStops` | protocols/owlnest-blob/src/behaviour.rs:470-514 | once nothing is left to keep an ongoing send going, it reads no further byte in any later run, its receiver gets no more than its handler held, and no end of the file arrives |
| `TwoPeersLoss.LosingTheChunkStops` | protocols/owlnest-blob/src/handler.rs:289-308 | in every reachable state, losing the chunk of an ongoing send on the wire leaves nothing to keep it going |
| `TwoPeersLoss.LosingTheAcknowledgementStops` | protocols/owlnest-blob/src/handler.rs:289-308 | so does a timeout or an error after the chunk was taken and before its acknowledgement was |
| `TwoPeersLoss.ArrivingTooLateStops` | protocols/owlnest-blob/src/handler.rs:289-308 | so does a chunk that arrives when its sender has given it up |
| `BlobTransferLoss.StopLasts` | protocols/owlnest-blob/src/behaviour.rs:497-514 | no step of a safe transfer starts a stopped one again |
| `TwoPeersDelivery.AcceptedFilesArrive` | protocols/owlnest-blob/src/behaviour.rs:311-582 | on a connection that loses nothing, when nobody interferes, every offered file that is not waiting for acceptance has arrived whole once the queues are empty |
| `TwoPeersDelivery.NeverDeadlocked` | protocols/owlnest-blob/src/handler.rs:163-361 | whenever a side has anything queued, a step that the swarm or a handler takes by itself is enabled and loses nothing |
| `TwoPeersDelivery.Drains` | protocols/owlnest-blob/src/behaviour.rs:311-582 | from every state of a connection that has lost nothing, steps that nobody has to ask for empty all queues of both sides |
| `TwoPeersDelivery.AcceptedFilesGetThere` | protocols/owlnest-blob/src/behaviour.rs:311-582 | however far such a run has come, the peers can finish it by themselves, and then every offered file that is not waiting for acceptance has arrived whole |
| `TwoPeersTermination.WorkShrinks` | protocols/owlnest-blob/src/handler.rs:163-361 | every working step of a connection that loses nothing lowers a measure of unread file bytes and queued messages |
| `TwoPeersTermination.WorkEnds` | protocols/owlnest-blob/src/behaviour.rs:470-514 | without new requests there are never more such steps than that measure was at the start |
| `TwoPeersLiveness.NothingStuck` | protocols/owlnest-blob/src/behaviour.rs:311-514 | from the first connection on, when nothing is lost and files can be read, and both sides have emptied their queues, neither side has an ongoing record, and the pending sends of one are exactly the pending receives of the other, one to one, whatever was cancelled |
| `TwoPeersLiveness.EveryChunkFindsItsRecord` | protocols/owlnest-blob/src/behaviour.rs:518-526 | as long as nobody cancels or disconnects and no write fails, every chunk that arrives finds its record, whatever frames are lost |
| `TwoPeersLiveness.ExpiryIsRequests` | protocols/owlnest-blob/src/behaviour.rs:584-633 | an expiry check equals the run of the cancel requests it makes, so runs of requests cover expiry |
| `TwoPeersLiveness.PromiseKept` | protocols/owlnest-blob/src/behaviour.rs:311-514 | every act of a dependable connection keeps that whatever a peer still waits for is under way |
| `TwoPeersReconnect.SettlesExactlyWhen` | protocols/owlnest-blob/src/behaviour.rs:661-670 | whatever happened before, on a new connection that loses nothing a transfer is settled whenever all queues are empty if and only if no offer of it was left queued without its withdrawal |
| `TwoPeersReconnect.StaleOfferLeavesARecord` | protocols/owlnest-blob/src/behaviour.rs:311-398 | from every such stale offer there is a run that loses nothing, empties all queues and leaves the receiver an ongoing record |
| `TwoPeersReconnect.StaleOfferHappens` | protocols/owlnest-blob/src/behaviour.rs:661-670 | a run of eight steps that leaves a stale offer |
| `TwoPeersReconnect.NewFilesGetThere` | protocols/owlnest-blob/src/behaviour.rs:311-582 | whatever is left over from before, the peers can finish every undisturbed run of a new connection by themselves, and then every file offered on it that is not waiting for acceptance has arrived whole |
| `TwoPeersReconnect.NewChunksFindTheirRecord` | protocols/owlnest-blob/src/behaviour.rs:518-526 | as long as nobody interferes, every arriving chunk of a file offered on the new connection finds its record |
| `BlobTransferRest.OrphanStays` | protocols/owlnest-blob/src/behaviour.rs:277-398 | no step of a connection that loses nothing, unless a user asks for it, ends an orphaned offer or the receive it was accepted as |
| `TwoPeersRuns.Simulates` | protocols/owlnest-blob/src/handler.rs:163-361 | every act of the system moves every transfer, in either direction, by the named steps of the transfer machine |
| `TwoPeersRuns.InvAlways` | protocols/owlnest-blob/src/behaviour.rs:684-825 | all transfers are safe and both peers' tables consistent in every state of every run |
| `TwoPeersRuns.OfferIsNew` | protocols/owlnest-blob/src/behaviour.rs:277-308 | an offer about to be taken is the first its receiver hears of that send id |
| `TwoPeers.WellformedKept` | protocols/owlnest-blob/src/behaviour.rs:661-670 | every act keeps tables consistent, records to the one peer, the handler's send in step with its frame, and at most one substream request |
| `TwoPeersPolls.TurnsMakeAPoll` | protocols/owlnest-blob/src/handler.rs:286-361 | the turns the system interleaves add up to exactly what a handler's poll does |
| `TwoPeersPolls.PollIsARun` | protocols/owlnest-blob/src/handler.rs:169-285 | a whole poll of a handler fed from the wire never panics and is a run of the system's acts that leaves handler and behaviour as the poll does |
| `BlobTransfer.StepIsSafe` | protocols/owlnest-blob/src/behaviour.rs:470-582 | each step of a transfer keeps prefix, single token, single offer, single acceptance and last empty chunk |
| `BlobTransferLiveness.StepIsPledged` | protocols/owlnest-blob/src/behaviour.rs:311-514 | each reliable step keeps that an ongoing record on either side has something under way |
| `BlobTransferLiveness.QuietIsSettled` | protocols/owlnest-blob/src/behaviour.rs:311-514 | with nothing under way neither side is ongoing, and one waits for an answer exactly when the other still decides |
| `BlobTransferLiveness.StepIsExpected` | protocols/owlnest-blob/src/behaviour.rs:325-348 | without interference each step keeps that the receive record is there before any chunk for it |
| `BlobTransferLiveness.StepIsFulfilled` | protocols/owlnest-blob/src/behaviour.rs:517-582 | without interference each step keeps that a receive that is over has the whole file |
| `BlobTransferLiveness.ProgressTerminates` | protocols/owlnest-blob/src/behaviour.rs:470-514 | every chunk but the last strictly shrinks what is left of the file, by its length; the empty one comes exactly when nothing is left |
| `BlobTables.AlwaysConsistent` | protocols/owlnest-blob/src/behaviour.rs:175-398 | after any operations keys are their records' ids below the counter, tables are disjoint, remotes connected, every started send has sent at least one byte and stands at its cursor |
| `BlobTables.LocalRecvIdsDistinct` | protocols/owlnest-blob/src/behaviour.rs:335-348 | no two ongoing receives share a local id |
| `BlobTables.DisconnectKeeps` | protocols/owlnest-blob/src/behaviour.rs:661-670 | a disconnection keeps the tables consistent, so every send's peer is still connected |
| `BlobTables.DisconnectIsExact` | protocols/owlnest-blob/src/behaviour.rs:661-670 | the last connection to a peer takes exactly the records whose remote it is, from all four tables, and touches neither queue; any other takes nothing |
| `BlobOutcomes.CancelledSendIsFinal` | protocols/owlnest-blob/src/behaviour.rs:429-448 | over all later operations a send id that is over never names a record again and no chunk is queued for it |
| `BlobOutcomes.CancelSendEndsIt` | protocols/owlnest-blob/src/behaviour.rs:429-448 | cancelling a live send ends it, and a late acceptance or acknowledgement changes nothing |
| `BlobOutcomes.RemovedRecvIsFinal` | protocols/owlnest-blob/src/behaviour.rs:400-425 | over all later operations a removed receive is not revived and its file not written |
| `BlobOutcomes.CancelPendingRecvEndsIt` | protocols/owlnest-blob/src/behaviour.rs:403-425 | cancelling a pending receive ends it and leaves every other record |
| `BlobOutcomes.CancelOngoingRecvEndsIt` | protocols/owlnest-blob/src/behaviour.rs:637-645 | cancelling an ongoing receive ends it if and only if its local id equals the remote's send id; it removes what is stored under the local id |
| `BlobOutcomes.CancelMissesItsRecord` | protocols/owlnest-blob/src/behaviour.rs:637-645 | a run after which cancelling an ongoing receive changes nothing |
| `BlobOutcomes.WithdrawnOfferReport` | protocols/owlnest-blob/src/behaviour.rs:452-467 | a withdrawn offer is reported under its local id if and only if both ids agree |
| `BlobOutcomes.WithdrawnOfferMisreported` | protocols/owlnest-blob/src/behaviour.rs:452-467 | a run after which withdrawing the offer of remote send 5 ends local receive 0 and reports 5 |
| `BlobOutcomes.ExpiryIsExact` | protocols/owlnest-blob/src/behaviour.rs:584-633 | pending sends, pending receives and ongoing sends keep precisely their unexpired records, with one notification per dropped record; the last stage does not touch them; the events of `ExpiryIsReported` are added |
| `BlobOutcomes.ExpiryByAge` | protocols/owlnest-blob/src/behaviour.rs:584-633 | in plain numbers: a record stays if its timeout is 0 or its age is at most the timeout, unchanged; an ongoing receive goes when an expired one has its key for a local id |
| `BlobOutcomes.ExpiryIsReported` | protocols/owlnest-blob/src/behaviour.rs:598-632 | the user is told once of every receive that expiry dropped, by the id it was stored under, and of nothing else |
| `BlobOutcomes.OngoingRecvExpiryExactWhen` | protocols/owlnest-blob/src/behaviour.rs:622-632 | the last stage drops exactly the expired receives if and only if the local ids of the expired records are, as a set, the remote send ids they are stored under |
| `BlobOutcomes.ExpiryMissesItsRecord` | protocols/owlnest-blob/src/behaviour.rs:622-632 | a run after which an expired receive outlives the expiry check |
| `BlobOutcomes.StampsNeverAhead` | protocols/owlnest-blob/src/behaviour.rs:584-633 | with a clock that does not go back no record is stamped later than now, so no age underflows |
| `BlobReports.FailedWriteEndsIt` | protocols/owlnest-blob/src/behaviour.rs:551-575 | when a write fails before the whole chunk is out, the file grows by exactly the bytes accepted before it, the record goes, and the user is told of the error under the local id |
| `BlobReports.ChunkIsWritten` | protocols/owlnest-blob/src/behaviour.rs:551-581 | when none fails before that, the whole chunk is appended and counted, and the record stays, touched now |
| `BlobReports.NextPieceIsSent` | protocols/owlnest-blob/src/behaviour.rs:470-514 | a live send whose chunk was acknowledged or which was accepted sends the next piece of its file and counts it; it goes at the end of the file or when it cannot be read |
| `BlobReports.OfferCanBeAccepted` | protocols/owlnest-blob/src/behaviour.rs:277-358 | an offer is told to the user under a fresh id, and accepting that id answers this offer to the peer it came from |
| `BlobReports.CancelledRecvIsReported` | protocols/owlnest-blob/src/behaviour.rs:403-425 | cancelling what is stored under an id tells the user that id and the peer its own; another id changes nothing |
| `BlobReports.UserHearsEverything` | protocols/owlnest-blob/src/behaviour.rs:688-797 | in every run the events handed out and then those queued are exactly those owed for what happened, in order |
| `BlobReports.EveryNotificationLeaves` | protocols/owlnest-blob/src/behaviour.rs:780-797 | in every run the notifications taken and then those queued are exactly those due for what happened, in order |
| `BlobHistory.RecordsTellTheRun` | protocols/owlnest-blob/src/behaviour.rs:175-398 | in every run receive `l` is the `l`th offer and send `k` the `k`th request, in all their terms, as far as their files are |
| `BlobHistory.OffersAreAnnounced` | protocols/owlnest-blob/src/behaviour.rs:302-307 | in every run the user hears of every offer once, in order, and of the `l`th one under the id `l` |
| `BlobHistory.SendsAreStamped` | protocols/owlnest-blob/src/behaviour.rs:470-478 | in every run a live send was last active when it was accepted or last made progress |
| `BlobHistory.RecvsAreStamped` | protocols/owlnest-blob/src/behaviour.rs:517-527 | in every run a live receive was last active when it was accepted or a chunk for it last came |
| `BlobHistory.ConnectedIsLastWord` | protocols/owlnest-blob/src/behaviour.rs:661-717 | in every run a peer is connected if and only if the last word about it was a negotiated outbound stream |
| `BlobBehaviour.Behaviour.ListSend` | protocols/owlnest-blob/src/behaviour.rs:268-272 | every live send is listed once under its id with its record's values, and a started one has sent at least one byte |
| `BlobBehaviour.Behaviour.ListRecv` | protocols/owlnest-blob/src/behaviour.rs:263-267 | every live receive is listed once under its local id with its record's values |
| `BlobBehaviour.Behaviour.PushSendFile` | protocols/owlnest-blob/src/behaviour.rs:178-233 | the whole new state and the callback's answer of a send request |
| `BlobBehaviour.Behaviour.PushAcceptFile` | protocols/owlnest-blob/src/behaviour.rs:311-358 | the whole new state and the callback's answer of an acceptance |
| `BlobBehaviour.Behaviour.WriteChunk` | protocols/owlnest-blob/src/behaviour.rs:551-575 | the write loop appends the part of the chunk that was accepted before any failure, and ends |
| `BlobBehaviour.Behaviour.ProgressOngoingSend` | protocols/owlnest-blob/src/behaviour.rs:470-514 | one read, one chunk, and the record's end on an empty or failed read |
| `BlobBehaviour.Behaviour.ProgressOngoingRecv` | protocols/owlnest-blob/src/behaviour.rs:517-582 | a chunk's record comes back only when every byte was written |
| `BlobBehaviour.Behaviour.OnConnectionHandlerEvent` | protocols/owlnest-blob/src/behaviour.rs:688-779 | every handler event does to the state what the specification says, and keeps the tables consistent |
| `BlobBehaviour.Behaviour.OnConnectionClosed` | protocols/owlnest-blob/src/behaviour.rs:661-670 | exactly the records of the peer are removed, and only with its last connection |
| `BlobBehaviour.Behaviour.ExpireRecords` | protocols/owlnest-blob/src/behaviour.rs:584-633 | the four stages cancel what expired when each starts |
| `BlobBehaviour.Behaviour.Poll` | protocols/owlnest-blob/src/behaviour.rs:780-797 | expiry when the throttle allows, then events, then notifications, first in first out |
| `BlobMessages.EventRoundTrip` | protocols/owlnest-blob/src/handler.rs:362-448 | decoding the encoding of any event gives the mirrored event, zero ids and empty contents included |
| `BlobMessages.FieldsRoundTrip` | protocols/owlnest-blob/src/protocol/messages.proto:1-26 | any list of protobuf fields survives the encoding |
| `BlobMessages.ChunkFitsReceiver` | protocols/owlnest-blob/src/protocol.rs:52 | for every id and every chunk the sender can produce, the encoding is at most 2^18 + 15 bytes |
| `BlobMessages.ChunkBoundIsReached` | protocols/owlnest-blob/src/behaviour.rs:11 | a full chunk under the largest id is one byte below the limit |
| `BlobMessages.ControlFitsReceiver` | protocols/owlnest-blob/src/handler.rs:382-429 | of the control messages only an offer can be over the limit, and it is if and only if its file name is longer than what its two numbers leave |
| `BlobDecoding.MessagesOnTheWire` | protocols/owlnest-blob/src/protocol/messages.proto:1-26 | the type and body of each of the five messages, byte by byte |
| `BlobDecoding.MessageIsUnderstoodWhen` | protocols/owlnest-blob/src/handler.rs:362-373 | a message is understood if and only if each field of its type is of the right kind whenever it occurs, and says the last of each; an unknown type is an error whatever the body |
| `BlobDecoding.LastNumberCounts` | protocols/owlnest-blob/src/handler.rs:362-373 | a number field is what its last occurrence says, and 0 if there is none |
| `BlobDecoding.NumberIsReadWhen` | protocols/owlnest-blob/src/handler.rs:362-373 | a number is read if and only if at most ten bytes form a varint of a 64-bit number, overlong or not |
| `BlobDecoding.KeyIsReadWhen` | protocols/owlnest-blob/src/handler.rs:362-373 | a field key is read if and only if it names a field from 1 to 2^29 - 1 |
| `BlobDecoding.NodesRoundTrip` | protocols/owlnest-blob/src/handler.rs:362-373 | a body with unknown groups in it is read if and only if none is nested deeper than the limit; its plain fields come out as they are |
| `BlobNames.NameIsTextWhen` | protocols/owlnest-blob/src/protocol/messages.proto:8 | a file name is accepted if and only if it is the UTF-8 encoding of some text |
| `BlobFraming.HeaderKeepsLength` | protocols/owlnest-blob/src/protocol.rs:19-20 | overwriting the top header byte keeps the length if and only if it is below 2^56 |
| `BlobFraming.FramesRoundTrip` | protocols/owlnest-blob/src/protocol.rs:11-83 | any list of frames within the limit, empty bodies included, is read back as that list |
| `BlobFraming.OversizeRefused` | protocols/owlnest-blob/src/protocol.rs:52-59 | a longer body is refused whatever follows it |
| `BlobFraming.BrokenOffFrame` | protocols/owlnest-blob/src/protocol.rs:41-66 | a frame that breaks off is never taken for a shorter one |
| `BlobFraming.Substream.CursorRead` | protocols/owlnest-blob/src/protocol.rs:68-83 | under any fragmentation the buffer is filled with exactly the next bytes, nothing past them is read, and their digest is sent back, if and only if that many bytes come |
| `BlobFraming.Substream.Recv` | protocols/owlnest-blob/src/protocol.rs:41-66 | one receive takes exactly the first frame or reports why there is none |
| `BlobFraming.Session` | protocols/owlnest-blob/src/protocol.rs:11-83 | in a session every send succeeds and the receiver gets exactly the list |
| `BlobHandler.ArrivesMirrored` | protocols/owlnest-blob/src/handler.rs:271-283 | an event put on the stream on one side is queued on the other as its mirror image |
| `BlobHandler.PollLosesNothing` | protocols/owlnest-blob/src/handler.rs:169-361 | what a poll hands out and then still holds is what bypassed the queue, was queued, arrived and was noted of ended sends, in that order; a poll with nothing to say leaves the queue empty |
| `BlobHandler.PollWorksTheStream` | protocols/owlnest-blob/src/handler.rs:187-195 | a poll that gets past the inbound stream works the outbound one, whatever is queued, and hands out its result first |
| `BlobHandler.MessageIsQueued` | protocols/owlnest-blob/src/handler.rs:271-283 | what arrives is queued: an error for an unknown type or an unreadable body, otherwise what it says |
| `BlobHandler.ReadErrorEndsStream` | protocols/owlnest-blob/src/handler.rs:263-270 | a read error is told at once and ends the inbound stream until there is a new one |
| `BlobHandler.UnsupportedIsToldOnce` | protocols/owlnest-blob/src/handler.rs:177-186 | after a failed negotiation the next poll says so and no later one says or does anything |
| `BlobHandler.FailedDialIsRepeated` | protocols/owlnest-blob/src/handler.rs:450-471 | any other failed dial is asked for again and leaves the handler as it was |
| `BlobHandler.OpenedStreamIsUsed` | protocols/owlnest-blob/src/handler.rs:218-225 | an opened outbound stream is reported and sends what was waiting |
| `BlobHandler.OpenedInboundListens` | protocols/owlnest-blob/src/handler.rs:210-217 | an opened inbound stream is reported and listened on |
| `BlobHandler.PollSurvivesWhen` | protocols/owlnest-blob/src/handler.rs:271-280 | a poll of a message panics unless it can be decoded or has 20 bytes |
| `BlobHandler.ShortBodyPanics` | protocols/owlnest-blob/src/handler.rs:271-280 | the one-byte body 0x80 of type 1 panics its receiver |
| `BlobHandler.EventsArePolledSafely` | protocols/owlnest-blob/src/handler.rs:362-448 | no message that the other side's handler sends panics a poll |
| `BlobHandler.Handler.EndSend` | protocols/owlnest-blob/src/handler.rs:309-333 | a completed offer leaves its note and answers its callback, a completed acceptance answers its callback, a completed chunk leaves its note, and nothing else leaves either |
| `BlobHandler.Handler.OutboundTurn` | protocols/owlnest-blob/src/handler.rs:289-358 | one turn of the loop, with the notes a completed send leaves |
| `BlobHandler.Handler.OutboundLoop` | protocols/owlnest-blob/src/handler.rs:286-361 | the loop ends and does what the machine's specification says |
| `BlobHandler.Handler.Poll` | protocols/owlnest-blob/src/handler.rs:169-199 | does what the polls of `PollLosesNothing` and `TwoPeersPolls.PollIsARun` do, and has answered, once each, exactly the callbacks of the offers and acceptances that were sent |
| `Outbound.WhichExactly` | protocols/owlnest-blob/src/handler.rs:309-333 | the record of answered callbacks names each message at most once, and exactly those whose send ended as required |
| `Outbound.NumberedAsReceived` | protocols/owlnest-blob/src/handler.rs:286-361 | in every run the message received under a number is the one whose send ends, and whose callback is answered, under that number |
| `Outbound.NothingSkipped` | protocols/owlnest-blob/src/handler.rs:286-361 | for all three handlers and every run in which the swarm answers each request once, the messages started followed by those queued are the full sequence received, and at most one request is open, exactly in the state that waits for it |
| `Outbound.UnaskedNegotiationDrops` | protocols/owlnest-blob/src/handler.rs:218-225 | without that discipline a negotiated stream drops the running send's message |
| `Outbound.LoopOnce` | protocols/owlnest-advertise/src/handler.rs:201-282 | each turn that goes round takes a message or moves from busy over idle to no stream |
| `Outbound.LoopSendsInTurn` | protocols/owlnest-blob/src/handler.rs:286-361 | with a stream, one loop of any of the handlers sends message after message on it for as long as each is found done, and then is out of messages, waits for one, or has lost the stream to one |
| `Outbound.LoopWithoutStream` | protocols/owlnest-blob/src/handler.rs:345-358 | without a stream it asks for one, with a request open it waits |
| `Outbound.RequestIsAnswered` | protocols/owlnest-blob/src/handler.rs:218-229 | the answer to a request leaves a free stream or none and every message where it was |
| `Outbound.LoopRests` | protocols/owlnest-messaging/src/handler.rs:195-243 | when the loop ends without a return nothing more could be started, except after a messaging timeout |
| `Outbound.AfterFailure` | protocols/owlnest-advertise/src/handler.rs:204-231 | after a failed send advertise asks for a stream in the same loop; the others leave without one |
| `MessagingHandler.Handler.PollOutboundStream` | protocols/owlnest-messaging/src/handler.rs:195-259 | the loop with its callbacks does what the machine's specification says |
| `MessagingHandler.Handler.Poll` | protocols/owlnest-messaging/src/handler.rs:69-98 | a received message ends the poll, a read error is queued and does not |
| `MessagingHandler.PollLosesNothing` | protocols/owlnest-messaging/src/handler.rs:69-98 | what a poll hands out and then still holds is what bypassed the queue, was queued, and a read error, in that order |
| `MessagingHandler.PollWorksTheStream` | protocols/owlnest-messaging/src/handler.rs:84-92 | a poll that receives no message works the outbound stream, whatever is queued, and hands out its result first |
| `MessagingHandler.ReadErrorEndsStream` | protocols/owlnest-messaging/src/handler.rs:185-190 | a read error is queued and ends the inbound stream until there is a new one |
| `MessagingHandler.UnsupportedIsToldOnce` | protocols/owlnest-messaging/src/handler.rs:74-83 | an inactive handler says so once and then is silent |
| `MessagingHandler.TimeoutIsAnswered` | protocols/owlnest-messaging/src/handler.rs:200-209 | a timed out message is answered, its stream dropped, the queue untouched |
| `MessagingBehaviour.Behaviour.HandleInEvents` | protocols/owlnest-messaging/src/behaviour.rs:147-174 | requests are worked through in order up to the first for a connected peer, the others answered |
| `MessagingBehaviour.DrainTakesAPrefix` | protocols/owlnest-messaging/src/behaviour.rs:147-174 | one round answers every listing with the connected peers and decides every message up to the first that can go out, which it hands out |
| `MessagingBehaviour.EventIsTold` | protocols/owlnest-messaging/src/behaviour.rs:91-144 | each event of a handler is told once, under the sender a message names or the peer of the connection |
| `MessagingBehaviour.Behaviour.Poll` | protocols/owlnest-messaging/src/behaviour.rs:48-59 | events before requests |
| `MessagingRuns.EveryMessageInOnePlace` | protocols/owlnest-messaging/src/behaviour.rs:147-174 | on a connection that stays open the places a message can be hold together exactly the messages submitted, each once |
| `MessagingRuns.ConnectedIsLastWord` | protocols/owlnest-messaging/src/behaviour.rs:29-36 | in every run a peer is connected if and only if the last word about it was a negotiated outbound stream |
| `MessagingRuns.CallbacksAnsweredOnce` | protocols/owlnest-messaging/src/handler.rs:195-243 | on such a connection each callback is answered at most once, in order, and exactly when its send ended with a time or a timeout |
| `MessagingRuns.AnswersInOrder` | protocols/owlnest-messaging/src/handler.rs:195-259 | on such a connection messages are handled in the order of submission, so none is sent twice and no answer overtakes another |
| `AdvertiseHandler.NeverWithoutStream` | protocols/owlnest-advertise/src/handler.rs:201-282 | a poll never leaves the machine without a stream, a request for one or a running send |
| `AdvertiseHandler.Handler.PollOutboundStream` | protocols/owlnest-advertise/src/handler.rs:201-282 | the loop does what the machine's specification says and queues one report per failed send |
| `AdvertiseHandler.PollLosesNothing` | protocols/owlnest-advertise/src/handler.rs:100-121 | what a poll hands out and then still holds is what was queued, what arrived and one report per failed send, in that order; a poll with nothing to say leaves the queue empty |
| `AdvertiseHandler.PollWorksTheStream` | protocols/owlnest-advertise/src/handler.rs:114-120 | every poll of a handler that is not silent works the outbound stream, whatever is queued |
| `AdvertiseHandler.MessageIsQueued` | protocols/owlnest-advertise/src/handler.rs:175-200 | what arrives is queued as what it asks or answers, or as an error; a read error ends the stream |
| `AdvertiseHandler.OnlyFailuresAreReported` | protocols/owlnest-advertise/src/handler.rs:204-231 | a timeout and a broken send are reported, each as what it is, with a new stream asked for; a completed send is not |
| `AdvertiseHandler.InactiveGoesSilent` | protocols/owlnest-advertise/src/handler.rs:106-113 | an inactive handler is polled as an active one once more and then is silent |
| `AdvertiseHandler.Handler.Poll` | protocols/owlnest-advertise/src/handler.rs:100-121 | does what the polls of `PollLosesNothing` do |
| `Universal.ExactWhen` | owlnest-prelude/src/lib.rs:86-96 | a body is received exactly under every fragmentation if and only if nothing beyond it is available |
| `Universal.EmptyMessageMisread` | owlnest-prelude/src/lib.rs:86-96 | an empty message waits for other bytes and then returns those |
| `Universal.Stream.StartSend` | owlnest-prelude/src/lib.rs:44-60 | header and body go out whole in as many writes as it takes |
| `Universal.Stream.Recv` | owlnest-prelude/src/lib.rs:73-100 | a receive returns and acknowledges what the read loop of `ExactWhen` makes of the bytes that are there, under some fragmentation |
| `Universal.Session` | owlnest-prelude/src/lib.rs:44-100 | since each send waits for its verifier, every message of 1 to 129 KiB - 1 bytes is received exactly |
| `TopicStore.StoreTellsHistory` | owlnest/src/net/p2p/protocols/gossipsub.rs:726-818 | after any operations a topic is known once mentioned, carries the first text it was given, has the peers that joined and did not leave since, and is subscribed if that was the last word |
| `TopicStore.AlwaysSound` | owlnest/src/net/p2p/protocols/gossipsub.rs:800-814 | every subscribed topic is known |
| `TopicStore.MemTopicStore.InsertTopic` | owlnest/src/net/p2p/protocols/gossipsub.rs:732-744 | promotion keeps the participants, a known text stays, and the tables stay disjoint |
| `TopicStore.MemTopicStore.InsertHash` | owlnest/src/net/p2p/protocols/gossipsub.rs:746-752 | only an unknown topic is added |
| `TopicStore.MemTopicStore.JoinTopic` | owlnest/src/net/p2p/protocols/gossipsub.rs:779-788 | called one at a time, the two tables do what one table would, and `unreachable!()` is unreachable |
| `TopicStore.MemTopicStore.LeaveTopic` | owlnest/src/net/p2p/protocols/gossipsub.rs:789-797 | the peer leaves the topic wherever it is kept |
| `TopicStore.MemTopicStore.SubscribeTopic` | owlnest/src/net/p2p/protocols/gossipsub.rs:800-811 | subscribing makes the topic known, with its text if one is given |
| `TopicStore.MemTopicStore.ReadableTopics` | owlnest/src/net/p2p/protocols/gossipsub.rs:758-763 | exactly the topics with a text, with that text |
| `TopicStore.MemTopicStore.HashTopics` | owlnest/src/net/p2p/protocols/gossipsub.rs:764-769 | exactly the topics without a text |
| `TopicStore.MemTopicStore.Participants` | owlnest/src/net/p2p/protocols/gossipsub.rs:770-778 | the participants of a known topic and of no other |

## Left out

- ListRecv: lists the name that came with the offer. The source lists the last component of the path that
  the file was stored under, which differs for a name such as "a/b", and panics for "..".
- Ids and counters are unbounded: the wrap-around of a `u64` after 2^64 offers is not modelled.
- More than two peers and more than one connection per pair: `ongoing_recv` is keyed by the remote's send
  id alone, and a notification may go to any of several connections.
- Writes to a file that return zero bytes forever, where the source's loop would spin; a read loop that
  never gets its bytes is given up as Incomplete.
- Files that change while they are sent, and file names, paths and spans beyond being carried along.
- File names longer than `LongestName` in the two-peer system, which delivers their offers although the
  receiver would refuse the frame.
- The text of error events, such as the slice of the offending body in the blob handler's decode error.
- The merging of repeated protobuf fields beyond what the five messages need.
- JoinTopic: the methods of the topic store are atomic here. The source's tables are shared between threads;
  while `insert_topic` has taken a topic from one table and not yet put it into the other, a concurrent
  `join_topic` finds it in neither and reaches `unreachable!()`, and two concurrent `subscribe_topic` calls
  can put one topic into both tables.
- Connection events other than negotiated streams and failed dials. On a change of the peer's address the
  blob and advertise handlers panic with `unimplemented!()`, which messaging ignores.
- Frames taken after the other side has closed: a connection that breaks takes what is on the wire with it,
  so such a frame counts as taken before the break.
- The JSON bodies of messaging and advertise, which are opaque; what reading one gives is a parameter.
- An inbound stream that replaces another in the two-peer system takes nothing with it by itself; what was on
  the old one can be lost at any time.
- Wake-ups: that a poll happens again is not modelled, only what each poll does. Work is shown to run out if
  steps keep being taken.
- The blob behaviour's listing of connected peers, the advertise behaviour's set and flag, the gossipsub
  message store, `max_pending_recv` (never consulted), configuration, and the thin wrappers around libp2p.
