# Verification of the multi-party session stack

A Dafny model of how a node of this project runs a multi-party computation in a
room, with proofs about every run. Five layers, each in modules of its own:

- **Encodings.** `Varint`, `Streams`, `Messages` (wire codec), `BufIo` (buffered
  reader and writer), `Peersets`, `PeersetCachers`, `StartMessages`. Unsigned
  varints follow LEB128 (section 7.6 of DWARF Version 5) in the minimal
  multiformats form.
- **Request bookkeeping.** `Broadcasts`: the tables over the inner
  request-response behaviour, known by its event contract.
- **Echo broadcast.** `Echo` (one gadget), `EchoNetwork` (n parties, some of them
  arbitrary), `EchoRounds` (all parties follow the gadget and its gate),
  `EchoCollisions` (where agreement ends), `EchoLimits` (what each hypothesis on
  rounds is for).
- **Rooms.** `Coordination` (phase 1, phase 2, negotiation, proxy), `Daemon` (the
  main loop as a state machine), `RuntimeDaemon` (the loop as an object),
  `RoomLifecycle` (what every run keeps), `RequestFates` (what becomes of requests,
  rooms and panics), `Sessions` (many nodes, one proposer).
- **Routing.** `Executions` (one poll of a computation), `RoutingIdentity` (from
  one agent to another's), `EchoFeeding` (a computation and its gadget as a party
  of `EchoNetwork`), with `PeerOrder` for the canonical numbering.

Objects the source updates in place are classes whose methods equal a function of
the old state; the theorems are about those functions and their runs. The daemon
object, `RuntimeDaemon.Runtime`, is in a state of such a run after any calls. Timeouts,
arrival orders, heap ties, hash-set iteration and scheduling are arbitrary.

## Where the code and its promises part

- The README says relayers hash the vector of messages. The code hashes their
  unframed concatenation, so agreement is on the concatenation. It lifts to the
  vector exactly when payload lengths agree, or when at most one sender
  equivocates (`EchoNetwork.VectorAgreement`, `EchoRounds.ReliableBroadcast`). Two
  senders can break it in a round that ends well (`EchoCollisions.CollidingRun`).
- The code does not hold the next broadcast back until the echo round ends: the
  `sent` handle of a broadcast is dropped unsignalled and its result is ignored.
  Results on rounds state the pace as a hypothesis; without it the gadget's panic
  is reachable (`EchoLimits.UnpacedRunPanics`), by exactly the steps
  `EchoNetwork.CrashesExactlyWhen` names. Agreement needs no gate.
- Proxy and execution do not look at the message type, so a proposal of a party
  that has ended reaches a running one as a message of the session. Results on
  rounds exclude it; it, too, leads to that panic (`EchoLimits.IntrudedRunPanics`).
- A party that has ended is back in phase 1 and takes a late broadcast for a
  proposal, which it answers empty. The sender then sees an inconsistent echo
  though nobody equivocated (`EchoRounds.FalseAlarmOnlyByGreeting`,
  `EchoLimits.GreetedRunAlarms`).
- A start message longer than 8192 bytes loses its party list, since only the
  writer's buffer is returned; a peerset of more than 210 peers is cut to 210 by
  the reader's buffer.
- When a remote proposal overtakes a local request already handed to its room and
  phase 2 then aborts, the table gets no entry and the room's next poll panics
  (`RoomLifecycle.MailboxLostOnlyByOvertaking`, `RoomLifecycle.OvertakenRunPanics`).
- Computation broadcasts travel under the coordination message type, so a joining
  node may take one for a start message: it begins a session nobody proposed, or
  crashes setting it up (`Sessions.StrayBroadcastBeginsSession`). Without such
  broadcasts all sessions are the proposer's (`Sessions.OnlyProposedSessions`).

## Hypotheses used

- The hash is a function parameter whose digests are not empty. Nothing more is
  asked of it: results say what holds unless two named inputs collide.
- Echo rounds: every party follows the gadget, submits its next broadcast only after
  its round counter has caught up, and after it has ended broadcasts for no other
  session while parties of this one run (`EchoRounds.Gated`). Agreement asks none
  of this.
- Inner request-response behaviour: request ids are fresh, an answer comes from
  the request's target, an inbound request ends once, and a response is taken
  only for an open request.
- Message bodies: decoding undoes encoding of the body that is sent.
- Peer ids of a session are 38 bytes long and accepted by the peer-id parser,
  which is a parameter (`valid`).

## Model

| member | source | states |
|---|---|---|
| `Varint.RoundTrip` | node/network/src/messages.rs:58-73 | Decoding an encoded number gives it back and takes exactly its bytes, whatever follows |
| `Varint.Canonical` | node/network/src/messages.rs:58-73 | Only the minimal form of a number is accepted: what decodes re-encodes to the bytes taken |
| `Varint.PrefixFree` | node/network/src/messages.rs:144-192 | No number's encoding is a prefix of another's |
| `Varint.EncodeLength` | node/network/src/messages.rs:144-192 | At most k bytes exactly for numbers below 128^k |
| `Varint.U64Length` | node/network/src/messages.rs:164-182 | A 64-bit value takes at most ten bytes |
| `Varint.Digits` | node/network/src/messages.rs:144-182 | The i-th byte of an encoding is the i-th base-128 digit, least significant first, plus 128 exactly when more bytes follow |
| `Varint.Continues` | node/network/src/messages.rs:58-73 | A length whose bytes all ask for more is an overflow as soon as its ten bytes are read, and cut off only when the stream ends before that |
| `Varint.CutOffExactly` | node/network/src/messages.rs:100-117 | A number is reported cut off exactly when all bytes there ask for more and fewer than it may take are there; so a length too large is never taken for a refusal |
| `Messages.GenericCodec.WriteRequest` | node/network/src/messages.rs:135-199 | Appends type, flag, session, protocol, length and payload, in this order, and closes the stream |
| `Messages.GenericCodec.WriteResponse` | node/network/src/messages.rs:201-226 | Appends length and payload, or nothing for a refusal, and closes the stream |
| `Messages.GenericCodec.ReadRequest` | node/network/src/messages.rs:39-98 | Returns what the byte-level grammar says, with the error of each malformed field and the panic on an unknown type, and moves past exactly the bytes of a good request |
| `Messages.GenericCodec.ReadResponse` | node/network/src/messages.rs:100-133 | The same for responses; a stream that ends inside the length is a refusal, a length of more than ten bytes an error |
| `Messages.RequestRoundTrip` | node/network/src/messages.rs:39-199 | A written request is read back whole and with exactly its bytes for every payload within the limit, and refused for every larger one |
| `Messages.RequestLayout` | node/network/src/messages.rs:135-199 | The writer's field order and codes: type 0 or 1, flag 1 or 0, session, protocol, length, payload |
| `Messages.FieldsRead` | node/network/src/messages.rs:39-98 | What the reader makes of any five numbers and the bytes after them, independent of the writer: a type past 1 panics, a length past the limit or the end is an error, any flag but 0 is a broadcast |
| `Messages.TruncatedRequest` | node/network/src/messages.rs:39-98 | A request cut short anywhere is never taken for a message, and which error it gives where |
| `Messages.TruncatedResponse` | node/network/src/messages.rs:100-133 | A response cut within its length reads as a refusal, one cut within its payload as an error |
| `Messages.RequestsPrefixFree` | node/network/src/messages.rs:135-199 | No request's wire form is a prefix of another's |
| `Messages.ResponseRoundTrip` | node/network/src/messages.rs:100-226 | Ok and Err responses are read back as written, within the limit |
| `Messages.Exchange` | node/network/src/messages.rs:39-199 | Writing and then reading one stream returns the message and leaves nothing behind |
| `PeerOrder.Sort` | node/runtime/src/peerset.rs:29-29 | The sorted listing of the same peers, duplicates included |
| `PeerOrder.SortedUnique` | node/runtime/src/peerset.rs:29-29 | A multiset of peers has one sorted listing, so sorting a sorted list changes nothing |
| `PeerOrder.SortCanonical` | node/runtime/src/peerset.rs:24-40 | Whatever order a hash set yields its peers in, the sorted list is the same, distinct and complete |
| `PeerOrder.LeByFirstDifference` | node/runtime/src/peerset.rs:29-29 | The order peers are sorted in: a prefix first, else the smaller byte at the first difference |
| `BufIo.BufReader.Read` | node/runtime/src/peerset.rs:48-61 | One read refills only an empty buffer, so it comes back short at the end of a non-empty one |
| `BufIo.ReadComesBackShort` | node/runtime/src/peerset.rs:48-61 | A read comes back short only when a buffer was left with too little, or the slice has no more |
| `BufIo.BufWriter.WriteAll` | node/runtime/src/negotiation.rs:239-264 | Nothing written is lost between vector and buffer, and which part stays in the buffer |
| `Peersets.Position` | node/runtime/src/peerset.rs:109-114 | The first place of a peer in the list, if it has one |
| `Peersets.IndexInverse` | node/runtime/src/peerset.rs:109-154 | In a list of distinct peers numbering and indexing undo each other |
| `Peersets.RemotesAreTheOthers` | node/runtime/src/peerset.rs:131-137 | The remotes are every peer but the local one, each once |
| `Peersets.ToBytes` | node/runtime/src/peerset.rs:120-129 | Entry after entry the id and the index cut to a byte |
| `Peersets.FromBytes` | node/runtime/src/peerset.rs:42-75 | The entries the buffered reader serves, peers re-sorted and indexes as read; a malformed id panics |
| `Peersets.DecodeOfEncode` | node/runtime/src/peerset.rs:42-129 | For any peerset with enough indexes: decoding its encoding gives its first 210 entries, sorted, indexes modulo 256 |
| `Peersets.DecodedBytes` | node/runtime/src/peerset.rs:42-75 | What any bytes decode to: a panic exactly if one of the ids served is malformed, else those ids sorted with the index bytes as read, 0 for one past the end |
| `Peersets.RoundTrip` | node/runtime/src/peerset.rs:42-129 | Peers and indexes come back in order exactly for a sorted list with one byte-sized index a peer and 39 bytes a peer within 8192 |
| `Peersets.RecoverFromCache` | node/runtime/src/peerset.rs:77-98 | Replaces the indexes by the cached ones, looked up in sorted order; a failed read changes nothing |
| `Peersets.RecoveredLength` | node/runtime/src/peerset.rs:82-94 | No session peer is skipped exactly when the cache knows them all |
| `Peersets.KeygenPositions` | node/runtime/src/peerset.rs:77-98 | Each session peer gets its key-generation position; as many as peers, strictly increasing, below N |
| `PeersetCachers.EphemeralReadAfterWrite` | node/runtime/src/peerset_cacher.rs:15-30 | What is written under a room is what is read there next; every other room reads as before |
| `PeersetCachers.PersistentReadAfterWrite` | node/runtime/src/peerset_cacher.rs:38-56 | Through the file, the written peerset comes back, with the reader as local peer, exactly when it is encodable; every other room reads as before |
| `PeersetCachers.PersistentCacher.ReadPeerset` | node/runtime/src/peerset_cacher.rs:39-46 | The decoded bytes of the room, an error without any |
| `PeersetCachers.PersistentCacher.WritePeerset` | node/runtime/src/peerset_cacher.rs:48-55 | Stores the encoded peerset under the room and touches no other |
| `PeersetCachers.SigningIndexes` | tss/src/keysign.rs:43-50 | Any two signers of one session recover, through the cached bytes of a key generation, the same strictly increasing key-generation positions, one a peer |
| `StartMessages.ToBytes` | node/runtime/src/negotiation.rs:238-265 | Returns what is left in the writer's buffer |
| `StartMessages.FromBytes` | node/runtime/src/negotiation.rs:213-236 | The parsed parties and body, an error for a truncated message, a panic for a malformed id or a length no buffer can have |
| `StartMessages.EmptyNeverParses` | node/runtime/src/coordination.rs:137-148 | The empty payload of a proposal is never a start message |
| `StartMessages.WrittenOrLost` | node/runtime/src/negotiation.rs:238-265 | The buffer holds the whole message exactly up to 8192 bytes; past that no party list is left in it, but the body with its length, the body alone or nothing, and exactly when which |
| `StartMessages.RoundTrip` | node/runtime/src/negotiation.rs:213-265 | Decoding returns the same peers, indexes and body exactly when the encoding fits the writer's buffer |
| `StartMessages.TruncatedNeverParses` | node/runtime/src/negotiation.rs:211-237 | A start message cut short anywhere is a decoding error |
| `Broadcasts.Broadcast.SendWireMessage` | node/network/src/broadcast.rs:357-397 | Registers the request, or fails it at once for an unknown protocol or an unreachable peer |
| `Broadcasts.Broadcast.BroadcastMessage` | node/network/src/broadcast.rs:333-355 | One send per target, in order, on one channel |
| `Broadcasts.Broadcast.OnResponse` | node/network/src/broadcast.rs:709-756 | Removes the request and puts its answer or refusal on its channel; unknown ids change nothing |
| `Broadcasts.Broadcast.OnOutboundFailure` | node/network/src/broadcast.rs:758-805 | Removes the request and puts the failure on its channel |
| `Broadcasts.Broadcast.OnRequest` | node/network/src/broadcast.rs:660-674 | Records the arrival |
| `Broadcasts.Broadcast.OnReply` | node/network/src/broadcast.rs:560-596 | Keeps a notification only for a response the inner behaviour took |
| `Broadcasts.Broadcast.OnResponseSent` | node/network/src/broadcast.rs:827-855 | Finds the arrival time, clears both tables and fires the notification |
| `Broadcasts.Broadcast.OnInboundFailure` | node/network/src/broadcast.rs:807-825 | Clears both tables without firing |
| `Broadcasts.OutboundConservation` | node/network/src/broadcast.rs:333-397 | In every state of every run each send that wants an outcome is pending or has had exactly one attempt, never both, on its own channel and from its own target |
| `Broadcasts.OutcomeOrigins` | node/network/src/broadcast.rs:357-804 | In every run an outcome is on a channel if and only if an earlier step called for it: that payload from that peer, a refusal, a network failure, an unknown protocol or an unreachable peer |
| `Broadcasts.PendingOrigins` | node/network/src/broadcast.rs:365-371 | In every run a request is pending under a key, for a send and a channel, if and only if it was handed over so and nothing has settled that key since |
| `Broadcasts.SendAllFates` | node/network/src/broadcast.rs:333-397 | What a multicast does for its j-th target: a request under the j-th id, or the one failure its protocol or connection calls for |
| `Broadcasts.SendAllConserves` | node/network/src/broadcast.rs:333-355 | A whole multicast with fresh ids keeps the conservation law |
| `Broadcasts.SendAllUses` | node/network/src/broadcast.rs:333-355 | A multicast on a new channel makes exactly its targets the users of that channel |
| `Broadcasts.BroadcastOutcomes` | node/network/src/broadcast.rs:709-805 | k requests to distinct targets yield k outcomes once none is pending, and the answers among them come from distinct targets |
| `Broadcasts.InboundBookkeeping` | node/network/src/broadcast.rs:809-855 | In every run notification keys lie within arrival keys, no notification fires twice, and the `expect` on a sent response cannot fail |
| `Broadcasts.NotificationFate` | node/network/src/broadcast.rs:583-842 | A notification handed in with a response that was taken is kept until its request ends, and fires exactly when the response was sent |
| `Broadcasts.FiredExactly` | node/network/src/broadcast.rs:583-842 | In every run a notification has fired if and only if it came with a response that was taken and that response was sent |
| `Echo.EchoGadget.ProceedRound` | node/runtime/src/echo.rs:57-118 | A whole round: exactly n messages make the batch, its digest is that of their descending order whatever their arrival, no own message is a panic, and the first n - 1 answers decide and move the counter |
| `Echo.EchoGadget.PopMax` | node/runtime/src/echo.rs:70-70 | Removes one message of the highest sender and nothing else |
| `Echo.EchoGadget.Drain` | node/runtime/src/echo.rs:66-89 | Empties the heap in descending sender order; the digest of that order, the channels to acknowledge and the own message to wait for, the one popped last; one acknowledgement for each remote's message, on channels of their own when theirs are |
| `Echo.EchoGadget.Compare` | node/runtime/src/echo.rs:102-117 | The first bad answer with its index or failure; the counter moves exactly when all agree |
| `Echo.VerdictNamesFirstBad` | node/runtime/src/echo.rs:101-113 | A round fails with an error if and only if it is that of the first bad answer: its failure, or the place it was taken from |
| `Echo.AwaitedIsPoppedLast` | node/runtime/src/echo.rs:72-80 | The answers awaited are those of the own message popped last |
| `Echo.OrderIndependence` | node/runtime/src/echo.rs:58-89 | Any arrival orders and any heap give one strictly descending order, one hash input, and each acknowledgement channel as often as the messages that arrived ask for it |
| `Echo.LiftsExactlyByLength` | node/runtime/src/echo.rs:70-71 | Equal unframed concatenations mean equal payload vectors exactly when the lengths agree |
| `Echo.OneEquivocatorIsCaught` | node/runtime/src/echo.rs:70-71 | When all senders but one agree, equal concatenations mean the last agrees too |
| `EchoNetwork.RunSound` | node/runtime/src/echo.rs:57-118 | In every run, whatever parties outside the gadget do, each non-empty answer of a follower is the digest of a batch it hashed with the very payload put on the link in it, and a broadcast's answers come from distinct other parties |
| `EchoNetwork.Agreement` | node/runtime/src/echo.rs:57-118 | When a round of p ends well, each other follower acknowledged p's broadcast, with the payload p put on its link, from a batch with p's digest: with the same hash input, unless those two inputs collide; and p's batch held that broadcast |
| `EchoNetwork.VectorAgreement` | node/runtime/src/echo.rs:57-118 | With the same hash input and one message a sender in both batches, they agree on every sender's payload exactly when the lengths agree, whoever misbehaves |
| `EchoNetwork.AgreementOnInput` | node/runtime/src/echo.rs:57-118 | Under a hash without collisions the hash inputs are the same |
| `EchoNetwork.CrashesExactlyWhen` | node/runtime/src/echo.rs:70-80 | In any run a step crashes a party exactly when it sends into its full echo channel or closes a batch without an own message |
| `EchoCollisions.CollidingRun` | node/runtime/src/echo.rs:70-71 | For every hash, a run of four parties in which a round ends well while two followers hashed different full vectors: two others moved a byte from one payload to the next |
| `EchoRounds.RoundSeparation` | node/runtime/src/echo.rs:58-115 | In gated runs, proposals of ended parties excluded by the gate, any two counters differ by at most one and heap and queue hold one round, one message a sender |
| `EchoRounds.FullHeapInRun` | node/runtime/src/echo.rs:70-80 | A full heap holds every sender once, so the own message the gadget insists on is there |
| `EchoRounds.QueueBound` | node/runtime/src/execution.rs:178-207 | Heap and queue never exceed n, both sends into the echo channel find room, no echo panic |
| `EchoRounds.ReliableBroadcast` | README.md:32-32 | After a good round everybody has hashed that round to one digest: from one input, unless two inputs collide; from one input, payloads agree sender by sender exactly when lengths do, and always when at most one sender equivocates |
| `EchoRounds.NoFalseAlarm` | node/runtime/src/echo.rs:101-113 | In gated runs with faithful senders, answered requests and no ended party greeting a broadcast, no party stops with an echo error |
| `EchoRounds.FalseAlarmOnlyByGreeting` | node/runtime/src/echo.rs:101-113 | In gated runs with faithful senders and answered requests, no party ever stops with an echo error if and only if no party compares the answers to a broadcast that an ended one took for a proposal and answered empty |
| `EchoLimits.UnpacedRunPanics` | node/runtime/src/execution.rs:158-185 | Without the pace, two honest parties on a faithful network reach the panic on the missing own message |
| `EchoLimits.IntrudedRunPanics` | node/runtime/src/network_proxy.rs:52-57 | The pace kept, an ended party that proposes anew brings a running one to that panic: proxy and execution do not look at the message type |
| `EchoLimits.GreetedRunAlarms` | node/runtime/src/runtime.rs:168-171 | A gated run with faithful senders and answered requests that ends in an inconsistent echo: the answer was an ended party's consent to what it took for a proposal |
| `Coordination.Phase1Channel.Poll` | node/runtime/src/coordination.rs:47-97 | Remote proposal before local request; gives the receiver away exactly when it leaves phase 1; panics on a computation message or a vanished sender |
| `Coordination.Phase2Chan.Poll` | node/runtime/src/coordination.rs:133-185 | Start, abort, wait or panic, and where the receiver goes |
| `Coordination.NegotiationChan.Poll` | node/runtime/src/negotiation.rs:73-191 | Start exactly when a response completes n peers, with all peers collected in canonical order and the start message for each of them |
| `Coordination.NegotiationOutcome` | node/runtime/src/negotiation.rs:73-191 | Over all polls of a negotiation: the proposal goes out on the first alone, the party is complete at the consent that makes the proposer and those who agreed exactly n, the start message goes to each of them and nobody else, and silence ends it otherwise |
| `Coordination.ReceiverProxy.Poll` | node/runtime/src/network_proxy.rs:42-67 | Gives the room back once nobody listens, else tags and forwards one message, or panics on a stranger |
| `Coordination.ForwardedByPlace` | node/runtime/src/network_proxy.rs:42-67 | A closed proxy only returns; an open one passes every party's message on whole, under the party's place, and panics exactly on a stranger |
| `RuntimeDaemon.Runtime.constructor` | node/runtime/src/runtime.rs:87-106 | Every room starts in phase 1 with its sender in the table, which is where every run of the daemon starts |
| `RuntimeDaemon.Runtime.RequestComputation` | node/runtime/src/runtime.rs:116-148 | Hands the request to the waiting room, or answers unknown or busy, and takes the entry; the daemon stays in a state of a run |
| `RuntimeDaemon.Runtime.PollCoordination` | node/runtime/src/runtime.rs:149-171 | Polls a phase 1 channel and gives its receiver to the room's next station, through the aborted phase 2 channel for an unknown protocol; answers the proposer empty exactly for a known one; stays in a state of a run |
| `RuntimeDaemon.Runtime.AwaitPhase2` | node/runtime/src/runtime.rs:173-201 | Starts the execution and its proxy, or parks the room; the table is refreshed only where it has an entry; stays in a state of a run |
| `RuntimeDaemon.Runtime.AwaitNegotiation` | node/runtime/src/runtime.rs:208-238 | Starts with the completion handle and the peers collected, or parks the room and drops the handle; stays in a state of a run |
| `RuntimeDaemon.Runtime.ExecutionEnded` | node/runtime/src/runtime.rs:241-244 | Answers or drops the handle and lets the forwarded receiver go; stays in a state of a run |
| `RuntimeDaemon.Runtime.PollNetworkProxy` | node/runtime/src/runtime.rs:245-248 | Parks the room of a proxy nobody listens to; stays in a state of a run |
| `RuntimeDaemon.ReachedKeeps` | node/runtime/src/runtime.rs:108-249 | Whatever arms were called, in whatever order: short of a panic every room is held once, every computation has its proxy, the table points into the right rooms and every handle is in one place |
| `RuntimeDaemon.ReachedOneComputation` | README.md:22-22 | No two computations of a daemon object share a room |
| `RoomLifecycle.RoomExclusivity` | node/runtime/src/runtime.rs:101-248 | In every state of every run each room's own receiver is held exactly once and the rooms held are the initial ones |
| `RoomLifecycle.OneComputationPerRoom` | README.md:22-22 | No two computations share a room, a room with a computation is neither waiting nor being joined or proposed, and its proxy tags by the computation's own list |
| `RoomLifecycle.PanicExactlyWhenUnreachable` | node/runtime/src/coordination.rs:72-78 | Polling a quiet waiting room panics exactly when it has no request and no sender in the table |
| `RoomLifecycle.MailboxInvariant` | node/runtime/src/runtime.rs:197-200 | In a run every waiting room stays reachable if and only if phase 2 never aborts while the room's entry is gone |
| `RoomLifecycle.MailboxLostOnlyByOvertaking` | node/runtime/src/runtime.rs:125-200 | In a run every waiting room stays reachable if and only if no joining that was begun by overtaking a local request is ever aborted |
| `RoomLifecycle.NoOvertakingNoPanic` | node/runtime/src/coordination.rs:72-78 | In every run in which no remote proposal overtakes a request handed over before it, every waiting room is reachable and no poll of a quiet one panics |
| `RoomLifecycle.OvertakenRunPanics` | node/runtime/src/runtime.rs:197-200 | A run of the daemon that reaches that panic |
| `RoomLifecycle.CompletionConservation` | node/runtime/src/runtime.rs:117-146 | Each accepted completion handle is in exactly one of mailbox, negotiation, execution, answered, dropped, and is answered at most once |
| `RequestFates.AnsweredExactly` | node/runtime/src/execution.rs:230-243 | In every run a handle has been answered with success if and only if its agent succeeded, with failure if and only if its request was refused or its agent failed |
| `RequestFates.DroppedExactly` | node/runtime/src/runtime.rs:208-246 | In every run a handle has been dropped if and only if an echo failure ended its computation, a proposal overtook it or its negotiation was given up |
| `RequestFates.DroppedNeverAnswered` | node/runtime/src/echo.rs:46-48 | A handle dropped by an echo failure or otherwise is never answered, before or after |
| `RequestFates.ComputationsAsRequested` | node/runtime/src/runtime.rs:118-232 | In every run a computation with a handle runs what was requested for its room: those arguments, that many parties; every computation is over two or more parties with this node among them |
| `RequestFates.PanicsExactlyWhen` | node/runtime/src/runtime.rs:114-249 | In every run a step takes the daemon down exactly for one of the listed causes |
| `RequestFates.WaitingExactly` | node/runtime/src/runtime.rs:149-248 | In every run a room waits after a step exactly if it waited and was not taken up, or comes back from phase 2, negotiation or a proxy nobody listens to |
| `RequestFates.EntriesExactly` | node/runtime/src/runtime.rs:125-248 | In every run a room is in the table after a step exactly if it was and no request used its entry up, or if it is parked with a new one; an abandoned phase 2 makes none |
| `Sessions.JoinerBeginsIntended` | node/runtime/src/coordination.rs:137-163 | A joining node begins the proposer's session exactly when the start message fits the writer's buffer |
| `Sessions.FittingStartRuns` | node/runtime/src/coordination.rs:137-163 | Every joining node addressed by a start message that fits runs exactly the proposer's session: the set-up cannot panic |
| `Sessions.SessionAgreement` | node/runtime/src/negotiation.rs:95-145 | All nodes running one fitting attempt have the same n distinct peers in the same order, n at least 2, the same body and echo size, and are in the list themselves |
| `Sessions.ProposalReachesAll` | node/runtime/src/negotiation.rs:150-169 | In every run whoever an attempt means to ask has its proposal on the way or has read it; proposals go out at the first poll alone |
| `Sessions.StartReachesAll` | node/runtime/src/negotiation.rs:106-121 | In every run each peer of a started attempt's party has its start message on the way or has read it |
| `Sessions.StartsOnTheirWay` | node/runtime/src/negotiation.rs:106-121 | At the step that starts an attempt, and at no other, its start message goes out, to its whole party and nobody else |
| `Sessions.MembersConsented` | node/runtime/src/coordination.rs:47-97 | In every run each peer of a started attempt, the proposer apart, took up that very proposal while waiting |
| `Sessions.ConsentsExactly` | node/runtime/src/runtime.rs:158-171 | A consent is given by taking a proposal up while waiting and by nothing else, and is gone once the proposer has found it |
| `Sessions.TwoPartySession` | node/runtime/src/negotiation.rs:73-191 | For any request for two parties whose start message fits there is a run in which proposer and peer come to run the session |
| `Sessions.PartyListIsCanonical` | node/runtime/src/negotiation.rs:99-101 | The list does not depend on the hash set's iteration order or on the node |
| `Sessions.StrayBroadcastBeginsSession` | node/runtime/src/execution.rs:167-171 | A computation broadcast, sent under the coordination type, that parses begins a session at a joining node exactly when its list has at least two peers, the node among them, and crashes the node otherwise |
| `Sessions.OnlyProposedSessions` | node/runtime/src/coordination.rs:137-163 | In a run every session at every node is one of the proposer's if and only if no joining node reads a stray broadcast that begins one |
| `Sessions.HarmlessStraysBeginNothing` | node/runtime/src/execution.rs:158-173 | In every run whose stray broadcasts are no start messages for their targets, every session was begun by a start message, for a party the node belongs to |
| `Sessions.JoiningFollowsDaemon` | node/runtime/src/runtime.rs:173-201 | A joining node of the many-node model crashes, waits, joins or runs together with the daemon, with the same parties, body and echo size |
| `Sessions.ProposingFollowsDaemon` | node/runtime/src/runtime.rs:208-238 | So does the proposer with its negotiation |
| `Executions.ProtocolExecution.constructor` | node/runtime/src/execution.rs:44-85 | Own number from the list, size modulo 2^16, empty channels |
| `Executions.ProtocolExecution.SendOut` | node/runtime/src/execution.rs:123-187 | Routes one message of the agent, panics on a number out of range or a full echo channel |
| `Executions.ProtocolExecution.TakeIn` | node/runtime/src/execution.rs:197-228 | Hands one message of the network to agent and gadget with its labels, or panics on a full channel |
| `Executions.ProtocolExecution.Poll` | node/runtime/src/execution.rs:91-270 | One request to the cache, one message out, every send driven to its end, one message in, then the agent; a finished agent reports once |
| `Executions.SavedThenRecalled` | node/runtime/src/execution.rs:112-121 | A peerset the agent saves and then recalls comes back exactly when it is encodable |
| `RoutingIdentity.RoutedAsSent` | tss/src/round_based.rs:22-53 | Every copy that reaches place d is forwarded there, and the poll that takes it in hands it to the agent from the sender's number i + 1, to d or to all as sent, with the body sent; a direct copy alone is acknowledged |
| `RoutingIdentity.QueueComesIn` | node/runtime/src/execution.rs:197-228 | The network's whole queue comes in without a panic exactly when the agent's channel has a place for each message and the echo channel one for each broadcast; then the agent has them in order from their senders' numbers, direct ones are acknowledged empty on their own channels and broadcasts await the gadget |
| `RoutingIdentity.OnePoll` | node/runtime/src/execution.rs:123-228 | A poll sends first and takes in second, and panics exactly when either half does |
| `RoutingIdentity.Addressees` | node/runtime/src/execution.rs:127-173 | Point-to-point j addresses party j alone; a broadcast addresses every other party once |
| `RoutingIdentity.QueueGoesOut` | node/runtime/src/execution.rs:123-187 | The agent's whole queue goes out without a panic exactly when every number in it is one of the session's and its broadcasts fit the echo channel; then one send for each message in the agent's order, the own copy of each broadcast waiting on the channel its answers go to, and the handles of direct messages signalled in order |
| `RoutingIdentity.EchoLabelsAgree` | node/runtime/src/execution.rs:178-207 | All gadgets of a session know a sender by one number |
| `RoutingIdentity.SessionMembers` | node/runtime/src/runtime.rs:183-232 | Nodes of one agreed session meet the hypotheses of routing identity, each at its own place |
| `EchoFeeding.BroadcastIsSubmission` | node/runtime/src/execution.rs:158-185 | A broadcast of the agent is a submission of the n-gadget model: the same panic, the same echo channel afterwards |
| `EchoFeeding.CopiesAreLinks` | node/runtime/src/execution.rs:158-173 | Its copies are that submission's links: one for each other party, with one payload |
| `EchoFeeding.ArrivalIsDelivery` | node/runtime/src/execution.rs:197-227 | A tagged broadcast coming in is a delivery of that model: the same panic, or one because the agent lags behind, and the same echo channel afterwards |

## Left out

- Echo.EchoGadget.Compare: the counter wraps at 16 bits as in a release build; the overflow panic of a debug build is not modelled, and `EchoNetwork` counts finished rounds without wrapping.
- EchoNetwork.CrashesExactlyWhen: takes n as the capacity of the echo channel; the channel library grants one more slot for the sender, which only widens the margin.
- Peersets.RecoverFromCache: returns the updated peerset as a value; the source assigns its `parties_indexes` in place, which no other holder of a clone can see.
- Executions.ProtocolExecution.Poll: takes every send to come to its end; a send that never does would keep the draining loop, and with it the poll, busy for ever.
- EchoRounds.QueueBound: speaks of the echo channel only; the channel to the agent, which the same poll also panics on when the agent lags behind, is part of `Executions` but not of `EchoNetwork`.
- StartMessages.FromBytes: a length that a buffer may have but the machine has no memory for is not modelled; beyond the largest buffer it is a panic.
- Messages.GenericCodec.ReadRequest: a length is a 64-bit number within the limit; running out of memory while allocating is not modelled.
- RequestFates.PanicsExactlyWhen: speaks of the daemon's own arms; when a computation's own poll panics is stated by `RoutingIdentity.QueueGoesOut`, `RoutingIdentity.QueueComesIn` and `EchoNetwork.CrashesExactlyWhen`.
- Sessions.SessionAgreement: speaks of sessions begun by a start message of the attempt; sessions begun by stray broadcasts are the subject of `Sessions.OnlyProposedSessions`.
- Key generation, signing, curve arithmetic and serialisation of protocol bodies: a foreign library; an agent is whatever sends and receives numbered messages.
- Transport, dialing, discovery, handler pass-through, the network worker, JSON-RPC, command line and key files: delegation and plumbing.
- Wakers, pinning and clock time: a poll is an atomic step, a timeout an arbitrary one.
- The file system below the persistent cacher: a map from rooms to bytes.
- Liveness: an echo round has no timeout, so lost answers leave it waiting; only safety and counting are proved.
- A request for fewer than two parties: the channel sizes computed from n - 1 underflow or are refused by the channel library; only the set-up of an execution is modelled as panicking then.
- Durations, logging and the statistics events sent upward.
