# Reliable broadcast: a verified model

A node takes part in Bracha-style reliable broadcasts, one session per (chain, client, nonce). A client
hands SEND to nodes; a node answers a SEND with ECHO, answers enough ECHOs or enough READYs with READY,
and delivers on more READYs still. Handlers run on several threads, share session and message objects,
and re-enter each other through `broadcast`. This project models that node, the network of such nodes, the
wire format they speak, and the client's delivery checker, and proves what they are for.

The layers, from the bottom:

- `Thresholds`, `SessionStep`, `LocalHistory`: the vote thresholds; one sequential handler call as a pure
  step `Handle`; what a session decides, computed from the history of its messages alone.
- `Broadcaster`: the objects themselves. `Message`, `Session` and `ReliableBroadcast` are classes mutated in
  place, `processMessage` and `broadcast` call each other, and the outbox holds references. Each method is
  proved to have the effect of `Handle`.
- `Interleaving`, `ThreadInvariants`, `Solo`, `Progress`: one session under many threads, with every flag
  read, locked insert-and-count, compare-exchange, stamp and queueing a step of its own. Nothing is lost or
  done twice, a handler that runs alone is `Handle`, handlers end under every interleaving, and a network
  left to itself comes to rest under every schedule.
- `SessionsPool`: many sessions in one node, with lookups and insertions interleaved. The part that belongs
  to one session runs as the single-session node does.
- `Network`, `Guarantees`: the nodes of a chain, up to t of them faulty, over a network that delays,
  reorders and duplicates. Agreement, totality, validity and no creation over all runs.
- `Chains`: nodes with many sessions on a network of several chains. Every session of a run, seen on its own,
  is a run of `Network`, so the guarantees hold for every (chain, client, nonce). `ChainsProgress`: every
  schedule of such nodes, lookups and insertions included, comes to rest.
- `Schedules`, `AgreementLimit`, `ValidityLimit`, `TotalityLimit`: explicit runs, and with them the exact
  conditions under which three of the guarantees hold.
- `Wire`, `Layout`, `RoundTrips`, `Codec`, `Dispatch`: the format and its parser as functions, byte by byte, the cursor loops proved
  against them, the round trips, and the job queue that unpacks packets.
- `Checker`, `Rounds`: the client's incremental index of deliveries, against a recount of the trace.

## What the model takes from the code

- `n` is the number of nodes of the chain, this node included (`src/packet_manager.cpp:105` skips the node
  itself when sending), and `n >= 1`. `n` is at most 2^32, since node ids of a chain are keys of type `int`
  (`src/chain_config.h:14`). `GetT` and `GetEchoTarget` keep the 64-bit wrap-around, and
  `Thresholds.EmptyChain` says what it does at `n = 0`.
- The echo target rounds up: `ceil((n + t + 1) / 2)`. The repository's README.md line 15 writes
  `(n+t+1)/2`; the code is followed.
- Votes are counted under the node id a message carries (`src/session.cpp:64`, `src/session.cpp:84`). The
  network model assumes that votes under a correct node's id were sent by that node, and that faulty nodes
  use their own ids, which are members of the chain. Anyone may send SENDs of anything.
- There is no guard on echoing: every SEND is answered by an ECHO (`src/session.cpp:54-56`). What needs "a
  correct node is handed SENDs of one payload" says so in the hypothesis `OnePayload`; the modules
  `AgreementLimit` and `TotalityLimit` say exactly what is true without it.
- READY is sent once per session, whatever the payload (`src/session.cpp:70-73`, `src/session.cpp:90-93`).
- Sessions are never removed: `removeSession` (`src/reliablebroadcast.cpp:218`) has no caller.
- `broadcast` overwrites the type and node id of the message object it was called with and queues a
  reference to it (`src/reliablebroadcast.cpp:87-94`); the bytes are produced later
  (`src/packet_manager.cpp:90-100`). `Mode` keeps two semantics apart: `Deferred` is the code, `Copied` a
  variant that encodes at the call. Guarantees hold in both unless they say otherwise. Validity does not: in
  `Deferred` mode an ECHO may leave as READY, and `ValidityLimit.ValidityDeferredExactly` gives the exact
  condition.
- The type byte is compared as an unsigned enumeration value, as gcc does, so bytes 128 to 255 are rejected
  like 4 to 127. Hosts are little-endian.
- Fields of `Node` after `outbox` (`sent`, `handled`, `ready`, `commit`, `readyPosts`, `log`) record history;
  no step reads them. `Session.ProcessMessage` is split into one method per branch of the original.

## Model

| member | source | states |
|---|---|---|
| Thresholds.ThresholdsHold | src/session.cpp:166-179 | for every chain of at least one node, 3t < n <= 3t + 3 and the echo target is the rounded-up half of n + t + 1, with no wrap-around |
| Thresholds.TIsLargest | src/session.cpp:166-174 | t is the largest number of faults below a third of the nodes, both directions |
| Thresholds.EchoTargetIsLeast | src/session.cpp:176-179 | the echo target is the least quorum size for which two quorums must share more than t nodes, both directions |
| Thresholds.CorrectNodesSuffice | src/session.cpp:166-179 | the n - t correct nodes alone can meet the echo target and the delivery threshold |
| Thresholds.EmptyChain | src/session.cpp:166-179 | at n = 0 the decrement wraps and the echo target is 0 |
| Thresholds.QuorumsIntersect | src/session.cpp:176-179 | any two echo quorums of one chain share more than t nodes |
| SessionStep.InsertGet | src/session.cpp:62-65 | inserting a sender changes the set of its payload by that sender, and no other set |
| SessionStep.SendReenters | src/session.cpp:54-56 | handling a SEND is queueing an ECHO and handling an ECHO of one's own |
| SessionStep.EchoReenters | src/session.cpp:57-76 | an ECHO that completes a quorum amounts to setting the flag and handling a READY of one's own, which queues nothing more |
| SessionStep.ReadyReenters | src/session.cpp:77-104 | a READY that makes t + 1 amounts to its vote, the flag and a READY of one's own; if its own count is past 2t the nested call has delivered already, so the stale outer count adds nothing |
| SessionStep.LeftObject | src/reliablebroadcast.cpp:87-96 | a call leaves the message object under its own payload, untouched if nothing was queued, else under the node's own id and the last type queued |
| LocalHistory.ExactState | src/session.cpp:57-104 | after any history: the READY flag is set iff some payload has an echo quorum or t + 1 ready senders, the delivery flag iff some payload has over 2t readies, the node's own included, and unfrozen sets are the distinct senders |
| LocalHistory.FrozenEchoes | src/session.cpp:57-66 | once the flag is set the echo sets stay those of the shortest prefix of the history that set it |
| LocalHistory.FrozenReadies | src/session.cpp:77-104 | once the session has delivered, the ready sets stay those of the shortest prefix of the history that made some payload full, the filling message and the node's own vote included |
| LocalHistory.RepeatsIgnored | src/session.cpp:54-104 | a message handled before changes neither the session nor the log; only a SEND is answered again |
| LocalHistory.EchoTells | src/session.cpp:57-76 | handling an ECHO or SEND keeps the session equal to what the history says |
| LocalHistory.ReadyTells | src/session.cpp:77-104 | handling a READY keeps the session equal to what the history says |
| Broadcaster.Message.SetNodeId | src/message.cpp:36-39 | changes the node id and nothing else |
| Broadcaster.Message.SetMessageType | src/abstract_message.cpp:93-96 | changes the type and nothing else |
| Broadcaster.Session.constructor | src/session.cpp:115-126 | a new session has empty counters, unset flags, and the thresholds of all nodes of its chain |
| Broadcaster.Session.ProcessMessage | src/session.cpp:34-108 | one call, nested self-deliveries included, terminates and has the effect of the pure step on session, message object, outbox and log |
| Broadcaster.Session.ProcessSend | src/session.cpp:54-56 | the SEND branch has the effect of the pure step |
| Broadcaster.Session.ProcessEcho | src/session.cpp:57-76 | the ECHO branch has the effect of the pure step |
| Broadcaster.Session.ProcessReady | src/session.cpp:77-104 | the READY branch, with the test made on a stale count after the nested call, has the effect of the pure step |
| Broadcaster.ReliableBroadcast.Broadcast | src/reliablebroadcast.cpp:73-97 | stamps the object, queues a reference to it first, then has the effect of handling a message of one's own in the same session |
| Broadcaster.ReliableBroadcast.ProcessMessage | src/reliablebroadcast.cpp:68-71 | a message is handled in the session of its id, found or created, and every other session object keeps its place; an unknown chain changes nothing |
| Broadcaster.ReliableBroadcast.GetSession | src/reliablebroadcast.cpp:198-207 | returns the session of the id, or null if the pool has none |
| Broadcaster.ReliableBroadcast.AddSession | src/reliablebroadcast.cpp:169-182 | inserts a fresh session only if the pool has none for the id; a chain without configuration is the error case of src/node_config.cpp:97-106 |
| Broadcaster.ReliableBroadcast.GetOrCreateSession | src/reliablebroadcast.cpp:209-216 | always the one session of the id, created only when missing |
| Broadcaster.ReliableBroadcast.Deliver | src/reliablebroadcast.cpp:99-112 | appends the payload to the log |
| Broadcaster.ReliableBroadcast.ThresholdsOfChain | src/reliablebroadcast.cpp:224-226 | a node decides by its own id and, counting every node of the chain and itself, by the largest t with 3t < n and the least q with 2q - n > t |
| Broadcaster.ReliableBroadcast.SessionThresholds | src/session.cpp:115-126 | every session object in the pool decides by the thresholds of its own chain |
| ThreadInvariants.InvKept | src/session.cpp:54-104 | every action of every thread keeps the node invariant: shapes, captured counts, flag winners, vote origins, pending triggers, nothing lost |
| ThreadInvariants.AtMostOnce | src/session.cpp:70-101 | in every state at most one READY broadcast and one delivery have been made, and delivered implies that the READY flag is set |
| ThreadInvariants.ThreadsKept | src/session.cpp:58-104 | captured counts never exceed the current sets, counts past a test stay past it, and only the thread that won a flag acts on it |
| ThreadInvariants.TriggersKept | src/session.cpp:68-96 | no trigger is lost: a set past its threshold has its flag set, or a thread about to try |
| ThreadInvariants.DoneFlags | src/session.cpp:68-96 | with all handlers returned, whatever is still queued, every set past its threshold has its flag set |
| ThreadInvariants.DoneOnce | src/session.cpp:70-101 | with all handlers returned, whatever is still queued, READY has been queued and the payload delivered exactly once for each set flag |
| ThreadInvariants.IdleOnce | src/session.cpp:70-101 | with all handlers returned and all buffers encoded, the READY of a set flag has also left as READY: none is lost |
| ThreadInvariants.DoneVotes | src/session.cpp:57-86 | with all handlers returned, whatever is still queued, every vote taken in is counted or was overtaken by its flag |
| ThreadInvariants.IdleEcho | src/packet_manager.cpp:88-100 | with all buffers encoded, every SEND taken in has been answered by an ECHO, or, encoding late, by a READY in its place |
| ThreadInvariants.BuffersAreOwn | src/packet_manager.cpp:88-100 | every buffer sent is an ECHO for a payload whose SEND was taken in, or a READY for the payload the flag was won for, under the node's own id |
| ThreadInvariants.ObjectsOnlyRise | src/reliablebroadcast.cpp:87-88 | a shared message object keeps its payload and its type only rises |
| ThreadInvariants.ReadyCause | src/session.cpp:68-95 | when the READY flag is won, a threshold had been reached before |
| ThreadInvariants.EchoAnnouncedKept | src/reliablebroadcast.cpp:87-96 | an owed ECHO stays pending, queued or sent, unless a READY took its place |
| ThreadInvariants.ReadyAnnouncedKept | src/reliablebroadcast.cpp:87-96 | an owed READY stays pending, queued or sent as READY |
| Solo.RunsAsHandle | src/session.cpp:34-108 | the fine-grained handler, run without interruption, has exactly the effect of the pure step |
| Progress.StepWorks | src/session.cpp:54-104 | every step of an unfinished handler uses up work, whatever other threads did in between |
| Progress.HandlersEnd | src/session.cpp:54-104 | however handler steps, encodings and intakes interleave, handlers take no more steps than the work at the start and 13 for each message taken in |
| Progress.SchedulesEnd | src/session.cpp:54-104 | no schedule of the network goes on for ever on finitely many messages from clients and faulty nodes: its length is bounded by a measure of its first state and their number |
| Progress.QuiescentExactly | src/session.cpp:54-104 | a reachable state is quiescent iff every action still possible takes in a message from outside or a repeated one |
| Progress.RestInevitable | src/session.cpp:54-104 | left to itself the network must come to rest: every schedule without outside messages is bounded, forgets nothing, and ends exactly in a quiescent state |
| Progress.Settles | src/session.cpp:54-104 | every reachable state leads to a quiescent one, with nothing forgotten, no further SEND and nothing more from faulty nodes |
| Progress.ValidityInevitable | src/session.cpp:54-104 | once all correct nodes took in SEND of d and no other, with copied buffers or with n - f >= q + t, every schedule without outside messages is bounded and at rest all have delivered d |
| Progress.ValidityReached | src/session.cpp:54-104 | once all correct nodes took in SEND of d and no other, with copied buffers or with n - f >= q + t, the run can go on to all of them delivering d |
| Progress.TotalityInevitable | src/session.cpp:77-104 | under the client hypothesis, what one correct node delivered every schedule without outside messages, itself bounded, has brought to all by the time it rests |
| Progress.TotalityReached | src/session.cpp:77-104 | what one correct node delivered, the run can go on to deliver at all, under the client hypothesis |
| SessionsPool.PoolKept | src/reliablebroadcast.cpp:169-216 | every move keeps the pool consistent: handlers of one id are in the one pooled object, candidates are never shared |
| SessionsPool.SameObject | src/reliablebroadcast.cpp:169-216 | in every run all callers inside a session of one id are inside the same object |
| SessionsPool.Isolation | src/reliablebroadcast.cpp:68-97 | a move about one session leaves what every other session shows unchanged, and pool moves leave all unchanged |
| SessionsPool.Refines | src/reliablebroadcast.cpp:68-97 | a move inside a session is one action of the single-session node |
| SessionsPool.RunSimulated | src/reliablebroadcast.cpp:68-97 | what any run of the node shows of one session is, state for state, a run of the single-session node |
| SessionsPool.OneDelivery | src/session.cpp:96-102 | at most one delivery per (chain, client, nonce) in every run of the node |
| SessionsPool.NothingBlocked | src/reliablebroadcast.cpp:48-71 | every handler and every queued reference has a move, and outside a session the move leads closer to it |
| SessionsPool.Enters | src/reliablebroadcast.cpp:209-216 | three steps of its own bring any handler into the one session object of its id, whatever other handlers do between |
| SessionsPool.Reenters | src/reliablebroadcast.cpp:94-96 | a handler that has queued a broadcast re-enters through the pool, where the object it will find is the one it left |
| Network.EchoOrigin | src/session.cpp:57-66 | an echo vote under a correct node's id means that node took in the SEND |
| Network.ReadyOrigin | src/session.cpp:77-86 | a ready vote under a correct node's id means that node won its flag for that payload |
| Network.ProvenanceKept | src/session.cpp:57-95 | however long a chain of READYs, every step keeps it traceable to an echo quorum |
| Network.RunConsistent | src/session.cpp:54-104 | node invariants, authentic votes and provenance hold at the end of every run |
| Guarantees.InterleavingSafety | src/session.cpp:58-104 | in every run: at most one READY broadcast and one delivery per session, delivered implies the READY flag, and no captured count is ahead of its set |
| Guarantees.NoLostTrigger | src/session.cpp:58-104 | in every run, once the handlers of a node have returned, whatever is still queued, each flag is set iff some set is past its threshold, and each set flag has been acted on exactly once |
| Guarantees.SentIsOwn | src/reliablebroadcast.cpp:87-96 | in every run, whenever buffers are encoded, a correct node sends under its own id only ECHOs of payloads whose SEND it took in and READYs of the one payload it won the flag for |
| Guarantees.Provenance | src/session.cpp:57-95 | if a correct node set its READY flag for m, some correct node's echo set for m has reached the target |
| Guarantees.NoCreation | src/session.cpp:54-104 | a delivered payload was taken in as a SEND by a strict majority of the correct nodes |
| Guarantees.Agreement | src/session.cpp:57-104 | if no correct node is handed SENDs of two payloads, no two correct nodes deliver different payloads |
| Guarantees.AgreementForAnyClient | src/session.cpp:87-103 | when n + f <= 4t + 1, no two correct nodes deliver different payloads whatever the clients send |
| Guarantees.Totality | src/session.cpp:77-104 | under the client hypothesis, in a quiescent state what one correct node delivered all have delivered, and only that |
| Guarantees.Validity | src/session.cpp:54-104 | if all correct nodes took in SEND of d and no other, at quiescence all have delivered d: with copied buffers always, with late encoding when n - f >= q + t |
| Guarantees.Amplify | src/session.cpp:88-95 | in a quiescent state where all correct READYs are for one payload, t + 1 of them mean that every correct node has delivered it |
| Guarantees.QuorumTookSend | src/session.cpp:57-76 | an echo quorum at a correct node means most correct nodes took in the SEND |
| Guarantees.OnePayloadSameReady | src/session.cpp:57-76 | under the client hypothesis all correct READYs are for one payload |
| Schedules.HandleNow | src/session.cpp:34-108 | in the network, a node at rest can take in an available message and handle it as the pure step does |
| AgreementLimit.Disagreement | src/session.cpp:54-104 | when n + f >= 4t + 2 a run exists in which two correct nodes deliver different payloads |
| AgreementLimit.AgreementForAnyClientExactly | src/session.cpp:87-103 | agreement holds in every run whatever the clients send iff n + f <= 4t + 1 |
| ValidityLimit.Starvation | src/packet_manager.cpp:88-100 | with late encoding and n - f < q + t, a run exists in which every correct node takes in SEND of one payload, everything sent arrives and not all deliver |
| ValidityLimit.ValidityDeferredExactly | src/packet_manager.cpp:88-100 | with late encoding, validity holds in every run iff n - f >= q + t |
| TotalityLimit.Stranded | src/session.cpp:77-104 | with a faulty node, a run exists in which one correct node delivers, everything sent arrives, and not all deliver |
| TotalityLimit.TotalityForAnyClientExactly | src/session.cpp:77-104 | totality holds in every run whatever the clients send iff no node is faulty and n <= 4t + 1 |
| Chains.WorldPooled | src/reliablebroadcast.cpp:169-216 | in every run of a network of many-session nodes every node's pool stays consistent |
| Chains.RunProjects | src/reliablebroadcast.cpp:68-97 | what any run of many-session nodes shows of one session is, state for state, a run of the single-session network of its chain |
| Chains.AgreementPerSession | src/session.cpp:57-104 | agreement for every (chain, client, nonce) in every run of many-session nodes, if no correct node of the chain is handed SENDs of two payloads in that session |
| Chains.AgreementPerSessionForAnyClient | src/session.cpp:87-103 | agreement for every (chain, client, nonce) of a chain with n + f <= 4t + 1, whatever clients do |
| Chains.NoCreationPerSession | src/session.cpp:54-104 | what a node delivers in a session, most correct nodes of the chain took in as a SEND of that session |
| Chains.TotalityPerSession | src/session.cpp:77-104 | under the client hypothesis, when a session is quiet, what one correct node delivered in it all have, whatever other sessions do |
| Chains.ValidityPerSession | src/session.cpp:54-104 | when n - f >= q + t and a session is quiet, the one payload handed to all correct nodes has been delivered by all |
| Chains.ObjectParameters | src/reliablebroadcast.cpp:224-226 | the objects of a node that knows the chains have, in every session, the thresholds of the network the guarantees are about |
| ChainsProgress.MoveRank | src/reliablebroadcast.cpp:48-97 | every move of a many-session node, lookup, insertion, handler step or encoding, lowers one measure of the whole world; only messages from outside raise it, by a fixed amount |
| ChainsProgress.WorldSchedulesEnd | src/reliablebroadcast.cpp:48-97 | no schedule of many-session nodes goes on for ever on finitely many messages from outside |
| ChainsProgress.QuietExactly | src/reliablebroadcast.cpp:48-97 | every session is quiet iff every move left takes in a message from outside or a repeated one |
| ChainsProgress.WorldRestInevitable | src/reliablebroadcast.cpp:48-97 | left to itself every schedule is bounded, and where it can go no further every session is quiet |
| ChainsProgress.ValidityInevitablePerSession | src/session.cpp:54-104 | when n - f >= q + t and all correct nodes of the chain took in SEND of d in a session and no other, every schedule without outside messages is bounded and ends with all having delivered d in it |
| ChainsProgress.TotalityInevitablePerSession | src/session.cpp:77-104 | under the client hypothesis, what one correct node delivered in a session every schedule without outside messages brings to all |
| Wire.LeRoundTrip | src/abstract_message.tcc:4-22 | an integer written to k bytes reads back, if it fits |
| Wire.UnLeRoundTrip | src/abstract_message.tcc:4-22 | bytes read as an integer write back |
| Wire.LeTruncates | src/packet_message.cpp:88-97 | a count or length written to 16 bits reads back modulo 65536 |
| Wire.LeDigit | src/abstract_message.tcc:15-22 | byte i of a written integer is its base-256 digit i, lowest first |
| Wire.SizeIsLength | src/packet_message.cpp:75-83 | the computed size is the length of the encoding, for every tree |
| RoundTrips.LeafRoundTrip | src/message.cpp:50-116 | every message parses back from its encoding |
| RoundTrips.LeafBytes | src/message.cpp:74-116 | every buffer of at least 33 bytes whose first byte is at most 2 is the encoding of what it parses to |
| RoundTrips.RoundTrip | src/packet_message.cpp:16-103 | every packet tree whose counts and member sizes fit 16 bits parses back from its encoding, at any depth |
| RoundTrips.ParsedFits | src/packet_message.cpp:16-47 | whatever parses without null members fits 16 bits and is no longer than the buffer |
| RoundTrips.RoundTripExactly | src/packet_message.cpp:16-103 | a tree without null members parses back from its encoding iff its counts and member sizes fit 16 bits |
| RoundTrips.TableRoundTrip | src/packet_message.cpp:89-97 | the length table reads back as the member sizes modulo 65536 |
| RoundTrips.ClientSpeaksTheFormat | client/message.py:17-23 | what the Python client encodes the node parses to the same fields, with node id 0 |
| Layout.MessageLayout | src/message.cpp:50-58 | an encoded message is 0, 1 or 2 for SEND, ECHO or READY, then chain, client, nonce and node id at 1, 9, 17 and 25, eight bytes each, lowest first, then the payload from 33 |
| Layout.PacketLayout | src/packet_message.cpp:85-103 | an encoded packet is 3, the count at 1, the size of member i at 3 + 2i, two bytes each, lowest first, then each member at the sum of the sizes before it |
| Layout.Rejections | src/abstract_message.cpp:54-86 | an empty range, a type byte above 3, a message without a whole header and a packet without a whole length table are rejected |
| Layout.MessageAt | src/message.cpp:74-116 | every range of 33 bytes or more that starts with 0, 1 or 2 is read as the message whose fields stand there |
| Layout.PacketAt | src/packet_message.cpp:16-47 | a range is read as a packet of given members iff 3, a count and that many lengths are followed by members that stand one after the other as the lengths say; what follows the last is ignored |
| Layout.OverrunAt | src/packet_message.cpp:38-46 | reading leaves the buffer iff a member, all before it being read, is declared past the buffer or holds one that is |
| Codec.Write | src/abstract_message.tcc:15-22 | writes the bytes of the integer at the cursor, nothing else, and advances past them |
| Codec.Read | src/abstract_message.tcc:4-13 | reads the integer at the offset and advances past it |
| Codec.GetEncodedSize | src/packet_message.cpp:75-83 | the loop returns exactly the number of bytes the encoding has |
| Codec.Encode | src/abstract_message.cpp:42-52 | writes the encoding at begin and nothing outside it, exactly when the range is large enough; otherwise writes nothing |
| Codec.EncodeNew | src/abstract_message.cpp:35-40 | a fresh buffer of exactly the encoded size that holds the encoding |
| Codec.EncodeMessage | src/message.cpp:50-58 | the header and payload of a message follow its type byte |
| Codec.EncodePacket | src/packet_message.cpp:85-103 | the count, the length table and the members follow the type byte |
| Codec.EncodeTable | src/packet_message.cpp:89-97 | the loop writes the whole length table |
| Codec.EncodeMembers | src/packet_message.cpp:98-102 | the loop writes the members one after the other, each at its place |
| Wire.ParseInside | src/packet_message.cpp:38-46 | the parser as run on a buffer, which holds declared lengths against neither range nor buffer, agrees with the format on every range whose packets keep their members inside |
| Codec.ParseRange | src/abstract_message.cpp:54-86 | parsing a range of a buffer gives what the original reads, members that reach past their packet included, up to lengths that leave the buffer; when members stay inside, it is what the format says of the range alone |
| Codec.ParseMessage | src/message.cpp:74-116 | the cursor parser of a message reads the four fields and the payload, and rejects a short range |
| Codec.ParsePacketRange | src/packet_message.cpp:16-47 | the cursor parser of a packet agrees with the recursive parser on a buffer, its three rejections included |
| Codec.ReadTable | src/packet_message.cpp:33-36 | the loop reads the whole length table |
| Codec.ParseMembers | src/packet_message.cpp:38-46 | the loop parses each member in its declared range, from a moving cursor |
| Dispatch.PacketManager.Post | src/packet_manager.cpp:45-47 | appends one job |
| Dispatch.PacketManager.Receive | src/packet_manager.cpp:32-43 | what parses is posted, null members and all, and what does not is dropped; of a length that leaves the buffer nothing is promised |
| Dispatch.PacketManager.PostAll | src/packet_manager.cpp:54-58 | posts the members of a packet, in order |
| Dispatch.PacketManager.RunJob | src/packet_manager.cpp:45-64 | any job, whichever runs next, keeps the messages handed on plus those queued, and leaves fewer objects queued; only a null pointer stops it |
| Dispatch.PacketManager.Drain | src/packet_manager.cpp:45-64 | in any order of jobs the queue drains iff no null pointer is in it at any depth, and then hands on exactly the multiset of messages inside it |
| Dispatch.LeavesLaws | src/packet_manager.cpp:54-58 | the messages inside a packet are those inside all its members together, in any split, each message being inside itself |
| Dispatch.EncodeQueued | src/packet_manager.cpp:88-111 | the buffer is the encoding of what the oldest queued object reads when the job runs, raw or in a packet, and goes to exactly the other nodes of the chain; an unknown chain sends nothing |
| Dispatch.HandOver | src/reliablebroadcast.cpp:138-144 | a received message is handled, with its own fields, in the session they name; what that queues reads on the wire as the message itself with the new type and the node's own id |
| Dispatch.Relay | src/packet_manager.cpp:32-111 | the oldest queued broadcast of one node, encoded in either form, is handed on exactly once at every other node of the chain and at no other, with every field as it read when encoded |
| Dispatch.Pass | src/packet_manager.cpp:32-111 | the oldest queued broadcast of one node, relayed to an idle peer, is handled there in the session its own chain, client and nonce name, with its payload, type and node id |
| Dispatch.FormsAlike | src/packet_manager.cpp:92-100 | receivers get the message itself from the raw form always, and from the packet form iff the message is shorter than 65536 bytes |
| Checker.ConsistencyTester.constructor | client/consistency_tester.py:5-10 | every chain starts with a blank book |
| Checker.ConsistencyTester.OnTestStart | client/consistency_tester.py:12-15 | every chain is reset to a blank book |
| Checker.ConsistencyTester.OnSend | client/consistency_tester.py:17-21 | takes the book of its chain one step and leaves the others |
| Checker.ConsistencyTester.OnDelivery | client/consistency_tester.py:23-36 | takes the book of its chain one step and leaves the others; unknown and repeated deliveries change nothing |
| Checker.ConsistencyTester.GetResult | client/consistency_tester.py:38-45 | reports every chain's book |
| Checker.CountPartial | client/consistency_tester.py:41 | counts the incomplete messages with at least one delivery |
| Checker.ReplayTells | client/consistency_tester.py:17-36 | after any trace the index equals the recount: sends, complete messages, and for every other message the nodes that delivered it since it was sent |
| Checker.ReportIsRecount | client/consistency_tester.py:38-45 | the report is the numbers of messages delivered by all, by some but not all, and by no nodes, and they sum to the messages sent |
| Rounds.ReplayKeeps | client/consistency_tester.py:17-36 | after any trace, names sent again and unknown nodes included, and for any number of nodes, the index tells the rounds: sends, complete rounds, and for every open round the nodes that delivered in it |
| Rounds.ReportIsRounds | client/consistency_tester.py:38-45 | on any trace the report is the number of complete rounds, of open rounds some node delivered in, and of all other rounds |
| Rounds.Shares | client/consistency_tester.py:38-45 | the three numbers share out all sends |
| Rounds.Test | client/tester.py:21-76 | the tester object, reset, driven through the calls of any trace and asked for its result, reports the rounds of every chain; on fresh names and known nodes this is the plain recount |

## Left out

- Broadcaster.ReliableBroadcast.Deliver: an append to a log; Redis, its reconnecting and the five-second rate window are an external service and a clock.
- Codec.ParseRange: says `Overrun` when a declared length leaves the buffer itself, where the behaviour of the original is not defined.
- Dispatch.PacketManager.RunJob: stops at a null pointer, which the original dereferences.
- Checker.ReportIsRecount: assumes that names are sent once per chain and that node indices are below the number of nodes, which is at least one, as the client that drives it ensures; `Rounds.ReportIsRounds` says what is reported otherwise.
- Rounds.Test: a chain the tester was not set up with is a precondition rather than a `KeyError`.
- Sockets, the receive loop and its 2048-byte buffer, thread start-up, logging and printing: what remains of them is that jobs are posted and handlers interleave.
- Session expiry (`removeLoop`, `removeSession`): no caller.
- Loading and reloading of configuration: the chains a node knows are fixed for a run, and `Chains` assumes that the correct nodes of a chain agree on it.
- `calculateMessageHash`: not used by the protocol, which compares whole payloads.
- `packet_encode` of the Python client: unused, and not the layout the node parses.
- The `router/` directory, deployment, plotting and the other testers of the client.
- Torn reads of an object that another thread is stamping: `Interleaving` reads type and node id together when it encodes, and stamps both in one step.
- Vectors and maps are values inside the objects: the node's session counters, and the members of a packet, are replaced rather than updated cell by cell, and packet members are not shared between packets.
- Machine-word overflow of sizes and of `2 * t`: chains have at most 2^32 nodes and buffers fit in memory, so neither overflows.
