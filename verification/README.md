# Distributed host-location protocol: a verified model

N nodes each keep a versioned table of host locations, exchange it over framed TCP
connections, and forward packets by it along a line of switches. The repository states what
this is for in comments: no update is permanently lost, no write ever goes through a stale
descriptor, ownership conflicts are detected and never merged, local decisions stay stable.
This project models that code and proves those claims over every run, or gives the exact
condition where a claim does not hold as stated.

`dafny verify dfyconfig.toml` checks all of it. Every lemma is marked `{:induction false}`: each proof
says itself what it is by induction on.

## How the model is laid out

| file | what it covers |
|---|---|
| `HostState.dfy`, `HostRuns.dfy` | one node's table as a value: the six verdicts, life cycle of a MAC, statistics, order independence |
| `HostTable.dfy` | the same module as written: an array, a count, counters, updated in place, proved to do what `HostState` says |
| `Network.dfy` | N nodes as a step relation, one step per lock-protected region, blocking send or receive |
| `NetworkInvariant.dfy` | the inductive invariant of that relation |
| `NetworkDelivery.dfy` | what one learn puts on the wires when nothing comes between its steps |
| `NetworkTheorems.dfy`, `NetworkRecovery.dfy`, `NetworkGap.dfy` | provenance, precedence of the owner, message order, exact coverage, agreement, no loss across aborts, and a run in which a learn reaches nobody |
| `SendSafety.dfy` | the two-lock discipline inside one process, down to single writes and descriptor reuse |
| `SnapshotExchange.dfy` | the symmetric exchange over bounded channels, against a C node and against the Python peer |
| `PeerProtocol.dfy`, `Framing.dfy` | the wire format in C and in Python, and framing over a segmented stream |
| `PeerTransport.dfy` | the slot loops, the handshake and the exchange loop in place, from socket bytes to table, refining `Network` |
| `Decisions.dfy`, `LearningApp.dfy` | the forwarding decision, its stability over runs, and the NO_RULE handler |
| `ChainTopology.dfy`, `ChainForwarding.dfy` | port numbering of the line of switches, loop freedom and delivery |
| `FlowString.dfy`, `FlowMod.dfy` | printing and parsing flow strings, building and reading OpenFlow 1.3 Flow-Mods |
| `PersistentAdapter.dfy` | the adapter's two calls, and its stream as a switch reads it |
| `CoreTable.dfy` | the Core's growable tables and what a scan returns while others write |
| `LatencyStats.dfy` | percentiles, median and the bootstrap interval over exact reals |
| `Basics.dfy` | bytes and options |

The history fields of the step relation (`minted`, `collected`, `copy`, `via`) and of the
classes (`history`, `sent`, `torn`, `ids`, `wire`, `orders`, `whole`) are written but never consulted by any step.

## Claims that needed a condition

- "Every learn reaches every connected peer" is false. `NetworkGap.SomeLearnReachesNobody`
  gives a reachable state with a live, drained, ready connection whose far side lacks the
  owner's record: the learn came after the snapshot copy and collected slots before `ready`.
  `NetworkRecovery.HeldExactlyWhenCovered` is the if-and-only-if for one connection, with any
  others around it; `NetworkRecovery.UncoveredStaysHome` is the converse for a whole mesh: a
  learn that no connection of its owner covered is known nowhere else.
- "No update is permanently lost" holds while the origin does not restart
  (`NetworkRecovery.NoLossAcrossAborts`): the origin's own table keeps it or something newer,
  and wherever a later exchange with it completes the update is settled, up to conflict and
  capacity, until that node restarts.
- The exchange is free of deadlock exactly when a channel can hold the smaller of the two
  snapshots (`SnapshotExchange.ExchangeAlwaysCompletes`,
  `SnapshotExchange.DeadlocksWhenNeitherFits`).
- The C and Python payload encoders agree byte for byte exactly on records whose flag is 0 or 1
  (`PeerProtocol.EncodersAgree`); the decoders agree exactly on 59-byte payloads with such a
  flag and on payloads both find too short (`PeerProtocol.DecodersAgree`). The Python reader has
  no size limit (`Framing.ReadersAgree`).
- An answer of 0 from the persistent adapter means that the switch can read the order as long as no
  send on that connection was cut in the middle (`PersistentAdapter.SwitchIsTold`); the adapter
  goes on after a cut, and then it may not (`PersistentAdapter.DoneButUnread`).
- A scan of a Core table returns every surviving item except exactly one per delete below a
  cursor that is not at the end (`CoreTable.ScanCoverage`).

## Where comments and code differ

- implementation/src/daim_peer_transport.c:315-323 says a peer's `disseminate` looks only at
  `active`; the code at implementation/src/daim_peer_transport.c:811-822 requires `ready` as
  well. The model follows the code, and `NetworkTheorems.DeferredCameThroughReuse` shows the one
  way a deferred update can still arise: a slot recycled between collection and send.
- implementation/src/daim_peer_transport.c:406 says both sides have finished when the deferred
  updates are applied; only this side has read its END.
- implementation/include/daim_peer_transport.h:92 speaks of active connections; the code sends
  to ready ones.

## Model

| member | source | states |
|---|---|---|
| HostTable.HostTable.constructor | implementation/src/daim_distributed_state.c:49-65 | a fresh table is empty, its first sequence is 1, its statistics are zero |
| HostTable.HostTable.Reinit | implementation/src/daim_distributed_state.c:49-65 | initialising a running module forgets every record and starts the sequences again |
| HostTable.HostTable.FindIndex | implementation/src/daim_distributed_state.c:38-47 | the index of the one record for a MAC, -1 exactly when the map has none |
| HostTable.HostTable.LearnLocal | implementation/src/daim_distributed_state.c:67-96 | the record is this node's own, with the next sequence, both times now, over whatever was there; with 4096 other MACs on record the answer is 0 and only a sequence is spent; statistics untouched |
| HostTable.HostTable.Apply | implementation/src/daim_distributed_state.c:108-194 | each of the six verdicts exactly when the old table warrants it, the record written field by field on new and updated and nothing otherwise, exactly that verdict's counter one up; a live update and a snapshot entry alike |
| HostTable.HostTable.Find | implementation/src/daim_distributed_state.c:196-213 | a record exactly when the map has the MAC, and that record, by linear search |
| HostTable.HostTable.ExportSnapshot | implementation/src/daim_distributed_state.c:215-230 | the copy lists every record once and nothing else |
| HostTable.HostTable.ReadStats | implementation/src/daim_distributed_state.c:232-256 | the counters reported add up to the applies ever made, and with the fresh learns and takeovers they determine both reported counts |
| HostTable.TableMeaning | implementation/src/daim_distributed_state.c:38-47 | an array with distinct MACs is a map: every slot is its MAC's record and every record has a slot |
| HostTable.TableReplace | implementation/src/daim_distributed_state.c:156-164 | overwriting one slot in place is replacing one record of the map |
| HostTable.RemotesCounted | implementation/src/daim_distributed_state.c:243-254 | counting non-local slots counts the MACs owned elsewhere |
| HostState.LearnKeepsOk | implementation/src/daim_distributed_state.c:67-96 | at most 4096 records, each local exactly when this node is its origin, own versions below the next sequence: kept by learning |
| HostState.ApplyKeepsOk | implementation/src/daim_distributed_state.c:108-170 | the same consistency, kept by applying any remote record at all |
| HostState.JudgedAsWarranted | implementation/src/daim_distributed_state.c:124-170 | which inputs end in which verdict: an own or zero origin or no room, an unknown MAC, another origin on record, the same version, an older one, a newer one; each if and only if |
| HostState.ApplySettles | implementation/src/daim_distributed_state.c:108-170 | after an apply the table holds that origin at an equal or newer version, or another origin, or is full |
| HostState.ApplyKeepsSettled | implementation/src/daim_distributed_state.c:108-170 | what one record settled no later apply unsettles |
| HostState.LearnKeepsSettled | implementation/src/daim_distributed_state.c:67-96 | nor does any later learn |
| HostRuns.LifeCycle | implementation/src/daim_distributed_state.c:67-170 | between any two points of any run a MAC goes only from absent to one remote origin with rising versions to this node's own with rising versions |
| HostRuns.LearnedRecordStands | implementation/src/daim_distributed_state.c:67-170 | no number of remote applies touches a record just learned |
| HostRuns.CountersAddUp | implementation/src/daim_distributed_state.c:108-170 | every apply of a run ends in exactly one of the six verdicts |
| HostRuns.CountersMeasureTheTable | implementation/src/daim_distributed_state.c:232-256 | the table's size is new plus fresh learns; the remote part is new minus silent takeovers |
| HostRuns.FoldIsMaximum | implementation/src/daim_distributed_state.c:98-170 | folding applies leaves, for each MAC, the maximal version among everything known and received |
| HostRuns.OrderIndependence | implementation/src/daim_distributed_state.c:98-194 | any order and repetition of the same coherent claims leaves the same claims on record |
| Network.FreeSlot | implementation/src/daim_peer_transport.c:470-486 | the slot taken is the first inactive one |
| Network.ReadySlots | implementation/src/daim_peer_transport.c:811-822 | the slots collected are exactly the active and ready ones |
| Network.TargetsRise | implementation/src/daim_peer_transport.c:811-822 | slots are collected in order, none twice |
| NetworkInvariant.StartingInv | implementation/src/daim_distributed_state.c:49-65 | freshly started nodes satisfy the invariant |
| NetworkInvariant.StepKeepsInv | implementation/src/daim_peer_transport.c:491-584 | every step of every thread, in any interleaving, keeps the invariant on logs, slots, tables, mint history and collections |
| NetworkInvariant.ReachableInv | implementation/src/daim_peer_transport.c:309-584 | so it holds in every reachable state |
| NetworkInvariant.ConnectKeepsInv | implementation/src/daim_peer_transport.c:586-688 | a new connection between two nodes keeps it |
| NetworkInvariant.RestartKeepsInv | implementation/include/daim_distributed_state.h:25-37 | a restart with a larger epoch keeps it |
| NetworkInvariant.DeliverKeepsInv | implementation/src/daim_peer_transport.c:824-828 | sending to a collected slot keeps it, even when the slot was recycled in between |
| NetworkInvariant.DeferShape | implementation/src/daim_peer_transport.c:360-395 | queueing an update in mid-exchange, or aborting on the seventeenth, keeps everything said about the endpoint |
| NetworkInvariant.MailInOrder | implementation/src/daim_peer_transport.c:223-255 | what an endpoint reads next continues its peer's log without a gap and in protocol order |
| NetworkInvariant.NeverServingWhenReady | implementation/src/daim_peer_transport.c:549-570 | a ready endpoint has finished serving its peer's request |
| NetworkTheorems.Provenance | implementation/src/daim_distributed_state.c:67-170 | every claim in any table, log, queue, copy or pending send was minted |
| NetworkTheorems.MintedByLearning | implementation/src/daim_distributed_state.c:67-96 | and each minted claim goes back to one learn step of its origin, with that step's MAC, port, epoch and sequence |
| NetworkTheorems.Agreement | implementation/src/daim_distributed_state.c:67-170 | equal origin, epoch and sequence anywhere in the system means equal in every field |
| NetworkTheorems.DuplicateDiscardsNothing | implementation/src/daim_distributed_state.c:148-152 | a DUPLICATE verdict only ever discards a record identical to the one held |
| NetworkTheorems.OwnerDominates | implementation/src/daim_distributed_state.c:67-170 | no copy anywhere is ahead of its origin; within the living epoch the origin's own record is local and at least as new |
| NetworkTheorems.LookupFindsTheLearned | implementation/src/daim_distributed_learning_app.c:104-114 | whatever runs between learn and lookup, the record found is the one just minted |
| NetworkTheorems.SendingTheCurrentRecord | implementation/src/daim_distributed_learning_app.c:104-114 | a record under dissemination is still the node's record for that MAC |
| NetworkTheorems.UpdatesFollowEnd | implementation/src/daim_peer_transport.c:549-551 | on every connection HELLO precedes REQUEST, REQUEST precedes END, and an update collected from this endpoint follows its END |
| NetworkTheorems.DeferredCameThroughReuse | implementation/src/daim_peer_transport.c:360-395 | every deferred update was collected for an earlier connection in the very slot of the sending node, and that connection has been torn down |
| NetworkTheorems.NothingDeferredWithoutReuse | implementation/src/daim_peer_transport.c:329-404 | without slot reuse in mid-call the queue stays empty and no update arrives during an exchange |
| NetworkTheorems.ReadyHearsOnlyUpdates | implementation/src/daim_peer_transport.c:431-468 | between nodes of this code a ready endpoint reads nothing but updates and has nothing left to serve, so the other branches of message handling are never met |
| NetworkTheorems.SlotsHaveOneOwner | implementation/src/daim_peer_transport.c:470-486 | two connections of a node never hold the same slot |
| NetworkTheorems.ExactCoverage | implementation/src/daim_peer_transport.c:798-830 | on a live, drained, ready connection the owner's current record was carried if and only if it preceded the copy or its collection followed readiness, and what was carried is settled at the far side |
| NetworkDelivery.LearnReachesReadyPeers | implementation/src/daim_distributed_learning_app.c:104-114 | from any reachable state a learn left alone puts the new record exactly once on every ready, unbroken connection of its node, leaves every other endpoint as it was, mints exactly that claim, and returns to idle |
| NetworkDelivery.DeliverAll | implementation/src/daim_peer_transport.c:824-828 | the sending loop writes one update to each slot collected whose connection is alive, and nothing else |
| NetworkRecovery.QuietMeshAgrees | implementation/src/daim_peer_transport.c:798-830 | a quiescent mesh with no learn in the gap agrees on every single-claimant MAC |
| NetworkRecovery.HeldExactlyWhenCovered | implementation/src/daim_peer_transport.c:545-551 | on a live, drained, ready connection from a quiet owner, where no other connection into the far node carried this very claim and neither conflict, capacity nor a stale write intervenes, the far node holds the current record if and only if it was covered |
| NetworkRecovery.HeldMeansCoveredOrRelayed | implementation/src/daim_peer_transport.c:545-551 | without slot reuse, whatever a node records of another origin came over a connection that covered it, or was relayed by a third node |
| NetworkRecovery.UncoveredStaysHome | implementation/src/daim_peer_transport.c:798-830 | in a mesh of any shape and history, without slot reuse, a record held anywhere but at its origin was covered by some connection of that origin; a learn that none covered is known nowhere else |
| NetworkRecovery.RunKeepsSettled | implementation/src/daim_distributed_state.c:67-170 | what a node has settled stays settled through every step of every thread and node, until that node itself restarts |
| NetworkRecovery.CompletedExchangeSettles | implementation/src/daim_peer_transport.c:309-426 | once an exchange is complete the receiver has settled every entry of the peer's atomic export |
| NetworkRecovery.LaterCopiesSeeMore | implementation/src/daim_distributed_state.c:215-230 | a copy taken after some state includes everything its node had minted by then |
| NetworkRecovery.NoLossAcrossAborts | implementation/src/daim_peer_transport.c:377-395 | an update anywhere in the system is kept at its origin at an equal or newer version in every later state; and a node that has completed an exchange with that origin at any later point of the run, over a snapshot copied since, has it settled from then on, whatever became of that connection, until it restarts |
| NetworkRecovery.LaterExchangeSettles | implementation/src/daim_peer_transport.c:309-426 | one exchange completed at any point of a run, its snapshot copied after the start, leaves every claim the origin had minted by the start settled at the receiver at the end of the run, if neither has restarted |
| NetworkGap.SomeLearnReachesNobody | implementation/src/daim_peer_transport.c:545-551 | a concrete run after which a learned record is in neither the snapshot nor the live stream |
| SendSafety.StepKeepsInv | implementation/src/daim_peer_transport.c:161-218 | lock ownership, descriptors, flags and wires stay consistent under every interleaving |
| SendSafety.WritesReachTheCheckedSocket | implementation/src/daim_peer_transport.c:180-206 | whenever a send is about to write, its descriptor is open and is that of the connection whose flag was checked |
| SendSafety.WiresCarryOnlyTheirOwn | implementation/src/daim_peer_transport.c:180-206 | no socket ever carries bytes checked for another |
| SendSafety.IdsRiseInWireOrder | implementation/src/daim_peer_transport.c:184-193 | message ids rise strictly from frame to frame on each wire and frames never interleave |
| SendSafety.OneWriterPerSlot | implementation/src/daim_peer_transport.c:180-207 | at most one thread is between check and last write of a slot |
| SendSafety.SlotsHaveOneOwner | implementation/src/daim_peer_transport.c:470-486 | of the 32 slots none has two connections, ready implies active, an active slot has an owner |
| SendSafety.TeardownWaitsForSender | implementation/src/daim_peer_transport.c:576-583 | teardown cannot start between a sender's check and its last write |
| SnapshotExchange.NeverStuck | implementation/src/daim_peer_transport.c:309-404 | when the smaller snapshot fits, some side can always move |
| SnapshotExchange.ExchangeAlwaysCompletes | network/daim_synthetic_peer.py:119-142 | every run is bounded, ends only when both are done with every entry delivered, and neither side sees END before serving its peer's request; for C against C and C against Python |
| SnapshotExchange.OneFullSnapshotIsEnough | implementation/src/daim_peer_transport.c:282-293 | room for one full snapshot of 4096 entries always suffices |
| SnapshotExchange.DeadlocksWhenNeitherFits | implementation/src/daim_peer_transport.c:333-345 | when neither snapshot fits, a run leads both sides into blocking sends |
| PeerProtocol.ValueOfBigEndian | implementation/src/daim_peer_protocol.c:29-66 | reading a field of any width gives back the number written |
| PeerProtocol.BigEndianOfValue | implementation/src/daim_peer_protocol.c:29-66 | and writing a number read gives back the bytes |
| PeerProtocol.UnpackOfPack | network/daim_synthetic_peer.py:32-33 | unpacking inverts packing for every format and every values that fit |
| PeerProtocol.PackOfUnpack | network/daim_synthetic_peer.py:32-33 | packing inverts unpacking |
| PeerProtocol.PutU64 | implementation/src/daim_peer_protocol.c:29-35 | the shift loop writes the big-endian bytes at the offset and nothing else |
| PeerProtocol.GetU64 | implementation/src/daim_peer_protocol.c:57-66 | the accumulating loop never loses a bit and yields the big-endian value |
| PeerProtocol.EncodeHeader | implementation/src/daim_peer_protocol.c:68-77 | the C encoder writes byte for byte what the Python peer packs |
| PeerProtocol.DecodeHeader | implementation/src/daim_peer_protocol.c:79-98 | code and every field on every buffer: -1 for fewer than 30 bytes or a first byte other than 1, then -2 above 4096, else 0 with each field from its bytes |
| PeerProtocol.HeaderRoundTrip | implementation/src/daim_peer_protocol.c:68-98 | decoding an encoded header gives it back, or the exact refusal its version or length deserves |
| PeerProtocol.HeaderReencodes | implementation/src/daim_peer_protocol.c:68-98 | an accepted header encodes to the bytes it came from |
| PeerProtocol.HeaderLayout | implementation/src/daim_peer_protocol.c:68-77 | the header byte for byte: version 1, type, and the four numbers in this order and these widths |
| PeerProtocol.LocationLayout | implementation/src/daim_peer_protocol.c:100-113 | the 59 bytes of a record, field by field |
| PeerProtocol.EncodeHostLocation | implementation/src/daim_peer_protocol.c:100-113 | the 59 payload bytes, and no byte beyond them |
| PeerProtocol.DecodeHostLocation | implementation/src/daim_peer_protocol.c:115-132 | accepted exactly at 59 bytes, with each field from its place |
| PeerProtocol.LocationRoundTrip | implementation/src/daim_peer_protocol.c:100-132 | decoding inverts encoding for every record that fits the wire |
| PeerProtocol.LocationReencodes | implementation/src/daim_peer_protocol.c:100-132 | every accepted payload encodes back to itself |
| PeerProtocol.EncodersAgree | network/daim_synthetic_peer.py:40-46 | C and Python write the same bytes if and only if the flag is 0 or 1; otherwise Python's are those of the normalised record |
| PeerProtocol.DecodersAgree | network/daim_synthetic_peer.py:49-63 | exactly which payloads both decoders read alike |
| PeerProtocol.NumberRoundTrip | implementation/src/daim_peer_protocol.c:134-180 | the payloads of one number, HELLO, ACK and SNAPSHOT_BEGIN, decode to the number encoded, and every accepted payload encodes back to itself |
| PeerProtocol.EncodeHello | implementation/src/daim_peer_protocol.c:134-138 | eight big-endian bytes, and no byte beyond them |
| PeerProtocol.DecodeHello | implementation/src/daim_peer_protocol.c:140-148 | the number, accepted exactly at eight bytes; ACK is decoded alike |
| PeerProtocol.EncodeSnapshotBegin | implementation/src/daim_peer_protocol.c:166-170 | four big-endian bytes, and no byte beyond them |
| PeerProtocol.DecodeSnapshotBegin | implementation/src/daim_peer_protocol.c:172-180 | the number, accepted exactly at four bytes |
| PeerProtocol.EncodeError | implementation/src/daim_peer_protocol.c:182-199 | the error payload, or 0 and an untouched buffer when the text is too long |
| PeerProtocol.DecodeError | implementation/src/daim_peer_protocol.c:201-219 | code and text cut to the caller's capacity, or refusal, on every buffer |
| PeerProtocol.ErrorRoundTrip | implementation/src/daim_peer_protocol.c:182-219 | an encoded error decodes to its code and as much text as fits |
| Framing.ReadBack | implementation/src/daim_peer_transport.c:161-255 | a frame is read back as sent, by C and by Python, whatever follows it |
| Framing.FrameLayout | implementation/src/daim_peer_transport.c:184-206 | the bytes of a frame in order; the second is its message type |
| Framing.CutShort | implementation/src/daim_peer_transport.c:223-255 | a frame cut short yields nothing |
| Framing.ReadIsFaithful | implementation/src/daim_peer_transport.c:223-255 | what was read is exactly what stood on the stream |
| Framing.PrefixGivesWholeFrames | implementation/src/daim_peer_transport.c:223-255 | the first k bytes of any run of frames give exactly the whole frames among them |
| Framing.ReadersAgree | network/daim_synthetic_peer.py:108-117 | both readers agree on every stream except that Python accepts frames above the size limit |
| Framing.SendAll | implementation/src/daim_peer_transport.c:141-159 | under any pattern of short writes and interruptions all bytes or a strict prefix reach the wire, and which of the two depends on the kernel alone |
| Framing.SendFragmented | network/daim_synthetic_peer.py:87-97 | any fragment sizes put the same bytes on the wire |
| Framing.Sender.SendFramed | implementation/src/daim_peer_transport.c:161-218 | one whole frame with the next id exactly when the payload fits, the connection is active and up, and the kernel takes all of it; otherwise -1, with at most a torn frame on a dead connection; ids rise along the wire |
| Framing.ReaderSeesWhatWasSent | implementation/src/daim_peer_transport.c:141-255 | a reader of any part of what a sender wrote gets a prefix of the frames sent, of all of it exactly those frames |
| Framing.RecvExact | network/daim_synthetic_peer.py:99-106 | exactly n bytes however the stream was cut, or an error only at its end |
| Framing.RecvMessage | network/daim_synthetic_peer.py:108-117 | the Python reader is a function of the stream, not of its segmentation |
| Framing.RecvFramed | implementation/src/daim_peer_transport.c:223-255 | so is the C reader, within its buffer: it succeeds exactly when the stream holds a frame that fits and no signal or error cuts one of its two MSG_WAITALL calls short |
| Framing.RecvUntilClosed | implementation/src/daim_peer_transport.c:553-570 | the receive loop yields the frames of the stream in order, stopping before the first whose reading is cut short, and all of them when none is |
| PeerTransport.Slots.Acquire | implementation/src/daim_peer_transport.c:470-486 | the first inactive of the 32 slots is marked active and not ready; -1 and no change exactly when all are active |
| PeerTransport.Slots.CollectReady | implementation/src/daim_peer_transport.c:811-822 | the loop under the lock collects every slot that is active and ready, once, in order, and no other |
| PeerTransport.Connection.ExchangeHello | implementation/src/daim_peer_transport.c:521-536 | the node's epoch goes out as type 1; success exactly on a well-received first frame of type 1, whose origin is the peer; 1 for a failed send, 2 for anything else |
| PeerTransport.Connection.SendUpdate | implementation/src/daim_peer_transport.c:809-828 | one frame of type 3 with the 59 bytes of the record, or a dead connection |
| PeerTransport.UpdateArrives | implementation/src/daim_peer_transport.c:431-440 | such a frame carries 3 as its second byte, is read back whatever follows, and means that very update |
| PeerTransport.SizesOnTheWire | implementation/src/daim_peer_transport.c:161-206 | HELLO, REQUEST, ENTRY and END are frames of 38, 30, 89 and 30 bytes, the sizes the capacity results count in |
| PeerTransport.Connection.ServeSnapshotRequest | implementation/src/daim_peer_transport.c:265-293 | the entries of one atomic copy, each once, then END; it fails only when the connection is inactive or a send has brought it down |
| PeerTransport.Connection.HandleExchangeFrame | implementation/src/daim_peer_transport.c:329-404 | one received frame does what one turn of the step relation does, which is: type 3 with 59 bytes is appended to the queue, or refused at the sixteenth held; type 6 with 59 bytes is applied; nothing else touches table or queue; it fails only on a full queue or a dead connection |
| PeerTransport.Connection.ExchangeSnapshots | implementation/src/daim_peer_transport.c:309-426 | from raw bytes: the frames consumed are the first of the stream, the table is the old one with every type-6 record applied in order and, on success, every type-3 record after all of them, the answer counts the type-6 records, and frames and turns are those of the step relation; it fails only through a full queue, a dead connection, a stream without another frame, or a receive cut short |
| PeerTransport.Connection.Replay | implementation/src/daim_peer_transport.c:406-425 | deferred updates are applied in arrival order |
| PeerTransport.Connection.HandleMessage | implementation/src/daim_peer_transport.c:431-468 | a frame of type 3 with 59 bytes is applied as the record it carries, no other frame touches the table, and type 4 is answered with a whole copy unless the connection is dead; all as in the step relation |
| PeerTransport.TurnIsARun | implementation/src/daim_peer_transport.c:329-404 | each turn is a run of the step relation that touches only this endpoint and its node's table |
| PeerTransport.ReplayIsARun | implementation/src/daim_peer_transport.c:406-425 | replaying the queue is the run of replay steps that empties it and touches nothing but this endpoint and its node's table |
| PeerTransport.ExchangeApplies | implementation/src/daim_peer_transport.c:329-404 | whatever the frames, the turns they amount to apply each entry in order and queue each update in order until one is too many |
| Decisions.IndexFrom | implementation/src/daim_distributed_learning_app.c:30-39 | the first position of a node in the chain, -1 exactly when it is not there |
| Decisions.DecidePoints | implementation/src/daim_distributed_learning_app.c:44-52 | FLOOD for an unknown MAC, a local one's own port, the port by the two first positions in the chain for a remote owner, and NONE when either node is not in it |
| Decisions.LocalMeansHostPort | implementation/src/daim_distributed_learning_app.c:104-105 | with the host-port filter every local record points at the host port |
| Decisions.DecisionsSettle | implementation/src/daim_distributed_learning_app.c:116-120 | over any run the decisions for one destination read FLOOD, then one port, then the host port |
| Decisions.TransitFlowsAgree | implementation/src/daim_distributed_learning_app.c:139-143 | on a switch that never learns a MAC all flows installed for it share one port |
| LearningApp.LearningApp.ChainIndexOf | implementation/src/daim_distributed_learning_app.c:30-39 | the search loop finds the first position |
| LearningApp.LearningApp.NextHopPort | implementation/src/daim_distributed_learning_app.c:44-52 | lower, higher, or NONE when either end is not in the chain |
| LearningApp.LearningApp.LearnAndDisseminate | implementation/src/daim_distributed_learning_app.c:104-114 | a packet from another port learns nothing and sends nothing; one from the host port with room makes exactly the new own record, which is what is found after any applies between, and is disseminated once if there is a transport |
| LearningApp.LearningApp.ChoosePort | implementation/src/daim_distributed_learning_app.c:116-120 | FLOOD for an unknown destination, its own port when local, lower or higher by chain position when remote, NONE when a position is missing |
| LearningApp.LearningApp.DecideAndInstall | implementation/src/daim_distributed_learning_app.c:116-143 | a flow from the ingress port to that port, except for FLOOD, NONE or a refusal by the adapter |
| LearningApp.LearningApp.OnNoRule | implementation/src/daim_distributed_learning_app.c:78-144 | the whole effect of one event on table, history, dissemination, flows, decision and statistics; it adds a learn to the history only for the host port, so the filter is kept |
| LearningApp.EventKeepsFiltered | implementation/src/daim_distributed_learning_app.c:94-105 | an event with any applies in between keeps the host-port filter of the history |
| LearningApp.HandlerSettles | implementation/src/daim_distributed_learning_app.c:94-120 | so every decision the handler takes is one of the settled sequence, and every local record points at the host port |
| LearningApp.LearnedSurvives | implementation/src/daim_distributed_learning_app.c:104-114 | the record minted is what a later lookup finds |
| ChainTopology.Build | network/distributed_prototype_gate.py:101-107 | creating links in this order gives every port the neighbour the comment promises, both ways |
| ChainTopology.ConfiguredPortsLeadThere | network/distributed_prototype_gate.py:110-120 | the two ports of a node lead to its two neighbours; 0 stands for no neighbour and leads nowhere |
| ChainForwarding.NoLoops | implementation/src/daim_distributed_learning_app.c:44-52 | whatever the switches decide, no link carries a packet twice, no copy turns back, nobody gets it twice, the sender never gets it back, within n decisions |
| ChainForwarding.KnowingPointsAtOwner | implementation/src/daim_distributed_learning_app.c:44-52 | a table that records the owner yields the port towards it; one that does not floods |
| ChainForwarding.DeliveredOnTheShortestPath | implementation/src/daim_distributed_learning_app.c:116-120 | when all tables record the owner its host alone gets the packet, over exactly as many links as lie between |
| ChainForwarding.DeliveredWhilePartlyUnknown | implementation/src/daim_distributed_learning_app.c:116-120 | while some tables are still empty the owner's host gets it exactly once |
| ChainForwarding.FloodReachesEveryHost | network/daim_distributed_controller.py:141-146 | a flooded packet reaches every other host over every link once |
| FlowString.ParseMacOfText | implementation/src/ovs_persistent_adapter.c:100-107 | parsing a printed MAC gives it back |
| FlowString.ParseMacOfGroups | implementation/src/ovs_persistent_adapter.c:100-107 | six groups of two digits, or one where that is enough, in either case, are that MAC whatever other than a digit follows |
| FlowString.MacNeedsColons | implementation/src/ovs_persistent_adapter.c:100-107 | nothing with fewer than five colons is a MAC |
| FlowString.AtoiReads | implementation/src/ovs_persistent_adapter.c:117-132 | a sign, the digits of any number, and anything after them are read as that number |
| FlowString.StrTok | implementation/src/ovs_persistent_adapter.c:115-116 | one call returns the next token and leaves the rest, whatever it overwrites |
| FlowString.ParseFlowString | implementation/src/ovs_persistent_adapter.c:109-139 | the destructive loop yields the parse of the string, by its tokens in order, or an error |
| FlowString.ParseOfFields | implementation/src/ovs_persistent_adapter.c:109-139 | any fields in any order and number: each sets exactly what it says, a later one overrides, an unknown one changes nothing |
| FlowString.RefusedExactly | implementation/src/ovs_persistent_adapter.c:109-123 | the only refusals are 512 characters or more and a MAC that cannot be read |
| FlowString.ParseOfNormal | implementation/include/ovs_persistent_adapter.h:20-25 | the form ending in actions=normal, for every priority |
| FlowString.ParseOfInPort | implementation/include/ovs_persistent_adapter.h:20-25 | the form with a port and an output, for every priority, port and output |
| FlowString.ParseOfInPortAndMac | implementation/include/ovs_persistent_adapter.h:20-25 | the form with port, MAC and output, for all four values |
| FlowString.ParseOfBareMatch | implementation/include/ovs_persistent_adapter.h:20-25 | the bare matches of a delete |
| FlowString.ParseOfPrint | implementation/src/daim_distributed_learning_app.c:54-73 | printing and parsing any decision gives it back, and no buffer truncates it |
| FlowMod.BuildMatch | implementation/src/ovs_persistent_adapter.c:143-170 | the match with its length filled in afterwards and its padding |
| FlowMod.BuildActions | implementation/src/ovs_persistent_adapter.c:172-190 | one apply-actions instruction with one output, or nothing |
| FlowMod.BuildFlowMod | implementation/src/ovs_persistent_adapter.c:194-229 | the whole message with the total length patched in |
| FlowMod.MessageLayout | implementation/src/ovs_persistent_adapter.c:194-229 | every byte of the message in order, the fixed ones as the standard has them |
| FlowMod.MatchLayout | implementation/src/ovs_persistent_adapter.c:143-170 | every byte of the match: OXM headers, values, length, padding to eight |
| FlowMod.ActionLayout | implementation/src/ovs_persistent_adapter.c:172-190 | every byte of the instruction |
| FlowMod.FlowModLength | implementation/src/ovs_persistent_adapter.c:194-229 | 48 plus the padded match plus 24 for an add with output; a multiple of 8; within all scratch buffers |
| FlowMod.ReadFlowModBack | implementation/src/ovs_persistent_adapter.c:194-229 | an independent reading of the message gives transaction, command, priority, match and output |
| FlowMod.PipelineRoundTrip | implementation/src/daim_learning_app.c:75-94 | from a decision through string, parser and builder to the message's reader nothing is lost |
| FlowMod.NormalRoundTrip | implementation/tests/test_persistent_adapter.c:150 | for every priority the form ending in actions=normal becomes an add of 88 bytes that matches IPv4 and outputs to NORMAL |
| FlowMod.WireFlowModSize | implementation/src/ovs_persistent_adapter.c:435-440 | the reported size in terms of the fields present, 0 for a refused string |
| PersistentAdapter.Adapter.FlowAdd | implementation/src/ovs_persistent_adapter.c:307-323 | a refused string changes nothing; otherwise one transaction number is spent and the message of type add is written whole, or only its first bytes, or not at all, and 0 is the answer exactly for the whole; counted only then |
| PersistentAdapter.Adapter.FlowDelete | implementation/src/ovs_persistent_adapter.c:325-341 | the same with command 3 |
| PersistentAdapter.StreamRead | implementation/src/ovs_persistent_adapter.c:194-229 | a switch that cuts the stream by the length fields reads exactly the messages written, in order, whatever follows |
| PersistentAdapter.SwitchIsTold | implementation/src/ovs_persistent_adapter.c:307-341 | as long as no send was cut in the middle, what the switch has read is exactly the orders reported as done, in order |
| PersistentAdapter.CutKeepsEarlier | implementation/src/ovs_persistent_adapter.c:315-322 | a message cut in the middle tells nothing and leaves the earlier ones as they were |
| PersistentAdapter.DoneButUnread | implementation/src/ovs_persistent_adapter.c:315-322 | after such a cut an order reported as done may never be read: an instance |
| CoreTable.Table.EnsureCapacity | implementation/src/daim_core.c:95-110 | capacity 8, then doubling, contents unchanged |
| CoreTable.Table.Write | implementation/src/daim_core.c:112-160 | 0xa appends; 0xb removes the first item equal to the entry and pulls the cursor back only past the end; anything else, an empty entry or a miss changes nothing |
| CoreTable.Table.Read | implementation/src/daim_core.c:162-185 | the first item at or after the cursor that has the filter as a prefix, None exactly when there is none, the cursor behind it; the unfiltered read is the read step of the scan laws |
| CoreTable.Table.Rewind | implementation/src/daim_core.c:187-197 | only the cursor moves |
| CoreTable.ScanCoverage | implementation/src/daim_core.c:112-197 | among any adds, deletes and reads: nothing twice, in insertion order, and in the end all survivors except one per skipping delete |
| CoreTable.QuietScanIsComplete | implementation/src/daim_core.c:162-197 | without a skipping delete the scan is complete |
| CoreTable.GenerationCountsWrites | implementation/src/daim_core.c:112-160 | over any calls on any number of tables the one generation counter grows by the successful adds and deletes, and the number of items by their difference |
| CoreTable.SameGenerationSameItems | implementation/src/daim_core.c:112-160 | an unchanged generation means that the contents of no table have changed |
| LatencyStats.PercentileMonotone | network/distributed_prototype_gate.py:350-358 | a higher quantile is never a smaller value |
| LatencyStats.PercentileBetweenRanks | network/distributed_prototype_gate.py:350-358 | the exact value between two ranks, for any arrangement of the values in order |
| LatencyStats.PercentileRank | network/distributed_prototype_gate.py:350-358 | at least how many values lie at or below a percentile, and at or above it |
| LatencyStats.PercentileIgnoresOrder | network/distributed_prototype_gate.py:350-358 | the order of measurement does not matter |
| LatencyStats.MedianIsMiddlePercentile | network/distributed_prototype_gate.py:350-380 | the median is the percentile at one half |
| LatencyStats.SummaryIsOrdered | network/distributed_prototype_gate.py:372-383 | median, 95th, 99th percentile and maximum are in this order |
| LatencyStats.SummaryQuantiles | network/distributed_prototype_gate.py:372-383 | which quantiles are reported, by rank |
| LatencyStats.BootstrapMedianCi | network/distributed_prototype_gate.py:361-369 | the ends are the 0.025 and 0.975 percentiles of the medians of the resamples, in order and within the measured range |

## Left out

- Widths: sequence numbers, epochs and message ids are unbounded in the table and the step relation; wrap-around at 2^64 is not modelled. The codecs have the real widths.
- Clocks: timestamps are opaque inputs. One exchange uses one clock value throughout (`PeerTransport`), and the on-apply and lifecycle callbacks are not modelled.
- Restarts: an operator may reuse or lower an epoch; the model restarts with a strictly larger one, as the fencing assumption asks. Node ids are unique and not zero.
- `daim_host_state_reset`: it rewinds sequences inside one epoch and breaks the uniqueness of versions.
- Sockets: creation, listening, dial backoff, `TCP_USER_TIMEOUT`, errno values and `daim_peer_transport_destroy`. A connection may appear between any two nodes and break at any step. A send that fails or takes nothing ends the connection.
- Allocation failures: not modelled, except that an exchange may be abandoned at any step.
- Transport statistics other than the sender's message and byte counts.
- PeerTransport.Connection.ExchangeSnapshots: one thread on its own; other threads' steps between two frames are the subject of `Network`. The bound on message ids stands for the 64-bit counter.
- PeerTransport.Connection.HandleMessage: a failed reply to a second request is not reported, as in the code.
- SendSafety.IdsRiseInWireOrder: the pieces of one frame carry its id, so the order within a frame is by position only.
- SnapshotExchange.ExchangeAlwaysCompletes: channels count whole frames; live updates and the deferred queue are left to `Network`.
- ChainForwarding.NoLoops: a switch may decide anything, including by flows installed long before; the OpenFlow rule that output to the ingress port needs OFPP_IN_PORT (section A.2.1 of the OpenFlow Switch Specification 1.3.0) is part of the model.
- FlowString.ParseFlowString: `atoi` beyond the range of int, and a sign or 0x inside a two-digit hexadecimal group, are read as plain digits; C leaves the first undefined.
- FlowMod.BuildFlowMod: what a switch does with a delete's match is not modelled.
- PersistentAdapter.Adapter.FlowAdd: the handshake and the echo replies of the reader thread on the same socket are left out, and calls follow each other, as the lock makes them do.
- CoreTable.Table.Write: the table is given, so the checks of its number are left out, and so are `malloc` failure, `daim_quit` and the signal registry.
- LatencyStats.SummaryIsOrdered: exact reals, no floating-point rounding; the random generator is any choice of indices.
- LearningApp.LearningApp.OnNoRule: the write to the packet-forwarding table is not recorded, and the adapter's answer is an input.
- `daim_peer_transport_add_peer` and the rule that the lower node dials the higher one: any pair may connect.
- The single-Core learning application's own table, the Os-Ken controllers, ctypes bridges, Mininet and iptables harnesses, the mock and process-spawning adapters, `reader_loop` and `do_handshake`.
- Conflict resolution, tombstones, causal order between origins and heartbeats, which the repository documents as not implemented.
