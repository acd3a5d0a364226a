# A verified model of the quiche-h3 bridge

quiche-h3 puts the poll-based `h3::quic` traits in front of one worker per connection that alone touches the QUIC
transport. This project models that worker, the front-end halves it talks to and the shared cells between them, and
proves what they keep in every run against an adversarial transport and every interleaving.

## Layout

- `Base`, `Buffers`, `Transport`: ids, terminals, error classes, the send buffer, and the transport. Every transport
  answer is an arbitrary choice; a ghost record keeps what the transport *said* (re-armed, nothing to read, gone, and
  every stop and failure per stream), so that the worker's reasons to wait, and its terminals, are the transport's own.
- `SendHalves`: one send half with its held write, and the plain sender it refines.
- `Registry`, `Invariants`: completion tokens, admission, and the worker's invariants over plain values, with one lemma
  per kind of step.
- `Laws`: what a state has to do with the commands applied so far and with the transport's answers: the bytes, FINs and
  resets on every wire, the streams handed out, the receive halves let go of, the stops captured early.
- `History`: where a run stands (`Snap`), what it may only add to (`Grows`), and for each kind of step a lemma that it
  keeps both that and the laws. `Chronicles`: what follows for any state of a run, and for any two.
- `Driver` (module `Worker`): the worker as a class whose methods follow driver.rs stage by stage. `Valid` is the
  invariant between steps; `Inv` excepts the halves being served. Every completion channel is a token: `home` says
  where an unresolved one is, `resolved` how it was answered. `asked` and `cmds` are the commands submitted and applied;
  `Valid` keeps `asked == cmds + inbox + channel` while the connection is open. `Now` is the state a run stands at, and
  `History` says of a step that it only added: every stage and every call from outside keeps it. `Serve` is a whole run.
- `SendFront`: the front-end send half.
- `RecvProtocol`, `AcceptProtocol`, `CompletionProtocol`, `CellProtocol`, `SendCap`, `EndpointProtocol`: the
  shared-memory protocols, one atomic operation per step with a program counter per party. Each has an inductive
  invariant and theorems over all runs. Atomics are taken as sequentially consistent.

## What is true of the code, and what is not

- While a stream has no terminal, accepted bytes, held bytes and queued bytes concatenate to exactly what was submitted.
  A write completes when it is held, not when it is accepted: the comment on completion at acceptance and the code
  differ, and the model follows the code. A turn may make two sends (the held write, then a partial write) where the
  comment speaks of one.
- "A pending reset, and every queued operation, is runnable or re-armed" is false for one family: a peer bidi stream
  admitted with a retained STOP_SENDING. Its send direction counts as done from the start, so a Reset of its handle
  still makes a new entry, and the end of the receive direction drops that entry's run-queue place: the RESET_STREAM
  stays pending with nothing bound to make it (`Worker.Driver.StrandedReset`). A Finish is stranded the same way when
  the handoff is dropped unconverted (`Worker.Driver.StrandedFinish`). Both happen on every such stream that is next to
  be handed over. The family is exactly the streams whose handle was given a stop status at hand-over
  (`Worker.Driver.GivenStopped`; `past.preset` is kept equal to it), and for every other stream the property holds
  (`Invariants.OrphanOnlyPreset`, `Worker.Driver.NobodyForgotten`, `Worker.Driver.StageSendUntilIdle`).
- A stream is *refused* once the transport answered a stop or a failure for it. Bytes are exact per send entry for every
  stream; that the entry is the stream's first, and that an applied reset is pending or made, is stated for streams not
  refused, since a refused one may lose its entry and get a new one.
- `poll_ready` does not look at whether an end was chosen, so "no Send after Finish" is the caller's promise
  (`SendFront.WriteAfterFinish`); the worker's methods take it as a precondition on the command queue.
- The worker's assumptions about its callers are `Registry.CmdsWf`: commands come from a stream's own handles, and
  nothing targets a send half after its one Finish or Reset. About the transport they are the contracts in `Transport`:
  discovery never reports a fully terminal id, a fresh local id, or as readable a local bidi id whose receive half is done
  while its send half lives. The worker is not called again after it was told of the connection's close.

## Model

| member | source | states |
|---|---|---|
| SendHalves.EnqueueOk | quiche-h3/src/driver.rs:2183-2191 | queueing a write or finish extends what was submitted, and what is left to send, by exactly its bytes |
| SendHalves.HoldOk | quiche-h3/src/driver.rs:2458-2469 | moving the head write into the held slot changes nothing that is left to send; the held write is never empty |
| SendHalves.FlushOk | quiche-h3/src/driver.rs:2365-2417 | flushing n held bytes takes exactly the next n unsent bytes |
| SendHalves.WriteOk | quiche-h3/src/driver.rs:2480-2511 | a partial write takes exactly the next n unsent bytes |
| SendHalves.FinOk | quiche-h3/src/driver.rs:2555-2572 | once the FIN leaves, every submitted byte is on the wire and the half is finished |
| SendHalves.TerminatedOk | quiche-h3/src/driver.rs:2231-2254 | a terminal edge leaves one sticky reason that agrees with the shared cell, no queued operation and no held write; an earlier terminal is kept |
| SendHalves.ResetOk | quiche-h3/src/driver.rs:2199-2224 | the first effective reset publishes its code and leaves exactly one RESET_STREAM to make |
| SendHalves.ResetServicedOk | quiche-h3/src/driver.rs:2304-2318 | servicing it makes that one call, with that code |
| SendHalves.HeldRefinesPlain | quiche-h3/src/driver.rs:2304-2572 | in every live state a step of the held-write machine is a step of the plain sender: bytes in order, then one FIN after the last |
| Invariants.TurnIsPlain | quiche-h3/src/driver.rs:2304-2355 | the same for a turn taken inside the whole worker |
| History.AskStep | quiche-h3/src/driver.rs:2183-2191 | queueing a Send or Finish keeps every law: what was submitted on the entry stays the concatenation of the Sends since its birth |
| History.SentStep | quiche-h3/src/driver.rs:2304-2572 | an accepted send keeps every law: at most one FIN, and only after the Finish was applied |
| History.FinishStep | quiche-h3/src/driver.rs:2555-2572 | answering a Finish Ok keeps every law if the FIN and every byte asked of the entry are on the wire |
| History.ResetStep | quiche-h3/src/driver.rs:2304-2318 | making the pending reset keeps every law: it is the stream's only one since hand-over |
| Worker.Driver.EnqueueSendOp | quiche-h3/src/driver.rs:2183-2191 | an operation is queued last, as it came, and made runnable, or failed at once with the sticky terminal; its token is never lost |
| Worker.Driver.ApplyReset | quiche-h3/src/driver.rs:2199-2224 | the first effective reset becomes the terminal, fails exactly what is queued with its code, and is runnable; later ones change nothing |
| Worker.Driver.SendTerminalTransition | quiche-h3/src/driver.rs:2231-2254 | first-writer-wins terminal, every queued operation failed once with it, nothing delivered |
| Worker.Driver.MarkSendDone | quiche-h3/src/driver.rs:2262-2271 | the half is finished and out of the run queue; a stream with every direction done leaves admission at once |
| Worker.Driver.ReclaimFinishedSend | quiche-h3/src/driver.rs:2171-2177 | a finished half without a receive half is forgotten; an unfinished one is kept |
| Worker.Driver.RearmSend | quiche-h3/src/driver.rs:2615-2623 | a blocked half is parked only after the transport was re-armed or failed; a stop is terminal |
| Worker.Driver.ClassifySendErr | quiche-h3/src/driver.rs:2578-2609 | on any send error the work is re-armed, left for connection close, or failed; it is never delivered, dropped or requeued |
| Worker.Driver.FlushHeldOnce | quiche-h3/src/driver.rs:2365-2417 | one call sends a prefix of the held write; FIN rides only the chunk that empties it, which is never empty |
| Worker.Driver.ServiceHeadWrite | quiche-h3/src/driver.rs:2436-2518 | a write is held only if the reported capacity covers it; bytes leave in order |
| Worker.Driver.ServiceWriteTurn | quiche-h3/src/driver.rs:2436-2518 | a held write leaves before the next write; the turn is one contiguous send |
| Worker.Driver.ServiceFinishTurn | quiche-h3/src/driver.rs:2528-2550 | a Finish is delivered only when the FIN left, with every submitted byte before it and exactly one FIN |
| Worker.Driver.CompleteFinishOp | quiche-h3/src/driver.rs:2555-2572 | the Finish is completed once and its half retired, and forgotten if its receive half is gone |
| Worker.Driver.ServiceReset | quiche-h3/src/driver.rs:2304-2318 | the pending reset makes exactly one write-side shutdown with its code |
| Worker.Driver.ServiceSendTurn | quiche-h3/src/driver.rs:2304-2355 | one turn is one plain-sender step, touches no other stream, asks for another turn only if it strictly shrank, and serves a pending reset first |
| Worker.Driver.StageSend | quiche-h3/src/driver.rs:2278-2298 | at most WRITE_BUDGET turns in round-robin order; strictly less work is left; a remainder forces another iteration; a pending reset stays pending or was made; nothing done before is undone and no terminal changes |
| Invariants.BoundedWaiting | quiche-h3/src/driver.rs:2278-2298 | whatever is marked, evicted or requeued meanwhile, an id at position p of the run queue is served or evicted within the next p + 1 pops |
| Invariants.PlaceKept | quiche-h3/src/driver.rs:1879-1890 | no mark, eviction or turn moves a queued id back, and a turn moves it forward |
| Chronicles.WaitingIsBounded | quiche-h3/src/driver.rs:2278-2298 | the same bound between any two states of a worker's run, for the queue steps it made |
| Invariants.TurnLightens | quiche-h3/src/driver.rs:2278-2298 | serving the head and requeueing it only if it shrank strictly decreases the bytes, operations and places in the queue |
| Worker.Driver.StageSendUntilIdle | quiche-h3/src/driver.rs:2278-2298 | without new commands finitely many send stages empty the run queue; everyone queued is served, in order, before anyone twice; all queued work then waits for the transport or connection close, and every reset that was pending was made, except on streams whose handle was given a stop |
| Worker.Driver.NobodyForgotten | quiche-h3/src/driver.rs:2304-2623 | with an empty run queue, every live operation is re-armed or connection-gone and no reset is pending, except on streams whose handle was given a stop at hand-over |
| Invariants.OrphanOnlyPreset | quiche-h3/src/driver.rs:1832-1857 | ending the receive direction can strip queued send work of its run-queue place only on a stream admitted with a retained stop |
| Worker.Driver.PresetIsGiven | quiche-h3/src/driver.rs:1639-1729 | the streams admitted with a retained stop are exactly those whose handle was given a stop status |
| Worker.Driver.StrandedReset | quiche-h3/src/driver.rs:1832-1857 | on every stream next to be handed over with a retained stop, a reset of its handle followed by the peer's FIN stays pending outside the run queue |
| Worker.Driver.StrandedFinish | quiche-h3/src/driver.rs:311-328 | on every such stream, a handoff dropped unconverted leaves its own Finish queued, not runnable and not armed |
| Worker.Driver.ReserveSlot | quiche-h3/src/driver.rs:1343-1384 | a half is parked only after a full answer, `blocked` published, and a second full answer; reading starts only with a permit; a closed channel sends STOP_SENDING and lets the half go |
| Worker.Driver.ReadChunk | quiche-h3/src/driver.rs:1385-1490 | what a read takes is pushed at once and in order; the half is sealed, with exactly those bytes and that end, iff the read ended it; the drain goes on only after bytes without FIN |
| Worker.Driver.Receive | quiche-h3/src/driver.rs:1411-1449 | what a read took is appended to what the consumer was given; only a read that took bytes spends the budget |
| Worker.Driver.FinishRecv | quiche-h3/src/driver.rs:1450-1456 | the half is let go with the end published, first writer wins, and no cursor of another stream moves |
| Worker.Driver.DrainStream | quiche-h3/src/driver.rs:1323-1498 | after a drain the half is sealed, in the drain cursor, drained dry, parked on a full channel or connection-gone; what was done to it is a log the drain protocol admits |
| Worker.Driver.SealRecv | quiche-h3/src/driver.rs:1782-1790 | a half is let go only with its end published, after an applied StopSending of its id, or with its channel closed by the consumer, and with every byte taken already pushed |
| History.SealStep | quiche-h3/src/driver.rs:1782-1790 | letting a half go keeps every law: each receive half handed out is live, was let go for a reason, or belongs to an undone open |
| Worker.Driver.MarkRecvDone | quiche-h3/src/driver.rs:1782-1790 | the same, and the retained send entry is reclaimed |
| Worker.Driver.ResolveRecvViaConn | quiche-h3/src/driver.rs:1807-1817 | a connection-gone read seals with the published terminal if there is one, else leaves the half for connection close |
| Worker.Driver.TerminalTransition | quiche-h3/src/driver.rs:1832-1857 | a stream with all directions done leaves admission, its receive half and every cursor; any other is untouched |
| Worker.Driver.RouteReadable | quiche-h3/src/driver.rs:1148-1172 | a discovered readable id goes to exactly one owned slot |
| Worker.Driver.IntakeReadable | quiche-h3/src/driver.rs:1148-1172 | bounded destructive intake only appends to the drain cursor and the class queues |
| Worker.Driver.DrainResumed | quiche-h3/src/driver.rs:1270-1291 | the oldest resumed halves are drained in order, at most RECV_RESUME_BUDGET, and none other leaves the queue |
| Worker.Driver.Phase1RegisteredDrain | quiche-h3/src/driver.rs:1296-1318 | halves are drained in cursor order, at most READABLE_BUDGET, each still readable one going to the tail; the rest keep their order |
| Worker.Driver.AdmitOne | quiche-h3/src/driver.rs:1639-1729 | a stream is handed over with exactly the stop code it carries, left owned when the accept queue is full, or shut down in the directions it has |
| Worker.Driver.Register | quiche-h3/src/driver.rs:1639-1729 | both halves are registered and handed over, with the send half done from the start iff a stop code is retained |
| Worker.Driver.Phase2Admission | quiche-h3/src/driver.rs:1508-1575 | one pass pops at most ADMIT_BUDGET ids, from the front of each class in order, and parks at most one per class; each popped stream is handed over with its first stop, keeps it, or is shut down; the defensive branches cannot occur |
| Worker.Driver.PromoteParked | quiche-h3/src/driver.rs:1581-1632 | promotion takes parked streams from the front only, at most PROMOTE_BUDGET, only with the bit set, which it clears, and puts a refused one back in front, its stop code with it |
| Invariants.AdmissionPartition | quiche-h3/src/driver.rs:1508-1729 | every observed peer id is in exactly one of pending, parked and registered, once, in its own class queue; recvDone iff no receive half; never all directions done |
| Invariants.AdmitTakePending | quiche-h3/src/driver.rs:1536-1552 | popping a pending class always yields an owned stream that is nowhere else |
| Invariants.EarlyMerge | quiche-h3/src/driver.rs:1235-1251 | merging a probe keeps the first stop code of a waiting stream |
| Invariants.EarlyHandOver | quiche-h3/src/driver.rs:2788-2819 | the handle is given exactly the stop code seen first since discovery |
| History.ProbeStep | quiche-h3/src/driver.rs:1226-1259 | a probe of a stream not handed over keeps every law: it owns the first stop answered since it was last shut down |
| History.AdmitStep | quiche-h3/src/driver.rs:1639-1729 | hand-over keeps every law: the handle is given that stop, and only then its send half is done from the start |
| Worker.Driver.CaptureStop | quiche-h3/src/driver.rs:1226-1259 | a stream not handed over is probed, and waits with the first stop code the probes reported |
| Worker.Driver.RouteSendWritable | quiche-h3/src/driver.rs:1197-1225 | a surfaced half is stopped with the reported code or made runnable if it has work |
| Worker.Driver.StageWritable | quiche-h3/src/driver.rs:1189-1265 | at most WRITABLE_BUDGET ids are surfaced; each with operations queued is runnable afterwards; each bidi id nobody was given was probed and waits with the first stop the transport ever answered for it; nothing done before is undone |
| Worker.Driver.ShutdownPeerDirections | quiche-h3/src/driver.rs:1822-1827 | both directions of a peer bidi stream, only the read side of a peer uni stream |
| Worker.Driver.ApplyStreamCommand | quiche-h3/src/driver.rs:1912-1935 | a Send or Finish is queued with its own bytes or failed with the terminal there; a Reset is the terminal, pending with its code, unless one was there; a stop shuts the read side and lets the half go |
| Worker.Driver.ApplyConnCommand | quiche-h3/src/driver.rs:1936-1964 | opens are staged, bits set, only the first close kept, waiting peer streams cleaned |
| Worker.Driver.ApplyInbox | quiche-h3/src/driver.rs:1898-1970 | the oldest commands are applied in receipt order, exactly as many as CMD_BUDGET allows, and a remainder forces another iteration |
| Worker.Driver.CleanUndelivered | quiche-h3/src/driver.rs:1977-2001 | every parked and pending stream is shut down in its own directions, parked first, and forgotten |
| Invariants.FreshLocal | quiche-h3/src/driver.rs:126-130 | the next id of a class has the local initiator bit and its class bit and was never handed out |
| Invariants.IdsAdvance | quiche-h3/src/driver.rs:2057-2058 | advancing by four after a grant below 2^62 cannot wrap and keeps every allocated id below the counter |
| Worker.Driver.OpenNext | quiche-h3/src/driver.rs:2018-2085 | an open is answered, given up by its own poller, or kept only at zero credit of its class; the counter advances exactly when a stream was handed out |
| Worker.Driver.Deliver | quiche-h3/src/driver.rs:2059-2077 | a granted stream is delivered, or undone with the write side (and for bidi the read side) shut down; only this reply can be given up |
| Worker.Driver.HandoffCleanup | quiche-h3/src/driver.rs:311-328 | dropping an undelivered handoff enqueues one Finish, and a stop for bidi |
| Worker.Driver.CleanupUndeliverableOpen | quiche-h3/src/driver.rs:2152-2159 | the registry entries are gone, only the directions the stream has are shut down, and the open is recorded as undone |
| Worker.Driver.StageOpen | quiche-h3/src/driver.rs:2087-2132 | the oldest opens of a class are answered or given up, at most OPEN_BUDGET; a backlog forces another iteration or its last credit answer was zero; only a reply popped here and dropped for its poller is given up; nothing done before is undone |
| Worker.Driver.ApplyCloseBarrier | quiche-h3/src/driver.rs:1087-1141 | the transport is closed at most once: with the first applied Close, or with H3_NO_ERROR only if none was ever applied, the last handle is gone and no terminal exists |
| Worker.Driver.ClassifyConnTerminal | quiche-h3/src/driver.rs:2654-2676 | the published cause is the most significant present: own bug, peer, timeout, own close, local error |
| Worker.Driver.CompleteCommandOnClose | quiche-h3/src/driver.rs:2743-2770 | a drained command's channel is resolved with the terminal, never dropped |
| Worker.Driver.DoOnConnClose | quiche-h3/src/driver.rs:2685-2737 | after it every Write and Finish channel ever created was resolved exactly once, with the classified terminal if it was still open, and so was every open reply its poller had not given up; earlier terminals and completions are kept |
| Worker.Driver.CloseSends | quiche-h3/src/driver.rs:2695-2712 | every send half has a terminal and nothing queued or held |
| Invariants.NothingLeft | quiche-h3/src/driver.rs:2714-2736 | with every queue empty no token is unresolved |
| Invariants.CloseStaged | quiche-h3/src/driver.rs:1936-1963 | a later Close never replaces the first |
| Worker.Driver.DoProcessReads | quiche-h3/src/driver.rs:942-947 | the packet half of an iteration keeps every law and only adds: reads extend what was taken and pushed, a half that left was let go for a reason, a stop seen early is kept, given or its stream shut down, and no terminal, completion or wire changes back |
| Worker.Driver.DoProcessWrites | quiche-h3/src/driver.rs:959-993 | the oldest commands were applied in order; after an iteration either another is forced, or nothing is runnable and what is queued waits for someone else; every applied Close was attempted; a pending reset stays or was made; only dropped replies were given up; logs are only appended to, wires only extended, completions and terminals kept |
| Worker.Handle | quiche-h3/src/driver.rs:2837-2896 | any event between two calls, from a handle, the transport or the runtime, keeps every law and only adds to what happened; a submitted command joins the journal, and only an iteration applies commands, the oldest first |
| Worker.Serve | quiche-h3/src/driver.rs:2821-2905 | over a whole run, any events in any order: in every state the wires carry exactly what the applied commands ask, at most one FIN, and each applied reset once or still pending; every state extends every earlier one; the transport is closed at most once, with the first applied Close, or H3_NO_ERROR only with no handle left and no other terminal; at the end every Write and Finish is resolved, every open reply resolved or given up, every half ended with one published terminal |
| Chronicles.TerminalIsSticky | quiche-h3/src/driver.rs:2231-2254 | an entry found in two states of a run, in the later one as old as in the earlier, is in every state between, and a terminal it had in the first it has in all |
| Chronicles.ResetIsMadeOnce | quiche-h3/src/driver.rs:2199-2224 | a reset pending in one state of a run is pending in every later one with nothing added to that wire's resets, or was made exactly once with its code |
| Chronicles.EarlyStopIsGiven | quiche-h3/src/driver.rs:1226-1259 | a stop seen before hand-over is what the handle is given in any later state of the run, unless the stream was shut down in between |
| Chronicles.LiveIsExact | quiche-h3/src/driver.rs:2183-2572 | while a half has no terminal, the wire plus what is left to send is what the entry found at birth, then every Send applied since; that is every Send ever applied to the stream, unless the transport refused it |
| Chronicles.FinishIsExact | quiche-h3/src/driver.rs:2528-2572 | a Finish answered Ok has one FIN on its wire, after exactly those bytes |
| Chronicles.ResetsConclude | quiche-h3/src/driver.rs:2199-2318 | each applied reset was made once with its code and no other reset of that handle was, or is pending, or the transport had refused the stream |
| Chronicles.EndsConclude | quiche-h3/src/driver.rs:1782-1857 | each send terminal was answered by the transport, asked by a command or published at close; each receive half is live or was let go with its end, on request, or by its consumer; an early stop given is the first answered |
| Worker.Driver.MarkQuiescentHeldWritesRunnable | quiche-h3/src/driver.rs:1046-1061 | every held write without a following operation becomes runnable |
| Worker.Driver.RestfulWhenSettled | quiche-h3/src/driver.rs:1003-1038 | with nothing runnable, no command and no quiescent held write, every live operation is re-armed or connection-gone or its handle was given a stop, every receive half is drained, parked by a twice-full reservation or connection-gone, and queued opens face zero credit of their class |
| Worker.Driver.WaitForData | quiche-h3/src/driver.rs:2844-2886 | the worker sleeps on the command channel only at rest, and otherwise leaves another iteration due |
| Worker.Driver.constructor | quiche-h3/src/driver.rs:805-889 | a new worker satisfies the invariant |
| Worker.Driver.Submit | quiche-h3/src/stream.rs:350-360 | a handle's command joins the FIFO and the journal, and its completion channel is accounted for |
| Worker.Driver.SignalAccept | quiche-h3/src/stream.rs:758-769 | the accept bit is set, with its command queued on the false-to-true edge, and a settled worker stays settled |
| Transport.QuicConn.StreamSend | quiche-h3/src/conn.rs:264-277 | a prefix is accepted, FIN takes effect iff requested and everything was accepted, an error accepts nothing |
| Buffers.OfferIsPrefix | quiche-h3/src/buffer.rs:37-51 | one send offers a non-empty prefix of what remains, unless nothing remains |
| Buffers.AdvanceConsumes | quiche-h3/src/buffer.rs:37-51 | advancing by what was accepted drops exactly those bytes |
| RecvProtocol.NoLostWakeup | quiche-h3/src/driver.rs:1343-1384 | in every interleaving, a parked worker whose channel has room has a resume in flight or queued, or its consumer is about to send one |
| RecvProtocol.ConsumerKeepsHandshake | quiche-h3/src/stream.rs:94-99 | each consumer step keeps the blocked/resume handshake |
| RecvProtocol.WorkerKeepsHandshake | quiche-h3/src/driver.rs:1270-1291 | each worker step keeps it, with resume cleared before the retry |
| RecvProtocol.LosslessUpToTheSeal | quiche-h3/src/stream.rs:118-156 | when an end is reported every chunk ever taken was yielded in order; one recheck suffices; a missing end is reported only after a local stop |
| RecvProtocol.LogsAreRuns | quiche-h3/src/driver.rs:1323-1498 | however the consumer interleaves, every log the worker's drains can make is a run of the protocol, with the bytes and the end the log says |
| RecvProtocol.ParkedDrainIsWoken | quiche-h3/src/driver.rs:1343-1384 | a drain whose log ends parked is woken once its channel has room |
| AcceptProtocol.NeverStranded | quiche-h3/src/stream.rs:758-769 | in every interleaving, when the worker is past its sleep check a class with waiting streams has one to take or a resume in flight |
| AcceptProtocol.WorkerKeepsInv | quiche-h3/src/driver.rs:1581-1632 | promotion keeps it even when its budget runs out or the bit is set between load and clear |
| AcceptProtocol.StreamsConserved | quiche-h3/src/driver.rs:1508-1632 | no stream is lost or duplicated between discovery and the consumer |
| CompletionProtocol.AnswersAreExact | quiche-h3/src/buffer.rs:224-324 | in every interleaving a poll answers a generation at most once, with the one outcome delivered for it |
| CompletionProtocol.SlotIsCurrent | quiche-h3/src/buffer.rs:245-254 | a stale completer never fills a newer slot |
| CompletionProtocol.StoredIsAnnounced | quiche-h3/src/buffer.rs:260-268 | with an outcome stored, a pending poller was woken, or is registered and a completer's next step wakes it |
| CellProtocol.OneWinner | quiche-h3/src/buffer.rs:101-111 | one set wins and every answer ever given is its value |
| CellProtocol.NeverMissed | quiche-h3/src/buffer.rs:125-138 | with a value stored, a pending poller was woken, or is registered and the winner's next step wakes it |
| SendCap.CapHolds | quiche-h3/src/buffer.rs:396-420 | residency is the sum of live permits and at most the cap or one oversize unit |
| SendCap.ParkedIsCovered | quiche-h3/src/buffer.rs:428-481 | in every interleaving a parked un-woken sender has a release in progress or a live permit bound to wake it |
| SendCap.UnlimitedNeverParks | quiche-h3/src/buffer.rs:396-420 | without a cap nobody parks |
| SendCap.DropKeepsResidency | quiche-h3/src/buffer.rs:504-506 | dropping a permit releases exactly its bytes |
| EndpointProtocol.LiveIsExact | quiche-h3/src/endpoint.rs:90-145 | live equals the registry size and the outstanding guards |
| EndpointProtocol.FenceHolds | quiche-h3/src/listener.rs:241-378 | after the first close no worker is admitted, no acceptor yields a connection and the frame never changes |
| EndpointProtocol.CloseReachesEveryWorker | quiche-h3/src/endpoint.rs:232-265 | in every run, once a close has sent to all its recipients, every worker registered before it whose sender was alive got the first frame, and nobody ever got another |
| EndpointProtocol.IdleIsNeverMissed | quiche-h3/src/endpoint.rs:281-296 | no wait_idle sleeps at zero live workers without a notification made or about to be |
| EndpointProtocol.AcceptIsSafe | quiche-h3/src/listener.rs:241-378 | for each of the acceptors that share the registry: in-flight handshakes stay within the bound, its loop ends only drained, and it never misses the close |
| SendFront.SendStream.PollFinish | quiche-h3/src/stream.rs:392-467 | answers Ok only if the worker completed this half's one Finish without error; once it answered, every later poll gives the same answer |
| SendFront.SendStream.Reset | quiche-h3/src/stream.rs:469-488 | at most one end is enqueued, and a terminal the worker published is not masked |
| SendFront.SendStream.Drop | quiche-h3/src/stream.rs:496-513 | an unfinished half is finished gracefully, still with at most one end |
| SendFront.SendStream.PollReady | quiche-h3/src/stream.rs:302-379 | the stash becomes exactly one Send once admitted, else is kept; a Send after the end is enqueued iff the caller flushes one then |
| SendFront.SendStream.SendData | quiche-h3/src/stream.rs:381-390 | a second buffer before a flush is refused and changes nothing |
| SendFront.OrderlyHalvesMakeOrderlyQueues | quiche-h3/src/stream.rs:302-488 | however the commands of many handles interleave, the worker's queue is well-formed exactly if each half writes nothing after its own end |
| SendFront.WriteAfterFinish | quiche-h3/src/stream.rs:302-379 | the half itself does not prevent a write after its Finish |

## Left out

- Tokio channels, wakers and `Notify`, and quiche itself: modelled by their contracts only.
- Weak memory: relaxed and acquire/release orderings are read as sequentially consistent.
- The receive arena and its allocation amortization: a read yields a fresh sequence of bytes.
- A retained receive end of a peer stream (`pending_recv_terminal`): the code never writes it.
- Byte permits inside the worker's operations: the cap is modelled on its own, with permits dropped at any time.
- Worker.Driver.Deliver: the poller of an open reply is a nondeterministic party; its task is not modelled.
- Worker.Serve: a handle's command is offered only if it keeps the handles' own protocol (`Registry.CmdsWf`).
- Worker.Driver.StrandedReset: the witness is the next pending stream, with no other command queued; so is the one of
  `Worker.Driver.StrandedFinish`.
- Chronicles.ResetsConclude: of a reset applied to a refused stream it says only that the stream was refused; its
  terminal was there first, and a reset after that changes nothing.
- Worker.Driver.StageOpen: the bidi and uni stages are one method with the class as a parameter.
- Worker.Driver.WaitForData: sleeping is the outcome `Asleep`; the yield before a quiescent flush is not a step.
- Worker.Driver.DrainStream: the consumer's side of the byte channel is an arbitrary answer here; `RecvProtocol` models
  it, and the ghost log of each half ties the two.
- Worker.Driver.PromoteParked: the accept consumer is modelled in `AcceptProtocol`; here the bit may only be set between
  iterations.
- RecvProtocol.NoLostWakeup: excludes a connection-gone read, after which the half waits for connection close.
- EndpointProtocol.AcceptIsSafe: the select arms are taken in any order rather than biased.
- SendCap.CapHolds: the machine-integer overflow check of a reservation is not modelled; counters are unbounded.
- SendFront.SendStream.PollReady: the cap's two answers are parameters, and a write's completion cell is its token.
- Error values as h3 sees them, log output, TLS, ALPN, socket binding, the connector and configuration defaults.
- Reclaiming every retained send entry, first-in-first-out order between parked and pending ids, and absence of repeated
  flush attempts for a blocked held write: the code does not guarantee them.
