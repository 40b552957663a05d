# MiniEnvoy: a verified model of the proxy's data plane

MiniEnvoy is a single-threaded reactor proxy for the MENV v1 framing: a 32-byte big-endian header and a
payload. This project models the layers its data plane stacks up and proves what they promise.

- `bits.dfy`: the integer arithmetic below everything else: masks, powers of two, 64-bit wrap-around.
- `buffer.dfy`: the slab of chunks with its free list, and the circular buffer, which refines a byte queue.
- `outbox.dfy`: on heap arrays, the bytes a socket did not take: copies that survive the reuse of ring and scratch.
- `protocol.dfy`: the header codec, validation, frames, ERROR frames.
- `parser.dfy`: the suspended parser, and the one-shot parse of a whole byte string it agrees with.
- `upstream.dfy`: the health of an endpoint as a state machine, told from the trace of events.
- `swrr.dfy`, `routes.dfy`: smooth weighted round robin, round robin with skipping, and a route's pick.
- `reactor_state.dfy`: connections, descriptor table, slab, counters, interests and histories as one value,
  and the invariant over them (`Good`): what holds in every state (`Sound`), and what also holds as long as
  no socket has refused a write for good (`Streams`). Four marks nothing in the program reads go with it:
  the connection being served, whether a wakeup was lost to a closed connection, whether a gathering write
  answered EAGAIN, and the clients that are stuck.
- `reactor_lemmas.dfy`: each single change of the state keeps the invariant.
- `reactor_steps.dfy`: the relations the reactor's methods establish, and what became of a frame (`Handled`).
- `reactor.dfy`: the reactor itself, method by method, from `CloseConn` to whole runs.
- `guarantees.dfy`: what the invariant means for sockets, slots, endpoints and pauses. The statements on byte streams
  ask only for the parts of it they rest on, which `CleanStreams` gives in every state before a write failed for good.

The kernel is a script of answers (`Answer`): every system call takes the next one, so a theorem over all
scripts is one over everything the kernel may do. A read gives any bytes up to the room there is, a write
takes any number from none to all, accept and connect give any descriptor not in use, the poller may
refuse one, and route lookup and pick give any endpoint. Which events come, and which connections the sweep
finds idle, is arbitrary too (`Happening`). A script is finite; when it is used up every call answers that it would block.

Each connection carries a history nothing in the program reads: bytes received and accepted, frames put on
it and taken from it, where each went. The byte-stream theorems are statements about these histories. The
reactor also keeps the list of what it recorded about endpoints (`reports`).

Six things the code does that the theorems had to respect:

- After CLOSE the connection's ring is nil, and the loop that dispatched the frame calls `Next` on it. So as
  long as no write fails for good and no gathering write answers EAGAIN, a run panics exactly if a client's CLOSE
  is acted on (`Serve`); `RunOfOneClose` is such a run. The shutdown that is deferred still runs, and still gives
  everything back (`Run`).
- A gathering write that answers EAGAIN returns -1, with which `stashRemainder` starts a slice below zero and
  panics (`StashRemainder`). The model marks such a write (`choked`) and goes on as if nothing had been taken; what is proved
  beyond that mark is about the code with the count clipped at zero.
- A write that fails for good closes the connection inside `flush` and may have the same effect on the
  caller. From then on only `Sound` is claimed: table, slots, counts, pairing and wakeups, not byte streams.
- A client closed in this way during a reselect is paired all the same, and its descriptor may go to another
  client. What its upstream still sends is then written to the other client's socket; the books count those bytes
  for the closed connection. Emptying what waits for the closed one takes the other's write readiness away
  (`StaleWriteLosesWakeup`); nothing else loses a wakeup (`WakeupsSurviveExactly`, `StashKeepsWakeups`, `NoLostWakeup`).
  `ReusedDescriptor` is a state of this kind that the invariant admits; no run to it is shown.
- A failed connect puts two ERROR frames on the client (`FailConnect`), and a reselect puts one there as well.
- A paused client is resumed in one place only, after its pending frame has been sent, and only if little
  enough is left. Marks that fit (`TunedExactly`) keep readLoop from pausing anybody who has nothing pending, but
  not `sendPending` from leaving a client paused (`SendPending` gives the exact condition, `PausedForGood` a history),
  nor a failed connect (`FailConnect`), nor the close of a connecting upstream (`ForsakenIsStuck`).
  `StuckExactly` says that between events everybody else is paused or pending only for an upstream being
  connected, and `NoMarksHelp` that no configuration rules the first case out.

`nextPow2` is right for every size up to 2^32 and, on larger sizes, under an exact condition
(`Bits.NextPow2`); `NewRing` and `NewSlab` give a working buffer of at least the size asked for exactly under it.
The round robin counter is a uint64 converted to int, so from 2^63 picks on the search may start before the
first member (`StartsInside`).

## Model

| member | source | states |
|---|---|---|
| `Bits.NextPow2` | internal/buffer/ring.go:114-125 | on every 64-bit size above 1 the result is the least power of two not below it exactly when the size is at most 2^62 and size-1 has no 32 zero bits in a row below its top bit |
| `Bits.SmallHasNoGap` | internal/buffer/ring.go:114-125 | every size up to 2^32 is free of such gaps, so it is rounded correctly |
| `Bits.GapExample` | internal/buffer/ring.go:114-125 | 2^32 + 1 is a size for which the smear misses a bit |
| `Bits.FinalStep` | internal/buffer/ring.go:119-124 | the final n+1, with 64-bit wrap-around, is right exactly without a gap and up to 2^62 |
| `Bits.AndMask` | internal/buffer/ring.go:41 | x & (2^k - 1) is x mod 2^k, also for negative x |
| `Bits.ShrIsDiv` | internal/buffer/ring.go:119-123 | shifting right by j is dividing by 2^j |
| `Buffer.GetTakesOneSlot` | internal/buffer/slab.go:29-41 | Get hands out a slot nobody holds and leaves all other holdings alone |
| `Buffer.PutReturnsOneSlot` | internal/buffer/slab.go:43-50 | Put ends exactly that holding, and the next Get undoes it |
| `Buffer.PutValidExactly` | internal/buffer/slab.go:43-50 | the free list stays free of duplicates exactly when the slot put back was held |
| `Buffer.InUseCountsLive` | internal/buffer/slab.go:52-56 | chunks minus free entries is the number of held slots |
| `Buffer.Slab.NewSlab` | internal/buffer/slab.go:14-25 | for every 64-bit chunk size and preallocation: all chunks idle; the chunk size is a power of two not below the one asked for exactly when that size is one nextPow2 gets right, and then the least one that is also at least 4096 |
| `Buffer.Slab.Get` | internal/buffer/slab.go:29-41 | the chunk of the slot the free list gives last, or a new one, whatever the chunk size came out as |
| `Buffer.Slab.Put` | internal/buffer/slab.go:43-50 | negative slots are ignored; validity survives exactly if the slot was held |
| `Buffer.Slab.InUse` | internal/buffer/slab.go:52-56 | returns the number of held slots |
| `Buffer.MaskDistance` | internal/buffer/ring.go:37-42 | (w-r)&mask is the number of bytes from the read to the write cursor, also when w has wrapped |
| `Buffer.MaskPlace` | internal/buffer/ring.go:71-76 | (w+n)&mask is the place n steps on around the buffer |
| `Buffer.ArcsPartition` | internal/buffer/ring.go:37-69 | every place of the buffer is in exactly one of the readable bytes, the writable bytes and the one reserved byte |
| `Buffer.Ring.NewRing` | internal/buffer/ring.go:14-20 | for every 64-bit size: at least 64 bytes; an empty queue of a power-of-two capacity not below the size exactly when the size is one nextPow2 gets right, and then the least one that is also at least 64 |
| `Buffer.Ring.AttachRing` | internal/buffer/ring.go:22-25 | a ring over the slab's next chunk; an empty queue exactly if the chunk size is a power of two |
| `Buffer.Ring.Release` | internal/buffer/ring.go:27-33 | gives the slot back once; a second call does nothing |
| `Buffer.Ring.Len` | internal/buffer/ring.go:37-42 | the length of the queue the ring stands for |
| `Buffer.Ring.Free` | internal/buffer/ring.go:44-49 | capacity minus one minus the length |
| `Buffer.Ring.Writable` | internal/buffer/ring.go:55-69 | two slices that cover exactly the free places in order, the first not empty unless the ring is full |
| `Buffer.Ring.AdvanceWrite` | internal/buffer/ring.go:71-76 | appends to the queue the bytes lying in the first n writable places; for any n the exact cursor |
| `Buffer.Ring.Fill` | internal/reactor/reactor.go:265-279 | one read: storing into the first writable slice and advancing appends to the queue exactly the bytes taken, and takes none only if there are none or the ring is full |
| `Buffer.Ring.Peek` | internal/buffer/ring.go:82-95 | the two slices joined are the first min(n, length) bytes of the queue |
| `Buffer.Ring.AdvanceRead` | internal/buffer/ring.go:97-102 | drops the first n bytes of the queue; for any n the exact cursor |
| `Buffer.Ring.CopyOut` | internal/buffer/ring.go:104-112 | copies the front of the queue into dst and leaves the rest of dst alone |
| `Protocol.FieldsOfEncode` | internal/protocol/header.go:27-41 | decoding the fields of an encoded header gives the header back, for every header |
| `Protocol.EncodeOfFields` | internal/protocol/header.go:69-81 | encoding the decoded fields of any 32 bytes gives those bytes back |
| `Protocol.HeaderBytes` | internal/protocol/header.go:69-81 | every byte of an encoded header but the last eight as a digit of its field, most significant first, at its place |
| `Protocol.RequestBytes` | internal/protocol/header.go:69-81 | the last eight bytes, in the same way, for the request id |
| `Protocol.MagicBytes` | internal/protocol/header.go:69-81 | a header has the magic number exactly if its bytes begin with the letters MENV |
| `Protocol.EncodeHeader` | internal/protocol/header.go:69-81 | writes the encoding in place and nothing beyond it |
| `Protocol.DecodeHeader` | internal/protocol/header.go:27-42 | the header whose encoding the bytes are, checked against the hard cap; short input changes nothing |
| `Protocol.ValidateTwice` | internal/protocol/parser.go:36-41 | decoding against the hard cap and then validating against the limit gives the same error or success as validating once |
| `Protocol.EncodeError` | internal/protocol/parser.go:63-78 | writes exactly the ERROR frame, into dst exactly if it has the room and otherwise into new memory |
| `Protocol.ErrorFrameReads` | internal/protocol/parser.go:63-78 | the code, in big-endian digits, the message clipped to 256 bytes and the request's three ids can be read back from the frame, which is valid for every limit of 258 or more |
| `Parsing.Parser.Max` | internal/protocol/parser.go:18-26 | zero means the default limit and nothing exceeds the hard cap |
| `Parsing.Parser.Next` | internal/protocol/parser.go:30-49 | on the ring's queue, which a released ring leaves empty: state, bytes dropped, answer and error of one parsing step; an error drops nothing |
| `Parsing.Parser.ReadHeader` | internal/protocol/parser.go:35-41 | 32 bytes are copied out without advancing and validated against the limit |
| `Parsing.Parser.PeekPayload` | internal/protocol/parser.go:53-55 | the two slices joined are the payload at the front of the queue, or all there is if it is not whole |
| `Parsing.Parser.ConsumePayload` | internal/protocol/parser.go:57-60 | drops exactly the payload and forgets the header; the exact cursor even when the payload is not whole |
| `Parsing.ParseFrames` | internal/protocol/parser.go:30-60 | valid frames sent back to back parse to themselves, whatever follows |
| `Parsing.ParseSound` | internal/protocol/parser.go:30-60 | the frames of any byte string are valid and their bytes are a prefix of it |
| `Parsing.ParseGrows` | internal/protocol/parser.go:30-60 | more bytes never change the frames found so far and never mend an error |
| `Parsing.NextAgrees` | internal/protocol/parser.go:30-60 | a step in the middle of a stream answers as the one-shot parse of all bytes so far does |
| `Parsing.DrainAgrees` | internal/protocol/parser.go:30-60 | working off a ring from any suspended state ends with the frames and ending of the one-shot parse |
| `Parsing.ChunkingIndependence` | internal/protocol/parser.go:30-60 | however a stream is cut into chunks, frames and error are those of the one-shot parse |
| `Parsing.ErrorRecurs` | internal/protocol/parser.go:35-41 | after an error every later Next reports the same error, whatever arrives |
| `Parsing.NextJudges` | internal/protocol/header.go:27-67 | on any 32 header bytes: an error exactly if they are wrong, for the first wrong field in the order magic, version, flags, header length, reserved, opcode, payload length; otherwise a whole frame exactly if the announced payload is there |
| `Parsing.FramesAreFaultless` | internal/protocol/parser.go:30-60 | the bytes of every frame found are 4D 45 4E 56 01 00, an opcode from 1 to 5, 00 20 00 00, and as much payload as announced, at most the limit |
| `Parsing.FaultlessIsFrame` | internal/protocol/parser.go:30-60 | conversely such bytes parse to that one frame, and wrong header bytes to the error for the first wrong field |
| `Parsing.LimitsApply` | internal/protocol/parser.go:18-26 | without a limit PayloadTooLarge starts above 1 MiB, with one up to 8 MiB above that limit, with a larger one never below the cap |
| `Parsing.CapApplies` | internal/protocol/parser.go:18-26 | a payload above 8 MiB is refused whatever the limit |
| `Parsing.ErrorFrameArrives` | internal/protocol/parser.go:63-78 | an ERROR frame with any code and message parses alone and whole under a limit of at least 258 |
| `Upstream.Endpoint.Eject` | internal/upstream/state.go:94-100 | succeeds exactly if not yet ejected; counters untouched |
| `Upstream.Endpoint.Restore` | internal/upstream/state.go:102-110 | from ejected or down to probing with zero counters, otherwise refused |
| `Upstream.Endpoint.RecordFail` | internal/upstream/state.go:112-123 | the next health, as the state machine over events has it |
| `Upstream.Endpoint.RecordSuccess` | internal/upstream/state.go:125-139 | the next health, as the state machine over events has it |
| `Upstream.TraceDecides` | internal/upstream/state.go:89-139 | after every prefix of a trace of events ejected, down and degraded hold exactly when the prefix says so, hence eligibility too, exactly when F is below 2 or there were never, outside ejection, 2^64 + F/2 failures in a row |
| `Upstream.LowThresholdsAlwaysDecide` | internal/upstream/state.go:112-123 | with a threshold of 0 or 1 that is so on every trace |
| `Upstream.SuccessCount` | internal/upstream/state.go:125-139 | in every reachable state probing means fewer than P successes, and down or degraded none |
| `Upstream.HealthIsEarned` | internal/upstream/state.go:94-139 | after any trace an endpoint that is not healthy becomes so exactly with a success, outside ejection, that is at least the P-th in a row |
| `Upstream.RestoringProbes` | internal/upstream/state.go:102-110 | after any trace restoring an ejected or down endpoint leaves it probing with zero counters, and any other as it was |
| `Upstream.FailsReachDown` | internal/upstream/state.go:112-123 | after any trace F failures in a row take an endpoint that is not ejected down, exactly unless F is 2 or more and its counter wraps on the way and gets to F/2 again |
| `Upstream.FailsComeBack` | internal/upstream/state.go:112-123 | after the counter has wrapped, half a threshold of further failures brings an endpoint back into rotation |
| `Upstream.RecoversExactly` | internal/upstream/state.go:125-139 | from down, degraded or a fresh restore, healthy is reached at exactly the P-th success in a row, and kept |
| `Upstream.SuccessesReachHealthy` | internal/upstream/state.go:125-139 | P successes in a row make every endpoint that is not ejected healthy, after any trace |
| `Upstream.PairedFailuresNeverTakeDown` | internal/reactor/reactor.go:395-401 | a success recorded just before each failure, as for ERROR frames of an upstream, keeps the endpoint eligible for ever when F is 2 or more |
| `Swrr.SWRR.Reset` | internal/routing/swrr.go:15-19 | zeros for every member |
| `Swrr.SWRR.Pick` | internal/routing/swrr.go:21-53 | picks the member and leaves the currents that the specification of one pick gives; a list of the wrong length starts from zeros |
| `Swrr.SWRR.Scan` | internal/routing/swrr.go:30-47 | the loop finds the first of the best and the total weight |
| `Swrr.PickedIsFirstBest` | internal/routing/swrr.go:43-50 | none only if nobody is eligible, otherwise the first member whose raised current is largest |
| `Swrr.PickConservesSum` | internal/routing/swrr.go:30-52 | one pick never changes the sum of the currents, whoever is eligible |
| `Swrr.SumStaysZero` | internal/routing/swrr.go:30-52 | from zeros the currents sum to zero after any picks, eligibility and weights changing in between |
| `Swrr.CurIsBalance` | internal/routing/swrr.go:41-51 | a current is k times the weight less W times the number of picks |
| `Swrr.CurAboveMinusTotal` | internal/routing/swrr.go:30-52 | every current stays above -W, and that of an ineligible member at zero |
| `Swrr.CurrentsFit` | internal/routing/swrr.go:36-51 | with eligibility fixed, currents and raised currents stay 64-bit integers for ever if the number of members times the total weight is below 2^63 |
| `Swrr.CurrentsDrift` | internal/routing/swrr.go:36-51 | with eligibility and weights changing, no current is further from zero than the weight handed out so far |
| `Swrr.BackToZero` | internal/routing/swrr.go:30-52 | after W picks every current is zero again |
| `Swrr.Periodic` | internal/routing/swrr.go:21-53 | currents and picks have period W |
| `Swrr.ExactShare` | internal/routing/swrr.go:21-53 | any W picks in a row choose an eligible member exactly as often as its configured weight says, once if the weight is below 1, and an ineligible member never, W being the sum of those numbers |
| `Swrr.PrefixBound` | internal/routing/swrr.go:21-53 | among any first k picks a member was chosen at most ceil(k*w_i/W) times, w_i being its configured weight or 1, and never if ineligible |
| `Swrr.FourToOne` | internal/routing/swrr.go:21-53 | weights 4 and 1: the first five picks are a, a, b, a, a |
| `Routes.RR.Next` | internal/routing/rr.go:9-14 | the counter before the call, read as a signed 64-bit number, modulo the number of members with the sign of the dividend; the counter wraps at 2^64 |
| `Routes.StartsInside` | internal/routing/rr.go:9-14 | the start is a place among the members exactly while the counter is below 2^63 or a multiple of their number below 2^64; below 2^63 it is the counter modulo their number |
| `Routes.StartsOutside` | internal/routing/rr.go:9-14 | at 2^63 picks over three members the start is -2 |
| `Routes.Route.Pick` | internal/routing/table.go:40-58 | nil exactly if nobody is eligible, otherwise an eligible member: the one SWRR picks, or the first eligible one from the counter on; the search indexes before the first member, and panics, exactly when its start is negative |
| `Routes.Route.Search` | internal/routing/table.go:50-57 | the skip loop finds the first eligible member from start on, around the end |
| `Routes.RoundRobinFinds` | internal/routing/table.go:50-57 | the search fails exactly if nobody is eligible |
| `Routes.NearestFirst` | internal/routing/table.go:50-57 | the member found is the nearest eligible one from the start on, around the end |
| `Routes.RoundRobinShare` | internal/routing/table.go:50-57 | any n picks in a row over n members choose eligible j once plus once for each ineligible member in the run just before it |
| `ReactorLemmas.UnlinkedGood` | internal/reactor/reactor.go:506-523 | taking any open connection but the listener out of the table keeps the whole invariant |
| `ReactorLemmas.EmitGood` | internal/reactor/reactor.go:427-433 | putting a whole ERROR frame on a client keeps the invariant |
| `ReactorLemmas.PongGood` | internal/reactor/reactor.go:323-329 | answering a PING and consuming it keeps the invariant: PONGs put out stay equal to PONGs due |
| `ReactorLemmas.DropGood` | internal/reactor/reactor.go:317 | consuming a frame that goes nowhere keeps the invariant |
| `ReactorLemmas.ForwardGood` | internal/reactor/reactor.go:389-425 | passing a frame on byte for byte keeps the invariant: what left one connection for another is what arrived there |
| `ReactorLemmas.ReceivedGood` | internal/reactor/reactor.go:279 | appending received bytes keeps the invariant |
| `ReactorLemmas.ParsedGood` | internal/reactor/reactor.go:287-298 | one Next on a connection with nothing pending keeps the invariant |
| `ReactorLemmas.AdoptedGood` | internal/reactor/reactor.go:201-225 | a new connection on a free descriptor keeps the invariant: fresh slot, table, interest, active count |
| `ReactorLemmas.PairedGood` | internal/reactor/reactor.go:377-380 | joining a client whose DATA frame is whole with a new upstream keeps the invariant |
| `ReactorLemmas.EstablishedGood` | internal/reactor/reactor.go:244-249 | a connecting upstream becoming established keeps the invariant |
| `ReactorLemmas.BouncedGood` | internal/reactor/reactor.go:214-218 | a slot taken and given back at once, when the poller refuses a descriptor, keeps the invariant |
| `ReactorLemmas.WroteSound` | internal/reactor/reactor.go:456-462 | accepted bytes are counted once in the shard's total |
| `ReactorLemmas.TotalUpdate` | internal/reactor/reactor.go:457-459 | the total of accepted bytes grows by exactly the bytes of one write |
| `Outbox.Remain.Append` | internal/reactor/reactor.go:438-443 | appending copies the part's bytes behind what waits, in place or in a new array, never sharing memory with it |
| `Outbox.Remain.Stash` | internal/reactor/reactor.go:471-484 | what is kept is the parts joined, from byte n on, behind what waited, in an array of its own; the first slice starts below zero, and nothing is kept, exactly for a count below zero with a part left |
| `Outbox.Remain.Advance` | internal/reactor/reactor.go:486-504 | the bytes the socket took leave the front |
| `Outbox.StashAndReuse` | internal/reactor/reactor.go:435-484 | the bytes kept of a header scratch and a payload in the ring are unchanged after the ring has been advanced and refilled and the scratch overwritten: nothing kept aliases either array |
| `ReactorSteps.PairedFacts` | internal/reactor/reactor.go:377-383 | after a reselect and connect the client's frame may be sent to the new upstream at once, or waits for it |
| `ReactorSteps.PauseReading` | internal/reactor/reactor.go:260-268 | pausing keeps everything; an upstream is never the one paused, and a settled client only with a pending frame |
| `ReactorSteps.WorkingNext` | internal/reactor/reactor.go:287-301 | a Next either completes a whole frame ready for dispatch or leaves nothing complete |
| `ReactorSteps.NothingLeft` | internal/reactor/reactor.go:544-555 | with only the listener in the table no slot is in use and every endpoint counts zero |
| `ReactorSteps.FreshIsIdle` | internal/reactor/reactor.go:50-85 | the invariant holds at the start |
| `ReactorSteps.BereftOf` | internal/reactor/reactor.go:232-243 | a failed connect with a client puts exactly two ERROR frames on the client, drops its pending frame and unpairs it |
| `ReactorSteps.RejectionTells` | internal/protocol/errors.go:5-47 | code and text of a rejection, told from the rejected header bytes |
| `ReactorSteps.TextIsAscii` | internal/protocol/parser.go:63-78 | message texts go out as their ASCII codes |
| `ReactorSteps.RefusalCodes` | internal/protocol/errors.go:17-30 | the first two bytes of the payload of a refusal are 2001, 2002, 2003 or 1005 in big-endian |
| `ReactorSteps.NoticesSay` | internal/reactor/reactor.go:232-243 | the two notices of a lost upstream carry 2003, their text and the ids of the pending frame |
| `Reactors.Reactor.constructor` | internal/reactor/reactor.go:50-85 | a reactor with only the listener satisfies the invariant |
| `Reactors.Reactor.CloseConn` | internal/reactor/reactor.go:506-530 | terminates for all write outcomes; c goes and at most its peer, an upstream peer with it; a client peer stays while writes succeed and gets exactly one ERROR; nothing else changes; closed again, it does nothing |
| `Reactors.Reactor.Unlink` | internal/reactor/reactor.go:510-523 | the exact state after leaving poller and table, releasing the ring, counting the endpoint down and unpairing |
| `Reactors.Reactor.ReplyError` | internal/reactor/reactor.go:427-433 | while writes succeed exactly the ERROR frame for that request is put on the client |
| `Reactors.Reactor.Flush` | internal/reactor/reactor.go:435-469 | the socket is handed exactly the parts, after what waited, in order; or a write failed for good and the connection was closed |
| `Reactors.Reactor.WriteOut` | internal/reactor/reactor.go:455-468 | with n bytes taken by one gathering write, the rest waits and write readiness is asked for; EAGAIN counts as nothing taken, and is marked |
| `Reactors.Reactor.Append` | internal/reactor/reactor.go:438-443 | all parts are queued in order |
| `Reactors.Reactor.StashRemainder` | internal/reactor/reactor.go:471-484 | what is kept is the parts joined, from byte n on; the first slice starts below zero exactly for a count below zero with a part left |
| `Reactors.Reactor.FlushRemain` | internal/reactor/reactor.go:486-504 | of the waiting bytes exactly those the socket takes leave; the interest goes back to read only when none are left |
| `Reactors.Reactor.ConsumePayload` | internal/protocol/parser.go:57-60 | drops the payload at the head of the connection's ring; on a nil ring it panics exactly if the payload is not empty |
| `Reactors.Reactor.OnPing` | internal/reactor/reactor.go:323-329 | the PING is consumed and answered by one PONG with the same payload and ids |
| `Reactors.Reactor.OnClose` | internal/reactor/reactor.go:330-332 | the CLOSE is consumed and the connection closed; for a client without a peer the exact state afterwards, with no write |
| `Reactors.Reactor.OnData` | internal/reactor/reactor.go:335-383 | refused with 2001 or 2002 as lookup and pick say; otherwise sent to the upstream of the chosen endpoint the client has, or, an upstream of another endpoint being closed first, refused with 2003 if the dial fails or the poller refuses the descriptor, and else routed to the new upstream with that descriptor: at once, or pending if the connect is in progress; exactly a failed dial or adopt is recorded as a failure of the endpoint |
| `Reactors.Reactor.Connect` | internal/reactor/reactor.go:358-383 | as the next two answers say: dial failed or adopt failed, with 2003 and a failure recorded, or the frame is routed to the new upstream, established or connecting |
| `Reactors.PickedAgain` | internal/reactor/reactor.go:348-353 | a client whose peer is an established upstream of the endpoint picked keeps it, and its frame goes there |
| `Reactors.ProgressDecides` | internal/reactor/reactor.go:366-382 | with a connect in progress the frame is pending for a connecting upstream; with one that is through it has gone to an established one |
| `Reactors.Reactor.OnDown` | internal/reactor/reactor.go:321-387 | each opcode is handled as specified; the run's CLOSE flag is set by CLOSE only |
| `Reactors.Reactor.OnUp` | internal/reactor/reactor.go:389-413 | the upstream's frame goes to its client byte for byte, or nowhere if it has none; a success is recorded, and after it a failure if the frame is an ERROR |
| `Reactors.Reactor.Dispatch` | internal/reactor/reactor.go:306-319 | every complete frame is handled by role and opcode; the loop's measure decreases |
| `Reactors.Reactor.SendFrame` | internal/reactor/reactor.go:415-420 | the pending frame is put on the upstream, taken from the client, and nothing is pending any more |
| `Reactors.Reactor.SendPending` | internal/reactor/reactor.go:415-425 | the frame is sent exactly as SendFrame says; then only a paused client at or below the low water mark reads on. With fitting marks the client is afterwards paused with nothing pending exactly if it was paused and what is left in its ring is above the low mark, or is at the high mark or fills the ring; a paused client whose ring is gone panics |
| `Reactors.Reactor.ReadLoop` | internal/reactor/reactor.go:255-304 | what was read is, turn after turn, all that the socket offered that fits, and the loop ends only where the socket has no more, reading is not allowed, or the connection is gone; if nothing complete was left before, nothing complete is left after, but for a pending frame; with fitting marks paused only while one is pending; an unpaired client's CLOSE panics |
| `Reactors.Reactor.ReadOnce` | internal/reactor/reactor.go:256-303 | one turn of the loop: pause, stop, or receive what is offered and work it off; end of file and a read error close the connection |
| `Reactors.Reactor.WorkOff` | internal/reactor/reactor.go:287-302 | terminates with a frame pending, nothing complete left, or the connection closed |
| `Reactors.Reactor.Reject` | internal/reactor/reactor.go:289-295 | a protocol error closes the connection, and the last frame put on a client is the ERROR with its code and text |
| `Reactors.Reactor.Receive` | internal/reactor/reactor.go:265-279 | as many bytes as there is room for are appended to the ring |
| `Reactors.Reactor.Adopt` | internal/reactor/reactor.go:201-225 | the exact state with the new connection, watched for reading, or for writing while its connect is under way; or, if the poller refuses, the old one with the slot given back |
| `Reactors.Reactor.AcceptLoop` | internal/reactor/reactor.go:185-199 | accept after accept until the listener has no more: every descriptor that accept gives and the poller takes becomes a client and is read, one the poller refuses leaves only the slot given back; any of them that begins with CLOSE ends it in a panic |
| `Reactors.Reactor.AcceptOne` | internal/reactor/reactor.go:187-197 | an accepted descriptor the poller takes becomes a client connection, exactly as adopt leaves it, and is then read |
| `Reactors.Reactor.FinishConnect` | internal/reactor/reactor.go:227-253 | on error the connection closes, its client is told twice and a failure is recorded; otherwise it is established and counted, its client's pending frame is sent as SendPending says, and nothing else changes unless the client is resumed and reads on; a success is recorded |
| `Reactors.Reactor.FailConnect` | internal/reactor/reactor.go:228-243 | the client gets two ERROR frames, loses its pending frame and its peer, and is paused afterwards exactly if it was before, stuck then |
| `Reactors.Reactor.Handle` | internal/reactor/reactor.go:158-183 | unknown descriptors change nothing; the listener accepts all there is; hangup alone closes; with read and write readiness what waits is written first, and c is read from there; a connect under way ends as SoError says |
| `Reactors.Reactor.SweepIdle` | internal/reactor/reactor.go:532-542 | whichever connections are found idle are closed, never the listener |
| `Reactors.Reactor.Shutdown` | internal/reactor/reactor.go:544-555 | from every state only the listener is left, no slot is in use and every endpoint counts zero |
| `Reactors.Reactor.Serve` | internal/reactor/reactor.go:107-145 | after any sequence of events the invariant holds; while no write fails for good and no gathering write answers EAGAIN, a panic has happened exactly if a client's CLOSE was acted on |
| `Reactors.Run` | internal/reactor/reactor.go:107-110 | every run, panicking or not, ends with the listener alone, no slot in use and every count zero |
| `Reactors.RunOfOneClose` | internal/reactor/reactor.go:287-332 | for every configuration with room for a header: a client is accepted, its first frame is CLOSE, no write fails or blocks, and the reactor panics |
| `Reactors.Reactor.All` | internal/reactor/fdtable.go:17-23 | exactly the connections in the table |
| `Guarantees.CleanStreams` | internal/reactor/reactor.go:435-504 | in every state before a write failed for good the byte books, the exchanges between connections and the routes hold that the statements below ask for |
| `Guarantees.WireIsWholeFrames` | internal/reactor/reactor.go:435-504 | accepted ++ waiting bytes of every connection parse to exactly the frames put on it, and what was accepted so far never parses to an error |
| `Guarantees.InputIsAccountedFor` | internal/reactor/reactor.go:279-301 | frames taken from a connection are the first frames of the one-shot parse of all it sent, and all of them once reading is at rest with nothing pending |
| `Guarantees.PendingIsNext` | internal/reactor/reactor.go:348-350 | a pending frame is DATA, whole, and the next frame of the client's byte stream |
| `Guarantees.UpstreamGetsItsClientsFrames` | internal/reactor/reactor.go:415-420 | bytes handed to an upstream are, in order, those of the frames its client sent there, all DATA, each at most once |
| `Guarantees.ClientGetsItsUpstreamsFrames` | internal/reactor/reactor.go:389-413 | a client gets from each upstream opened for it the frames of the front of that upstream's stream, in order, from nobody else any, one PONG per PING in order, and otherwise only ERROR frames |
| `Guarantees.RepliesReachTheirClient` | internal/reactor/reactor.go:389-413 | every frame a client got from another connection came from an upstream opened for that client: no reply reaches another client |
| `Guarantees.PingsAreAnswered` | internal/reactor/reactor.go:323-329 | a client is sent one PONG for each PING taken from it, in order, with the PING's ids and payload |
| `Guarantees.RelayIsReported` | internal/reactor/reactor.go:389-413 | a frame passed on to a client is reported to its endpoint as one success, followed by one failure exactly if it is an ERROR |
| `Guarantees.RelaysAreCounted` | internal/reactor/reactor.go:389-413 | over any frames the successes reported for an endpoint are the frames passed on from it, the failures the ERRORs among them |
| `Guarantees.ErrorFramesTakeNobodyDown` | internal/reactor/reactor.go:395-401 | whatever frames an upstream sends, ERRORs only included, its endpoint stays in rotation when F is 2 or more |
| `Guarantees.OutBytesAreConserved` | internal/reactor/reactor.go:456-504 | bytes counted as sent plus bytes waiting are the bytes of all frames ever put on connections |
| `Guarantees.SlotsArePartitioned` | internal/reactor/reactor.go:201-223 | the slots in use are exactly those of the open connections, one each, and the rest is the free list |
| `Guarantees.ActiveCountsUpstreams` | internal/reactor/reactor.go:221-223 | each endpoint's Active is the number of its established connections in the table, and distinct endpoints never count the same one |
| `Guarantees.UpstreamsNeverPause` | internal/reactor/reactor.go:260-268 | with fitting marks no upstream is paused between events and its ring stays below the high water mark |
| `Guarantees.TunedExactly` | internal/reactor/reactor.go:260-268 | the marks fit exactly when readLoop itself can never pause a connection that has nothing complete in its ring and nothing pending: both 32 and the payload limit are at most the high water mark and below the ring's size |
| `Guarantees.StuckExactly` | internal/reactor/reactor.go:227-268 | with fitting marks, before any failed write or CLOSE, between events: the clients recorded as stuck are exactly those paused with nothing pending or with a frame pending for no upstream; every other client is paused or pending only for an upstream being connected, and has room to read otherwise |
| `Guarantees.PausedForGood` | internal/reactor/reactor.go:415-425 | step by step, with fitting marks and low below high: a client pipelines behind its first frame until it is paused, and once its upstream is established sending that frame leaves it above the low mark |
| `Guarantees.NoMarksHelp` | internal/reactor/reactor.go:415-425 | for no configuration is a client that is paused at the high mark resumed by sending a pending frame without payload |
| `Guarantees.LowMarkExactly` | internal/reactor/reactor.go:421-424 | a client is resumed at the low water mark and not one byte above it |
| `Guarantees.ForsakenIsStuck` | internal/reactor/reactor.go:506-530 | closing an upstream that is being connected, by hangup or sweep, leaves its client's frame pending for nobody, paused exactly if it was |
| `Guarantees.OversizedIsNeverReady` | internal/protocol/parser.go:45-48 | in every state a connection whose held header announces more than capacity - 1 bytes has no complete frame, and none after any further bytes |
| `Guarantees.NoLostWakeup` | internal/reactor/reactor.go:481-503 | an open connection with waiting bytes, or with a connect under way, is registered for write readiness in every state, failed writes or not, until writing for a closed connection has robbed another one |
| `Guarantees.NobodyIsUnheard` | internal/reactor/reactor.go:201-225 | in every state the poller watches exactly the descriptors of the table, and every one of them for reading but those whose connect is under way |
| `Guarantees.WakeupsSurviveExactly` | internal/reactor/reactor.go:486-504 | a write of waiting bytes keeps every wakeup exactly unless it empties what waits for a connection whose descriptor another connection has that needs write readiness |
| `Guarantees.StashKeepsWakeups` | internal/reactor/reactor.go:455-484 | a gathering write keeps every wakeup, whoever has the descriptor |
| `Guarantees.StaleWriteLosesWakeup` | internal/reactor/reactor.go:486-504 | writing out what waits for such a closed connection takes the write readiness of the other one away |
| `Guarantees.ReusedDescriptor` | internal/reactor/reactor.go:354-383 | the invariant admits such a state: a client closed on a descriptor another client has now, still paired with an open upstream, bytes waiting for both |
| `Guarantees.TeardownTakesTwoAtMost` | internal/reactor/reactor.go:506-530 | closeConn removes the connection and at most its peer, and whoever is paired afterwards is paired mutually |

## Left out

- The kernel: sockets, epoll and kqueue, descriptors being reused while still open. An accept or connect that answers a descriptor still in the table is treated as failed.
- Reactors.Reactor.WriteOut: EAGAIN counts as nothing taken. What follows the panic of a raw count of -1 is the deferred shutdown only, which is proved from every state.
- The ring inside the reactor is a byte queue with a slot number and the capacity the slab gives. The class `Buffer.Ring` is where the array with its cursors is proved to be such a queue. A read may fill any part of the room, not only the first of the two writable slices, and the two slices of a payload are one part.
- Connections are values in a sequence that only grows, and a pointer to one is its index; so comparing pointers is comparing indices, and nothing is garbage collected. Inside the reactor parts of a write are values; that the copies kept of them share no memory with ring or scratch is proved in `outbox.dfy`.
- Endpoint health and route choice reach the reactor as answers of the environment; the health machine and the pickers are proved by themselves. What the reactor records about an endpoint is the list `reports`.
- Reactors.Reactor.FinishConnect: does not spell out what else is recorded when the client is resumed and its pipelined frames are handled in the same call.
- Per-endpoint byte counters, frame counters and the other metrics; only the shard's OutBytes and the Active counters are modelled.
- Poller.Mod always succeeds for a registered descriptor.
- The clock: the sweep closes an arbitrary set of connections. Commands posted to the reactor, and the stop channel, are not modelled; a run ends after any number of events.
- Several reactors sharing one slab, and interleavings of atomics and mutexes: each method is one atomic step.
- Replies per request: the code promises no number of them, and none is claimed. Frames a client pipelined behind a connect wait for its next event; no liveness is claimed for them.
- Swrr.SWRR.Pick: does not wrap the currents at 64 bits; CurrentsFit and CurrentsDrift say when they need not.
- Table construction, Parser.Reset, Ring.Reset and the string forms of states and algorithms: no property stated here depends on them.
- Admin API, configuration, probing, command-line tools and the web console.
