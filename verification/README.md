# Byte-resume protocol of the helper mode, modelled and proved in Dafny

The program tunnels TCP streams through an SSH channel to a small remote helper. A stream is meant to
outlive the channel it runs on: both ends keep a retransmission buffer per stream, and after a
reconnection to the same helper they exchange how far each has received and resend the rest. This project
models that machinery and proves what it promises, above all that no byte is lost, duplicated or
reordered, however often the channel breaks and whatever it drops or repeats.

How the modules build on each other:

| layer | modules |
|---|---|
| window and inbox as flat byte strings; the chunked buffer and tracker classes that refine them | `Window`, `Resume`, `SendOnce` |
| one direction of one stream as a state machine; gap-freedom; recovery | `Lane`, `Alignment` |
| incremental parsing, frame and address codec, the format byte by byte, back-patching encoder, buffering reader | `Framing`, `Frames`, `Codec`, `WireFormat`, `WireBuffer` |
| client: mux, driver as a table of values, driver as an object, offline buffering, a stream's whole life | `Mux`, `Driver`, `SessionDriver`, `Offline`, `StreamLife` |
| what client and helper owe for every frame, command and report, in offsets and bytes | `Promises` |
| helper: the two tasks of a stream, the stream, the directory, reports across streams of one identifier | `Uplink`, `Downlink`, `HelperStream`, `Helper`, `Incarnations` |
| one stream of client, helper and channel together: its steps; what every run keeps; what runs without repetitions keep; theorems over runs | `Link`, `LinkSafety`, `LinkOrder`, `LinkTheorems` |
| when a stream shows no gap, how it gets there, what a reconnection brings back | `LinkAlignment`, `LinkPhases`, `LinkRecovery`, `LinkReturn` |
| what is released, that acks arrive, how the end of a stream travels, broken promises run by run | `LinkWritten`, `LinkAcks`, `LinkClosing`, `LinkExamples` |
| any number of streams over one channel; the driver and directory objects taking its steps | `Network`, `Refinement` |
| three independent pieces | `Manager`, `HttpHead`, `ShellQuote` |

The two ends of the argument are `Network.NothingLostAnywhere`, which covers every run of the whole
system, and module `Refinement`, in which the objects `Session` and `Directory` are run beside the system:
whatever frame, command, request, report or failure they handle, their tables and queues afterwards are
those of the system's own step. What that step is, frame by frame, is stated once more in module `Promises`, in
offsets and bytes alone. `Network.EveryEventProjects` shows that each stream of the system
sees exactly the steps of one `Link`.

The channel of `Link` and `Network` delivers in order, but may also drop any frame, repeat any frame at any
place (the two together let a frame overtake others), or be cut. What is proved under `Inv` holds in all of
these runs; what needs `Orderly` (that an honest offset is never refused) holds in every run without
repetitions, and `ClientRefusesExactly` and `HelperRefusesExactly` say what happens otherwise.

`uplink` and the session manager are modelled as machines with a program counter rather than as loops,
because what is proved of them is about every interleaving at their await points. Integers are
unbounded; widths are written out where they matter (32-bit identifiers and their wrap-around, the
fields of the codec). Offsets are assumed to stay below 2^64; `LinkTheorems.AcceptCannotOverflow` and
`HelperAcceptCannotOverflow` show that this follows in both directions from the length of the data alone.

## What the code does not promise

- A stream does not survive a reconnection of the shipped driver. Every round executes a new helper
  (crates/srp/src/tunnel/helper/session.rs:21-27), and a helper ends when its input closes
  (crates/srp-helper/src/main.rs:204), so the answer is always that nothing was resumed. The handshake keeps the
  streams if and only if there were none, or the same process still holds streams of the same session
  (`Network.HandshakeKeepsExactly`); after a new process the client's table is empty. What is proved of
  resumption is proved of the protocol, for a helper that stays alive.
- Gap-freedom needs a hypothesis. Local data is drained before the resume answer has been handled
  (crates/srp/src/tunnel/helper/session.rs:455-463, 573), and the helper's task may hold a frame across a
  rewind (crates/srp-helper/src/stream.rs:261-270). `LinkExamples.EarlyDataCostsTheStream` gives a run of
  the whole stream that fails, `Alignment.EarlySendGapsExactly` and `HeldSendGapsExactly` the exact
  conditions. Such a gap resets the stream; it never corrupts it, so the prefix property holds without any
  hypothesis. On the channel a stream was opened on there is no gap at all (`LinkPhases.FirstChannelNeverGaps`).
- A Fin may arrive early for the same reason: nothing is pending, because what was lost counts as sent
  (`LinkExamples.EarlyFinClosesShort`). `Alignment.FinFaithfulExactly` says when a Fin keeps its promise.
- A Fin is sent once and never again, not even after the channel that carried it is lost
  (`StreamLife.FinAtMostOnce`, `FinIsNotRetransmitted`).
- A resume answer releases retransmission data just as an ack does, and it names the bytes the helper
  has accepted, not those it has written to the socket; only acks wait for the write
  (crates/srp-helper/src/main.rs:450-478, crates/srp-helper/src/stream.rs:319-373). The repository's README.md
  speaks of acks only. `LinkExamples.ReleasedUnwritten` is a run that ends with a released byte that was never
  written; `LinkWritten.ReconnectionReleasesExactly` says that a reconnection does so unless the helper's queue
  was empty, and `LinkWritten.ReleasedIsWritten` that nothing unwritten is ever released while every
  resume request is taken with an empty queue.
- The helper takes a report that the egress side of a stream has ended, or failed, for a report about whatever
  stream now has that identifier (crates/srp-helper/src/main.rs:498-517). `Incarnations.StaleReportRun` is a run
  in which a second stream of an identifier is reclaimed unread by the report of the first.
  `Incarnations.OpenIsSafeExactly` says when opening an identifier exposes the new stream to this: exactly if a
  report for the identifier is still waiting or the stopped task of an earlier stream may still send one. In
  every run without such an opening no stream is wronged (`Incarnations.CarefulRunWrongsNone`).
- One resume answer resends at most 64 frames, 2 MiB, while the default window is 4 MiB. The rest of a larger
  gap waits for the next local command (`LinkRecovery.OneReconnectionRecovers` gives the exact amount,
  `LinkRecovery.WritesBringTheRest` how many writes it takes). The other direction has no such limit
  (`LinkReturn.OneReconnectionReturns`).
- `Closed` is not final: an attempt that was past the shutdown check can still announce a session
  (`Manager.ClosedThenUp` is such a run, `Manager.ClosedIsFinalExactly` the exact condition).

## Model

| member | source | states |
|---|---|---|
| `Resume.SendBuffer.Push` | crates/srp-proto/src/resume.rs:90-100 | Accepts exactly what the window still admits; the chunks then concatenate to the longer history, and nothing else moves |
| `Resume.SendBuffer.NextUnsent` | crates/srp-proto/src/resume.rs:102-144 | Merging chunks in a loop returns exactly the next min(max, pending) bytes of the history from the cursor, or nothing when none is pending |
| `Resume.SendBuffer.Ack` | crates/srp-proto/src/resume.rs:150-191 | Trimming chunks in a loop releases exactly the acknowledged prefix; an old ack is ignored and one beyond the history is refused, with nothing changed |
| `Resume.SendBuffer.RewindTo` | crates/srp-proto/src/resume.rs:194-212 | Moves the cursor back to what the peer received and returns the gap; refuses offsets outside the held range, with nothing changed |
| `Resume.RecvTracker.Accept` | crates/srp-proto/src/resume.rs:241-258 | Drops a duplicate, trims an overlap, refuses a hole; what it hands on extends the received string by exactly the new bytes |
| `SendOnce.EachByteOnce` | crates/srp-proto/src/resume.rs:90-191 | Whatever is written and acknowledged in between, and without a rewind, the frames made of the segments taken carry each byte from the old cursor to the new one exactly once, end to end |
| `Lane.ReceiveKeepsPrefix` | crates/srp-proto/src/resume.rs:241-258 | Whatever matching frame arrives in whatever order, the received string stays a prefix of the history; refused exactly when it leaves a hole |
| `Lane.HonestNotesAccepted` | crates/srp-proto/src/resume.rs:150-212 | An honest ack or resume offset is never refused, and the gap it reports fits the window |
| `Lane.SoundStep` | crates/srp-proto/src/resume.rs:90-258 | Writing, sending, delivering, acknowledging, rewinding, cutting the channel, and dropping or repeating any frame or note at any place keep: what is sent matches the history, the received string is a prefix of it, released is at most received, and no note names more than was received |
| `Lane.SafeStep` | crates/srp-proto/src/resume.rs:90-258 | In every lane step without a repeated note the acks and resume offsets in flight also stay in order, none below what is released |
| `Alignment.AlignedStep` | crates/srp-proto/src/resume.rs:102-144 | Between two disconnections the frames in flight stay a gap-free chain up to the cursor, so no delivery reports a gap |
| `Alignment.FinFaithfulExactly` | crates/srp/src/tunnel/helper/mux.rs:317-338 | A Fin sent now closes a complete stream if and only if the frames in flight carry the receiver to the end of the history; it does whenever the lane is aligned and nothing is pending |
| `Alignment.EarlySendGapsExactly` | crates/srp/src/tunnel/helper/session.rs:455-463 | A frame sent before the rewind is heard gaps if and only if the receiver is behind the cursor |
| `Alignment.HeldSendGapsExactly` | crates/srp-helper/src/stream.rs:261-270 | A frame held across a disconnection gaps if and only if the receiver is behind its offset |
| `Alignment.BeforeTheRewind` | crates/srp/src/tunnel/helper/session.rs:532-584 | A concrete run in which a new byte arrives ahead of a gap and a Fin arrives at a receiver that lacks a byte |
| `Alignment.RewindAligns` | crates/srp-proto/src/resume.rs:194-212 | A rewind heard while nothing is queued aligns the lane, however much was lost |
| `Alignment.ReconnectRecoversEverything` | crates/srp-proto/src/resume.rs:194-212 | After any history: one disconnection, one rewind, a drain and an in-order delivery leave the receiver with every byte ever written |
| `Alignment.AlignedRun` | crates/srp-proto/src/resume.rs:102-144 | Over any run that loses nothing an aligned lane stays aligned |
| `Codec.AddrRoundTripExactly` | crates/srp-proto/src/addr.rs:48-110 | An address reads back if and only if its name has 1 to 255 bytes of well-formed UTF-8 (or it is an IP address), and then takes exactly its declared length |
| `Codec.RoundTripExactly` | crates/srp-proto/src/frame.rs:204-409 | A frame followed by anything decodes to itself, leaving the rest, if and only if it fits its length fields |
| `WireFormat.WireLayout` | crates/srp-proto/src/frame.rs:20-30 | Type byte, identifier, length and the body's number in network byte order, at their places, and what follows, for every frame type |
| `WireFormat.RefusedExactly` | crates/srp-proto/src/frame.rs:289-409 | For any bytes: more is asked for exactly when header or body is incomplete, a header announcing more than the limit is refused at once, and a complete body is refused exactly when its type is unknown or it is too short for it |
| `WireFormat.FrameMeans` | crates/srp-proto/src/frame.rs:289-409 | A frame taken off a buffer says what its bytes say, whatever they are: type, identifier, numbers in network byte order, address, code (unknown codes count as internal errors), flag and data |
| `Codec.ListRoundTrip` | crates/srp-proto/src/frame.rs:204-409 | Any list of such frames is recovered in order, with nothing left over |
| `Codec.EncodingIsInjective` | crates/srp-proto/src/frame.rs:204-282 | Two lists of such frames with the same bytes are the same list |
| `Codec.DecodeMonotone` | crates/srp-proto/src/frame.rs:289-409 | More bytes never change a verdict: a decoded frame stays the same and an error stays the same error |
| `Codec.MoreIsShort` | crates/srp-proto/src/frame.rs:289-303 | An incomplete buffer is shorter than a header and the largest payload |
| `Framing.ParseSplit` | crates/srp-helper/src/main.rs:173-206 | Parsing in two portions gives the frames, the residue and the first error of parsing the whole |
| `WireBuffer.ByteBuf.PutFrame` | crates/srp-proto/src/frame.rs:204-282 | Writing a zero length, then the body, then patching the length back yields the encoding whose length field is the body length |
| `WireBuffer.FrameReader.Feed` | crates/srp-helper/src/main.rs:173-206 | One read yields every complete frame of the buffer and keeps a bounded residue |
| `WireBuffer.ReadChunks` | crates/srp-helper/src/main.rs:173-206 | For any bytes and any cutting into chunks, the frames and the first error are those of the whole |
| `WireBuffer.WriteBatch` | crates/srp-helper/src/main.rs:244-266 | A batch of the writer task is the concatenation of its frames, and the reader gets exactly those frames back when each fits its fields |
| `Mux.DrainOneMore` | crates/srp/src/tunnel/helper/mux.rs:317-338 | The closed form of a drain is its loop: one more take adds the next contiguous frame, or none |
| `Mux.FreeIdExists` | crates/srp/src/tunnel/helper/mux.rs:87-99 | With fewer than 2^32-1 streams some non-zero identifier is free |
| `Mux.MuxState.AllocStream` | crates/srp/src/tunnel/helper/mux.rs:87-99 | Terminates, wrapping around if need be, with the first non-zero identifier not in use, and leaves every other stream unchanged |
| `Mux.MuxState.ApplyFrame` | crates/srp/src/tunnel/helper/mux.rs:175-314 | A frame changes its own stream only, with the effects in order: data is delivered from the first new byte on and acknowledged with the new total, a duplicate acknowledged again, a hole refused with Reset; acks, answers, ends and resets do as their offsets say; unknown streams are answered and change nothing |
| `Mux.MuxState.DrainStreamOutput` | crates/srp/src/tunnel/helper/mux.rs:317-338 | Exactly min(k, pending rounded up to chunks) non-empty contiguous data frames from the old cursor, then Fin when it is due |
| `Offline.DrainCarries` | crates/srp/src/tunnel/helper/mux.rs:317-338 | A drain of at most k frames carries exactly the bytes between the old and the new cursor |
| `Offline.OfflineEqualsOnline` | crates/srp/src/tunnel/helper/session.rs:486-584 | For any writes and an optional end of input, offline buffering resets exactly when online handling does, moves neither cursor nor acked, and after a drain both have sent the same bytes and the same single Fin |
| `StreamLife.FinAtMostOnce` | crates/srp/src/tunnel/helper/mux.rs:317-338 | Over any sequence of commands and frames, with or without a channel, a stream sends Fin at most once |
| `StreamLife.ApplyClosesRight` | crates/srp/src/tunnel/helper/mux.rs:317-338 | Fin leaves exactly in the operation that marks the stream closed, as its last frame, only after the local end of input and with every byte taken |
| `StreamLife.FinIsNotRetransmitted` | crates/srp-proto/src/resume.rs:194-212 | Once Fin has been sent no operation, resumption included, sends it again |
| `Driver.BufferedWholeOrGone` | crates/srp/src/tunnel/helper/session.rs:486-584 | Local bytes are buffered whole if and only if they fit the window, online and offline alike; otherwise the stream is gone |
| `Driver.EffectsSettle` | crates/srp/src/tunnel/helper/session.rs:399-446 | Applying a frame and carrying out its effects one by one settles its stream, its endpoint and the outgoing queue as the outcome function says, and nothing else |
| `Driver.SettleConsistent` | crates/srp/src/tunnel/helper/session.rs:399-642 | Endpoints and streams keep the same keys, nothing reset survives, and each endpoint has been handed what its stream has received |
| `SessionDriver.Session.Start` | crates/srp/src/tunnel/helper/session.rs:317-330 | A new channel is greeted, asking to resume exactly when streams are alive |
| `SessionDriver.Session.BuildResumeFrames` | crates/srp/src/tunnel/helper/mux.rs:127-135 | In whatever order the table yields them, exactly one resume request for each stream, with its received offset |
| `SessionDriver.Session.HandleHelloAck` | crates/srp/src/tunnel/helper/session.rs:373-395 | An answer that does not resume leaves no stream that was alive at Hello; one that does asks for every stream; a foreign version ends everything |
| `SessionDriver.Session.HandleInbound` | crates/srp/src/tunnel/helper/session.rs:361-446 | Nothing is accepted before the handshake; afterwards a frame settles its own stream and no other, as promised in offsets: every data frame without a gap, duplicates included, is acknowledged with the new total; one of an unknown stream is answered and changes none, a ping changes none, and a handshake answer keeps or loses the streams as it says |
| `SessionDriver.Session.TerminateAll` | crates/srp/src/tunnel/helper/session.rs:715-728 | The loop leaves neither a stream nor an endpoint |
| `SessionDriver.Session.HandleCommand` | crates/srp/src/tunnel/helper/session.rs:532-597 | Bytes that fit the window are kept whole and up to a batch is sent from the cursor, others cost the stream and a Reset; an end of input sends Fin once everything has gone; a close drops stream and endpoint and sends Reset; for a missing stream nothing happens |
| `SessionDriver.Session.BufferOffline` | crates/srp/src/tunnel/helper/session.rs:486-529 | The same without a channel: kept or given up alike, nothing is sent and no cursor moves |
| `Promises.FramePromised` | crates/srp/src/tunnel/helper/session.rs:361-446 | Each frame's outcome in offsets, acknowledgement, refusal, resend and loss of the stream included |
| `Promises.CommandPromised` | crates/srp/src/tunnel/helper/session.rs:532-597 | Each command's outcome in offsets: what is kept, up to which byte it is carried and in which frames, when Fin goes out, what is refused with which Reset |
| `SessionDriver.Session.OpenStream` | crates/srp/src/tunnel/helper/session.rs:600-642 | A fresh stream with its endpoint, announced by one Open, under the first free identifier from the counter on, which then stands past it; every other stream is untouched |
| `SessionDriver.Session.FlushPendingOpens` | crates/srp/src/tunnel/helper/session.rs:467-477 | Every waiting request gets a fresh stream and one Open, in order of arrival, under consecutive identifiers until the counter wraps around, and no old stream changes |
| `Downlink.StepKeepsDiscipline` | crates/srp-helper/src/stream.rs:319-373 | Each message or timer expiry keeps: every emitted ack equals the bytes written when it was sent, the acks never decrease, and what is written beyond the last one stays below the threshold; a duplicate, a shutdown or a timer with something pending emits an ack of everything written |
| `Downlink.AcksExactlyThen` | crates/srp-helper/src/stream.rs:319-373 | An ack leaves for a duplicate, when a write reaches the threshold, and for a shutdown or timer with something pending, and only then; only a shutdown shuts the write half |
| `Downlink.DownlinkLoop` | crates/srp-helper/src/stream.rs:319-373 | Over any honest queue, with any socket operation failing, the socket holds a prefix of what was handed over; the loop fails exactly on a failing operation or a write after shutdown, and otherwise everything is written, the last ack emitted names all of it, and the write half is shut exactly if a shutdown was handed over |
| `Uplink.InvStep` | crates/srp-helper/src/stream.rs:248-315 | Every action of the task and every ack, rewind and wake-up between them keep: a read fits the window, the history is what was read, Fin is announced once, and a parked task with something to do has a wake-up stored or coming |
| `Uplink.TaskPromises` | crates/srp-helper/src/stream.rs:248-315 | What is taken is the next run of up to a chunk; a read asks for what fits the window up to a chunk and is not made when it is full; Fin goes out after everything else; the task ends when all is acknowledged |
| `Uplink.UplinkKeepsEverything` | crates/srp-helper/src/stream.rs:248-315 | In every interleaving the clamped write is never refused, no wake-up is lost, and a finished task has had everything acknowledged |
| `HelperStream.OnFrameIsGood` | crates/srp-helper/src/main.rs:362-478 | Whatever the frame, a stream that is kept has every accepted byte in the socket or in order in its queue, honest totals throughout, and no wake-up outstanding |
| `HelperStream.TaskIsGood` | crates/srp-helper/src/stream.rs:133-217 | The same for the stream's own tasks, and an ack leaves only for bytes already in the socket |
| `HelperStream.FrameForwards` | crates/srp-helper/src/main.rs:431-444 | The first Fin puts exactly one shutdown behind every byte accepted so far, and no other frame does |
| `Promises.HelperPromised` | crates/srp-helper/src/main.rs:362-478 | The helper's reaction to each frame in offsets: what is queued with which total, released, answered, refused, and when the stream is reclaimed |
| `HelperStream.AnswerNamesWrittenExactly` | crates/srp-helper/src/main.rs:450-478 | The offset of a resume answer counts written bytes only if and only if nothing accepted is queued |
| `Helper.Directory.HandleHello` | crates/srp-helper/src/main.rs:277-312 | Resumes if and only if the version matches, the same session asks for it and streams are held; otherwise starts afresh |
| `Helper.Directory.HandleOpen` | crates/srp-helper/src/main.rs:314-360 | Opens a fresh stream if and only if the identifier is free, there is room and the target is allowed, and otherwise answers with the first of these that fails and changes nothing |
| `Helper.Directory.HandleFrame` | crates/srp-helper/src/main.rs:268-496 | A frame acts on its own stream as promised in offsets; a greeting keeps the streams or drops them all; an Open adds its stream if and only if it is free, has room and is allowed; frames for unknown streams are answered, and those of the wrong direction change nothing |
| `Helper.Directory.HandleStreamEvent` | crates/srp-helper/src/main.rs:498-517 | Whatever report arrives, the end of the egress side reclaims the stream if and only if the client has closed it and everything read is acknowledged; a failure drops it and nothing else |
| `Incarnations.OpenIsSafeExactly` | crates/srp-helper/src/main.rs:314-360 | Some run after opening an identifier wrongs the new stream if and only if a report for the identifier is waiting or the stopped task of an earlier stream may still send one |
| `Incarnations.CarefulRunWrongsNone` | crates/srp-helper/src/main.rs:498-531 | In every run of frames, greetings, task steps, late reports and their handling in which no identifier is opened while a report for it is pending, every reclaimed stream has sent, closed and had acknowledged everything it read, and none is dropped for another's failure |
| `Incarnations.StaleReportRun` | crates/srp-helper/src/main.rs:498-531 | A run from the empty directory in which a stream is reclaimed with something missing because the report of an earlier stream of its identifier was taken for its own |
| `Incarnations.Hears` | crates/srp-helper/src/main.rs:498-531 | The directory handling the next report, whoever sent it, holds the streams of that machine's step |
| `Incarnations.Takes` | crates/srp-helper/src/main.rs:314-496 | The same for the frame of a stream |
| `Incarnations.Greets` | crates/srp-helper/src/main.rs:277-312 | The same for a greeting |
| `LinkSafety.InvKept` | crates/srp-helper/src/main.rs:268-517 | Every event of client, helper, tasks and channel, dropped and repeated frames included, keeps both directions of a stream sound |
| `LinkOrder.OrderlyKept` | crates/srp-helper/src/main.rs:268-517 | Every event but a repetition also keeps the offsets in flight in order |
| `LinkTheorems.PrefixAlways` | crates/srp-proto/src/resume.rs:241-257 | In every run of one stream, over a channel that drops, repeats and is cut, the bytes in the egress socket, with any part of a write in progress or cut short, are a prefix of what the client wrote, and the bytes handed to the client a prefix of what was read from the socket |
| `LinkTheorems.HandedOverGrows` | crates/srp-proto/src/resume.rs:241-257 | What was handed over is only ever extended, on either side |
| `LinkTheorems.ClientAcceptsNotes` | crates/srp/src/tunnel/helper/mux.rs:243-294 | With no repetitions, no ack or resume answer of an honest helper resets a stream, and the gap fits the window |
| `LinkTheorems.HelperAcceptsNotes` | crates/srp-helper/src/main.rs:407-478 | With no repetitions, no ack or resume request of an honest client is refused: a request is always answered with the received offset |
| `LinkTheorems.OrderlyRun` | crates/srp-proto/src/resume.rs:150-212 | In every run without repetitions, however much is dropped or cut, the offsets in flight stay in order, so that honest offsets are obeyed |
| `LinkTheorems.ClientRefusesExactly` | crates/srp/src/tunnel/helper/mux.rs:243-294 | Repetitions or not, no ack resets a stream, and a resume answer does if and only if more was released than it names |
| `LinkTheorems.HelperRefusesExactly` | crates/srp-helper/src/main.rs:407-478 | Repetitions or not, no ack is refused, and a resume request is refused if and only if more was released than it names |
| `LinkTheorems.OffsetsBracketed` | crates/srp-proto/src/resume.rs:20-33 | Released is at most received, and received at most written, in both directions |
| `LinkTheorems.AcceptCannotOverflow` | crates/srp-proto/src/resume.rs:241-243 | The unchecked sum of offset and length stays below 2^64 for every frame of an honest helper |
| `LinkTheorems.HelperAcceptCannotOverflow` | crates/srp-proto/src/resume.rs:241-243 | The same for every frame of an honest client |
| `LinkTheorems.ReclaimedMeansDelivered` | crates/srp-helper/src/main.rs:519-531 | A stream the helper may reclaim has reached the end of its socket, sent Fin, and the client has every byte ever read |
| `LinkClosing.FinishedAfterFin` | crates/srp-helper/src/main.rs:519-531 | In every run a stream counts as finished only after the client's Fin was sent and taken, and a stream whose queue is handled has its egress socket shut down for writing exactly if that Fin was taken |
| `LinkClosing.GivingUpTells` | crates/srp/src/tunnel/helper/session.rs:550-593 | A close, or bytes that do not fit the window, puts a Reset on its way behind the Open |
| `LinkClosing.CloseReachesHelper` | crates/srp/src/tunnel/helper/session.rs:585-593 | After a local close on a channel that loses nothing, once everything on its way has been taken the helper no longer holds the stream, in every run |
| `LinkTheorems.HelperDropsOnlyFor` | crates/srp-helper/src/main.rs:362-478 | A frame makes the helper drop a stream only if it is finished, reset by the client, without its task, or left with a gap |
| `LinkAlignment.StaysInStep` | crates/srp/src/tunnel/helper/session.rs:361-478 | Once both directions are in step, every command, frame and task step keeps them so until the next disconnection |
| `LinkAlignment.RunStaysInStep` | crates/srp/src/tunnel/helper/session.rs:361-478 | The same over whole runs, for as long as the stream lives |
| `LinkAlignment.InStepNeverGaps` | crates/srp-proto/src/resume.rs:241-257 | In step, no data frame shows a gap in either direction, and Fin finds the receiver with everything the other side wrote |
| `LinkAlignment.ResumePutsUpInStep` | crates/srp/src/tunnel/helper/mux.rs:268-294 | The resume answer and the drain that follows put the client's direction in step when nothing was sent on the channel before it |
| `LinkAlignment.ResumePutsDownInStep` | crates/srp-helper/src/main.rs:450-478 | A resume request that finds nothing in flight and no held frame puts the helper's direction in step if and only if no premature Fin is about to leave |
| `LinkAlignment.UplinkFlows` | crates/srp-helper/src/stream.rs:248-315 | Whatever the egress task does, its direction stays in step and its Fin closes a complete stream |
| `LinkAcks.AcksArrive` | crates/srp/src/tunnel/helper/mux.rs:194-252 | On a channel that loses nothing, from before the opening or from a resumption on: once the acks on their way are taken, the helper has released exactly what the client has received, and the client all but less than one ack's worth of what is in the egress socket |
| `LinkAcks.ResentAcknowledged` | crates/srp-helper/src/main.rs:450-478 | Right after a resumption the hypothesis of the ack theorem holds, whatever was lost before |
| `LinkAcks.WindowOpens` | crates/srp-proto/src/resume.rs:20-33 | When everything has been sent, taken and acknowledged, the helper's window is open in full |
| `LinkPhases.FirstChannelNeverGaps` | crates/srp-proto/src/resume.rs:241-257 | From before its opening to the next disconnection, in every run, a stream held by both sides is in step: no gap and no early Fin in either direction |
| `LinkPhases.HandshakeSettlesExactly` | crates/srp/src/tunnel/helper/session.rs:373-446 | Reconnecting to the living helper and only the handshake put both directions in step if and only if the egress task holds no frame from beyond what the client has and is not about to send an early Fin |
| `LinkPhases.ResumptionSettles` | crates/srp/src/tunnel/helper/session.rs:361-478 | After a reconnection, in any interleaving in which nothing of the stream is sent ahead of its resumption, once request and answer have been taken the stream is in step or was given up |
| `LinkRecovery.OneReconnectionRecovers` | crates/srp/src/tunnel/helper/session.rs:373-446 | Whatever was lost, reconnecting to the living helper and only the handshake bring the helper's bytes forward by exactly the gap or 64 chunks, whichever is less; so the stream is whole if and only if the gap fits |
| `LinkRecovery.WritesBringTheRest` | crates/srp/src/tunnel/helper/session.rs:532-584 | After that every further local write, of at most a batch and fitting the window, brings another batch: with their deliveries the helper holds everything, old and new, if and only if gap and writes together fit as many batches as there were writes, and one |
| `LinkReturn.TaskProgresses` | crates/srp-helper/src/stream.rs:248-315 | While something read is unsent the egress task can move, wherever it stands, and each move brings the end of sending nearer |
| `LinkReturn.OneReconnectionReturns` | crates/srp-helper/src/stream.rs:248-315 | Whatever was lost, after the handshake some turns of the egress task and the client taking frames hand over everything ever read from the egress socket, if and only if the task held no frame from beyond what the client has |
| `LinkWritten.ReleasedIsWritten` | crates/srp-helper/src/stream.rs:319-373 | In every run, drops and repetitions included, in which each resume request is taken with an empty queue, the client releases only bytes that are in the egress socket |
| `LinkWritten.ReconnectionReleasesExactly` | crates/srp-helper/src/main.rs:450-478 | A reconnection releases exactly what the helper has accepted, and only written bytes if and only if its queue was empty |
| `LinkExamples.ReleasedUnwritten` | crates/srp-helper/src/main.rs:450-478 | A run, from the first greeting on, that ends with the client having released a byte not written to the egress socket |
| `LinkExamples.EarlyDataCostsTheStream` | crates/srp/src/tunnel/helper/session.rs:455-463 | A run, from the first greeting on, in which a byte sent before the resumption is heard makes the helper drop the stream with a gap |
| `LinkExamples.EarlyFinClosesShort` | crates/srp/src/tunnel/helper/session.rs:532-584 | A run, from the first greeting on, in which the helper takes the end of input for the end of a stream that lacks its only byte |
| `Network.EveryEventProjects` | crates/srp-helper/src/main.rs:268-496 | Each event of the whole system, a dropped or repeated frame included, is one event of each stream's own link, or nothing at all |
| `Network.NothingLostAnywhere` | crates/srp/src/tunnel/helper/mux.rs:194-242 | In every run of the whole system, over a channel that drops, repeats and is cut, for every stream and both directions: handed over, including any part of a write in progress or cut short, is a prefix of written, nothing unreceived is released, and a reclaimed stream has delivered everything |
| `Network.HandshakeKeepsExactly` | crates/srp-helper/src/main.rs:277-312 | Connecting and greeting keep the client's streams if and only if there were none, or the process is the same, serves the same session and holds streams; otherwise all are gone |
| `Refinement.Begins` | crates/srp/src/tunnel/helper/mux.rs:79-86 | A new driver drives the new system, with its identifier counter ahead of it |
| `Refinement.Connects` | crates/srp/src/tunnel/helper/session.rs:317-330 | The driver greeting a new channel takes the system's step |
| `Refinement.Inbound` | crates/srp/src/tunnel/helper/session.rs:361-446 | Whatever frame the driver handles, the handshake answer included, its table, flags and outgoing queue are those of the system's step |
| `Refinement.Commands` | crates/srp/src/tunnel/helper/session.rs:532-597 | The driver handling a local command has the table and the outgoing queue of the system's step |
| `Refinement.CommandsOffline` | crates/srp/src/tunnel/helper/session.rs:486-529 | The same without a channel |
| `Refinement.Opens` | crates/srp/src/tunnel/helper/session.rs:600-642 | The driver opening a stream always takes the system's step, under an identifier the system has never used, and its counter stays ahead until the identifiers run out; every other step keeps it ahead too |
| `Refinement.HelperInbound` | crates/srp-helper/src/main.rs:268-496 | Whatever frame the directory handles, its streams, session and answers are those of the system's step |
| `Refinement.Fails` | crates/srp-helper/src/main.rs:510-517 | The directory handling a failed stream takes the system's step and sends what it sends |
| `Refinement.Reports` | crates/srp-helper/src/main.rs:498-517 | The directory handling a task's report takes the system's step |
| `Manager.InvStep` | crates/srp/src/tunnel/manager.rs:169-317 | Every interleaved step of supervisor, callers and shutdown keeps sessions announced after installation, callers' versions behind them, and no attempt beside a healthy session |
| `Manager.NoWaiterLeftBehind` | crates/srp/src/tunnel/manager.rs:181-219 | A caller parked on the newest version beside a live session catches the supervisor between installing and announcing it; none stays parked after a completed shutdown |
| `Manager.CallerStep` | crates/srp/src/tunnel/manager.rs:169-219 | A caller is granted exactly when it looks beside a live session, and that one; refused exactly when its time is up or the flag is; and leaves a wake-up behind when its first look finds none |
| `Manager.SupervisorPromises` | crates/srp/src/tunnel/manager.rs:240-317 | The supervisor never touches a healthy session, installs only the session of its own attempt, takes out a dead one, announces what it installed, and stops only on the flag or a failed attempt without retry |
| `Manager.EveryAnswerHadReason` | crates/srp/src/tunnel/manager.rs:169-219 | In every run a caller holds only a session that was in the slot and alive, and goes away empty-handed only after its time ran out or the shutdown flag was up |
| `Manager.CallerIsServed` | crates/srp/src/tunnel/manager.rs:181-219 | From wherever the supervisor stands, with attempts that succeed and no shutdown, its own steps lead to a healthy announced session and a waiting caller's own steps to that session |
| `Manager.PublishedEpochsIncrease` | crates/srp/src/tunnel/manager.rs:242-322 | Over every run the announced epochs strictly increase |
| `Manager.ClosedIsFinalExactly` | crates/srp/src/tunnel/manager.rs:227-287 | After the shutdown flag no session is announced in any continuation if and only if no attempt was past the check |
| `Manager.ClosedThenUp` | crates/srp/src/tunnel/manager.rs:227-287 | A run from the start that is closed for good and then announces a session all the same |
| `HttpHead.FindBlankLine` | crates/srp/src/frontend/http.rs:312-314 | The first CRLFCRLF from an offset on, or proof that there is none |
| `HttpHead.OneVerdict` | crates/srp/src/frontend/http.rs:97-139 | Two verdicts on the same bytes agree: nothing but the bytes decides |
| `HttpHead.ReadHead` | crates/srp/src/frontend/http.rs:97-141 | The verdict is that of all the client's bytes whatever the read boundaries: complete at the first blank line within the bound, too large exactly when more arrive without one; head and leftover together are all the bytes of the reads made, in a bounded buffer |
| `ShellQuote.ShellQuote` | crates/srp/src/tunnel/config.rs:261-274 | The loop prints the quoted form |
| `ShellQuote.BuildCommand` | crates/srp/src/tunnel/config.rs:243-254 | A configured command is used as it stands; otherwise the loop prints the command line of the configuration |
| `ShellQuote.QuotedRead` | crates/srp/src/tunnel/config.rs:257-274 | A quoted string is read by the shell as exactly that string, as part of one word, if and only if it has no NUL |
| `ShellQuote.RoundTripExactly` | crates/srp/src/tunnel/config.rs:243-274 | The shell takes the printed command apart into exactly the configured path and arguments if and only if none contains NUL |
| `ShellQuote.DecimalReadsBack` | crates/srp/src/tunnel/config.rs:248-248 | The printed window is read back as the same number |

## Left out

- Reuse of a stream identifier after all 2^32 have been opened: `Network` and `Link` follow each
  identifier through one incarnation; `AllocStream` itself is proved across the wrap-around, and `Incarnations`
  follows identifiers used again as far as the reports of stream tasks go.
- Repetition of greetings, their answers and Open, which would start another incarnation of the stream; they
  are dropped and cut like any other frame.
- `Network` and `Refinement` take both peers to speak the same protocol version; what a foreign version does
  is in the contracts of `Session.HandleHelloAck` and `Directory.HandleHello`.
- How a new channel reaches a helper process that is still running: `Connect` either meets the old
  process or a new one; frames the old channel still held are lost with it.
- Sockets, the SSH channel, DNS, the writer task and flushing: nondeterministic events that deliver bytes,
  end of input, success or failure. Dialling is part of the same: a task of a granted stream may act at
  once, and OpenOk, which no state depends on, is not sent by the model's helper.
- The bounds of the internal queues between tasks; a full queue only delays a sender.
- `StreamTx.wake` after an ack is one step with it in `HelperStream`; in `Uplink` the two are separate steps.
- The maps of streams hold values, not `SendBuffer` objects; the class is proved to refine the value.
- Local endpoints are the bytes they were handed and an end-of-input mark; their channels, and the task
  that pumps local bytes, are commands that arrive in any order (it never writes after its own end of input).
- Codec.RoundTripExactly: treats the message of OpenErr as raw bytes. The lossy decoding of a message that
  the 65535-byte limit cuts inside a character is not modelled, so there "only if" is about the bytes sent.
- UTF-8 validity of the request head, and the parsing of its lines.
- In the shell's grammar, characters with a special meaning are literal only inside quotes; unquoted
  they, and a backslash before a newline, end the model's reading with no result.
- SOCKS5, the allow-list decision (a boolean), direct tunnelling, backoff delays, authentication, host
  keys and configuration checking: they would add easy members only.
- Wall-clock behaviour: timers may fire at any time.
