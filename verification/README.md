# mh2c-go, verified

A Dafny model of mh2c-go's HTTP/2 protocol engine and proofs about it. `dafny verify dfyconfig.toml`
checks everything.

The program is a debugging client: it builds frames by hand, sends them over a byte connection, reads
frames back, watches header blocks on both directions, answers SETTINGS and PING, and runs scripts. The
model follows that structure from the octets up.

| layer | modules | what it models |
|---|---|---|
| octets | `Wire`, `Results` | big-endian integers, machine conversions, single flag bits |
| frames | `Frames`, `FrameCodec`, `FrameLaws`, `FrameLayout` | the payload layout, the step-by-step encoders and parsers, how printing and parsing undo each other, and where every octet goes |
| streams | `Streams` | reading frames off an octet stream, and writing them on it |
| header blocks | `Hpack`, `HeaderBlocks`, `HeaderBlockLaws`, `HeaderBlockHistory` | the codec wrapper, the reassembly tracker against a reference machine and against the frames of the whole run, fragmentation |
| client | `Endpoints`, `Clients`, `EndpointLaws`, `Transfers` | sending and receiving with codecs and trackers, over a connection that chops reads and writes |
| capture | `Captures`, `CaptureLaws`, `EndToEnd` | what is kept of received streams, and the composition of all layers |
| sessions | `Sessions`, `SessionLoops`, `SessionLaws`, `SessionGoals`, `Modes` | the receive loops, where they stop and what they answer; requests and whole runs |
| text | `Utf8`, `TextFormat` | truncation of displayed text |
| scripts | `ScriptValues`, `ScriptFrames`, `RepeatArithmetic`, `ScriptSpecs`, `ScriptConnections`, `ScriptLaws`, `ScriptPlanLaws`, `ScriptMeaning`, `ScriptMeaningLaws`, `ScriptBuildLaws`, `ScriptCompletenessLaws`, `ScriptWireLaws`, `ScriptBuilder`, `ScriptRun`, `ScriptRunLaws`, `ScriptPeerLaws` | validation, repetition, frame building and execution of scripts, and what a table means |

Objects the program updates in place are classes here, and its loops are loops; each is proved against a
function of values, and the laws are about those functions. Runs are sequences: a law about "any run" is
about every sequence of frames, events or actions. `Delivered`, `Receiving`, `Reassemble` and `CaptureAll`
are the folds that carry a run from octets to frames, events, blocks and captured streams.

## How the environment is modelled

* A connection (`Clients.Conn`) takes at least one octet per write and gives at least one per read, or
  fails, at a moment of its own choosing. On a `reliable` one, only reading past the end fails.
* A client built around a nil connection is one with `connected` false.
* Compression is a parameter (`Hpack.Engine`): any function of the codec's whole operation history.
* The output writer may fail at any line unless `writerWorks`.
* Parsers of single strings (numbers, hex, header lines, flag and setting names) are parameters
  (`ScriptValues.Text`), shared by the validator and the builder as in the program.
* `v & 0x7fff_ffff`, `a | b` and tests of one flag bit are written with remainders and quotients.

## Where the program does less than one might expect

These are laws with their exact conditions.

* A frame whose payload does not fit 24 bits does not survive the wire. From 2^32 octets on, the length
  can wrap to a small one and marshal all the same (`Streams.RoundTripsExactly`,
  `Streams.WrappedLengthIsReadShort`).
* A header block cut into several frames on stream 0 is lost, since 0 also marks "nothing pending"
  (`HeaderBlockLaws.FragmentationInvariance`, `HeaderBlockLaws.ZeroStreamFallsApart`).
* The sender's own view of a stream id of 2^31 or more differs from its peer's, except where the tracker
  does not look at it (`HeaderBlockLaws.PeerStepExactly`, `HeaderBlockLaws.PeerAgreesExactly`).
* The id of one script iteration, computed alone, can wrap; the loop that runs iterations in order never
  gets that far (`ScriptLaws.LateIterationWraps`, `ScriptLaws.FirstOverflowStops`).
* The script validator leaves the range of stream ids, frame type and pad length to the builder
  (`ScriptBuildLaws.AcceptedActionsBuild`, `ScriptBuildLaws.RangesAreLeftToTheBuilder`), and that of port,
  timeout and table size to the connection's set-up (`ScriptConnections.AcceptedConnectionApplies`).
* A block that ends its stream but decodes to no fields at all is not recorded by the capture, and auto
  selection may pass over that stream (`CaptureLaws.EmptyBlockEndsUnrecorded`,
  `CaptureLaws.EndIsRecordedExactly`, `CaptureLaws.AutoSelectsFirstSeenExactly`,
  `CaptureLaws.AutoSelectionCanSkip`).
* A script action with a bad field after its header block has the block compressed before it fails, so
  the compressor has moved on for a frame never sent; not so where the unchecked ranges are kept
  (`ScriptBuilder.CompressedBlockIsSent`, `ScriptRunLaws.CompressorMovesForNothing`,
  `ScriptRunLaws.ReadyFieldsAreGood`).

## Model

| member | source | states |
|---|---|---|
| Wire.WriteThenRead16 | internal/wire/wire.go:10-21 | A 16-bit value appended to any buffer is read back from where it was put. |
| Wire.WriteThenRead24 | internal/wire/wire.go:23-35 | The same for 24 bits, on the whole range the append accepts. |
| Wire.WriteThenRead32 | internal/wire/wire.go:37-48 | The same for 32 bits. |
| Wire.ReadThenWrite32 | internal/wire/wire.go:37-48 | Reading four octets and appending the value gives the same four octets, so the reading is injective. |
| Wire.ReadThenWrite24 | internal/wire/wire.go:23-35 | The same for three octets. |
| FrameCodec.DataPayload | frame/data.go:32-42 | The buffer filled step by step equals the padded layout of RFC 9113, section 6.1. |
| FrameCodec.HeadersPayload | frame/headers.go:49-75 | Pad length, dependency with exclusive bit, weight, block and padding come out in the layout's order under every combination of flags and with or without a priority value. |
| FrameCodec.PushPromisePayload | frame/push_promise.go:40-53 | The buffer equals pad length, masked promised id, block, padding. |
| FrameCodec.SettingsPayload | frame/settings.go:71-78 | The loop's buffer equals the concatenation of all six-octet entries in order. |
| FrameCodec.GoAwayPayload | frame/goaway.go:52-59 | The buffer equals masked last stream id, error code, debug data. |
| FrameCodec.PriorityPayload | frame/priority.go:37-44 | Dependency, exclusive bit and weight are packed into five octets. |
| FrameCodec.ParseDataFrame | frame/data.go:52-67 | The offset-advancing parser accepts and yields exactly what removing the padding first would. |
| FrameCodec.ParseHeadersFrame | frame/headers.go:99-129 | Same, with padding and priority combined: the checks in source order accept the same payloads as removing the padding first and then the priority. |
| FrameCodec.ParsePushPromiseFrame | frame/push_promise.go:70-95 | Same for PUSH_PROMISE. |
| FrameCodec.ParseSettingsFrame | frame/settings.go:92-113 | The entry loop yields all entries in order, and fails exactly on lengths that are no multiple of six. |
| FrameCodec.Unmarshal | frame/frame.go:117-145 | Dispatch after the length check; unknown types stay raw. |
| FrameCodec.MarshalHeaderBinary | frame/frame.go:69-79 | Nine octets, or failure exactly when the length needs more than 24 bits. |
| FrameCodec.Encode | frame/frame.go:147-154 | The header is rewritten with the payload length modulo 2^32; the result exists exactly if that fits 24 bits, its first nine octets parse back to the rewritten header and the payload follows. |
| FrameCodec.MarshalBinary | frame/raw.go:28-34 | Typed frames state their payload length; a raw frame states the length it holds, true or not. |
| FrameLaws.HeaderAfterMarshal | frame/frame.go:69-99 | A marshalled header parses to itself with the stream id cut to 31 bits. |
| FrameLaws.MarshalAfterHeader | frame/frame.go:69-99 | A parsed header marshals to the octets it came from, except for the reserved bit. |
| FrameLaws.ParseAfterPrint | frame/frame.go:117-145 | Parsing what any well-typed frame prints gives its canonical form: 31-bit ids, no pad length without PADDED, no priority without its flag, an all-zero priority for a missing one. |
| FrameLaws.CanonIsStable | frame/headers.go:49-75 | The canonical form prints the same payload and is its own canonical form. |
| FrameLaws.PrintAfterPriority | frame/priority.go:37-68 | All five octets of a priority field count: none is reserved, the exclusive bit included. |
| FrameLaws.SettingsAfterPrint | frame/settings.go:71-113 | Any list of settings survives printing and parsing, and prints to a whole number of entries. |
| FrameLaws.PrintAfterSettings | frame/settings.go:71-113 | Any payload of whole entries survives parsing and printing. |
| FrameLaws.NormalForm | frame/push_promise.go:40-95 | For every payload a parser accepts: printing keeps its length and every octet outside padding (zeroed) and reserved bits (cleared) and parses to the same frame; that frame is canonical if and only if its stream id fits 31 bits. |
| FrameLayout.StandardNumbers | frame/frame.go:10-29 | The frame types, flags, settings and limits have the numbers of RFC 9113, sections 4, 6 and 6.5.2. |
| FrameLayout.FlagIsDigit | frame/headers.go:9-14 | A flag test asks for one binary digit of the flags octet. |
| FrameLayout.HeaderOctets | frame/frame.go:69-79 | The nine header octets by position: 24-bit length, type, flags, 31-bit stream id, big-endian, the reserved bit clear. |
| FrameLayout.PayloadIsLaid | frame/frame.go:113-154 | Every kind's payload by absolute position in numbers, without the parsers: pad length, body, zero padding; exclusive bit above the dependency; six octets a setting; ids without their top bit. |
| FrameLayout.FrameIsLaid | frame/frame.go:113-154 | What is sent is those nine octets, telling the payload's true length, and that payload. |
| FrameLayout.AcceptedExactly | frame/frame.go:117-145 | The exact set of payloads accepted under each type and flags: only lengths are checked, never padding octets, reserved bits or values. |
| Streams.StreamRoundTrip | client/client.go:124-170 | The octets of any list of sendable frames, followed by anything, are read back as exactly their canonical forms in order, and the rest is left untouched. |
| Streams.RoundTripsExactly | frame/frame.go:113-154 | A frame survives its own octets if and only if its header type fits its kind, its payload fits 24 bits, and a raw frame states its true length. |
| Streams.WrappedLengthIsReadShort | frame/frame.go:147-154 | DATA holding 2^32 + k octets marshals as a frame of length k, and the receiver reads the rest of the payload as further frames. |
| Streams.FramingStaysAligned | client/client.go:151-170 | After any number of reads, well-formed or not, the read position is the sum of 9 + Length over the headers seen; reads run out exactly when the headers do. |
| Streams.PayloadsDoNotMoveFrames | client/client.go:151-170 | Changing octets outside the length fields moves no later frame. |
| Streams.DeliveredIsAligned | client/client.go:151-170 | Frames delivered end where the headers say. |
| Hpack.Codec.constructor | hpack/codec.go:47-61 | Initial table size and limits. |
| Hpack.Codec.SetMaxDynamicTableSize | hpack/codec.go:63-69 | Sets the remembered size and all four limits, the decoder's included. |
| Hpack.Codec.SetDecoderAllowedMaxDynamicTableSize | hpack/codec.go:77-79 | Sets the decoder's limit and nothing else. |
| Hpack.Codec.DecodeDetailed | hpack/codec.go:107-113 | One block is shown to the decoder and logged, whatever the answer. |
| Hpack.MaxTableSizes | hpack/codec.go:63-69 | Read off the log of operations, setting the table size leaves all four limits at it: the encoder's limit and size, the decoder's size and allowance. |
| HeaderBlocks.HeaderBlockTracker.Consume | client/event.go:44-67 | Step by step the tracker's event, decoder log and pending block equal those of the reference machine, which has no sentinel and no stale octets; `HeaderBlockHistory.TrackerFollowsHistory` tells that machine from the frames. |
| HeaderBlocks.HeaderBlockTracker.ConsumeHeaderStart | client/event.go:69-82 | Same for a header start: a fault that drops the open block, a completed block, or a newly opened one. |
| HeaderBlocks.HeaderBlockTracker.Finish | client/event.go:84-98 | The block is decoded once and nothing stays pending, whether it decodes or not. |
| HeaderBlocks.HeaderBlockTracker.Reset | client/event.go:100-104 | Nothing stays pending. |
| HeaderBlockLaws.StaleBlockIsNeverSeen | client/event.go:69-82 | A start on stream 0 without END_HEADERS opens nothing: every continuation of the run is observed as if that frame had never come. |
| HeaderBlockLaws.StaleOctetsAreNeverSeen | client/event.go:44-104 | Two trackers with nothing pending, whatever octets each still holds, report the same events and decode the same blocks on every run. |
| HeaderBlockLaws.PeerSeesSameBlocks | client/event.go:34-98 | Reassembly then observes the same blocks, streams, END_STREAM bits and faults before and after the wire; ids below 2^31 are enough. |
| HeaderBlockLaws.PeerStepExactly | client/event.go:44-82 | From any state, a frame is observed alike before and after the wire if and only if its id is below 2^31, or is not looked at, or is refused on both sides. |
| HeaderBlockLaws.PeerAgreesExactly | client/event.go:44-82 | Over any run, both sides take the same steps if and only if every frame passes that test in the state it meets. |
| HeaderBlockLaws.LowStreamsAreSeenAlike | client/event.go:44-82 | Runs with ids below 2^31 pass it. |
| HeaderBlockLaws.OnlyHeaderFramesMatter | client/event.go:44-67 | Any frames without header fragments may be interleaved without effect. |
| HeaderBlockLaws.FragmentationInvariance | client/event.go:44-98 | However a block is cut and interleaved it is decoded exactly once, whole, with END_STREAM from its first frame only, and nothing stays pending; this holds if and only if it is not cut up on stream 0. |
| HeaderBlockLaws.ZeroStreamFallsApart | client/event.go:51-55 | A block cut up on stream 0 is never decoded and every CONTINUATION is a fault. |
| HeaderBlockLaws.TrafficYieldsItsMessages | client/event.go:44-98 | Traffic carrying any list of header blocks, however cut and interleaved, yields those blocks in order. |
| HeaderBlockHistory.MarksAreDigits | client/event.go:47-63 | A fragment is the last of its block exactly by the END_HEADERS digit of its flags, and ends its stream exactly if it is HEADERS with the END_STREAM digit. |
| HeaderBlockHistory.TrackerFollowsHistory | client/event.go:44-104 | After any frames from the start of a connection, a block is pending if and only if fragments are waiting; they then form one unfinished block on a nonzero stream, the pending octets are theirs joined, and every frame so far was observed as its own situation says. |
| HeaderBlockHistory.WaitingIsSinceSettled | client/event.go:44-104 | What waits is exactly what was kept of the frames after the last fault or completed block. |
| HeaderBlockHistory.LoudnessSettles | client/event.go:56-82 | After a fault or a completed block, every continuation of the run is observed as from the start of a connection. |
| HeaderBlockHistory.FaultsExactly | client/event.go:50-82 | Which fault a frame is, in terms of what waits: a start while something waits, a CONTINUATION while nothing does, or one on another stream; nothing else is one. |
| HeaderBlockHistory.InterruptedBlockIsGone | client/event.go:69-82 | HEADERS on 1, complete HEADERS on 3, CONTINUATION on 1: an interruption and an unexpected CONTINUATION, and nothing is decoded. |
| HeaderBlockHistory.ReceivedEventTellsOutcome | client/event.go:40-98 | The event of a received frame, after any run: complete exactly where the frames make a block, with its stream, END_STREAM bit and the response decoder's answer to its octets, or the fault they make. |
| HeaderBlockHistory.SentEventTellsOutcome | client/event.go:34-98 | The same for sent frames and the request codec. |
| Clients.Client.constructor | client/client.go:73-86 | Both trackers idle, request codec at 4096, response decoder allowed the configured table size. |
| Clients.Client.SendRaw | client/client.go:95-107 | Under any schedule of partial writes all octets are written in order, or a prefix of them when a write fails. |
| Clients.Client.ReceiveRaw | client/client.go:109-118 | Under any chunking of reads exactly the next n octets are taken, or the input is too short; what is left is always what was not taken. |
| Clients.Client.SendFrame | client/client.go:124-134 | Success leaves the frame's octets on the wire and the sent-frame reaction on codecs and tracker; failure leaves codecs and trackers alone. |
| Clients.Client.SendRawFrame | client/client.go:136-141 | Sends the header with its length corrected to the payload, or a prefix of it; on a dependable connection it succeeds exactly on lengths of 24 bits; codecs and trackers are not touched. |
| Clients.Client.SendRawFrameExact | client/client.go:143-149 | Sends header and payload as given, or a prefix of them; on a dependable connection it succeeds exactly on stated lengths of 24 bits. |
| Clients.Client.ReceiveFrame | client/client.go:151-170 | Takes one frame and reacts to it; a payload that does not parse is consumed whole and changes neither codecs nor trackers; on a dependable connection it breaks only on too few octets; what is left is always a suffix of what waited. |
| Clients.Client.ApplyFrame | client/client.go:192-201 | Received HEADER_TABLE_SIZE entries are applied to the request codec one after another. |
| Clients.Client.ApplySentFrame | client/client.go:203-212 | Sent ones to the response decoder's limit. |
| EndpointLaws.TableSizesFollowSettings | client/client.go:192-212 | After any mix of sends and receives, all limits of both codecs: the request codec's size, encoder and decoder follow the last HEADER_TABLE_SIZE received (4096 before), the response decoder's allowance the last one sent (the configured value before), and nothing else moves; RFC 9113, section 6.5.3, RFC 7541, section 4.2. |
| EndpointLaws.RawFramesAreInvisible | client/client.go:203-212 | Sending or receiving a raw frame changes neither codecs nor trackers. |
| EndpointLaws.ReceiverDecodesReassembledBlocks | client/event.go:40-42 | Over any run the response decoder is shown exactly the blocks the reference machine reassembles, in order. |
| EndpointLaws.SenderDecodesReassembledBlocks | client/event.go:35-37 | Same for the request codec and the frames sent. |
| EndpointLaws.PeerEventsMatch | client/client.go:124-170 | Over runs seen alike, sender and peer report event by event the same completed blocks, streams, END_STREAM bits and faults. |
| EndToEnd.PeersObserveTheSameBlocks | client/client.go:124-170 | The same over octets: what the peer reads off the wire gives its decoder the same blocks in the same order as the sender's own tracker. |
| Transfers.SendAll | client/client.go:124-134 | Frames sent one after another leave exactly their octets in order, whatever the partial writes, with the codecs, tracker and events of the fold. |
| Transfers.ReceiveAll | client/client.go:151-170 | Frames read one after another are those of the octets waiting, however chunked; on a dependable connection it fails only where no frame can be read. |
| Transfers.Transfer | client/client.go:95-170 | What one client sends in pieces another, reading in pieces, receives as exactly the canonical frames, in order and with nothing left, and both report the same blocks and faults. |
| Captures.CaptureManager.RecordHeaders | cmd/mh2c/output_capture.go:61-68 | Appends to one stream's headers, marks its end and possibly selects it; no other stream changes. |
| Captures.CaptureManager.RecordData | cmd/mh2c/output_capture.go:70-77 | Appends to one stream's body, marks its end and possibly selects it; no other stream changes. |
| Captures.CaptureManager.SelectStream | cmd/mh2c/output_capture.go:112-122 | Explicit mode selects only the target; auto mode only the first nonzero stream. |
| Captures.CaptureManager.SelectedStream | cmd/mh2c/output_capture.go:124-134 | The stream that would be written out, if any. |
| Captures.OutputController.HandleReceived | cmd/mh2c/output.go:105-118 | A decode error stops before capture if headers are decoded or captured; capture comes before display and does not depend on it. |
| Captures.OutputController.HandleSent | cmd/mh2c/output.go:94-103 | Shows the event if the filters let it through, and nothing else changes. |
| Captures.OutputController.CaptureReceived | cmd/mh2c/output_capture.go:47-59 | Completed, non-empty header lists and DATA are recorded. |
| CaptureLaws.CaptureDescribesStreams | cmd/mh2c/output_capture.go:47-77 | After any run from any capture each stream's body and headers have grown by the in-order concatenation of its DATA and completed header lists, its end is known exactly when it was or END_STREAM was recorded, and only mentioned streams are added. |
| CaptureLaws.EmptyBlockEndsUnrecorded | cmd/mh2c/output_capture.go:47-54 | HEADERS with END_STREAM whose block decodes to no fields end the stream in plain view and leave the capture as it was. |
| CaptureLaws.EndIsRecordedExactly | cmd/mh2c/output_capture.go:47-77 | A stream is known to have ended exactly as seen, if and only if it was known to, or no end was seen, or one was seen on DATA or on a block with fields. |
| CaptureLaws.SelectionSettles | cmd/mh2c/output_capture.go:112-122 | Auto mode keeps what it had selected, else selects the first nonzero stream to end, and never changes; explicit mode keeps its target; from any capture. |
| CaptureLaws.AutoSelectsFirstSeenExactly | cmd/mh2c/output_capture.go:112-122 | Auto mode selects the stream whose end is seen first if and only if that end is recorded, or the next event to record an end is of the same stream. |
| CaptureLaws.AutoSelectionCanSkip | cmd/mh2c/output_capture.go:47-77 | An end on a block without fields is skipped, and the next stream to end is selected instead. |
| EndToEnd.EventsAreOneKind | client/event.go:44-67 | No event of a client's run carries both a completed block and DATA, which is what the laws of selection assume. |
| CaptureLaws.SelectedStreamIsComplete | cmd/mh2c/output_capture.go:79-134 | What would be written out after a run from any capture, in both modes, in terms of the events alone. |
| CaptureLaws.DisplayNeverInfluencesCapture | cmd/mh2c/output.go:105-118 | Two controllers that differ in filters, format, limits and, once something is captured, header decoding reach the same capture and stop at the same event. |
| CaptureLaws.HiddenExactly | cmd/mh2c/output_filter.go:11-32 | Exactly which events are hidden: those a nonempty filter does not list, but frames on stream 0 never by the stream filter. |
| CaptureLaws.NamesAreKinds | cmd/mh2c/output_filter.go:88-115 | Each kind of frame has a filter name of its own. |
| CaptureLaws.RunShowsItsEvents | cmd/mh2c/output.go:105-118 | The lines of a run are one for each event that is not hidden, in order, up to where it stops; header fields only if headers are decoded. |
| EndToEnd.ErrorsAreFaults | client/event.go:84-98 | Where every block decodes, events are error-free exactly when reassembly is fault-free. |
| EndToEnd.BodiesAreCapturedEndToEnd | cmd/mh2c/output_capture.go:47-77 | Frames sent with any padding, any cut of their header blocks and any interleaving, carried as octets, leave every stream's captured body grown by the data sent on it. |
| EndToEnd.SelectedBodyEndToEnd | cmd/mh2c/output_capture.go:79-134 | Over the wire, what would be written out is one stream with the body sent on it: the target, or the one selected before, or the first nonzero stream whose end was recorded. |
| Sessions.AcksAreInvisible | cmd/mh2c/session.go:63-75 | An acknowledgement always marshals and changes neither codecs nor trackers of its sender. |
| SessionLoops.SendFrameAndReport | cmd/mh2c/session.go:55-61 | Sends one frame and shows its event if the filters let it through; on a dependable connection it fails exactly on frames that do not marshal. |
| SessionLoops.AckControlFrame | cmd/mh2c/session.go:63-75 | Sends exactly the answer the frame asks for, if any. |
| SessionLoops.StartSession | cmd/mh2c/session.go:10-53 | Preface and SETTINGS, then a loop that reads exactly up to the first non-ACK SETTINGS or GOAWAY and answers everything read. |
| SessionLoops.ReceiveResponseFrames | cmd/mh2c/session.go:77-107 | Reads exactly up to GOAWAY or the end of the stream; on a dependable connection the outcome is determined by the waiting octets; the flag tells whether a GOAWAY was read. |
| SessionLoops.ReceivePingFrames | cmd/mh2c/session.go:109-136 | Same, up to GOAWAY or the PING ACK with the wanted data. |
| SessionLoops.ReceiveObserveFrames | cmd/mh2c/session.go:138-163 | Reads exactly up to GOAWAY or the frame limit. Here as in the other loops, where the input ends first a dependable run has still tracked, captured and answered all it read. |
| SessionLoops.RunReceivePlan | cmd/mh2c/script_receive.go:46-117 | Same, up to what the script waits for, with the answers the script switched on; `SessionGoals.LoopEndsExactly` tells where that is. |
| SessionLoops.MeetsPlan | cmd/mh2c/script_receive.go:63-116 | Whether the script's receive action stops at an event; `SessionGoals.VerdictIsTold` tells it goal by goal. |
| SessionLaws.OutcomeIsDetermined | cmd/mh2c/session.go:77-163 | Two runs over the same octets, chunked differently, read the same frames and end alike. |
| SessionLaws.EffectIsDetermined | cmd/mh2c/session.go:77-163 | And leave the same codecs, trackers, capture, octets sent and octets unread. |
| SessionLaws.GoAwayIsLast | cmd/mh2c/session.go:92-95 | A loop that ends on GOAWAY reads none before its last frame, and its flag is true if and only if the last frame is one. |
| SessionGoals.LoopEndsExactly | cmd/mh2c/session.go:10-163 | Each loop's run is exactly: no frame but the last stops or breaks it, and the last does, or none can be read. What stops and breaks is told by kind, lowest flag bit, stream, PING data and position, not by the loop's own tests. |
| SessionGoals.VerdictIsTold | cmd/mh2c/script_receive.go:46-117 | The tests of all five loops and of each goal a script can name are those conditions. |
| SessionGoals.PrefaceIsText | client/client.go:16 | The preface is the text of RFC 9113, section 3.4. |
| SessionGoals.PeerReadsHello | cmd/mh2c/session.go:10-24 | The first SETTINGS as a peer reads it: no push, a window of 65535, the table size asked for. |
| SessionLaws.CountingLoopsStopExactly | cmd/mh2c/script_receive.go:99-116 | Counting loops read min(count, position of the first GOAWAY) frames. |
| SessionLaws.AnswersMatchQuestions | cmd/mh2c/session.go:63-75 | Every question is answered once, in order, a PING with its own data; RFC 9113, sections 6.5.3 and 6.7. |
| SessionLaws.AnswersAskNothing | cmd/mh2c/session.go:63-75 | Answers ask nothing, so answering never goes back and forth. |
| SessionLaws.SessionAnswersItsQuestions | cmd/mh2c/script_receive.go:67-98 | The octets a successful loop adds to the wire read back as exactly its answers and nothing else. |
| SessionLaws.SessionCapturesWhatItRead | cmd/mh2c/session.go:77-163 | After a successful loop, from whatever capture it started with, each stream has grown by what was read on it, its body by the DATA. |
| SessionLaws.TwoSessionsCaptureAsOne | cmd/mh2c/main.go:91-133 | A handshake and a later loop on one controller capture as one run: what is written out is one stream as the events of both tell it, with the DATA of both in order. |
| SessionLaws.ObserverReadsToGoAway | cmd/mh2c/session.go:138-163 | Observing well-formed traffic that ends with its only GOAWAY ends well, having read exactly the frames sent in canonical form. |
| SessionLaws.ObservedBodiesEndToEnd | cmd/mh2c/session.go:138-163 | On a dependable connection that loop always succeeds, leaves what followed unread, and every stream's captured body has grown by the data sent on it. |
| Modes.SendRequest | cmd/mh2c/request.go:82-100 | Leaves a HEADERS frame with the compressed fields and, for a body, one DATA frame; on a dependable connection it fails exactly if the compressor refuses or a frame does not marshal. |
| Modes.PeerReadsTheRequest | cmd/mh2c/request.go:82-100 | The peer reads one complete header block on the stream and the body as its DATA, and the last frame ends the stream. |
| Modes.Conclude | cmd/mh2c/main.go:143-149 | A GOAWAY goes out if asked for and none was seen; the selected stream is written out. |
| Modes.PeerReadsGoodBye | cmd/mh2c/main.go:143-149 | That GOAWAY as a peer reads it: 31 bits of the last stream id, no error, no debug data. |
| Modes.RunObserve | cmd/mh2c/main.go:126-149 | Handshake, loop and conclusion: what is written out is one stream as all events of both loops tell it. |
| Modes.RunRequest | cmd/mh2c/main.go:91-149 | Handshake, request, loop up to the end of its stream, conclusion; the same of what is written out. |
| Modes.RunScript | cmd/mh2c/main.go:39-149 | A script that is not accepted does nothing; an accepted one never runs into a bad repeat or overflowing id, one that finishes has executed exactly the tables its actions tell, as many as the repeats add up to, and on a dependable connection it fails only for reasons outside it. |
| Utf8.ValidIffEncoded | internal/framefmt/format.go:44-51 | The validity grammar of RFC 3629, section 4 accepts exactly the encodings of scalar values of section 3. |
| TextFormat.TruncateUTF8Prefix | internal/framefmt/format.go:54-65 | The shrinking loop ends with the longest valid prefix of any octets. |
| TextFormat.DataTextJSON | internal/framefmt/format.go:33-52 | Cut text is never reported as non-UTF-8; uncut text is exactly when it is invalid. |
| TextFormat.TruncationKeepsWholeCodePoints | internal/framefmt/format.go:54-65 | Cutting valid text keeps exactly the whole code points that fit and gives up at most three octets below the limit. |
| ScriptFrames.ParseFlags | cmd/mh2c/script_frame.go:360-382 | The loop joins all named or numeric flags, and fails exactly when one of them is neither; `ScriptMeaningLaws.JoinedBitsAreListed` says what joining gives. |
| ScriptFrames.ParseScriptSettings | cmd/mh2c/script_frame.go:228-246 | The loop yields all entries in order, and fails exactly when one of them does not parse. |
| ScriptFrames.ParseHeaderFields | cmd/mh2c/script_frame.go:264-271 | Same for header lines. |
| ScriptMeaningLaws.JoinedBitsAreListed | cmd/mh2c/script_frame.go:360-382 | For every mask, a bit of the joined byte is set if and only if some listed entry, by name or number, has it. |
| ScriptMeaningLaws.NamesAreKnown | cmd/mh2c/script_frame.go:14-186 | The flag names each action knows, with their bits as numbers. |
| ScriptMeaningLaws.FlagsAreTold | cmd/mh2c/script_frame.go:360-382 | So the flags of a table are told from its entries, no flags being 0. |
| ScriptMeaningLaws.CompressedFieldsAreListed | cmd/mh2c/script_frame.go:248-273 | What is handed to the compressor is the listed header lines, each parsed, in order. |
| ScriptSpecs.ValidateScriptTable | cmd/mh2c/script_spec.go:438-460 | Accepts exactly the tables whose fields are allowed, of the right kind, and complete; for actions and for the connection alike. |
| ScriptSpecs.ValidateScript | cmd/mh2c/script_spec.go:267-285 | Accepts exactly the scripts whose connection table and whose every action pass the checks; the laws of `ScriptCompletenessLaws` say that nothing else is refused. |
| ScriptSpecs.ValidateScriptAction | cmd/mh2c/script_spec.go:287-388 | Table, repeat and type checks together, in the program's order. |
| ScriptSpecs.ValidateActionRepeat | cmd/mh2c/script_spec.go:397-427 | The closed-form test accepts a step if and only if the action has a stream id and base + step*(count-1) fits 32 bits over the integers. |
| ScriptSpecs.ValidateType | cmd/mh2c/script_spec.go:296-387 | The parsing loops and single checks in the program's order accept exactly what the type's conditions say. |
| ScriptSpecs.ValidateHeaderList | cmd/mh2c/script_spec.go:493-504 | The loop accepts exactly the lists whose every line parses. |
| ScriptSpecs.ValidateReceiveAction | cmd/mh2c/script_spec.go:462-491 | The early returns amount to a condition on count, goal and stream id, told outright by `ScriptCompletenessLaws.ReceiveIsAcceptedExactly`. |
| ScriptCompletenessLaws.BuildableIsAcceptedExactly | cmd/mh2c/script_spec.go:287-388 | The converse of `ScriptBuildLaws.AcceptedActionsBuild`: an action that builds for some answer of the compressor is accepted if and only if it repeats well and has no field the validator refuses. |
| ScriptCompletenessLaws.RefusedFieldsAreNotRead | cmd/mh2c/script_spec.go:438-460 | And such a field is never one the builder looks at: without it the same frame is built. |
| ScriptCompletenessLaws.RequiredFieldsAreRead | cmd/mh2c/script_spec.go:438-460 | A required field is one without which nothing builds. |
| ScriptCompletenessLaws.ReceiveIsAcceptedExactly | cmd/mh2c/script_spec.go:462-491 | A receive action with the right kinds and repeat is accepted if and only if it has a positive count, one of the five goals, or neither, with a stream for the end of a stream. |
| ScriptCompletenessLaws.StartingReceiveIsAccepted | cmd/mh2c/script_spec.go:462-491 | So one that starts and, if it names a goal, names one of the five is accepted. |
| ScriptCompletenessLaws.ReceiveIgnores | cmd/mh2c/script_spec.go:438-460 | A field refused on it is never one it looks at. |
| ScriptCompletenessLaws.ReceivePlanIsTold | cmd/mh2c/script_receive.go:10-45 | Count, answers, goal and stream of a receive action, entry by entry, with the defaults: one frame, no answers. |
| ScriptCompletenessLaws.RepeatIgnores | cmd/mh2c/script_spec.go:397-460 | A field refused on any action is not looked at by its repeat nor by a sleep. |
| ScriptCompletenessLaws.OtherRequirements | cmd/mh2c/script_spec.go:48-178 | Preface and receive require nothing but their type, sleep its duration. |
| ScriptCompletenessLaws.SleepIsAcceptedExactly | cmd/mh2c/script_spec.go:287-306 | A sleep is accepted if and only if its duration is a positive number; a preface always. |
| ScriptCompletenessLaws.ScriptIsAcceptedExactly | cmd/mh2c/script_spec.go:267-285 | A script is accepted if and only if every connection entry is known and of its kind and every action names a type and is accepted. |
| ScriptConnections.ApplyScriptConnection | cmd/mh2c/script.go:15-76 | The checks and assignments in the program's order give the settings, or fail, as the closed form says. |
| ScriptConnections.AcceptedConnectionApplies | cmd/mh2c/script.go:15-76 | An accepted connection table applies if and only if its three numbers are in range, which the validator does not check. |
| ScriptConnections.AppliedIsTold | cmd/mh2c/script.go:15-76 | Each setting is then the table's own entry, or what it was before. |
| ScriptConnections.RefusedEntriesSetNothing | cmd/mh2c/script_spec.go:26-37 | An entry the validator refuses is one that would have set nothing. |
| ScriptSpecs.CopyForIteration | cmd/mh2c/script.go:131-149 | The copied table equals the original with the stream id of the iteration, in 64-bit arithmetic. |
| RepeatArithmetic.ClosedFormIsExact | cmd/mh2c/script_spec.go:417-425 | The quotient test passes if and only if base + step*(count-1) fits 32 bits over the integers. |
| ScriptLaws.AcceptedRepeatsNeverWrap | cmd/mh2c/script.go:131-149 | Every iteration of an accepted action has its true stream id and every other field unchanged. |
| ScriptPlanLaws.RepeatIsTold | cmd/mh2c/script.go:103-129 | The validator's repeat check in terms of the table's entries, in both directions, and the count and step the program takes from them: once and no step unless told. |
| ScriptPlanLaws.AcceptedActionIsPlanned | cmd/mh2c/script.go:78-149 | An accepted action runs exactly as often as its `repeat` says, or once; the k-th table has stream id base + step*k and every other entry as written. |
| ScriptPlanLaws.PlanIsTold | cmd/mh2c/script.go:78-100 | The plan of an accepted script is those tables, one action after the other, and there are as many as the repeats add up to. |
| ScriptLaws.FirstOverflowStops | cmd/mh2c/script.go:86-97 | Without validation, the first iteration whose true id leaves 32 bits is the first to fail, so iterations in order never wrap. |
| ScriptLaws.LateIterationWraps | cmd/mh2c/script.go:139-142 | A late iteration taken alone can wrap: iteration 2^32+1 with step 2^32-1 and base 1 gets stream 0. |
| ScriptLaws.LoneIterationIsRightExactly | cmd/mh2c/script.go:139-142 | Exactly when an iteration taken alone comes out right. |
| ScriptBuildLaws.AcceptedActionsBuild | cmd/mh2c/script_spec.go:287-388 | For an accepted frame-building action every iteration builds, whatever the compressor answers, if and only if the fields the validator does not range-check fit. |
| ScriptBuildLaws.RangesAreLeftToTheBuilder | cmd/mh2c/script_spec.go:287-388 | A DATA action on stream -1 is accepted by the validator and refused by the builder. |
| ScriptBuildLaws.BuiltFramesAreSendable | cmd/mh2c/script_frame.go:14-186 | A typed frame built from an action fits its kind and states its true length, so with a 24-bit payload it survives the wire. |
| ScriptBuildLaws.BuiltFramesKeepTheirStream | cmd/mh2c/script_frame.go:35-226 | The action's stream id is the frame's. |
| ScriptWireLaws.PeerReadsWhatTheScriptSays | cmd/mh2c/script_frame.go:14-186 | Whatever follows on the wire, the next frame read is the one the table describes, told from its entries and the numbers of RFC 9113: each flag bit exactly if listed, 31 bits of each id, the pad length exactly under PADDED, a priority exactly under PRIORITY, block, data, settings and codes as listed. |
| ScriptWireLaws.PeerReadsRawAsTold | cmd/mh2c/script_frame.go:187-222 | A raw action's header is believed whatever it says: the peer takes as many octets as its length tells from the payload and what follows; lengths beyond 24 bits are not sent. |
| ScriptBuildLaws.AcceptedReceiveStarts | cmd/mh2c/script_spec.go:462-491 | An accepted receive action starts if and only if its stream id, where there is one, is a number of 32 bits, and never with an unknown goal. |
| ScriptBuilder.BuildHeaderBlock | cmd/mh2c/script_frame.go:248-273 | Fields and hex exclude each other; the compressor is asked for the parsed fields and only then, and moves on exactly when asked. |
| ScriptBuilder.BuildHeadersFrame | cmd/mh2c/script_frame.go:35-62 | Parsing, compressing and parsing on in the program's order give the frame of the order-free builder, the compressor having been asked exactly for `Compressed`. |
| ScriptBuilder.BuildPushPromiseFrame | cmd/mh2c/script_frame.go:162-186 | Same for PUSH_PROMISE. |
| ScriptBuilder.BuildDataFrame | cmd/mh2c/script_frame.go:81-107 | With or without a pad length field. |
| ScriptBuilder.BuildScriptFrame | cmd/mh2c/script_frame.go:14-226 | The builder in the program's order against the order-free one; the laws below say what its asking means. |
| ScriptBuilder.CompressedBlockIsSent | cmd/mh2c/script_frame.go:35-62 | An action that reaches the compressor builds a frame if and only if the compressor answers and the fields looked at afterwards are good; the answer is the frame's block. |
| ScriptRunLaws.ReadyFieldsAreGood | cmd/mh2c/script_spec.go:287-388 | For an accepted action with the unchecked fields in range the fields looked at after compressing are good. |
| ScriptRunLaws.CompressorMovesForNothing | cmd/mh2c/script_frame.go:35-62 | A HEADERS action with pad length 256 is accepted and compressed, and no answer makes a frame of it. |
| ScriptBuilder.CompressorIsIgnored | cmd/mh2c/script_frame.go:14-226 | An action that does not reach it builds the same frame whatever it would have answered. |
| ScriptRun.ExecuteReceiveAction | cmd/mh2c/script_receive.go:10-118 | A receive action with bad settings fails untouched; otherwise its loop runs as planned. |
| ScriptRun.SendScriptFrame | cmd/mh2c/script.go:183-194 | Success leaves the built frame's octets and the reactions of compressor, codecs and tracker; on a dependable connection it fails exactly if the frame does not build or does not marshal. |
| ScriptRun.ExecuteScriptAction | cmd/mh2c/script.go:158-197 | A successful action leads from state to state as its table says: preface and frames write their octets, a receive action reads exactly up to its goal. On a dependable connection an action fails only where its build, marshalling, sleep check or receive loop does. |
| ScriptRun.ExecuteScript | cmd/mh2c/script.go:78-100 | The intended tables, told by `ScriptPlanLaws.PlanIsTold`, are executed in order, each from the state the one before it left: all, or those before a bad repeat or overflowing id, or those before one that fails, which on a dependable connection fails by itself; the flag is true if and only if some executed action read a GOAWAY. |
| ScriptRun.AcceptedScriptsPlanCompletely | cmd/mh2c/script.go:78-100 | For a validated script the intended tables are all iterations of all actions; `ScriptPlanLaws.PlanIsTold` tells them from the script. |
| ScriptRunLaws.StepIsDetermined | cmd/mh2c/script.go:158-197 | One action from one state has one effect, whatever the chunking. |
| ScriptRunLaws.SteppingIsNotBreaking | cmd/mh2c/script.go:158-197 | No action both succeeds and fails by itself from the same state. |
| ScriptRunLaws.ScriptIsDetermined | cmd/mh2c/script.go:78-100 | Two runs of a script over the same octets, chunked differently, execute the same actions to the same effect and end alike. |
| ScriptRunLaws.ScriptAccountsForEveryOctet | cmd/mh2c/script.go:78-100 | Everything written and read in a run is what its actions wrote and read, in order. |
| ScriptPeerLaws.PeerReadsTheScript | cmd/mh2c/script.go:78-100 | After whatever a run wrote, a peer that has taken the opening preface, if there was one, reads exactly the frames the script built and the answers it gave, in order and with nothing left. |
| ScriptPeerLaws.ScriptIsHeard | cmd/mh2c/script.go:158-197 | Action by action these are a frame that says its table, field by field, or the answers of a receive action. |
| ScriptPeerLaws.PeerHearsTheWholeScript | cmd/mh2c/script.go:78-100 | So for a finished script without raw actions that opens the connection at most once, first: the peer reads table by table what the script says, with the answers in between, whatever its frames as long as no payload reaches 2^32 octets. |
| ScriptRunLaws.ReadyTableBreaksExactly | cmd/mh2c/script.go:158-197 | A table of an accepted script, with the unchecked fields in range, fails if and only if the compressor refuses, the length does not fit 24 bits, or the receive loop ends badly. |
| ScriptRunLaws.AcceptedScriptsFailOutsideOnly | cmd/mh2c/script.go:78-100 | So a run of an accepted script goes through all its tables unless one of those happens. |

## Left out

- Clients.Client.SendRaw: a connection whose write takes nothing and reports no error, on which the program would loop forever, is not modelled.
- Captures.CaptureManager: the per-stream records are values in the map; the program keeps pointers to them, so a record handed out by `selected` would follow later changes.
- Captures.CaptureManager.SelectedStream: the files it is written to are not modelled.
- TextFormat.DataTextJSON: the limit is a natural number; the program's conversion of limits above 2^63-1 to a signed integer is not modelled, nor is the quoting of the text.
- ScriptValues.Key: field names are constructors instead of strings.
- ScriptRun.ExecuteScriptAction: the pause of a sleep action has no effect in the model.
- ScriptConnections.ApplyScriptConnection: the timeout is kept in milliseconds; its conversion to a duration, which wraps beyond 2^63 nanoseconds, is not modelled.
- SessionLoops.RunReceivePlan: the `switch` over frames and its count check are a method of their own, `MeetsPlan`, and the two inline answers are one, `AckIfAsked`.
- HPACK compression itself; it belongs to golang.org/x/net, which is not part of this model, so nothing is claimed about what blocks decode to.
- The run of the ping mode as a whole; its loop is `SessionLoops.ReceivePingFrames`.
- Warnings in decode reports; the codec wrapper never produces any.
- TLS, dialling, contexts, timeouts and closing of connections.
- TOML and flag parsing, URL resolution, request bodies and default request fields.
- Rendering of frames as text, JSON and hex, and the wording of errors; an error is kept only as the branch that raised it.
- Protocol rules the program does not enforce, such as legal stream ids, zero window increments or frames interleaved with a header block.
