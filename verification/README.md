# Open Timekeeping: the log, the framing and the ingest pipeline, verified

This project models the parts of Open Timekeeping in which recovery, concurrency and incremental parsing meet, and proves
what they promise. Everything is Dafny; `dafny verify dfyconfig.toml` checks it all.

**Segment event log** (`Segment*.dfy`). The on-disk format down to its bytes (`SegmentRecord`, `SegmentFile`), the directory
as crashes see it and what keeps it recoverable (`SegmentDisk`), the calls the log makes of the file system (`SegmentIo`),
its memory (`SegmentState`), the single steps its operations consist of (`SegmentSteps`), writing and sealing
(`SegmentWriting`), retention (`SegmentRetention`), range reads (`SegmentReading`), opening (`SegmentRecovery`), the log itself
(`SegmentLog`), paging (`EventQueries`). A directory is a map from base offset to file contents and an index, with the
WATERMARK file; each file remembers how much of it has been synced, and a crash may cut it anywhere at or after that.

Each operation is a function from the log's state to its new state and the calls it makes, in order; the methods are
the program's loops and field updates, proved equal to those functions. `SegmentLogs.AppendDoes` and
`SegmentRecovery.OpensOwn` are about the functions: every call is one step that keeps the directory recoverable. On
them rest the results about runs. `SegmentRuns` runs appends, range reads, crashes after any call, reopenings and
crashes in those, on concrete states. `SegmentAtomicity` says when an append is all or nothing across a crash and
which entries survive one. `SegmentScenes` interleaves a subscription (`SegmentSubscription`), which reads the files
while the log writes them, with the log's own operations call by call; `SegmentWorld` is what readers may rely on
meanwhile and `SegmentDelivery` what a subscription makes of it. `SegmentRefusals` shows what a batch refused part-way
does to readers.

Those results speak of a log that writes its own files. What the code does with any other bytes is said in plain numbers
and byte positions: `SegmentDamage` (which bytes read as a record, which damage is noticed and where recovery cuts),
`SegmentOpening` (which directories open, and as what), `SegmentRolling` (when a segment is rolled and evicted, and the creation
time across restarts) and `SegmentFaults` (what a subscription and an append do about damage and unfit events).

**Frame codec** (`StreamCodec`, `SerialCodec`, `Crc16`, `Cobs`) and the **TCP session** on top of it (`TcpSession`). The
incremental decoders agree with one-shot parsers under every chunking, and so does a session over a stream without frame
errors; `TcpFrameErrors` says exactly what sessions a stream with one can give, and when they are all the same. The CRC is
the program's own loop, so its error detection is a theorem. CBOR is a pair of functions with decode after encode the identity; COBS is a set of laws that the
published algorithm (Cheshire and Baker) is shown to obey.

**Ingest pipeline** (`SequenceGate`, `CrossingProcessor`, `EventIngest`, `IngestInterleaving`, `IngestGroups`, `Crossings`). Decide,
append, commit: the log of any run is a function of the calls, failures leave no trace, grouping detections one by one
agrees with grouping them all at once, and a crossing says of its detections what it should. Of concurrent
sessions, whose calls interleave step by step, it is said exactly when they keep each producer's numbers increasing and when they write each crossing once; of a crash in a call's append, exactly
when a restart and a retry make up for it.

**In-memory log** (`MemLog`). The conformance suite's backend and its check, register, re-check, park protocol.

Methods follow the program's loops and field updates and are proved against functions on values; lemmas and invariants over
runs are about those functions. Clock readings are arguments. An operation's ghost parameters and results name the history
it is verified against and the calls it makes; they carry no information the program would need.

## Where the code and its documentation differ

The model follows the code.

- The port's text says that RetentionExpired takes precedence over an empty range and that a fully evicted log answers
  RetentionExpired to every offset (timing-core/src/ports/outbound/event_log.rs:316-329). `SegmentLog::read_range` answers
  the empty range and offsets at or past the tail first (adapter-event-log-segment/src/log.rs:706-719), and its latest
  offset survives full eviction (log.rs:536-539) where `MemLog` answers none. `MemLogs.BackendsAgreeExcept` says exactly
  when the two backends answer a range read alike.
- The port's text says that append is atomic (event_log.rs:293). Without a crash it is: a refused batch leaves nothing. Across
  a crash it is not, since each record has its own checksum: `SegmentAtomicity.PartMaySurvive` gives the crash that keeps one
  record of a larger batch, and `SegmentAtomicity.AtomicExactlyWhen` says that an append is all or nothing exactly if its
  batch has one event or its first event is refused. After the batch's fsync nothing of it can be lost any more:
  `SegmentAtomicity.SyncedSurvives`.
- Subscriptions are promised the log's entries with no gap and no repeat. A batch that is refused after its first event lies
  in the file until it is cut away, and a subscription may read it meanwhile: `SegmentRefusals.RefusedIsDelivered` is such a
  run, and `SegmentRefusals.ReadersKeptExactlyWhen` says that an append keeps the promise exactly if it is accepted or refused
  at its first event.
- A TCP session that reports a frame error still holds the envelopes in front of it, so that an event that arrived before the
  bad frame comes after the error (`TcpSessions.FrameErrorsShowChunking`). How a stream was cut into reads thus shows, unless
  it has no frame error or says nothing in front of the first (`TcpFrameErrors.ChunkingShowsExactlyWhen`).
- A detection and the crossings it derives are called atomic at the storage layer
  (timing-core/src/services/event_ingest.rs:75-80). A crash can keep the detection alone, and the gate then drops the retry;
  `IngestGroups.RetryAfterCrash` says exactly which crashes a restart and a retry make up for.
- The crossings computed before the append are taken to be those of the commit after it (event_ingest.rs:205-212). With
  other calls in between they need not be: `IngestGroups.GroupWrittenTwice` writes one group's crossing twice, and
  `IngestGroups.EmittedExactlyWhen` says that crossings come out as if the calls had followed one another exactly if the two
  agree for every call. In the same way two calls of one detector can both pass the gate
  (`IngestInterleaving.SafeExactlyWhen`).
- The segment log's own README describes the version 1 record without the producer id; the code writes version 2.
- `MemLog::evict_below` can move the boundary back, although it is described as eviction.

## Model

| member | source | states |
|---|---|---|
| Bytes.LittleEndianDigit | adapter-event-log-segment/src/segment.rs:105-165 | Byte i of a number on disk is its i-th digit to base 256, lowest first. |
| Bytes.BigEndianReverses | frame-codec/src/stream.rs:24-28 | A length prefix has the same digits, highest first. |
| StreamCodec.EncodeStream | frame-codec/src/stream.rs:13-29 | Succeeds exactly when the envelope encodes within the limit and u32; then the frame is the big-endian length and the payload; otherwise the error names the clamped limit. |
| StreamCodec.Drain | frame-codec/src/stream.rs:112-155 | The cursor loop over the buffer stops exactly where the one-shot recursive parser stops, with the same results. |
| StreamCodec.StreamFrameDecoder.Push | frame-codec/src/stream.rs:92-156 | One push yields the results, remaining bytes and remaining skip of parsing what was held plus the new bytes; a skip in progress implies an empty buffer. |
| StreamCodec.ParseSplit | frame-codec/src/stream.rs:92-156 | Parsing a prefix and then the rest from where it stopped is parsing the whole, oversize skips and decode errors included. |
| StreamCodec.ChunkingIsInvisible | frame-codec/src/stream.rs:92-156 | Every way of cutting any byte string into pushes gives the results and final state of one push of the whole. |
| StreamCodec.ParseWire | frame-codec/src/stream.rs:92-156 | A concatenation of frames parses to exactly one outcome per frame, in order, whatever follows. |
| StreamCodec.PendingMeansMidFrame | frame-codec/src/stream.rs:77-79 | Nothing is pending exactly when what was fed is whole frames and nothing else. |
| StreamCodec.StreamRoundTrip | frame-codec/src/stream.rs:13-156 | A frame the encoder accepts decodes to its envelope at the same limit. |
| StreamCodec.FrameReported | frame-codec/src/stream.rs:112-155 | A whole frame is reported as oversize with its length if it is over the limit, as undecodable, or as its envelope, whatever follows. |
| StreamCodec.DecoderPendingMidFrame | frame-codec/src/stream.rs:77-79 | A decoder has something pending exactly if what it was fed is not whole frames. |
| Crc16.Crc16CcittFalse | frame-codec/src/serial.rs:159-172 | The two nested loops compute the register that feeding the message byte by byte defines. |
| Crc16.CrcIsFeed | frame-codec/src/serial.rs:159-172 | The byte-wise register equals shifting the message in bit by bit. |
| Crc16.ResidueZero | frame-codec/src/serial.rs:111-116 | A message followed by two bytes leaves the register at zero exactly when they are its big-endian CRC. |
| Crc16.PassesIsResidue | frame-codec/src/serial.rs:111-116 | The decoder's comparison of checksums is the zero-residue test. |
| Crc16.EncodedPasses | frame-codec/src/serial.rs:24-27 | Every codeword the encoder forms passes the decoder's check. |
| Crc16.BurstDetected | frame-codec/src/serial.rs:111-116 | Any change within sixteen consecutive bits of a passing codeword of any length makes the check fail. |
| Crc16.AdjacentBytesDetected | frame-codec/src/serial.rs:111-116 | Any change confined to two adjacent bytes of a passing codeword makes the check fail. |
| Crc16.OddFlipsDetected | frame-codec/src/serial.rs:159-172 | Any odd number of flipped bits, anywhere, makes the check fail. |
| Crc16.StartsWithOnes | frame-codec/src/serial.rs:159-160 | The register starts at 0xFFFF: two bytes of ones, and no others, cancel it. |
| Crc16.OneLeavesPolynomial | frame-codec/src/serial.rs:162-170 | A single one leaves 0x1021 in an empty register. |
| Cobs.PublishedSchemeIsLawful | frame-codec/src/serial.rs:29-33 | The published byte-stuffing algorithm has no zero in its output, decodes to its input and stays within its length bound. |
| SerialCodec.EncodeSerial | frame-codec/src/serial.rs:16-35 | Succeeds exactly for payloads within the limit; the output is the stuffed payload and CRC, then one delimiter. |
| SerialCodec.SerialFrameDecoder.Decode | frame-codec/src/serial.rs:101-133 | Stuffing, length, CRC, size and envelope are checked in that order, each with its own error. |
| SerialCodec.SerialFrameDecoder.Push | frame-codec/src/serial.rs:92-151 | The loop's results and state are those of the byte-wise machine; the buffer holds no delimiter and never exceeds the wire limit. |
| SerialCodec.RunSplit | frame-codec/src/serial.rs:92-151 | Chunking is invisible to the serial decoder. |
| SerialCodec.RunPieces | frame-codec/src/serial.rs:92-151 | Results are those of the delimited pieces one by one, each independent of the others. |
| SerialCodec.Pieces | frame-codec/src/serial.rs:94-99 | Every byte string is delimited pieces and a tail without delimiters, so the piecewise account covers all input. |
| SerialCodec.DelimiterResyncs | frame-codec/src/serial.rs:95-100 | After any bytes and one delimiter the decoder is clean, whatever state it was in. |
| SerialCodec.FrameDecodes | frame-codec/src/serial.rs:80-136 | A frame accepted by the encoder fits the decoder's derived wire limit and decodes to its envelope. |
| SerialCodec.FrameAfterResync | frame-codec/src/serial.rs:16-151 | From any state, after any bytes and one delimiter, an accepted frame decodes to exactly its envelope. |
| SerialCodec.BurstIsReported | frame-codec/src/serial.rs:101-116 | A codeword changed within sixteen consecutive bits is reported corrupt, never decoded. |
| SerialCodec.BufferBounded | frame-codec/src/serial.rs:134-148 | No run buffers a delimiter or more than the wire limit. |
| SerialCodec.OverlongReported | frame-codec/src/serial.rs:136-146 | More bytes than the largest allowed payload can stuff to are reported once as oversize without a length. |
| SerialCodec.UnstuffableReported | frame-codec/src/serial.rs:132 | Bytes within the wire limit that are no stuffing are lost synchronisation. |
| SerialCodec.WrongChecksumReported | frame-codec/src/serial.rs:111-116 | Any payload followed by two bytes that are not its checksum is reported corrupt. |
| SerialCodec.ShortReported | frame-codec/src/serial.rs:107-110 | A frame of one byte is reported corrupt. |
| SerialCodec.IntactReported | frame-codec/src/serial.rs:117-131 | An intact frame yields oversize with its payload's length over the limit, and otherwise its envelope or a decode failure. |
| SerialCodec.EnvelopesCameIn | frame-codec/src/serial.rs:92-151 | Every envelope any run yields came in a stuffed payload within the limit with its right checksum. |
| SerialCodec.PendingIsMidFrame | frame-codec/src/serial.rs:76-78 | Something is pending exactly if the last byte fed was no delimiter. |
| TcpSessions.ReadEnvelopes | adapter-ingest-tcp/src/session.rs:103-132 | The read loop returns the first non-empty batch of envelopes, a frame error with the envelopes in front of it still queued, or the end of the stream with whether it fell in a frame. |
| TcpSessions.TcpIngestSession.Handshake | adapter-ingest-tcp/src/session.rs:40-99 | The first envelope decides; end of stream before it is a Decode error mid-frame and a Handshake error otherwise; later envelopes of the same chunk are kept. |
| TcpSessions.TcpIngestSession.NextEvent | adapter-ingest-tcp/src/session.rs:140-158 | Returns the next event in order, skipping heartbeats, none at Disconnect or a clean end, and a Decode error otherwise, and leaves the session, after errors too, where the specification says. |
| TcpSessions.SessionIgnoresChunking | adapter-ingest-tcp/src/session.rs:40-158 | For a byte stream without frame errors every chunking gives the same handshake result, events and ending. |
| TcpSessions.RunIsDriven | adapter-ingest-tcp/src/session.rs:103-158 | From any clean state a session is driven by the envelopes it holds followed by those of the unread bytes. |
| TcpSessions.EndingIsByBoundary | adapter-ingest-tcp/src/session.rs:107-119 | Without a Disconnect the end of the stream is a Decode error exactly when the bytes are not whole frames. |
| TcpSessions.FrameErrorsShowChunking | adapter-ingest-tcp/src/session.rs:124-127 | The session goes on after a frame error: an event in the same read as a later oversize frame comes after the error, in a read of its own before it. When this shows is `TcpFrameErrors.ChunkingShowsExactlyWhen`. |
| TcpFrameErrors.ErrorBreaksOff | adapter-ingest-tcp/src/session.rs:103-158 | However a stream with a frame error is cut, the session is that of some first part of the envelopes in front of the error, broken off there with a Decode error. |
| TcpFrameErrors.EveryBreakHappens | adapter-ingest-tcp/src/session.rs:124-127 | Every such first part is what some way of cutting the stream lets through. |
| TcpFrameErrors.ChunkingShowsExactlyWhen | adapter-ingest-tcp/src/session.rs:40-158 | For any byte stream, every chunking gives the same session exactly if there is no frame error, or in front of the first no event and no Disconnect is reached before a violation, and the Connect is not refused otherwise than as malformed. |
| SequenceGates.SequenceGate.Peek | timing-core/src/domain/sequence_gate.rs:107-130 | Decides first sight, next number, gap or duplicate without changing the marks. |
| SequenceGates.SequenceGate.Commit | timing-core/src/domain/sequence_gate.rs:138-151 | Raises the mark of one key, never lowers any. |
| SequenceGates.SequenceGate.Check | timing-core/src/domain/sequence_gate.rs:156-162 | Decides on the old marks and commits exactly what persists. |
| SequenceGates.MarksAreMaxima | timing-core/src/domain/sequence_gate.rs:138-151 | After any commits each key's mark is the highest number committed for it, and only such keys have marks. |
| SequenceGates.SeedFromLog | timing-core/src/domain/sequence_gate.rs:199-230 | Seeding leaves the gate of committing every retained detection in log order; port errors change nothing. |
| SequenceGates.SeedOrderIrrelevant | timing-core/src/domain/sequence_gate.rs:216-221 | Committing the same detections in any order gives the same gate. |
| SequenceGates.PersistKeepsIncreasing | timing-core/src/domain/sequence_gate.rs:107-130 | A gate at the log's maxima lets a detection through exactly if the log's numbers stay increasing with it. |
| SequenceGates.DecisionMeans | timing-core/src/domain/sequence_gate.rs:107-130 | Each decision and the numbers in it, through the highest number committed for the key. |
| SequenceGates.SeedAfterRetention | timing-core/src/domain/sequence_gate.rs:199-230 | With any prefix evicted, a key is seeded with the highest number ever persisted for it exactly if it has a retained detection, and otherwise not at all. |
| SequenceGates.ForgottenAfterRetention | timing-core/src/domain/sequence_gate.rs:199-230 | After eviction and a restart the gate lets through again exactly those detections logged before whose key has no retained detection. |
| CrossingProcessors.PeakHasReading | timing-core/src/domain/crossing_processor.rs:83-119 | The peak lacks a reading only if no detection has one or all readings are the weakest possible. |
| CrossingProcessors.UncertaintyIsSound | timing-core/src/domain/crossing_processor.rs:25-53 | Every contributing timestamp lies within the crossing time plus or minus the uncertainty; with none they are all equal. |
| CrossingProcessors.UncertaintyCoversPeak | timing-core/src/domain/crossing_processor.rs:48-53 | The uncertainty is never below the peak detection's own. |
| CrossingProcessors.CrossingProcessor.PeekDetection | timing-core/src/domain/crossing_processor.rs:184-215 | Returns the crossings a commit of the same detection would return, changing nothing. |
| CrossingProcessors.CrossingProcessor.CommitDetection | timing-core/src/domain/crossing_processor.rs:231-267 | Emits the group that the detection closes and leaves the groups the specification says. |
| CrossingProcessors.CrossingProcessor.Flush | timing-core/src/domain/crossing_processor.rs:273-278 | Every pending group becomes exactly one crossing, and nothing stays pending. |
| CrossingProcessors.PartitionMembers | timing-core/src/domain/crossing_processor.rs:242-266 | The batch partition of a key's detections loses, adds and reorders nothing. |
| CrossingProcessors.StreamingIsBatch | timing-core/src/domain/crossing_processor.rs:231-267 | The groups emitted one by one are exactly those a batch partition closes, in the same order, for any arrivals. |
| CrossingProcessors.PendingIsLastBatchGroup | timing-core/src/domain/crossing_processor.rs:251-264 | What is pending for a key is the last group of its batch partition. |
| CrossingProcessors.EmittedAreBatchGroups | timing-core/src/domain/crossing_processor.rs:231-278 | Per key, what has been emitted is every batch group but the last, and with the pending group, which flush adds, it is all of them. |
| CrossingProcessors.EveryDetectionOnce | timing-core/src/domain/crossing_processor.rs:231-278 | Emitted and pending groups together hold each detection of a key exactly once, in arrival order. |
| CrossingProcessors.OrderedGroups | timing-core/src/domain/crossing_processor.rs:242-256 | With a key's arrivals in timestamp order, groups span at most the window and successive starts are more than a window apart. |
| Crossings.CrossingMeans | timing-core/src/domain/crossing_processor.rs:24-119 | A crossing has time, timebase, method and attestation of its peak (last strongest reading, or first earliest), the larger of the peak's uncertainty and the span, and the ids in arrival order. |
| Crossings.GroupsAreOfOne | timing-core/src/domain/crossing_processor.rs:231-267 | In every run all detections of a group are of the timing point and subject its crossing names. |
| Crossings.JoinsExactlyWhen | timing-core/src/domain/crossing_processor.rs:242-264 | A detection joins the open group exactly if it is no later than the window after the group's first; else the group closes and it starts another. |
| Crossings.StartsExactlyWhen | timing-core/src/domain/crossing_processor.rs:232-266 | Without an open group a detection starts one, and without a subject it is a crossing at once. |
| Crossings.EveryIdOnce | timing-core/src/domain/crossing_processor.rs:231-267 | In every run each detection's id is once, in order of arrival, in the crossings that name its timing point and subject or in their open group. |
| Crossings.EveryIdFlushed | timing-core/src/domain/crossing_processor.rs:231-278 | After a flush, in whatever order, the crossings hold every id once. |
| EventIngest.EventIngestService.AppendEvent | timing-core/src/services/event_ingest.rs:124-259 | Log, gate, groups and gap count become those of the specification; dropped exactly if the gate says duplicate, failed exactly if the append fails, and then nothing changes. |
| EventIngest.FailuresLeaveNoTrace | timing-core/src/services/event_ingest.rs:144-237 | Any run with failures and retries ends as the run with the failed calls deleted. |
| EventIngest.IngestIsSpecification | timing-core/src/services/event_ingest.rs:124-259 | The log of a run is: drop per key what does not increase, then each event followed by the crossings a batch grouping closes with it. |
| EventIngest.LogOfAnyRun | timing-core/src/services/event_ingest.rs:124-259 | The same for runs with failures, over the calls that did not fail. |
| EventIngest.LogSeedsTheGate | timing-core/src/domain/sequence_gate.rs:199-230 | In every run the logged numbers increase per key, and seeding from the whole log gives the running gate. |
| EventIngest.DropsExactlyWhen | timing-core/src/services/event_ingest.rs:144-163 | In every run a detection is dropped exactly if the log holds one of the same producer and detector with the same or a higher number. |
| EventIngest.AcceptedWrites | timing-core/src/services/event_ingest.rs:180-196 | An accepted call adds its event and behind it one crossing for each group it closes, under the caller's id. |
| IngestInterleaving.UninterruptedIsIngest | timing-core/src/services/event_ingest.rs:124-237 | The atomic steps of a call, with none of another call's in between, do to log, gate and groups what the call does. |
| IngestInterleaving.StepKeeps | timing-core/src/services/event_ingest.rs:129-237 | Each atomic step of any call, with others in between, keeps gate and log in step up to calls that are logged and not committed. |
| IngestInterleaving.InterleavedLogIncreases | timing-core/src/services/event_ingest.rs:124-259 | In every interleaving with failures and restarts, logged numbers strictly increase per key, if each call the gate lets through fits: none of its key is on its way to the log, and those logged and not committed have lower numbers. |
| IngestInterleaving.OnePerKeyFits | timing-core/src/services/event_ingest.rs:124-259 | With one call under way per producer and detector, as one session makes them, every call fits. |
| IngestInterleaving.SafeExactlyWhen | timing-core/src/services/event_ingest.rs:144-219 | In any state, the calls under way cannot log numbers out of order exactly if the log is in order, each call on its way to it is above it, and no two of these share a key. |
| IngestInterleaving.BeginSafeExactlyWhen | timing-core/src/services/event_ingest.rs:144-163 | A call that the gate lets through can do no harm exactly if it fits beside those under way. |
| IngestInterleaving.RunSafeExactlyWhen | timing-core/src/services/event_ingest.rs:124-259 | A run can log numbers out of order, there and then or as its calls go on, exactly if some call let through did not fit. |
| IngestInterleaving.TwoCallsLogTwice | timing-core/src/services/event_ingest.rs:144-219 | A run from the start that does: two concurrent calls with one detection are both logged. |
| IngestGroups.EmittedExactlyWhen | timing-core/src/services/event_ingest.rs:168-224 | In every interleaving, the crossings written are those of grouping the detections one by one, in the order in which they join, exactly if each closes on joining what its call saw before the append. |
| IngestGroups.PeekOutlivesExactlyWhen | timing-core/src/domain/crossing_processor.rs:184-267 | What a call saw outlives another detection's joining exactly if that has another key, or the call's own lies in the window of the open group and of any that the other starts. |
| IngestGroups.UndisturbedIsStreamed | timing-core/src/services/event_ingest.rs:168-224 | With no call disturbed between look and joining, crossings are written as if calls followed one another, and each detection is in exactly one emitted or pending group. |
| IngestGroups.GroupWrittenTwice | timing-core/src/services/event_ingest.rs:180-196 | Two calls past the gate that each close the same group both write its crossing. |
| IngestGroups.RetryAfterCrash | timing-core/src/services/event_ingest.rs:192-196 | In every run: a crash in a call's append that keeps the first k records, a restart and a retry give the log of an undisturbed call exactly if all survived, or nothing did and the detection closes no group of earlier ones. |
| MemLogs.MemLog.Append | conformance/src/mem_log.rs:114-142 | Appends every event with the next offsets and notifies the waiters once, or refuses and changes nothing. |
| MemLogs.MemLog.EvictBelow | conformance/src/mem_log.rs:84-90 | Sets the boundary, clamped to the end, forwards or backwards, and notifies the waiters. |
| MemLogs.MemLog.EvictAll | conformance/src/mem_log.rs:98-103 | Every offset below the end reads as expired with nothing available; the waiters are notified. |
| MemLogs.MemLog.ReadRange | conformance/src/mem_log.rs:144-184 | Retention first, then the slice clamped to the end. |
| MemLogs.MemLog.EarliestOffset | conformance/src/mem_log.rs:201-210 | The least offset that can still be served, if any. |
| MemLogs.MemLog.Subscribe | conformance/src/mem_log.rs:212-239 | Refused exactly below the boundary. |
| MemLogs.MemSubscription.Check | conformance/src/mem_log.rs:265-291 | Under the lock: expired below the boundary, else the entry at the cursor, else nothing. |
| MemLogs.MemSubscription.Register | conformance/src/mem_log.rs:305-306 | Notifications from now on, and only those, signal the subscription. |
| MemLogs.MemSubscription.Recheck | conformance/src/mem_log.rs:317-333 | The same look without moving the cursor. |
| MemLogs.BackendsAgreeExcept | conformance/src/mem_log.rs:152-182 | The two backends answer a range read alike exactly unless the range is empty and starts below the boundary. |
| MemLogs.StepKeeps | conformance/src/mem_log.rs:257-346 | Every step of any appender, evictor or subscriber keeps delivery in order and no sleeper uninformed. |
| MemLogs.NoLostWakeUp | conformance/src/mem_log.rs:257-346 | Parked and unsignalled implies the cursor is at or past the end and the boundary, in every interleaving. |
| MemLogs.DeliversInOrder | conformance/src/mem_log.rs:257-289 | Each subscriber has been given the entries from its start on, without gap or repeat. |
| MemLogs.SecondLookIsNeeded | conformance/src/mem_log.rs:308-333 | Without the second look an append in between leaves a subscriber asleep over an entry. |
| SegmentRecords.HeaderReadsBack | adapter-event-log-segment/src/segment.rs:50-85 | A written header reads back, whatever follows. |
| SegmentRecords.ParseWritten | adapter-event-log-segment/src/segment.rs:105-273 | A written record reads back exactly, with its own length, whatever follows. |
| SegmentRecords.ParseLonger | adapter-event-log-segment/src/segment.rs:174-273 | A decision made on a prefix of the bytes is final unless it was an unexpected end of file. |
| SegmentRecords.TornRecord | adapter-event-log-segment/src/segment.rs:105-273 | A record cut anywhere reads as an unexpected end of file, never as corruption. |
| SegmentRecords.SentinelReads | adapter-event-log-segment/src/segment.rs:181-183 | Four zero bytes read as the end of the segment. |
| SegmentRecords.RecordAt | adapter-event-log-segment/src/segment.rs:174-273 | Any record of a written sequence reads back at its position. |
| SegmentFiles.ReadRecord | adapter-event-log-segment/src/segment.rs:174-273 | Field-by-field reading with a moving cursor agrees with the parse of the remaining bytes and ends behind the record. |
| SegmentFiles.RecoverActive | adapter-event-log-segment/src/segment.rs:350-432 | The loop keeps exactly the scan's positions and cuts the file there, or fails when a further offset would not fit u64. |
| SegmentFiles.ScanIsLongestChain | adapter-event-log-segment/src/segment.rs:358-428 | What recovery keeps is a chain of decodable records with consecutive offsets, and every such chain is a prefix of it. |
| SegmentFiles.ScanIdempotent | adapter-event-log-segment/src/segment.rs:350-432 | Recovering the file that recovery left finds the same and cuts nothing. |
| SegmentFiles.ScanOfTorn | adapter-event-log-segment/src/segment.rs:350-432 | Of written records cut anywhere, in a record or in the sentinel, recovery keeps exactly the complete records. |
| SegmentFiles.ReadTorn | adapter-event-log-segment/src/segment.rs:174-273 | Reading such a file at a record boundary gives the record, the end of the segment, or an unexpected end of file. |
| SegmentFiles.IndexRoundTrip | adapter-event-log-segment/src/segment.rs:278-339 | An index reads back exactly when it is within the size limit, and is refused otherwise. |
| SegmentDamage.EntryExactlyWhen | adapter-event-log-segment/src/segment.rs:174-273 | Any bytes read as an entry exactly if lengths agree within bounds, the fields say it, and the checksum at the end is that of the bytes before it. |
| SegmentDamage.EndExactlyWhen | adapter-event-log-segment/src/segment.rs:177-183 | A segment ends exactly at four zero bytes. |
| SegmentDamage.EofExactlyWhen | adapter-event-log-segment/src/segment.rs:174-245 | Reading runs into the end of the file exactly if the bytes break off in front of something the fields so far ask for. |
| SegmentDamage.BadLengthIsNoticed | adapter-event-log-segment/src/segment.rs:185-192 | A length too small for a record is damage, whatever follows. |
| SegmentDamage.BadIdLengthIsNoticed | adapter-event-log-segment/src/segment.rs:202-214 | So is an empty or overlong producer id. |
| SegmentDamage.BadFieldsAreNoticed | adapter-event-log-segment/src/segment.rs:211-238 | Lengths that do not agree or are over the limit, and an id that is no text, are damage, whatever follows. |
| SegmentDamage.BadEventIsNoticed | adapter-event-log-segment/src/segment.rs:264-265 | So is an event that does not decode. |
| SegmentDamage.ChecksumGuards | adapter-event-log-segment/src/segment.rs:244-262 | A record with any other checksum than its own is unreadable, whatever follows. |
| SegmentDamage.ScanMeans | adapter-event-log-segment/src/segment.rs:350-432 | Of any bytes recovery finds records that follow one another with consecutive offsets, none behind the last, and overflow exactly if one more exists past the last u64. |
| SegmentDamage.RecoveryCutsAtDamage | adapter-event-log-segment/src/segment.rs:358-428 | Recovery keeps the records in front of the first one with a wrong checksum and cuts the file there. |
| SegmentDisk.FreshDirectory | adapter-event-log-segment/src/log.rs:251-258 | An empty directory is recoverable: it holds the empty history, from offset zero. |
| SegmentDisk.CrashKeeps | adapter-event-log-segment/src/log.rs:330-423 | Cutting each file anywhere at or after its synced part leaves a recoverable directory recoverable, with the same certain entries; what survives is no more synced than it was. |
| SegmentDisk.RecordKeeps | adapter-event-log-segment/src/segment.rs:146-165 | Writing a record keeps the directory recoverable and makes the entry part of the written history. |
| SegmentDisk.TakeBackKeeps | adapter-event-log-segment/src/log.rs:622-632 | Cutting the file back to a shorter history keeps the directory recoverable with that history, if nothing certain goes. |
| SegmentDisk.SyncKeeps | adapter-event-log-segment/src/log.rs:636-645 | Syncing makes the whole written history certain. |
| SegmentDisk.IndexKeeps | adapter-event-log-segment/src/log.rs:372-413 | The index of a sealed, synced segment closes it and moves the tail to the end of the history. |
| SegmentDisk.RemoveFirstKeeps | adapter-event-log-segment/src/log.rs:855-862 | Deleting the oldest segment file moves the window start to the next segment, provided the watermark is there if nothing else tells the tail. |
| SegmentSteps.StepKeeps | adapter-event-log-segment/src/log.rs:281-493 | Every single step of append, roll and retention leaves a recoverable directory recoverable; what was certain and is not taken back stays certain, and the window does not move back. |
| SegmentSteps.DoesKeeps | adapter-event-log-segment/src/log.rs:281-493 | So does every chain of calls that are such steps, after any number of them. |
| SegmentRetention.EnforceRetention | adapter-event-log-segment/src/log.rs:426-493 | The loops delete exactly the front run the policy names, oldest first, each segment file before its index, and leave the rest of the list. |
| SegmentRetention.EvictedRunIsExact | adapter-event-log-segment/src/log.rs:427-491 | Time: the longest front run of segments whose newest entry plus the age in nanoseconds is before now. Size: the shortest front run that reaches the limit, or all. Hybrid: one, then the other. |
| SegmentRetention.SizesAdd | adapter-event-log-segment/src/log.rs:443-444 | The size that is limited is the sum of the segments' sizes. |
| SegmentRetention.DeletesDo | adapter-event-log-segment/src/log.rs:855-875 | Deleting a front run is one step of the writer after another; history, tail and watermark stay and the window starts at the next segment left. |
| SegmentWriting.WriteRecord | adapter-event-log-segment/src/segment.rs:105-166 | Refuses with the first failing check's error and writes nothing, or writes the record's bytes at the cursor, in one write. |
| SegmentWriting.WriteBatch | adapter-event-log-segment/src/log.rs:586-634 | From the position the handle is moved to, the loop writes the records of the specification, at its positions, or cuts the file back to where it began and reports the error. |
| SegmentWriting.EventsDo | adapter-event-log-segment/src/log.rs:600-634 | The writes of a batch are one step of the writer after another, with consecutive offsets; at the first event that is refused the file is exactly what it was. |
| SegmentWriting.SealSegment | adapter-event-log-segment/src/log.rs:345-418 | fsync, sentinel, fsync, index, watermark, in this order, and the closed entry of the file they leave. |
| SegmentWriting.SealDoes | adapter-event-log-segment/src/log.rs:345-418 | Each of the five calls is a step of the writer; afterwards the segment is closed and the tail and the watermark are at the end of the history. |
| SegmentReading.ReadRange | adapter-event-log-segment/src/log.rs:698-797 | The loops over closed and active segments read what the specification of a range read of any log state says, errors included, and leave the active file's cursor behind the last record. |
| SegmentReading.ReadsInTurn | adapter-event-log-segment/src/log.rs:703-797 | Whatever the files hold, a range read whose memory is in order answers the special cases in the code's order and otherwise reads each offset of the range on its own, up to the first failure. |
| SegmentReading.FailureIsReported | adapter-event-log-segment/src/log.rs:748-762 | A damaged record, or one with another offset, fails the read as corruption, a file that ends early as an I/O error. |
| SegmentReading.CollectedAreRead | adapter-event-log-segment/src/log.rs:748-762 | What a range read returns are the records at the positions of the range's offsets, with those offsets, all of them. |
| SegmentReading.ReadOfIs | adapter-event-log-segment/src/log.rs:698-797 | Of a log that holds a history a range read is the slice of it, with the code's order of special cases. |
| SegmentReading.WindowFacts | adapter-event-log-segment/src/log.rs:511-547 | Earliest is the window start, latest the last committed offset even after full eviction. |
| SegmentReading.EntryAtIs | adapter-event-log-segment/src/log.rs:741-790 | Every entry of the retained window reads back through the memory's positions and the files. |
| SegmentRecovery.LoadActive | adapter-event-log-segment/src/log.rs:184-247 | Recovering an unindexed file gives the active segment and makes the calls of the specification: a short file is emptied and gets a header, a complete one is cut behind its last good record. |
| SegmentRecovery.TailLoads | adapter-event-log-segment/src/log.rs:184-247 | Of the log's own tail file recovery finds the history up to where the file reaches, at least all that was certain, through recoverable states. |
| SegmentRecovery.LoadDirectory | adapter-event-log-segment/src/log.rs:68-268 | The loop over the sorted names loads what the specification of opening says, fails as it says, and makes its calls. |
| SegmentRecovery.OpensOwn | adapter-event-log-segment/src/log.rs:68-268 | Opening any directory a crash can leave of the log succeeds exactly if every index is within the limit, yields one contiguous window up to where the files reach, everything certain included, and passes only recoverable states. |
| SegmentOpening.HeaderWrittenAs | adapter-event-log-segment/src/segment.rs:50-61 | A written header byte by byte: magic, version 2, three zeros, base offset, creation time. |
| SegmentOpening.HeaderExactlyWhen | adapter-event-log-segment/src/segment.rs:50-85 | A header reads exactly if magic and version are right, with base and creation time at their places. |
| SegmentOpening.ClosedLoadsExactlyWhen | adapter-event-log-segment/src/log.rs:110-164 | A closed segment is accepted exactly if index, header and last record agree, and is listed by those. |
| SegmentOpening.DamagedClosedIsRefused | adapter-event-log-segment/src/log.rs:143-151 | A damaged last record, or one with another offset, fails the opening as corruption. |
| SegmentOpening.ShortClosedIsAnError | adapter-event-log-segment/src/log.rs:135-144 | A closed segment whose file ends before its header or its last record is an I/O error. |
| SegmentOpening.ForeignFileIsLeftAlone | adapter-event-log-segment/src/log.rs:194-202 | A file with another header is refused and not touched. |
| SegmentOpening.OwnHeaderLoads | adapter-event-log-segment/src/log.rs:194-247 | A file with its own header keeps the records recovery finds and its creation time, and is cut behind them. |
| SegmentOpening.ShortFileStartsAnew | adapter-event-log-segment/src/log.rs:204-215 | A file shorter than a header becomes an empty segment created now. |
| SegmentOpening.OpensExactlyWhen | adapter-event-log-segment/src/log.rs:68-268 | Any directory opens exactly if every file loads and those without an index, but the last, hold no records; the log lists the closed ones in order, goes on with that last one and has removed the others. |
| SegmentLogs.SegmentLog.Open | adapter-event-log-segment/src/log.rs:68-268 | The opened log is that of the specification; of the log's own directory it holds the history from the old window start to some offset at or after everything certain, unchanged. |
| SegmentLogs.SegmentLog.EnsureActive | adapter-event-log-segment/src/log.rs:281-323 | Creates the file and its header unless a segment is active, as the specification says. |
| SegmentLogs.EnsureDoes | adapter-event-log-segment/src/log.rs:281-323 | Making sure of an active segment keeps history, window and closed segments, through steps of the writer. |
| SegmentLogs.SegmentLog.CommitBatch | adapter-event-log-segment/src/log.rs:582-686 | Seek, write, fsync, commit to memory, notify, in this order; or the error, with memory as it was. |
| SegmentLogs.CommitDoes | adapter-event-log-segment/src/log.rs:582-686 | An accepted batch extends the history by its entries, all of them certain, and its waiters are told of all of it. |
| SegmentLogs.RefusedDoes | adapter-event-log-segment/src/log.rs:603-632 | A refused batch leaves the log exactly as it was but for the file handle's cursor. |
| SegmentLogs.SegmentLog.RollSegment | adapter-event-log-segment/src/log.rs:330-423 | Nothing without a segment; a segment without records is dropped; any other is sealed and retention enforced, as the specification says. |
| SegmentLogs.RollDoes | adapter-event-log-segment/src/log.rs:330-423 | The sealed segment joins the closed ones, then the policy's run is evicted; the watermark holds the next offset and the history is unchanged. |
| SegmentLogs.SegmentLog.Append | adapter-event-log-segment/src/log.rs:564-696 | The batch is appended whole with the next offsets and is then certain, or refused whole; the segment is rolled exactly when due; the calls are those of the specification. |
| SegmentLogs.AppendDoes | adapter-event-log-segment/src/log.rs:564-696 | Each call of an append is one step of the writer, and at each the written history is the old one and at most a part of the batch. |
| SegmentRolling.RollsExactlyWhen | adapter-event-log-segment/src/log.rs:495-508 | An accepted append rolls exactly if the segment's records reach the size limit or its age the age limit, in plain numbers; what stays active is below both. |
| SegmentRolling.EvictedWasTooOld | adapter-event-log-segment/src/log.rs:430-441 | Under an age limit, each closed segment an append evicts ended more than that age in nanoseconds ago, and the first that stays did not. |
| SegmentRolling.EmptySegmentIsDropped | adapter-event-log-segment/src/log.rs:330-342 | Rolling a segment without records removes its file and changes nothing else. |
| SegmentRolling.RunIsDated | adapter-event-log-segment/src/log.rs:281-323 | In every run the memory's creation time of the active segment is that in its file's header. |
| SegmentRolling.AgeSurvivesRestart | adapter-event-log-segment/src/log.rs:194-203 | A log reopened after a crash that left the header goes on with the segment's creation time. |
| SegmentLogs.SegmentLog.ReadRange | adapter-event-log-segment/src/log.rs:698-797 | In every valid state a range read is the slice of the committed history; only the file cursor moves. |
| SegmentLogs.SegmentLog.EarliestOffset | adapter-event-log-segment/src/log.rs:803-805 | The window start, or none if the window is empty. |
| SegmentLogs.SegmentLog.LatestOffset | adapter-event-log-segment/src/log.rs:799-801 | The last offset ever committed, evicted or not. |
| SegmentLogs.SegmentLog.Subscribe | adapter-event-log-segment/src/log.rs:807-843 | Granted exactly at retained offsets and at or past the tail. |
| SegmentRuns.ReopeningSucceeds | adapter-event-log-segment/src/log.rs:68-268 | In every run of appends, reads, crashes after any call, reopenings and crashes in those, opening the directory succeeds exactly if every index is within the limit. |
| SegmentRuns.AcknowledgedStays | adapter-event-log-segment/src/log.rs:564-696 | What an append reported is there in every later state of the run and reads back as what was appended, unless the window has moved past it. |
| SegmentRuns.WindowMovesForward | adapter-event-log-segment/src/log.rs:425-493 | In every run the retained window never moves back. |
| SegmentRuns.OffsetsAreNeverReused | adapter-event-log-segment/src/log.rs:415-420 | Two accepted appends of a run never share an offset, whatever crashes and evictions lie between. |
| SegmentRuns.CrashAddsPrefix | adapter-event-log-segment/src/log.rs:600-645 | After a crash in an append, and any failed attempts to reopen, the log goes on behind everything that was certain; what it holds of what it held is unchanged, and behind that comes at most a first part of the batch in flight. |
| SegmentAtomicity.PartMaySurvive | adapter-event-log-segment/src/log.rs:600-634 | Of two or more events, the first of them writable, a crash behind the first record can leave that record alone. |
| SegmentAtomicity.AtomicExactlyWhen | adapter-event-log-segment/src/log.rs:564-696 | From a log whose entries are all certain, an append is all or nothing across every crash exactly if it has one event or its first event is refused. |
| SegmentAtomicity.SyncedSurvives | adapter-event-log-segment/src/log.rs:634-645 | A crash after the fsync of an accepted batch keeps the whole batch. |
| SegmentAtomicity.SafeExactlyWhen | adapter-event-log-segment/src/log.rs:600-645 | A crash during the append of an accepted batch is sure to keep all of it exactly if the file has been synced by then. |
| SegmentAtomicity.SurvivesExactlyWhen | adapter-event-log-segment/src/log.rs:184-247 | An entry the log serves survives every crash exactly if its segment is closed or its record has been synced. |
| EventQueries.ReadEvents | timing-core/src/services/event_ingest.rs:315-337 | A page is the slice of at most the limit's length, with the latest offset. |
| EventQueries.PagingVisitsEachOnce | timing-core/src/services/event_ingest.rs:315-337 | Paging with any limit of at least one visits each retained entry once, in order. |
| EventQueries.EvictedPagesExpire | timing-core/src/services/event_ingest.rs:315-337 | A page with room for an entry fails exactly below the window, naming the window start if anything is left. |
| EventQueries.RangeIsExact | adapter-event-log-segment/src/log.rs:698-797 | Which range reads answer, which entries they give, and which error they report otherwise. |
| EventQueries.PageIsBounded | timing-core/src/services/event_ingest.rs:315-337 | A page has as many entries as asked for, or as there are. |
| SegmentWorld.StepIsSeen | adapter-event-log-segment/src/log.rs:281-493 | A step of the log is the same step as readers see it, synced or not. |
| SegmentWorld.WriterKeeps | adapter-event-log-segment/src/log.rs:281-493 | Every step that takes back nothing written leaves what readers rely on: files only grow, ends stay, the window start moves forward. |
| SegmentSubscriptions.ScanSegments | adapter-event-log-segment/src/subscription.rs:42-74 | The largest base at or below the offset and the smallest of all, in any listing order. |
| SegmentSubscriptions.SegmentLogSubscription.OpenToOffset | adapter-event-log-segment/src/subscription.rs:93-228 | The segment, position and kind of file for the cursor, a wait, or the expiry error, as a function of the directory. |
| SegmentSubscriptions.SegmentLogSubscription.OpenCurrent | adapter-event-log-segment/src/subscription.rs:245-261 | With no file open, opening decides: something to read, a wait, or the end of the subscription; an open file is kept. |
| SegmentSubscriptions.SegmentLogSubscription.ReadCurrent | adapter-event-log-segment/src/subscription.rs:263-352 | One read delivers, skips, moves to the next segment, waits or fails as the specification of the turn says. |
| SegmentFaults.FaultExactlyWhen | adapter-event-log-segment/src/segment.rs:105-130 | Which events an append refuses, and as what. |
| SegmentFaults.DeliversOnlyNext | adapter-event-log-segment/src/subscription.rs:263-301 | Whatever the files hold, only an intact record with the offset that is next is delivered. |
| SegmentFaults.DamageEnds | adapter-event-log-segment/src/subscription.rs:345-349 | A record with a wrong checksum ends the subscription as corruption. |
| SegmentFaults.RecordIsActedOn | adapter-event-log-segment/src/subscription.rs:265-301 | A record is delivered, passed over in a file without an index, or ends the subscription, by its offset. |
| SegmentFaults.ShortIsActedOn | adapter-event-log-segment/src/subscription.rs:328-344 | A record cut short is waited for in a file without an index and corruption in one with it. |
| SegmentFaults.EndIsActedOn | adapter-event-log-segment/src/subscription.rs:302-327 | The end of a segment leads to the file of the next offset, or back to the directory. |
| SegmentFaults.IndexedOpens | adapter-event-log-segment/src/subscription.rs:151-186 | With an index the position is the index's, if within the limit and named. |
| SegmentFaults.UnindexedOpens | adapter-event-log-segment/src/subscription.rs:187-227 | Without an index the file is read to the offset, to its end, or to the damage on the way. |
| SegmentDelivery.OpenIsGood | adapter-event-log-segment/src/subscription.rs:93-228 | In any state of the writer, opening gives a place from which the cursor's entry will be read, or waits with nothing announced left, or reports an offset below the window and where what is left starts. |
| SegmentDelivery.ReadDelivers | adapter-event-log-segment/src/subscription.rs:263-352 | A read delivers exactly the log's entry at the cursor, never fails, and waits only when every announced entry has been delivered. |
| SegmentScenes.StartOk | adapter-event-log-segment/src/log.rs:807-843 | For a log at rest there is a state of what readers rely on in which every entry has been announced. |
| SegmentScenes.DeliversTheLog | adapter-event-log-segment/src/subscription.rs:233-357 | In every interleaving, call by call, with appends that are accepted or refused at their first event, rolls and retention, what has been delivered is the log's entries from the start on; it ends only with RetentionExpired, with the cursor below the window. |
| SegmentScenes.NoLostWakeUp | adapter-event-log-segment/src/subscription.rs:238-355 | Between operations, parked and unsignalled implies that every entry of the log has been delivered; during an append the same holds of the entries before it, and of its own once it has notified. |
| SegmentRefusals.RefusedIsDelivered | adapter-event-log-segment/src/log.rs:603-632 | A subscription at the end of the log can be given the first entry of a batch that is then refused and cut away. |
| SegmentRefusals.ReadersKeptExactlyWhen | adapter-event-log-segment/src/log.rs:603-632 | An append keeps what subscriptions are promised exactly if it is accepted or refused at its first event. |

## Left out

- Sockets, TLS, the HTTP interface, configuration files, the command line and the simulator: input and output.
- CBOR, UTF-8 and CRC-32 are functions with stated laws (CRC-32 with none but its range); random crossing ids are dropped.
- SerialCodec.BurstIsReported: the change is in the codeword, before byte stuffing. A flip in the stuffed bytes can move a
  delimiter or a run length and so change any number of codeword bits, for which the checksum promises nothing.
- I/O errors inside append and roll other than crashes, failed truncations and the poisoned flag they lead to.
- Cutting a file short (`set_len`, of a refused batch or in recovery) is durable when made, though the program does not sync
  it. Renames, unlinks and file creation are durable too, as the directory fsyncs after them intend; the temporary files of
  index and watermark are part of that one step.
- `open` does not fsync a recovered tail (segment.rs:350-432), so an entry read back unsynced after one crash may be lost in
  the next although it has been served (`SegmentAtomicity.SurvivesExactlyWhen`); `SegmentRuns.AcknowledgedStays` is about what
  an append has reported.
- SegmentAtomicity.AtomicExactlyWhen: is about logs all of whose entries are synced, as after any accepted append; a log just
  reopened over an unsynced tail may lose that tail as well.
- Index files hold positions; their byte form and its limit are `SegmentFiles.IndexRoundTrip`. File lengths stay below 2^64.
- A subscription that is reading, not parked, can deliver a record before its fsync, and a crash before that can take it back
  (`SegmentAtomicity.SafeExactlyWhen`); a delivered entry survives every later crash exactly under the condition of
  `SegmentAtomicity.SurvivesExactlyWhen`.
- `flush_interval_ms` greater than zero, for which the program promises nothing about crashes.
- SegmentScenes.DeliversTheLog: takes indexes to be within the limit. Opening, one read and one call of the log are each
  atomic; a reader that meets a half-written record waits as it does at the end of the file (`SegmentFiles.ReadTorn`).
- EventIngest: relies on the port's contract that an error means nothing was appended; the segment log can break it only by
  I/O errors after its commit point (log.rs:553-563).
- Cancelling a call between two of its steps, metrics other than gaps and duplicates, and logging.
- IngestGroups.EmittedExactlyWhen: counts from the last restart, which drops the open groups, as the program does.
- IngestInterleaving.InterleavedLogIncreases: restarts seed from a log without evictions;
  `SequenceGates.ForgottenAfterRetention` says what eviction changes.
- TcpSessions: the processor and the authoriser are functions; the branches inside them are settled by reading them. Writing the
  reply is left out.
- 32-bit targets: `usize` is taken to be 64 bits wide.
- Liveness and timing: only safety forms are stated, such as what holds of a parked subscriber.
