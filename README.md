# oatpp HTTP/2 connection core in Dafny

This project models the connection-level frame logic of the two HTTP/2 servers in
oatpp:

- **`Http2SessionHandler`** (the session). This is the asynchronous server. Each frame header it reads goes to
  `handleFrame`, which does the following:
  - checks the stream id and header-block rules that apply to every frame;
  - answers PING, applies SETTINGS (resizing stream windows when
    INITIAL_WINDOW_SIZE changes), stops on GOAWAY, grows the window on a
    WINDOW_UPDATE for stream 0, and hands stream frames to `delegateToHandler`;
  - turns every protocol error into a GOAWAY (connection scope) or an
    RST_STREAM (stream scope).
- **`Http2Processor`** (the processor). This is the older blocking server. `processNextRequest` reads one
  frame, answers PING, applies SETTINGS and delegates stream frames to a per-stream handler.
  A stream whose handler does not report ALIVE is erased; the three refused
  stream states throw.

The processor ignores a PING or SETTINGS frame whose flags are set by reading only its 9-byte header. Its payload stays in the input, and the next header is read from those payload bytes. A PING without flags has 8 bytes read whatever its length. The model reproduces both (`ProcessorProperties.PingHandled`, `ProcessorProperties.SettingsHandled`).

Both servers build their own SETTINGS, SETTINGS-ACK, PING-ACK, GOAWAY and RST_STREAM frames.
Those builders are modelled down to the bytes, using the frame header of section
4.1 of RFC 7540. SETTINGS payloads are read by the same `setSetting` range checks
in both servers (section 6.5.2 of RFC 7540).

Layout:

| file | module | what it holds |
|---|---|---|
| `wrappers.dfy` | `Wrappers` | `Option` |
| `wire.dfy` | `Wire` | byte types, big-endian codecs, frame types, flags, error codes, `FrameHeader` and its 9-byte encoding |
| `settings.dfy` | `Http2Settings` | the six settings, `setSetting` and its range errors |
| `settings_frame.dfy` | `SettingsFrame` | the session's SETTINGS payload and its pair reader |
| `streams.dfy` | `Streams` | stream states, stream records, H2 errors, the per-stream handler as a function |
| `session_spec.dfy` | `SessionSpec` | the session as functions from a session state to a `Step` (action and next state) |
| `session_props.dfy` | `SessionProperties` | what the session guarantees, as lemmas |
| `session_handler.dfy` | `SessionHandler` | class `Session`, with methods proved equal to the spec functions |
| `processor_spec.dfy` | `ProcessorSpec` | the processor as functions from its resources to an `Outcome` |
| `processor_props.dfy` | `ProcessorProperties` | what the processor guarantees, as lemmas |
| `processor.dfy` | `BlockingProcessor` | class `Processor`, with the buffer-filling SETTINGS builder and the loops |
| `findings.dfy` | `Findings` | counterexamples to the source as written, and corrected definitions |

The transport is a byte sequence. `input` holds the bytes not yet read, and `output` holds the
frames written, in order. Per-stream handlers (`handleData`, `handleHeaders`, …) are
function parameters. In the session a handler returns the stream's new state and window,
or raises an H2 error. In the processor it returns the connection state to report and the
stream's new state.

## Model

| member | source | states |
|---|---|---|
| Wire.EncodeHeader | src/oatpp/web/server/http2/Http2Processor.cpp:184-187 | The 9-byte header (24-bit length, type, flags, 31-bit stream id) decodes back to the header it was built from |
| Wire.ReadThenEncode32 | src/oatpp/web/server/http2/Http2Processor.cpp:279-282 | Four bytes read with `ntohl` and written back with `htonl` are the same four bytes |
| Wire.BE32 | src/oatpp/web/server/http2/Http2SessionHandler.cpp:201-208 | The shift-and-mask encoding of a 32-bit value is 4 bytes and reads back as that value |
| Http2Settings.FromCode | src/oatpp/web/server/http2/Http2SessionHandler.cpp:338-340 | A wire identifier names a known setting exactly when it is 1 to 6, and then that setting's code |
| Http2Settings.SetSetting | src/oatpp/web/server/http2/Http2SessionHandler.cpp:339-347 | An unknown identifier is reported exactly when the code is unknown; otherwise a value is refused exactly when it is out of range, with PROTOCOL_ERROR or FLOW_CONTROL_ERROR; an accepted value is stored and keeps the table legal |
| Http2Settings.Put | src/oatpp/web/server/http2/Http2SessionHandler.cpp:340 | Storing a value changes that setting and no other |
| SettingsFrame.PayloadSize | src/oatpp/web/server/http2/Http2SessionHandler.cpp:136-151 | The advertised payload is whole 6-byte entries, at most 36 bytes, and empty exactly when every setting equals its default |
| SettingsFrame.ApplyPairs | src/oatpp/web/server/http2/Http2SessionHandler.cpp:333-348 | The reader never reads past the frame; it stops only on a refused value, whose code is PROTOCOL_ERROR or FLOW_CONTROL_ERROR; it reads the whole frame otherwise; a legal table stays legal |
| SettingsFrame.ApplyPairsReadsWholePairs | src/oatpp/web/server/http2/Http2SessionHandler.cpp:333-337 | The reader stops only at a pair boundary |
| SettingsFrame.ApplyPairsStep | src/oatpp/web/server/http2/Http2SessionHandler.cpp:333-348 | One turn of the loop: the front pair goes to `setSetting`; a refusal stops after 6 bytes, anything else continues with the rest |
| SettingsFrame.ApplyPairsAppend | src/oatpp/web/server/http2/Http2SessionHandler.cpp:333-348 | Reading a concatenation is reading its halves one after the other, when the first half raises no error |
| SettingsFrame.ApplyEntry | src/oatpp/web/server/http2/Http2SessionHandler.cpp:142-147 | One encoded legal entry, read back, stores exactly that value |
| SettingsFrame.ApplyPairsSwap | src/oatpp/web/server/http2/Http2SessionHandler.cpp:333-348 | Legal pairs for two different settings may arrive in either order: all 12 bytes are read, nothing is raised, and the same table is stored |
| SettingsFrame.ApplyEntries | src/oatpp/web/server/http2/Http2SessionHandler.cpp:139-150 | Reading the first n entries onto the defaults gives the defaults with those n settings replaced, and raises no error |
| SettingsFrame.SettingsRoundTrip | src/oatpp/web/server/http2/Http2SessionHandler.cpp:136-151 | Round trip: a legal table advertised against the defaults is recovered exactly when its payload is read back onto those defaults |
| SessionSpec.GoawayPayload | src/oatpp/web/server/http2/Http2SessionHandler.cpp:198-209 | The GOAWAY payload is 8 bytes that read back as the last stream id and the error code |
| SessionSpec.FindOrCreateStream | src/oatpp/web/server/http2/Http2SessionHandler.cpp:265-278 | A stream it returns is in the map, and nothing is read |
| SessionProperties.EvenStreamIdRejected | src/oatpp/web/server/http2/Http2SessionHandler.cpp:288-291 | A nonzero even stream id is a connection PROTOCOL_ERROR (GOAWAY naming the last stream, then teardown), whatever the frame |
| SessionProperties.HeaderBlockIsContiguous | src/oatpp/web/server/http2/Http2SessionHandler.cpp:293-299 | While the last opened stream is in HEADERS or CONTINUATION, a frame for any other stream is a connection PROTOCOL_ERROR |
| SessionProperties.PingRefused | src/oatpp/web/server/http2/Http2SessionHandler.cpp:305-310 | PING on a stream is PROTOCOL_ERROR; PING with a length other than 8 is FRAME_SIZE_ERROR |
| SessionProperties.PingAnswered | src/oatpp/web/server/http2/Http2SessionHandler.cpp:312-313 | PING without the ack bit: its 8 bytes are read and sent back in one PING with the ACK flag, and the next frame is read |
| SessionProperties.SettingsRefused | src/oatpp/web/server/http2/Http2SessionHandler.cpp:324-368 | SETTINGS on a stream is PROTOCOL_ERROR; a length that is not whole pairs, or a non-empty ACK, is FRAME_SIZE_ERROR |
| SessionProperties.SettingsApplied | src/oatpp/web/server/http2/Http2SessionHandler.cpp:327-365 | A refused pair is a connection error with `setSetting`'s code, after the earlier pairs were stored; otherwise every pair is read, one ACK is sent, and the stream ids stay the same |
| SessionProperties.WindowChangeIsDifference | src/oatpp/web/server/http2/Http2SessionHandler.cpp:351-357 | For legal window sizes the signed change the source computes is exactly new minus old |
| SessionProperties.SettingsResizeWindows | src/oatpp/web/server/http2/Http2SessionHandler.cpp:349-361 | A change of INITIAL_WINDOW_SIZE shifts every stream's window by that change and touches nothing else; no change leaves the streams alone |
| SessionProperties.GoawayEndsSession | src/oatpp/web/server/http2/Http2SessionHandler.cpp:371-394 | GOAWAY on stream 0 has its whole payload read, debug data included, and ends the session; on a stream it is a PROTOCOL_ERROR |
| SessionProperties.WindowUpdateRefused | src/oatpp/web/server/http2/Http2SessionHandler.cpp:397-406 | On stream 0, a length other than 4 is FRAME_SIZE_ERROR, and a zero increment is PROTOCOL_ERROR after the 4 bytes were read |
| SessionProperties.WindowUpdateGrowsWindow | src/oatpp/web/server/http2/Http2SessionHandler.cpp:401-408 | A nonzero increment grows INITIAL_WINDOW_SIZE by exactly that much while the sum is a legal window; a larger sum is FLOW_CONTROL_ERROR |
| SessionProperties.WindowUpdateDelegated | src/oatpp/web/server/http2/Http2SessionHandler.cpp:409-411 | WINDOW_UPDATE on a stream goes to that stream's handler and does not change the last opened stream |
| SessionProperties.StreamFrameDelegated | src/oatpp/web/server/http2/Http2SessionHandler.cpp:414-426 | A stream frame on stream 0 or on a refused new id is a PROTOCOL_ERROR; otherwise its stream becomes the last opened stream and the frame is delegated |
| SessionProperties.UnknownFrameSkipped | src/oatpp/web/server/http2/Http2SessionHandler.cpp:428-430 | A frame of unknown type has its payload read and skipped, and the next frame is read |
| SessionProperties.FindOrCreateStreamCases | src/oatpp/web/server/http2/Http2SessionHandler.cpp:265-278 | A known id changes nothing; an unknown id below the highest non-idle id is refused; any other adds exactly one stream, in INIT, and leaves the others unchanged |
| SessionProperties.DataOutsidePayload | src/oatpp/web/server/http2/Http2SessionHandler.cpp:454-465 | DATA outside PAYLOAD is STREAM_CLOSED once the stream is processing or beyond, and PROTOCOL_ERROR before |
| SessionProperties.HeadersOnClosedStream | src/oatpp/web/server/http2/Http2SessionHandler.cpp:468-472 | HEADERS on a stream that is processing or beyond is a connection STREAM_CLOSED |
| SessionProperties.OutOfStateFrames | src/oatpp/web/server/http2/Http2SessionHandler.cpp:478-504 | PRIORITY inside a header block, RST_STREAM or WINDOW_UPDATE on an idle stream, and CONTINUATION outside a header block are each a PROTOCOL_ERROR |
| SessionProperties.ResetStreamAnswered | src/oatpp/web/server/http2/Http2SessionHandler.cpp:484-490 | An accepted RST_STREAM has its payload read and is answered with RST_STREAM(CANCEL) on the same stream |
| SessionProperties.HandlerErrorClassified | src/oatpp/web/server/http2/Http2SessionHandler.cpp:432-439 | An error a handler raises becomes GOAWAY naming the last stream (connection scope) or RST_STREAM on the frame's stream (stream scope), after the payload was read |
| SessionProperties.HandlerResultStored | src/oatpp/web/server/http2/Http2SessionHandler.cpp:466-512 | A handler that returns has its state and window stored for its own stream only, and the next frame is read |
| SessionProperties.HandleFrameAdvances | src/oatpp/web/server/http2/Http2SessionHandler.cpp:284-442 | Every frame only consumes input from the front, and the session itself appends at most one frame to the output |
| SessionProperties.RunHandlerAdvances | src/oatpp/web/server/http2/Http2SessionHandler.cpp:466-512 | A delegated frame has exactly its payload read; the session itself sends nothing for a handler that returns |
| SessionProperties.HandleFramePreservesWellformed | src/oatpp/web/server/http2/Http2SessionHandler.cpp:284-442 | Every frame keeps the session well formed: streams are filed under their own odd ids, the last stream is a known stream, and the peer's settings stay legal |
| SessionHandler.EncodeSettingsPayload | src/oatpp/web/server/http2/Http2SessionHandler.cpp:128-151 | The loop over the six identifiers writes exactly the advertised payload |
| SessionHandler.WriteEntry | src/oatpp/web/server/http2/Http2SessionHandler.cpp:142-147 | Six bytes are written at the position (identifier, then value, big-endian), and the bytes before it are left alone |
| SessionHandler.EncodeGoawayPayload | src/oatpp/web/server/http2/Http2SessionHandler.cpp:200-208 | The GOAWAY buffer holds exactly the modelled payload |
| SessionHandler.ApplySettingsPairs | src/oatpp/web/server/http2/Http2SessionHandler.cpp:333-348 | The pair loop computes exactly the pair reader's result |
| SessionHandler.Session.constructor | src/oatpp/web/server/http2/Http2SessionHandler.cpp:534-560 | Both settings start at the defaults; no streams, no last stream, and highest non-idle id 0; the session is well formed |
| SessionHandler.Session.Start | src/oatpp/web/server/http2/Http2SessionHandler.cpp:600-606 | The session first sends its SETTINGS frame, then reads the first frame |
| SessionHandler.Session.ConnectionError | src/oatpp/web/server/http2/Http2SessionHandler.cpp:515-523 | GOAWAY naming the last opened stream (0 if none), then teardown |
| SessionHandler.Session.SendResetStreamFrame | src/oatpp/web/server/http2/Http2SessionHandler.cpp:219-238 | One RST_STREAM frame with the error code as its 4-byte payload, then the next frame |
| SessionHandler.Session.HandleFrame | src/oatpp/web/server/http2/Http2SessionHandler.cpp:284-442 | The method's action and new state are the spec's `HandleFrame` step, and the session stays well formed |
| SessionHandler.Session.HandlePing | src/oatpp/web/server/http2/Http2SessionHandler.cpp:304-321 | Equal to the spec's PING step |
| SessionHandler.Session.HandleSettings | src/oatpp/web/server/http2/Http2SessionHandler.cpp:323-369 | Equal to the spec's SETTINGS step |
| SessionHandler.Session.ResizeWindows | src/oatpp/web/server/http2/Http2SessionHandler.cpp:358-360 | The loop over the streams shifts every window by the change and changes nothing else |
| SessionHandler.Session.HandleGoaway | src/oatpp/web/server/http2/Http2SessionHandler.cpp:371-394 | Equal to the spec's GOAWAY step |
| SessionHandler.Session.HandleWindowUpdate | src/oatpp/web/server/http2/Http2SessionHandler.cpp:396-411 | Equal to the spec's WINDOW_UPDATE step |
| SessionHandler.Session.HandleStreamFrame | src/oatpp/web/server/http2/Http2SessionHandler.cpp:414-426 | Equal to the spec's stream-frame step |
| SessionHandler.Session.FindOrCreateStream | src/oatpp/web/server/http2/Http2SessionHandler.cpp:265-278 | Reports whether the spec's lookup succeeds, and then leaves the state it describes |
| SessionHandler.Session.DelegateToHandler | src/oatpp/web/server/http2/Http2SessionHandler.cpp:449-513 | Equal to the spec's delegation step |
| SessionHandler.Session.RunHandler | src/oatpp/web/server/http2/Http2SessionHandler.cpp:466-512 | Reports whether the handler returned, and is equal to the spec's handler step |
| ProcessorSpec.RoundUp6 | src/oatpp/web/server/http2/Http2Processor.cpp:276 | The loop reads the length rounded up to whole 6-byte pairs: a multiple of 6, at least the length and less than 6 above it |
| ProcessorSpec.ApplyAll | src/oatpp/web/server/http2/Http2Processor.cpp:276-286 | The processor's pair loop keeps a legal table legal |
| ProcessorSpec.EntriesAsWritten | src/oatpp/web/server/http2/Http2Processor.cpp:130-165 | One 6-byte entry per setting that differs from its default, at most 36 bytes |
| ProcessorProperties.SettingsFrameShape | src/oatpp/web/server/http2/Http2Processor.cpp:117-181 | The SETTINGS frame's header decodes to its payload length, type SETTINGS, no flags, stream 0; the payload is whole entries, at most 36 bytes, empty exactly when nothing differs from the defaults |
| ProcessorProperties.ControlFramesShape | src/oatpp/web/server/http2/Http2Processor.cpp:183-207 | The ACK is an empty SETTINGS frame with the ACK flag; the PING answer is an 8-byte PING with the ACK flag carrying the 8 bytes read |
| ProcessorProperties.AsWrittenAgrees | src/oatpp/web/server/http2/Http2Processor.cpp:130-165 | The processor's payload equals the session's whenever MAX_FRAME_SIZE is left at its default or equals the header table size |
| ProcessorProperties.ApplyAllAgrees | src/oatpp/web/server/http2/Http2Processor.cpp:276-286 | Where the session's reader raises no error, the processor's loop stores the same table |
| ProcessorProperties.ApplyAllSkipsRefused | src/oatpp/web/server/http2/Http2Processor.cpp:281-285 | A refused value is logged and skipped, and the pairs after it are still applied |
| ProcessorProperties.ApplyAllFront | src/oatpp/web/server/http2/Http2Processor.cpp:276-286 | The front pair is stored when its value is legal and skipped otherwise, and the rest of the frame follows |
| ProcessorProperties.ApplyAllSwap | src/oatpp/web/server/http2/Http2Processor.cpp:276-286 | Pairs for two different settings may arrive in either order, legal or not, and the same table is stored |
| ProcessorProperties.ApplyAllRoundTrip | src/oatpp/web/server/http2/Http2Processor.cpp:276-286 | A legal table advertised by the session's encoder is exactly what the processor's loop stores |
| ProcessorProperties.FindOrCreateCases | src/oatpp/web/server/http2/Http2Processor.cpp:225-236 | A known id leaves the map alone; any unknown id adds exactly one new stream in INIT and keeps the others |
| ProcessorProperties.DelegateThrows | src/oatpp/web/server/http2/Http2Processor.cpp:420-476 | `delegateToHandler` throws exactly for DATA on an INIT or GOAWAY stream, HEADERS outside INIT, and CONTINUATION outside HEADERS, each after consuming the payload |
| ProcessorProperties.DelegateUnknownType | src/oatpp/web/server/http2/Http2Processor.cpp:477-479 | Any other type is answered with CLOSING, and nothing is read or changed |
| ProcessorProperties.DeadOnlyWithoutHeader | src/oatpp/web/server/http2/Http2Processor.cpp:242-247 | DEAD is reported exactly when no frame header can be read, and then nothing changes |
| ProcessorProperties.LastFrameThenClose | src/oatpp/web/server/http2/Http2Processor.cpp:242-289 | A connection that ends after a lone SETTINGS ACK, or after one PING without flags, has that frame handled with ALIVE, and the next call reports DEAD |
| ProcessorProperties.ReadHeaderOutcome | src/oatpp/web/server/http2/Http2Processor.cpp:251-327 | Once a header is read the result is ALIVE, except that the call throws exactly when a stream frame on a nonzero stream is refused |
| ProcessorProperties.PingHandled | src/oatpp/web/server/http2/Http2Processor.cpp:253-266 | PING without flags has 8 bytes read and echoed with the ACK flag, whatever its stream or length; for any other PING only its header is read, and its payload is left unread |
| ProcessorProperties.SettingsHandled | src/oatpp/web/server/http2/Http2Processor.cpp:268-289 | SETTINGS without flags has every pair read and applied, on whatever stream, and is acknowledged; for any other SETTINGS only its header is read, and its payload is left unread |
| ProcessorProperties.OtherFramesIgnored | src/oatpp/web/server/http2/Http2Processor.cpp:292-325 | A stream frame on stream 0, or a frame of unknown type, has only its header read |
| ProcessorProperties.StreamFrameHandled | src/oatpp/web/server/http2/Http2Processor.cpp:292-320 | An accepted stream frame has its payload read by the handler; its stream is kept, in the handler's state, exactly when the handler reports ALIVE; no other stream changes |
| ProcessorProperties.ProcessPreservesWellformed | src/oatpp/web/server/http2/Http2Processor.cpp:240-327 | Streams stay filed under their own ids |
| ProcessorProperties.ProcessAdvances | src/oatpp/web/server/http2/Http2Processor.cpp:240-327 | Each call that reads a header consumes at least that header and only appends to the output |
| BlockingProcessor.PutEntry | src/oatpp/web/server/http2/Http2Processor.cpp:130-165 | One `if` block: an entry is written exactly when the setting differs from its default, and the header bytes are untouched |
| BlockingProcessor.WriteEntries | src/oatpp/web/server/http2/Http2Processor.cpp:130-165 | The six blocks write exactly the processor's payload behind the header |
| BlockingProcessor.PatchLength | src/oatpp/web/server/http2/Http2Processor.cpp:166-173 | The payload length goes into the first three bytes, big-endian, and nothing else changes |
| BlockingProcessor.BuildSettingsFrame | src/oatpp/web/server/http2/Http2Processor.cpp:119-174 | The filled buffer is exactly the SETTINGS frame as written |
| BlockingProcessor.ReadSettingsPairs | src/oatpp/web/server/http2/Http2Processor.cpp:276-286 | The loop reads the length rounded up to whole pairs and stores what the pair loop's function stores |
| BlockingProcessor.Processor.constructor | src/oatpp/web/server/http2/Http2Processor.cpp:53-66 | Resources with the given settings and input, empty output and no streams |
| BlockingProcessor.Processor.SendSettingsFrame | src/oatpp/web/server/http2/Http2Processor.cpp:117-181 | The SETTINGS frame is appended to the output, nothing else changes, and its size is returned |
| BlockingProcessor.Processor.AckSettingsFrame | src/oatpp/web/server/http2/Http2Processor.cpp:183-191 | The ACK frame is appended and 9 is returned |
| BlockingProcessor.Processor.AnswerPingFrame | src/oatpp/web/server/http2/Http2Processor.cpp:193-207 | 8 bytes are read and echoed behind a PING-ACK header, and 17 is returned |
| BlockingProcessor.Processor.ConsumeStream | src/oatpp/web/server/http2/Http2Processor.cpp:209-223 | Exactly the given length is read, in chunks of at most 1024 bytes that add up to it |
| BlockingProcessor.Processor.FindOrCreateStream | src/oatpp/web/server/http2/Http2Processor.cpp:225-236 | The stream map becomes the one the spec's lookup gives |
| BlockingProcessor.Processor.RunHandler | src/oatpp/web/server/http2/Http2Processor.cpp:435-475 | The handler reads the payload, and its stream state and connection state are stored |
| BlockingProcessor.Processor.DelegateToHandler | src/oatpp/web/server/http2/Http2Processor.cpp:414-483 | Equal to the spec's `Delegate` outcome |
| BlockingProcessor.Processor.DelegateStreamFrame | src/oatpp/web/server/http2/Http2Processor.cpp:292-320 | Equal to the spec's find, delegate and erase |
| BlockingProcessor.Processor.ProcessNextRequest | src/oatpp/web/server/http2/Http2Processor.cpp:240-327 | Equal to the spec's `Process` outcome, and keeps the resources well formed |
| Findings.MaxFrameSizeMisadvertised | src/oatpp/web/server/http2/Http2Processor.cpp:154-159 | A table that raised only MAX_FRAME_SIZE to 32768 is advertised with 4096 under that identifier, and the session's reader refuses it with PROTOCOL_ERROR |
| Findings.CorrectedSettingsFrameRoundTrip | src/oatpp/web/server/http2/Http2Processor.cpp:117-181 | The corrected frame announces its payload's length, and either server's reader recovers every legal table from it |
| Findings.LowerStreamAcceptedAfterHeaders | src/oatpp/web/server/http2/Http2SessionHandler.cpp:473-475 | HEADERS opening a new stream leaves the highest non-idle id unchanged, so a lower unknown id is accepted afterwards |
| Findings.CorrectedRefusesLowerIds | src/oatpp/web/server/http2/Http2SessionHandler.cpp:269-271 | With the id compared, the stored id never goes down, and every unknown lower id is refused |
| Findings.TableSizeTakenFromWindow | src/oatpp/web/server/http2/Http2SessionHandler.cpp:349-364 | A SETTINGS frame that leaves HEADER_TABLE_SIZE alone still asks the HPACK codec for a new table size: the INITIAL_WINDOW_SIZE value |
| Findings.CorrectedTableSizeRequests | src/oatpp/web/server/http2/Http2SessionHandler.cpp:362-364 | The codec is asked for a new size exactly when HEADER_TABLE_SIZE changed, and then for that value; the window resize is unchanged |
| Findings.PingAckLeavesPayloadUnread | src/oatpp/web/server/http2/Http2SessionHandler.cpp:314-321 | A PING with the ACK flag leaves the session unchanged, its 8 payload bytes unread, and returns `repeat()` |
| Findings.CorrectedPingConsumesPayload | src/oatpp/web/server/http2/Http2SessionHandler.cpp:312-320 | Every well-formed PING is consumed and the next frame read; it is answered, with its own payload, exactly when the ACK bit is clear |
| Findings.WindowUpdateWrapsAround | src/oatpp/web/server/http2/Http2SessionHandler.cpp:401-408 | The increment 0xFFFFFFFF on a window of 65535 wraps to 65534: the update is accepted and the window shrinks |
| Findings.CorrectedWindowNeverShrinks | src/oatpp/web/server/http2/Http2SessionHandler.cpp:396-408 | With the reserved bit masked and the sum checked, a window grows by exactly the increment or the update is refused with PROTOCOL_ERROR or FLOW_CONTROL_ERROR |
| Findings.GoawaySentWithoutPayload | src/oatpp/web/server/http2/Http2SessionHandler.cpp:194-213 | The GOAWAY as written carries fewer than the 8 bytes a GOAWAY needs; the frame the model sends differs only in its payload, which reads back as the error code |

## Left out

- Transport and I/O are left out: sockets, `InputStreamBufferedProxy`, `PriorityStreamScheduler` locking, and flushing. Input and output are byte sequences.
- Reads are exact. Each step requires, behind the header, the bytes given by `Need` in `SessionSpec` and `ProcessorSpec`. In the session that is the frame's payload, even on a branch that refuses the frame before reading it. The exception is a GOAWAY on stream 0, which always has 8 bytes read. In the processor it is exactly what the branch reads: 8 bytes for a PING without flags, the length rounded up to whole pairs for a SETTINGS without flags, the payload for a delegated frame, and nothing for frames it ignores. So a connection that ends right after a complete frame is covered. Short reads, and a peer that closes mid-frame, are not modelled. The session's `readSomeDataAsyncInline` of the PING payload is taken to read all 8 bytes.
- Coroutine scheduling is left out: `yieldTo`, `repeat`, `next` chaining and `teardown` are the `Action` values `NextRequest`, `Repeat` and `Teardown`. The executor hand-off of a READY stream and `Task::run`'s loop are also left out (`ProcessAdvances` gives the loop's progress).
- HPACK is left out. The session records the table sizes it would pass to `setMaxTableSize` in `tableSizeRequests`.
- Stream handlers are assumed to write nothing to the output. Both servers hand each handler the connection's output scheduler (Http2SessionHandler.cpp:272, Http2Processor.cpp:230), but the handler functions here return only a stream state and window, or an error. So `SessionProperties.HandleFrameAdvances` and `SessionProperties.RunHandlerAdvances` speak only of the frames the session itself sends.
- Per-stream handler bodies are not part of this model. They are function parameters, assumed to read exactly their frame's payload. In the processor, a handler that throws is not modelled; only `delegateToHandler`'s own three throws are.
- A new stream's flow-control window in the session is taken to be the peer's INITIAL_WINDOW_SIZE. The `Http2StreamHandler::Task` constructor is not part of this model.
- Stream states between those the source names (INIT, HEADERS, CONTINUATION, PAYLOAD, PROCESSING, READY, GOAWAY) are not modelled. Their ordinals are taken as 0 to 6.
- `Http2Settings` and its defaults are not part of this model. The defaults are a parameter, and `setSetting`'s range checks follow section 6.5.2 of RFC 7540.
- ProcessorSpec.ApplyAll: assumes that the h2 `ProtocolError` and `FlowControlError` thrown by `setSetting` derive from `std::runtime_error`, so that the `catch` at Http2Processor.cpp:283 logs and skips them. Their declarations are not part of this model. If they do not derive from it, a refused value escapes `processNextRequest`, and `Task::run`'s `catch (...)` (Http2Processor.cpp:567) ends the connection. `ProcessorProperties.ApplyAllSkipsRefused` and `ProcessorProperties.ApplyAllSwap` rest on the same assumption.
- SessionHandler.Session.ResizeWindows: stream windows are unbounded integers, so `resizeWindow`'s own 32-bit overflow handling is not modelled.
- SessionProperties.WindowUpdateGrowsWindow: states the result only while the 32-bit sum does not wrap. The wrapping case is shown by Findings.WindowUpdateWrapsAround.
- SessionProperties.WindowChangeIsDifference: states the signed change only for window sizes within 2^31 - 1. The int32 arithmetic is modelled in `SessionSpec.ToInt32` for all sizes.
- SETTINGS payload hand-off: `SendSettingsFrameCoroutine` points its label at the filled entries (Http2SessionHandler.cpp:151) but does not override `frameData()`, so whether those bytes go out depends on `SendFrameCoroutine`, which is not part of this model. The model sends the entries the constructor computes.
- GOAWAY payload hand-off: `SendGoawayFrameCoroutine` overrides `frameData()` to return a label that nothing sets (Http2SessionHandler.cpp:194-213), so as written the GOAWAY most likely goes out empty. This is the sixth row under "## Findings"; the rest of the model sends the 8 bytes the constructor computes.
- Frame priority: every frame the session sends is queued at `PRIORITY_MAX` (Http2SessionHandler.cpp:125, :162, :180, :199, :228). `OutFrame` carries no priority, and the scheduler's ordering is not modelled.
- The processor's `h2frame` copy and the session's memory-label setup (the upgrade path) are not modelled. Neither are logging, the session counters, copy/move constructors and `stop()`.

## Findings

For the first five rows the model follows the code as written: `SessionSpec` and `ProcessorSpec` reproduce each defect. For the GOAWAY row the rest of the model uses the intended payload, `SessionSpec.GoawayPayload`, because the defect rests on `MemoryLabel`'s default constructor, which is not part of this model. For each row the as-written member exhibits the defect. The corrected member is the intended definition, with its intended property proved beside it in `findings.dfy`.

| source | as written | input that shows it | evidently intended | confidence | as-written member | corrected member |
|---|---|---|---|---|---|---|
| src/oatpp/web/server/http2/Http2Processor.cpp:156 | the MAX_FRAME_SIZE entry carries the HEADER_TABLE_SIZE value | defaults (4096, 1, 100, 65535, 16384, 8192) with MAX_FRAME_SIZE raised to 32768: the payload is MAX_FRAME_SIZE = 4096, which a peer refuses with PROTOCOL_ERROR | the entry carries the MAX_FRAME_SIZE value | not executed | Findings.MaxFrameSizeMisadvertised | Findings.CorrectedSettingsFrame |
| src/oatpp/web/server/http2/Http2SessionHandler.cpp:473 | the stream's state, not its id, is compared with the highest non-idle id | HEADERS opening stream 5 with highest id 0; stream 3 is accepted afterwards | the stream's id is compared, so lower unknown ids are refused afterwards | not executed | Findings.LowerStreamAcceptedAfterHeaders | Findings.HighestAfterHeadersCorrected |
| src/oatpp/web/server/http2/Http2SessionHandler.cpp:350 | the new table size is read from INITIAL_WINDOW_SIZE | SETTINGS that leaves HEADER_TABLE_SIZE at 4096 with the window at 65535: the codec is asked for a table of 65535 | the new table size is read from HEADER_TABLE_SIZE | not executed | Findings.TableSizeTakenFromWindow | Findings.AfterSettingsCorrected |
| src/oatpp/web/server/http2/Http2SessionHandler.cpp:316 | the consume action for a PING ACK is built and dropped, so control reaches `repeat()` with 8 bytes unread | a PING with the ACK flag and length 8: the next header is read from its payload | the consume action is returned, so the payload is read and the next frame follows | not executed | Findings.PingAckLeavesPayloadUnread | Findings.HandlePingCorrected |
| src/oatpp/web/server/http2/Http2SessionHandler.cpp:408 | the increment is added to the window in 32 bits, without masking the reserved bit or checking for overflow | a WINDOW_UPDATE on stream 0 with bytes FF FF FF FF on a window of 65535: the window becomes 65534 | the reserved bit is ignored, and a sum above 2^31 - 1 is FLOW_CONTROL_ERROR (section 6.9.1 of RFC 7540) | not executed | Findings.WindowUpdateWrapsAround | Findings.WindowUpdateCorrected |
| src/oatpp/web/server/http2/Http2SessionHandler.cpp:194-213 | `frameData()` returns `m_label`, which the constructor never points at the 8-byte buffer it fills | any connection error, e.g. an even stream id: the GOAWAY goes out with an empty payload, so the peer learns neither the last stream id nor the error code | the label covers the 8 bytes, as the RST_STREAM coroutine's does at :230 | not executed; assumes a default `MemoryLabel` is empty | Findings.GoawaySentWithoutPayload | SessionSpec.GoawayPayload |
