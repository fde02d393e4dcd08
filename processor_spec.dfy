/**
 * The blocking HTTP/2 processor (Http2Processor.cpp) as functions from the
 * processing resources to the next resources: one frame is read from
 * `input`, the frames it sends are appended to `output` as bytes, the peer's
 * settings are kept in `outSettings` and the per-stream handlers in
 * `streams`.
 */
module ProcessorSpec {
  import opened Wire
  import opened Http2Settings
  import opened SettingsFrame
  import opened Streams

  /** What `processNextRequest` and `delegateToHandler` report to their caller. */
  datatype ConnectionState = Alive | Closing | Dead | Delegated

  /** A call either returns a connection state or throws (`std::runtime_error`). */
  datatype Completion = Returned(state: ConnectionState) | Threw

  /** A stream handler as the processor sees it: its id and the state `getState()` reports. */
  datatype ProcStream = ProcStream(id: StreamId, state: StreamState)

  /** What a per-stream `handle*` call returns, with the state it leaves its stream in. */
  datatype HandlerOutcome = HandlerOutcome(connection: ConnectionState, state: StreamState)

  /**
   * The per-stream handlers (`handleData`, `handleHeaders`, ...): given the
   * stream, the frame header and the frame's payload, the connection state
   * to report and the stream's next state.
   */
  type ProcHandlerFn = (ProcStream, FrameHeader, seq<Byte>) -> HandlerOutcome

  datatype ProcState = ProcState(
    input: seq<Byte>,
    output: seq<Byte>,
    inSettings: Settings,
    outSettings: Settings,
    streams: map<StreamId, ProcStream>)

  datatype Outcome = Outcome(completion: Completion, next: ProcState)

  // ---------------------------------------------------------------------------
  // Frames the processor builds

  /**
   * The value `sendSettingsFrame` writes for each identifier. As written, the
   * MAX_FRAME_SIZE entry carries the HEADER_TABLE_SIZE value
   * (Http2Processor.cpp:156); the comparison guarding the entry uses the
   * MAX_FRAME_SIZE value itself.
   */
  function AdvertisedValue(s: Settings, id: Identifier): U32
  {
    if id == MaxFrameSize then s.headerTableSize else Get(s, id)
  }

  /** The entries for the first n settings of ORDER, as `sendSettingsFrame` writes them. */
  function EntriesAsWritten(s: Settings, defaults: Settings, n: nat): (r: seq<Byte>)
    requires n <= |ORDER|
    ensures |r| == 6 * DiffCount(s, defaults, n) <= 6 * n
  {
    if n == 0 then []
    else
      EntriesAsWritten(s, defaults, n - 1)
      + (if Differs(s, defaults, n - 1) then Entry(ORDER[n - 1], AdvertisedValue(s, ORDER[n - 1])) else [])
  }

  function SettingsPayloadAsWritten(s: Settings, defaults: Settings): seq<Byte>
  {
    EntriesAsWritten(s, defaults, |ORDER|)
  }

  /** The whole SETTINGS frame: a header with the payload's length, type SETTINGS, no flags, stream 0. */
  function SettingsFrameAsWritten(s: Settings, defaults: Settings): seq<Byte>
  {
    var payload := SettingsPayloadAsWritten(s, defaults);
    EncodeHeader(FrameHeader(|payload|, 0, SETTINGS, 0)) + payload
  }

  /** The SETTINGS acknowledgement: an empty frame with the ACK flag. */
  const ACK_FRAME: seq<Byte> := EncodeHeader(FrameHeader(0, SETTINGS_ACK, SETTINGS, 0))

  /** The PING answer: the 8 data bytes behind a header with the ACK flag. */
  function PingAnswer(data: seq<Byte>): seq<Byte>
    requires |data| == 8
  {
    EncodeHeader(FrameHeader(8, PING_ACK, PING, 0)) + data
  }

  // ---------------------------------------------------------------------------
  // Reading

  /**
   * The bytes the SETTINGS loop reads: it steps `consumed` by 6 while
   * `consumed < length`, so it reads the length rounded up to whole pairs.
   */
  function RoundUp6(n: nat): (r: nat)
    ensures r % 6 == 0 && n <= r < n + 6
  {
    (n + 5) / 6 * 6
  }

  /**
   * Bytes behind the header that the frame's branch reads: 8 for a PING
   * without flags, the length rounded up to whole pairs for a SETTINGS
   * without flags, the payload for a delegated frame, and nothing otherwise.
   */
  function Need(h: FrameHeader): nat
  {
    if h.ftype == PING then (if h.flags == 0 then 8 else 0)
    else if h.ftype == SETTINGS then (if h.flags == 0 then RoundUp6(h.length) else 0)
    else if IsDelegatedType(h.ftype) && h.streamId != 0 then h.length
    else 0
  }

  /**
   * Every read the processor makes finds its bytes: either the header itself
   * cannot be read, or all the bytes the frame's branch reads are there.
   */
  predicate Readable(st: ProcState)
  {
    |st.input| < HEADER_SIZE || |st.input| >= HEADER_SIZE + Need(DecodeHeader(st.input[..HEADER_SIZE]))
  }

  function Drop(st: ProcState, n: nat): ProcState
    requires n <= |st.input|
  {
    st.(input := st.input[n..])
  }

  /**
   * The SETTINGS pair loop: each pair is handed to `setSetting`; an unknown
   * identifier or a refused value is logged and skipped, and the loop goes on.
   */
  function ApplyAll(s: Settings, p: seq<Byte>): (r: Settings)
    requires |p| % 6 == 0
    ensures Valid(s) ==> Valid(r)
    decreases |p|
  {
    if |p| == 0 then s
    else
      var step := SetSetting(s, ReadBE16(p[..2]), ReadBE32(p[2..6]));
      ApplyAll(if step.Updated? then step.settings else s, p[6..])
  }

  // ---------------------------------------------------------------------------
  // Streams

  /** `findOrCreateStream`: the known handler, or a new one in its initial state, whatever the id. */
  function FindOrCreate(streams: map<StreamId, ProcStream>, id: StreamId): map<StreamId, ProcStream>
  {
    if id in streams then streams else streams[id := ProcStream(id, Init)]
  }

  /**
   * The frames `delegateToHandler` refuses before calling the handler: DATA
   * for a stream in a state at or below INIT or at or above GOAWAY, HEADERS
   * outside INIT, CONTINUATION outside HEADERS.
   */
  predicate Refused(t: Byte, st: StreamState)
  {
    || (t == DATA && (st.Ordinal() <= Init.Ordinal() || st.Ordinal() >= Goaway.Ordinal()))
    || (t == HEADERS && st != Init)
    || (t == CONTINUATION && st != Headers)
  }

  /** The frame types `delegateToHandler` has a handler for. */
  predicate IsDelegatedType(t: Byte)
  {
    t == DATA || t == HEADERS || t == PRIORITY || t == RST_STREAM || t == PUSH_PROMISE
    || t == GOAWAY || t == WINDOW_UPDATE || t == CONTINUATION
  }

  /**
   * `delegateToHandler`: a refused frame's payload is consumed and the call
   * throws; a handled frame's payload is read by the handler, which sets the
   * stream's state and the connection state to report; any other type is
   * answered with CLOSING without reading anything.
   */
  function Delegate(st: ProcState, h: FrameHeader, handler: ProcHandlerFn): Outcome
    requires h.streamId in st.streams && h.length <= |st.input|
  {
    var stream := st.streams[h.streamId];
    if !IsDelegatedType(h.ftype) then Outcome(Returned(Closing), st)
    else if Refused(h.ftype, stream.state) then Outcome(Threw, Drop(st, h.length))
    else
      var o := handler(stream, h, st.input[..h.length]);
      Outcome(Returned(o.connection),
              Drop(st, h.length).(streams := st.streams[h.streamId := stream.(state := o.state)]))
  }

  /**
   * A stream frame with a nonzero id: the stream is found or created and the
   * frame delegated; a handler that reports anything but ALIVE has its
   * stream erased. A throw passes on to the caller.
   */
  function DelegateAndErase(st: ProcState, h: FrameHeader, handler: ProcHandlerFn): Outcome
    requires h.length <= |st.input|
  {
    var found := st.(streams := FindOrCreate(st.streams, h.streamId));
    var d := Delegate(found, h, handler);
    match d.completion
    case Threw => d
    case Returned(c) =>
      if c != Alive then Outcome(Returned(Alive), d.next.(streams := d.next.streams - {h.streamId}))
      else Outcome(Returned(Alive), d.next)
  }

  /** PING: only a frame without flags is answered; its 8 bytes are read, whatever the length says. */
  function ProcessPing(st: ProcState, h: FrameHeader): Outcome
    requires h.flags == 0 ==> |st.input| >= 8
  {
    if h.flags == 0 then
      Outcome(Returned(Alive), Drop(st, 8).(output := st.output + PingAnswer(st.input[..8])))
    else Outcome(Returned(Alive), st)
  }

  /** SETTINGS: without flags, every pair is read and applied, then the ACK is sent; the stream id is not checked. */
  function ProcessSettings(st: ProcState, h: FrameHeader): Outcome
    requires h.flags == 0 ==> |st.input| >= RoundUp6(h.length)
  {
    if h.flags == 0 then
      var n := RoundUp6(h.length);
      Outcome(Returned(Alive),
              Drop(st, n).(outSettings := ApplyAll(st.outSettings, st.input[..n]),
                           output := st.output + ACK_FRAME))
    else Outcome(Returned(Alive), st)
  }

  /**
   * `processNextRequest`: DEAD when no header can be read; otherwise the
   * branch of the frame's type, and ALIVE unless a delegated frame threw.
   * Frames on stream 0 of a stream type, and frames of an unknown type, are
   * ignored with their payload left unread.
   */
  function Process(st: ProcState, handler: ProcHandlerFn): Outcome
    requires Readable(st)
  {
    if |st.input| < HEADER_SIZE then Outcome(Returned(Dead), st)
    else
      var h := DecodeHeader(st.input[..HEADER_SIZE]);
      var body := Drop(st, HEADER_SIZE);
      if h.ftype == PING then ProcessPing(body, h)
      else if h.ftype == SETTINGS then ProcessSettings(body, h)
      else if IsDelegatedType(h.ftype) && h.streamId != 0 then DelegateAndErase(body, h, handler)
      else Outcome(Returned(Alive), body)
  }

}
