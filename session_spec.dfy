/**
 * The asynchronous HTTP/2 session (Http2SessionHandler.cpp) as a function
 * from the session's state and one received frame header to the next state
 * and the coroutine action it yields. The frame header itself has already
 * been read; `input` holds the bytes that follow it on the connection.
 */
module SessionSpec {
  import opened Wire
  import opened Wrappers
  import opened Http2Settings
  import opened SettingsFrame
  import opened Streams

  /** A frame queued on the outbound scheduler: header fields and payload. */
  datatype OutFrame = OutFrame(ftype: Byte, flags: Byte, streamId: StreamId, payload: seq<Byte>)

  /**
   * Where the coroutine goes next: read the next frame header, re-enter the
   * current step (`repeat()`), or finish (`teardown`).
   */
  datatype Action = NextRequest | Repeat | Teardown

  datatype SessionState = SessionState(
    input: seq<Byte>,
    inSettings: Settings,
    outSettings: Settings,
    streams: map<StreamId, StreamRec>,
    lastStream: Option<StreamId>,
    highestNonIdleStreamId: StreamId,
    output: seq<OutFrame>,
    /** The values handed to the HPACK codec's `setMaxTableSize`, oldest first. */
    tableSizeRequests: seq<U32>)

  datatype Step = Step(action: Action, next: SessionState)

  /**
   * Each stream is filed under its own id, which is odd (client-initiated),
   * the last opened stream is one of them, and the peer's settings are within
   * their legal ranges.
   */
  ghost predicate Wellformed(s: SessionState)
  {
    && (forall id :: id in s.streams ==> s.streams[id].id == id && id % 2 == 1)
    && (s.lastStream.Some? ==> s.lastStream.value in s.streams)
    && Valid(s.outSettings)
  }

  /**
   * Bytes behind the header that the frame's handling may read: its payload,
   * except that a GOAWAY on stream 0 always has its 8 fixed bytes read, even
   * when its length is shorter.
   */
  function Need(h: FrameHeader): nat
  {
    if h.ftype == GOAWAY && h.streamId == 0 && h.length < 8 then 8 else h.length
  }

  function Drop(s: SessionState, n: nat): SessionState
    requires n <= |s.input|
  {
    s.(input := s.input[n..])
  }

  function Send(s: SessionState, f: OutFrame): SessionState
  {
    s.(output := s.output + [f])
  }

  /** The id reported in GOAWAY: the last opened stream, or 0 when none was opened. */
  function LastStreamId(s: SessionState): StreamId
  {
    if s.lastStream.Some? then s.lastStream.value else 0
  }

  /** The GOAWAY payload (section 6.8 of RFC 7540): last stream id, then error code. */
  function GoawayPayload(lastStream: U32, code: U32): (r: seq<Byte>)
    ensures |r| == 8
    ensures ReadBE32(r[..4]) == lastStream && ReadBE32(r[4..]) == code
  {
    var r := BE32(lastStream) + BE32(code);
    assert r[..4] == BE32(lastStream) && r[4..] == BE32(code);
    r
  }

  /** `connectionError`: GOAWAY naming the last opened stream, then teardown. */
  function ConnectionError(s: SessionState, code: U32): Step
  {
    Step(Teardown, Send(s, OutFrame(GOAWAY, 0, 0, GoawayPayload(LastStreamId(s), code))))
  }

  /** `sendResetStreamFrame`: RST_STREAM carrying the error code, then the next frame. */
  function ResetStream(s: SessionState, id: StreamId, code: U32): Step
  {
    Step(NextRequest, Send(s, OutFrame(RST_STREAM, 0, id, BE32(code))))
  }

  /** The catch block of `handleFrame`: connection errors end the session, stream errors reset the frame's stream. */
  function Classify(s: SessionState, h: FrameHeader, e: H2Error): Step
  {
    if e.scope == ConnectionScope then ConnectionError(s, e.code)
    else ResetStream(s, h.streamId, e.code)
  }

  /**
   * The last opened stream is still inside its header block (strictly
   * between INIT and PAYLOAD) and the frame is for another stream.
   */
  predicate BreaksHeaderBlock(s: SessionState, id: StreamId)
  {
    && s.lastStream.Some?
    && id != s.lastStream.value
    && s.lastStream.value in s.streams
    && Init.Ordinal() < s.streams[s.lastStream.value].state.Ordinal() < StreamState.Payload.Ordinal()
  }

  predicate IsStreamFrameType(t: Byte)
  {
    t == DATA || t == HEADERS || t == PRIORITY || t == RST_STREAM || t == PUSH_PROMISE || t == CONTINUATION
  }

  /** `handleFrame`. */
  function HandleFrame(s: SessionState, h: FrameHeader, handler: StreamHandlerFn): Step
    requires |s.input| >= Need(h)
  {
    if h.streamId != 0 && h.streamId % 2 == 0 then ConnectionError(s, PROTOCOL_ERROR)
    else if BreaksHeaderBlock(s, h.streamId) then ConnectionError(s, PROTOCOL_ERROR)
    else if h.ftype == PING then HandlePing(s, h)
    else if h.ftype == SETTINGS then HandleSettings(s, h)
    else if h.ftype == GOAWAY then HandleGoaway(s, h)
    else if h.ftype == WINDOW_UPDATE then HandleWindowUpdate(s, h, handler)
    else if IsStreamFrameType(h.ftype) then HandleStreamFrame(s, h, handler)
    else Step(NextRequest, Drop(s, h.length))
  }

  /**
   * PING. With the ack bit set the source builds a consume action and drops
   * it (Http2SessionHandler.cpp:316), so control reaches `repeat()` with the
   * 8 payload bytes still unread; modelled as written.
   */
  function HandlePing(s: SessionState, h: FrameHeader): Step
    requires |s.input| >= Need(h)
  {
    if h.streamId != 0 then ConnectionError(s, PROTOCOL_ERROR)
    else if h.length != 8 then ConnectionError(s, FRAME_SIZE_ERROR)
    else if h.flags % 2 == 0 then
      Step(NextRequest, Send(Drop(s, 8), OutFrame(PING, PING_ACK, 0, s.input[..8])))
    else Step(Repeat, s)
  }

  /** The SETTINGS acknowledgement. */
  const ACK_FRAME := OutFrame(SETTINGS, SETTINGS_ACK, 0, [])

  /** SETTINGS. */
  function HandleSettings(s: SessionState, h: FrameHeader): Step
    requires |s.input| >= Need(h)
  {
    if h.streamId != 0 then ConnectionError(s, PROTOCOL_ERROR)
    else if h.flags == 0 then
      if h.length % 6 != 0 then ConnectionError(s, FRAME_SIZE_ERROR)
      else
        var r := ApplyPairs(s.outSettings, s.input[..h.length]);
        var applied := s.(input := s.input[r.read..], outSettings := r.settings);
        if r.error.Some? then ConnectionError(applied, r.error.value)
        else Step(NextRequest, Send(AfterSettings(s.outSettings, applied), ACK_FRAME))
    else if h.flags == SETTINGS_ACK && h.length > 0 then ConnectionError(s, FRAME_SIZE_ERROR)
    else Step(Repeat, s)
  }

  /** A value converted to `v_int32`: the low 32 bits, read as two's complement. */
  function ToInt32(x: int): int
  {
    var m := x % 0x1_0000_0000;
    if m >= 0x8000_0000 then m - 0x1_0000_0000 else m
  }

  /** The signed window change the source computes from two unsigned sizes. */
  function WindowChange(oldSize: U32, newSize: U32): int
  {
    if oldSize > newSize then ToInt32(0 - (oldSize - newSize)) else ToInt32(newSize - oldSize)
  }

  /** `resizeWindow(delta)` on every stream. */
  function ResizeAll(m: map<StreamId, StreamRec>, delta: int): map<StreamId, StreamRec>
  {
    map id | id in m :: m[id].(window := m[id].window + delta)
  }

  /**
   * After the pairs were stored: resize every stream when INITIAL_WINDOW_SIZE
   * changed, then ask the HPACK codec for a new table size when the value
   * read differs from the old HEADER_TABLE_SIZE. As written the new table
   * size is read from INITIAL_WINDOW_SIZE (Http2SessionHandler.cpp:350).
   */
  function AfterSettings(before: Settings, s: SessionState): SessionState
  {
    var oldWindow := before.initialWindowSize;
    var newWindow := s.outSettings.initialWindowSize;
    var resized :=
      if oldWindow != newWindow then s.(streams := ResizeAll(s.streams, WindowChange(oldWindow, newWindow)))
      else s;
    var newTableSize := s.outSettings.initialWindowSize;
    if before.headerTableSize != newTableSize then
      resized.(tableSizeRequests := resized.tableSizeRequests + [newTableSize])
    else resized
  }

  /** GOAWAY from the peer: read last id and error code, drain the debug data, stop. */
  function HandleGoaway(s: SessionState, h: FrameHeader): Step
    requires h.ftype == GOAWAY && |s.input| >= Need(h)
  {
    if h.streamId == 0 then Step(Teardown, Drop(s, Need(h)))
    else ConnectionError(s, PROTOCOL_ERROR)
  }

  /** The unsigned 32-bit sum the source hands to `setSetting`. */
  function AddU32(a: U32, b: U32): U32
  {
    (a + b) % 0x1_0000_0000
  }

  /** WINDOW_UPDATE: on stream 0 the peer's INITIAL_WINDOW_SIZE grows; otherwise the stream's handler takes it. */
  function HandleWindowUpdate(s: SessionState, h: FrameHeader, handler: StreamHandlerFn): Step
    requires |s.input| >= Need(h)
  {
    if h.streamId == 0 then
      if h.length != 4 then ConnectionError(s, FRAME_SIZE_ERROR)
      else
        var increment := ReadBE32(s.input[..4]);
        var read := Drop(s, 4);
        if increment == 0 then ConnectionError(read, PROTOCOL_ERROR)
        else
          var r := SetKnown(read.outSettings, InitialWindowSize, AddU32(read.outSettings.initialWindowSize, increment));
          if r.Updated? then Step(Repeat, read.(outSettings := r.settings))
          else ConnectionError(read, r.code)
    else
      match FindOrCreateStream(s, h.streamId)
      case None => ConnectionError(s, PROTOCOL_ERROR)
      case Some(found) => DelegateToHandler(found, h, handler)
  }

  /** DATA, HEADERS, PRIORITY, RST_STREAM, PUSH_PROMISE, CONTINUATION. */
  function HandleStreamFrame(s: SessionState, h: FrameHeader, handler: StreamHandlerFn): Step
    requires |s.input| >= Need(h)
  {
    if h.streamId == 0 then ConnectionError(s, PROTOCOL_ERROR)
    else
      match FindOrCreateStream(s, h.streamId)
      case None => ConnectionError(s, PROTOCOL_ERROR)
      case Some(found) => DelegateToHandler(found.(lastStream := Some(h.streamId)), h, handler)
  }

  /** The record a new stream starts with. */
  function NewStream(s: SessionState, id: StreamId): StreamRec
  {
    StreamRec(id, Init, s.outSettings.initialWindowSize)
  }

  /**
   * `findOrCreateStream`: a known id is returned as is; an unknown id below
   * the highest non-idle id is a connection error (None); any other is added.
   */
  function FindOrCreateStream(s: SessionState, id: StreamId): (r: Option<SessionState>)
    ensures r.Some? ==> id in r.value.streams && r.value.input == s.input
  {
    if id in s.streams then Some(s)
    else if id < s.highestNonIdleStreamId then None
    else Some(s.(streams := s.streams[id := NewStream(s, id)]))
  }

  /**
   * The id the HEADERS branch stores as the highest non-idle stream. As
   * written the stream's state, not its id, is compared with the stored id
   * (Http2SessionHandler.cpp:473).
   */
  function HighestAfterHeaders(rec: StreamRec, highest: StreamId): StreamId
  {
    if rec.state.Ordinal() > highest then rec.id else highest
  }

  predicate IsDelegatedType(t: Byte)
  {
    IsStreamFrameType(t) || t == WINDOW_UPDATE
  }

  /**
   * The state checks of `delegateToHandler`: the connection error a frame of
   * type `t` raises on a stream in state `st`, if any. All of them are
   * connection errors, the HEADERS one included (it throws the connection
   * variant of StreamClosed).
   */
  function StateError(t: Byte, st: StreamState): Option<U32>
  {
    if t == DATA then
      if st == StreamState.Payload then None
      else if st.Ordinal() >= Processing.Ordinal() then Some(STREAM_CLOSED)
      else Some(PROTOCOL_ERROR)
    else if t == HEADERS then
      if st.Ordinal() >= Processing.Ordinal() then Some(STREAM_CLOSED) else None
    else if t == PRIORITY then
      if st == Headers || st == Continuation then Some(PROTOCOL_ERROR) else None
    else if t == RST_STREAM || t == WINDOW_UPDATE then
      if st == Init then Some(PROTOCOL_ERROR) else None
    else if t == CONTINUATION then
      if st != Headers && st != Continuation then Some(PROTOCOL_ERROR) else None
    else None
  }

  /**
   * `delegateToHandler`: the state check, then (for HEADERS) the update of
   * the highest non-idle stream id, then the stream's handler; a legal
   * RST_STREAM is answered with RST_STREAM(CANCEL).
   */
  function DelegateToHandler(s: SessionState, h: FrameHeader, handler: StreamHandlerFn): Step
    requires h.streamId in s.streams && |s.input| >= h.length
  {
    match StateError(h.ftype, s.streams[h.streamId].state)
    case Some(code) => ConnectionError(s, code)
    case None =>
      var checked :=
        if h.ftype == HEADERS then
          s.(highestNonIdleStreamId := HighestAfterHeaders(s.streams[h.streamId], s.highestNonIdleStreamId))
        else s;
      var r := RunHandler(checked, h, handler);
      if h.ftype == RST_STREAM && HandlerOutcome(checked, h, handler).Handled? then
        ResetStream(r.next, h.streamId, CANCEL)
      else r
  }

  /** What the stream's handler makes of the frame's payload. */
  function HandlerOutcome(s: SessionState, h: FrameHeader, handler: StreamHandlerFn): HandlerResult
    requires h.streamId in s.streams && |s.input| >= h.length
  {
    handler(s.streams[h.streamId], h, s.input[..h.length])
  }

  /** The handler reads the payload; its new state is stored, or its error classified. */
  function RunHandler(s: SessionState, h: FrameHeader, handler: StreamHandlerFn): Step
    requires h.streamId in s.streams && |s.input| >= h.length
  {
    var rest := Drop(s, h.length);
    match HandlerOutcome(s, h, handler)
    case Handled(state, window) =>
      var rec := s.streams[h.streamId];
      Step(NextRequest, rest.(streams := rest.streams[h.streamId := rec.(state := state, window := window)]))
    case Raised(e) => Classify(rest, h, e)
  }

}
