/**
 * What the asynchronous session promises about each received frame, stated
 * on `SessionSpec.HandleFrame` and its parts.
 */
module SessionProperties {
  import opened Wire
  import opened Wrappers
  import opened Http2Settings
  import opened SettingsFrame
  import opened Streams
  import opened SessionSpec

  /** GOAWAY carrying `code` and the last opened stream, and nothing else changes. */
  predicate IsConnectionError(s: SessionState, r: Step, code: U32)
  {
    && r.action == Teardown
    && r.next == s.(output := s.output + [OutFrame(GOAWAY, 0, 0, GoawayPayload(LastStreamId(s), code))])
  }

  // ---------------------------------------------------------------------------
  // Connection-level checks that precede any type-specific handling.

  /** A nonzero even stream id is a connection PROTOCOL_ERROR whatever the frame (section 5.1.1 of RFC 7540). */
  lemma EvenStreamIdRejected(s: SessionState, h: FrameHeader, handler: StreamHandlerFn)
    requires |s.input| >= Need(h)
    requires h.streamId != 0 && h.streamId % 2 == 0
    ensures IsConnectionError(s, HandleFrame(s, h, handler), PROTOCOL_ERROR)
  {
  }

  /**
   * While the last opened stream is inside its header block, a frame for any
   * other stream is a connection PROTOCOL_ERROR (section 6.10 of RFC 7540).
   */
  lemma HeaderBlockIsContiguous(s: SessionState, h: FrameHeader, handler: StreamHandlerFn)
    requires |s.input| >= Need(h)
    requires s.lastStream.Some? && s.lastStream.value in s.streams
    requires s.streams[s.lastStream.value].state in {Headers, Continuation}
    requires h.streamId != s.lastStream.value
    ensures IsConnectionError(s, HandleFrame(s, h, handler), PROTOCOL_ERROR)
  {
  }

  /** The checks above are the only ones every frame passes through: without them the frame type decides. */
  predicate Admitted(s: SessionState, h: FrameHeader)
  {
    && (h.streamId == 0 || h.streamId % 2 == 1)
    && !BreaksHeaderBlock(s, h.streamId)
  }

  // ---------------------------------------------------------------------------
  // PING (section 6.7 of RFC 7540).

  lemma PingRefused(s: SessionState, h: FrameHeader, handler: StreamHandlerFn)
    requires |s.input| >= Need(h) && Admitted(s, h) && h.ftype == PING
    requires h.streamId != 0 || h.length != 8
    ensures IsConnectionError(s, HandleFrame(s, h, handler), if h.streamId != 0 then PROTOCOL_ERROR else FRAME_SIZE_ERROR)
  {
  }

  /** A PING without the ack bit is answered with the same 8 bytes and the ack flag. */
  lemma PingAnswered(s: SessionState, h: FrameHeader, handler: StreamHandlerFn)
    requires |s.input| >= Need(h) && Admitted(s, h) && h.ftype == PING
    requires h.streamId == 0 && h.length == 8 && h.flags % 2 == 0
    ensures var r := HandleFrame(s, h, handler);
            && r.action == NextRequest
            && r.next == s.(input := s.input[8..], output := s.output + [OutFrame(PING, PING_ACK, 0, s.input[..8])])
  {
  }

  // ---------------------------------------------------------------------------
  // SETTINGS (section 6.5 of RFC 7540).

  lemma SettingsRefused(s: SessionState, h: FrameHeader, handler: StreamHandlerFn)
    requires |s.input| >= Need(h) && Admitted(s, h) && h.ftype == SETTINGS
    requires h.streamId != 0 || (h.flags == 0 && h.length % 6 != 0) || (h.flags == SETTINGS_ACK && h.length > 0)
    ensures IsConnectionError(s, HandleFrame(s, h, handler), if h.streamId != 0 then PROTOCOL_ERROR else FRAME_SIZE_ERROR)
  {
  }

  /**
   * A SETTINGS frame of whole pairs is read pair by pair: a refused value is
   * a connection error with the code `setSetting` raised, after the pairs
   * before it were stored; otherwise exactly length/6 pairs were read and one
   * acknowledgement is sent.
   */
  lemma SettingsApplied(s: SessionState, h: FrameHeader, handler: StreamHandlerFn)
    requires |s.input| >= Need(h) && Admitted(s, h) && h.ftype == SETTINGS
    requires h.streamId == 0 && h.flags == 0 && h.length % 6 == 0
    ensures var r := HandleFrame(s, h, handler);
            var a := ApplyPairs(s.outSettings, s.input[..h.length]);
            && r.next.outSettings == a.settings
            && (a.error.Some? ==>
                  IsConnectionError(s.(input := s.input[a.read..], outSettings := a.settings), r, a.error.value))
            && (a.error.None? ==>
                  && r.action == NextRequest
                  && r.next.input == s.input[h.length..]
                  && a.read == h.length && a.read / 6 == h.length / 6
                  && r.next.output == s.output + [ACK_FRAME]
                  && r.next.lastStream == s.lastStream
                  && r.next.streams.Keys == s.streams.Keys)
  {
  }

  /** For sizes within the legal window range, the source's signed change is the exact difference. */
  lemma {:induction false} WindowChangeIsDifference(oldSize: U32, newSize: U32)
    requires oldSize <= MAX_WINDOW_SIZE && newSize <= MAX_WINDOW_SIZE
    ensures WindowChange(oldSize, newSize) == newSize - oldSize
  {
    if oldSize > newSize {
      var d := oldSize - newSize;
      assert 0 < d < 0x8000_0000;
      assert (0 - d) % 0x1_0000_0000 == 0x1_0000_0000 - d;
    } else {
      assert (newSize - oldSize) % 0x1_0000_0000 == newSize - oldSize;
    }
  }

  /**
   * A SETTINGS frame that moves INITIAL_WINDOW_SIZE from `old` to `new`
   * shifts every stream's window by `new - old`, negative when it shrinks
   * (section 6.9.2 of RFC 7540); when the value is unchanged no stream is
   * touched.
   */
  lemma SettingsResizeWindows(s: SessionState, h: FrameHeader, handler: StreamHandlerFn)
    requires |s.input| >= Need(h) && Admitted(s, h) && h.ftype == SETTINGS
    requires h.streamId == 0 && h.flags == 0 && h.length % 6 == 0
    requires Valid(s.outSettings)
    requires ApplyPairs(s.outSettings, s.input[..h.length]).error.None?
    ensures var r := HandleFrame(s, h, handler);
            var delta := r.next.outSettings.initialWindowSize - s.outSettings.initialWindowSize;
            && r.next.streams.Keys == s.streams.Keys
            && (forall id :: id in s.streams ==> r.next.streams[id] == s.streams[id].(window := s.streams[id].window + delta))
            && (delta == 0 ==> r.next.streams == s.streams)
  {
    var a := ApplyPairs(s.outSettings, s.input[..h.length]);
    assert RangeError(InitialWindowSize, Get(s.outSettings, InitialWindowSize)).None?;
    assert RangeError(InitialWindowSize, Get(a.settings, InitialWindowSize)).None?;
    WindowChangeIsDifference(s.outSettings.initialWindowSize, a.settings.initialWindowSize);
  }

  // ---------------------------------------------------------------------------
  // GOAWAY from the peer.

  /** On stream 0 the payload, debug data included, is read and the session ends; on a stream it is a PROTOCOL_ERROR. */
  lemma GoawayEndsSession(s: SessionState, h: FrameHeader, handler: StreamHandlerFn)
    requires |s.input| >= Need(h) && Admitted(s, h) && h.ftype == GOAWAY
    ensures var r := HandleFrame(s, h, handler);
            if h.streamId == 0 then r == Step(Teardown, s.(input := s.input[Need(h)..]))
            else IsConnectionError(s, r, PROTOCOL_ERROR)
  {
  }

  // ---------------------------------------------------------------------------
  // WINDOW_UPDATE (section 6.9 of RFC 7540).

  lemma WindowUpdateRefused(s: SessionState, h: FrameHeader, handler: StreamHandlerFn)
    requires |s.input| >= Need(h) && Admitted(s, h) && h.ftype == WINDOW_UPDATE && h.streamId == 0
    requires h.length != 4 || ReadBE32(s.input[..4]) == 0
    ensures var r := HandleFrame(s, h, handler);
            if h.length != 4 then IsConnectionError(s, r, FRAME_SIZE_ERROR)
            else IsConnectionError(s.(input := s.input[4..]), r, PROTOCOL_ERROR)
  {
  }

  /**
   * A nonzero increment on stream 0 grows the peer's INITIAL_WINDOW_SIZE by
   * exactly the increment while the sum stays a legal window; a sum above
   * the legal range that still fits 32 bits is a FLOW_CONTROL_ERROR.
   */
  lemma WindowUpdateGrowsWindow(s: SessionState, h: FrameHeader, handler: StreamHandlerFn)
    requires |s.input| >= Need(h) && Admitted(s, h) && h.ftype == WINDOW_UPDATE && h.streamId == 0
    requires h.length == 4 && ReadBE32(s.input[..4]) != 0
    requires s.outSettings.initialWindowSize + ReadBE32(s.input[..4]) < 0x1_0000_0000
    ensures var r := HandleFrame(s, h, handler);
            var grown := s.outSettings.initialWindowSize + ReadBE32(s.input[..4]);
            var read := s.(input := s.input[4..]);
            if grown <= MAX_WINDOW_SIZE then
              r == Step(Repeat, read.(outSettings := s.outSettings.(initialWindowSize := grown)))
            else IsConnectionError(read, r, FLOW_CONTROL_ERROR)
  {
  }

  /** On a stream, WINDOW_UPDATE goes to that stream's handler without becoming the last opened stream. */
  lemma WindowUpdateDelegated(s: SessionState, h: FrameHeader, handler: StreamHandlerFn)
    requires |s.input| >= Need(h) && Admitted(s, h) && h.ftype == WINDOW_UPDATE && h.streamId != 0
    ensures var r := HandleFrame(s, h, handler);
            var found := FindOrCreateStream(s, h.streamId);
            if found.None? then IsConnectionError(s, r, PROTOCOL_ERROR)
            else r == DelegateToHandler(found.value, h, handler) && found.value.lastStream == s.lastStream
  {
  }

  // ---------------------------------------------------------------------------
  // Stream frames and the stream map.

  /** Stream frames on stream 0 are a connection PROTOCOL_ERROR; on a stream they open it and make it the last stream. */
  lemma StreamFrameDelegated(s: SessionState, h: FrameHeader, handler: StreamHandlerFn)
    requires |s.input| >= Need(h) && Admitted(s, h) && IsStreamFrameType(h.ftype)
    ensures var r := HandleFrame(s, h, handler);
            var found := FindOrCreateStream(s, h.streamId);
            if h.streamId == 0 || found.None? then IsConnectionError(s, r, PROTOCOL_ERROR)
            else r == DelegateToHandler(found.value.(lastStream := Some(h.streamId)), h, handler)
  {
    assert HandleFrame(s, h, handler) == HandleStreamFrame(s, h, handler);
  }

  /** Frames of unknown type are skipped. */
  lemma UnknownFrameSkipped(s: SessionState, h: FrameHeader, handler: StreamHandlerFn)
    requires |s.input| >= Need(h) && Admitted(s, h)
    requires !IsDelegatedType(h.ftype) && h.ftype !in {PING, SETTINGS, GOAWAY}
    ensures HandleFrame(s, h, handler) == Step(NextRequest, s.(input := s.input[h.length..]))
  {
  }

  /**
   * `findOrCreateStream`: a known id leaves the map as it is; an unknown id
   * below the highest non-idle id is refused; any other unknown id adds
   * exactly one entry, a new stream in INIT.
   */
  lemma FindOrCreateStreamCases(s: SessionState, id: StreamId)
    ensures var r := FindOrCreateStream(s, id);
            && (id in s.streams ==> r == Some(s))
            && (id !in s.streams && id < s.highestNonIdleStreamId ==> r.None?)
            && (id !in s.streams && id >= s.highestNonIdleStreamId ==>
                  && r.Some?
                  && r.value.streams.Keys == s.streams.Keys + {id}
                  && |r.value.streams| == |s.streams| + 1
                  && r.value.streams[id].state == Init
                  && (forall k :: k in s.streams ==> r.value.streams[k] == s.streams[k])
                  && r.value == s.(streams := r.value.streams))
  {
    var r := FindOrCreateStream(s, id);
    if id !in s.streams && id >= s.highestNonIdleStreamId {
      assert |r.value.streams.Keys| == |s.streams.Keys + {id}|;
    }
  }

  // ---------------------------------------------------------------------------
  // `delegateToHandler`: state checks before the handler runs.

  /** DATA outside PAYLOAD: STREAM_CLOSED once the stream is processing or beyond, PROTOCOL_ERROR before. */
  lemma DataOutsidePayload(s: SessionState, h: FrameHeader, handler: StreamHandlerFn)
    requires h.streamId in s.streams && |s.input| >= h.length && h.ftype == DATA
    requires s.streams[h.streamId].state != StreamState.Payload
    ensures IsConnectionError(s, DelegateToHandler(s, h, handler),
              if s.streams[h.streamId].state.Ordinal() >= Processing.Ordinal() then STREAM_CLOSED else PROTOCOL_ERROR)
  {
  }

  /** HEADERS on a stream that is processing or beyond: a connection STREAM_CLOSED. */
  lemma HeadersOnClosedStream(s: SessionState, h: FrameHeader, handler: StreamHandlerFn)
    requires h.streamId in s.streams && |s.input| >= h.length && h.ftype == HEADERS
    requires s.streams[h.streamId].state.Ordinal() >= Processing.Ordinal()
    ensures IsConnectionError(s, DelegateToHandler(s, h, handler), STREAM_CLOSED)
  {
  }

  /** PRIORITY inside a header block, RST_STREAM or WINDOW_UPDATE on an idle stream, CONTINUATION outside a header block. */
  lemma OutOfStateFrames(s: SessionState, h: FrameHeader, handler: StreamHandlerFn)
    requires h.streamId in s.streams && |s.input| >= h.length
    requires var st := s.streams[h.streamId].state;
             || (h.ftype == PRIORITY && st in {Headers, Continuation})
             || (h.ftype in {RST_STREAM, WINDOW_UPDATE} && st == Init)
             || (h.ftype == CONTINUATION && st !in {Headers, Continuation})
    ensures IsConnectionError(s, DelegateToHandler(s, h, handler), PROTOCOL_ERROR)
  {
  }

  /** A legal RST_STREAM that its handler accepts is answered with RST_STREAM(CANCEL) on that stream. */
  lemma ResetStreamAnswered(s: SessionState, h: FrameHeader, handler: StreamHandlerFn)
    requires h.streamId in s.streams && |s.input| >= h.length && h.ftype == RST_STREAM
    requires s.streams[h.streamId].state != Init
    requires HandlerOutcome(s, h, handler).Handled?
    ensures var r := DelegateToHandler(s, h, handler);
            && r.action == NextRequest
            && r.next.input == s.input[h.length..]
            && r.next.output == s.output + [OutFrame(RST_STREAM, 0, h.streamId, BE32(CANCEL))]
  {
  }

  /**
   * Whatever a stream handler throws is classified: a connection-scope
   * error sends GOAWAY naming the last opened stream (0 if none) and ends
   * the session; a stream-scope error resets the frame's stream and goes on.
   * Either way the payload has been read.
   */
  lemma HandlerErrorClassified(s: SessionState, h: FrameHeader, handler: StreamHandlerFn)
    requires h.streamId in s.streams && |s.input| >= h.length
    requires HandlerOutcome(s, h, handler).Raised?
    ensures var e := HandlerOutcome(s, h, handler).error;
            var r := RunHandler(s, h, handler);
            var rest := s.(input := s.input[h.length..]);
            if e.scope == ConnectionScope then IsConnectionError(rest, r, e.code)
            else r == Step(NextRequest, rest.(output := s.output + [OutFrame(RST_STREAM, 0, h.streamId, BE32(e.code))]))
  {
  }

  /** A handler that returns has its new state and window stored for that stream only. */
  lemma HandlerResultStored(s: SessionState, h: FrameHeader, handler: StreamHandlerFn)
    requires h.streamId in s.streams && |s.input| >= h.length
    requires HandlerOutcome(s, h, handler).Handled?
    ensures var o := HandlerOutcome(s, h, handler);
            var r := RunHandler(s, h, handler);
            && r.action == NextRequest
            && r.next.streams.Keys == s.streams.Keys
            && r.next.streams[h.streamId].state == o.state
            && r.next.streams[h.streamId].window == o.window
            && (forall k :: k in s.streams && k != h.streamId ==> r.next.streams[k] == s.streams[k])
  {
  }

  // ---------------------------------------------------------------------------
  // Invariants of the whole step.

  /**
   * The output is only ever appended to, by at most one frame, and the
   * input is only ever consumed from the front.
   */
  predicate Advances(s: SessionState, r: Step)
  {
    && s.output <= r.next.output && |r.next.output| <= |s.output| + 1
    && |r.next.input| <= |s.input| && r.next.input == s.input[|s.input| - |r.next.input|..]
  }

  lemma HandleFrameAdvances(s: SessionState, h: FrameHeader, handler: StreamHandlerFn)
    requires |s.input| >= Need(h)
    ensures Advances(s, HandleFrame(s, h, handler))
  {
    if (h.streamId != 0 && h.streamId % 2 == 0) || BreaksHeaderBlock(s, h.streamId) {
      ConnectionErrorAdvances(s, PROTOCOL_ERROR);
    } else if h.ftype == PING {
      PingAdvances(s, h);
    } else if h.ftype == SETTINGS {
      SettingsAdvance(s, h);
    } else if h.ftype == GOAWAY {
      GoawayAdvances(s, h);
    } else if h.ftype == WINDOW_UPDATE {
      WindowUpdateAdvances(s, h, handler);
    } else if IsStreamFrameType(h.ftype) {
      StreamFrameAdvances(s, h, handler);
    } else {
      assert |s.input| - |s.input[h.length..]| == h.length;
    }
  }

  lemma ConnectionErrorAdvances(s: SessionState, code: U32)
    ensures Advances(s, ConnectionError(s, code))
  {
    assert s.input[0..] == s.input;
  }

  lemma PingAdvances(s: SessionState, h: FrameHeader)
    requires |s.input| >= Need(h)
    ensures Advances(s, HandlePing(s, h))
  {
    if h.streamId != 0 {
      ConnectionErrorAdvances(s, PROTOCOL_ERROR);
    } else if h.length != 8 {
      ConnectionErrorAdvances(s, FRAME_SIZE_ERROR);
    } else if h.flags % 2 == 0 {
      assert |s.input| - |s.input[8..]| == 8;
    } else {
      assert s.input[0..] == s.input;
    }
  }

  lemma GoawayAdvances(s: SessionState, h: FrameHeader)
    requires h.ftype == GOAWAY && |s.input| >= Need(h)
    ensures Advances(s, HandleGoaway(s, h))
  {
    if h.streamId == 0 {
      assert |s.input| - |s.input[Need(h)..]| == Need(h);
    } else {
      ConnectionErrorAdvances(s, PROTOCOL_ERROR);
    }
  }

  lemma WindowUpdateAdvances(s: SessionState, h: FrameHeader, handler: StreamHandlerFn)
    requires |s.input| >= Need(h)
    ensures Advances(s, HandleWindowUpdate(s, h, handler))
  {
    if h.streamId == 0 {
      if h.length != 4 {
        ConnectionErrorAdvances(s, FRAME_SIZE_ERROR);
      } else {
        var read := Drop(s, 4);
        assert |s.input| - |read.input| == 4;
        var increment := ReadBE32(s.input[..4]);
        if increment == 0 {
          ConnectionErrorAdvances(read, PROTOCOL_ERROR);
        } else {
          var r := SetKnown(read.outSettings, InitialWindowSize, AddU32(read.outSettings.initialWindowSize, increment));
          if r.Rejected? {
            ConnectionErrorAdvances(read, r.code);
          }
        }
      }
    } else {
      var found := FindOrCreateStream(s, h.streamId);
      if found.Some? {
        DelegateAdvances(found.value, h, handler);
      } else {
        ConnectionErrorAdvances(s, PROTOCOL_ERROR);
      }
    }
  }

  lemma StreamFrameAdvances(s: SessionState, h: FrameHeader, handler: StreamHandlerFn)
    requires |s.input| >= Need(h)
    ensures Advances(s, HandleStreamFrame(s, h, handler))
  {
    var found := FindOrCreateStream(s, h.streamId);
    if h.streamId != 0 && found.Some? {
      DelegateAdvances(found.value.(lastStream := Some(h.streamId)), h, handler);
    } else {
      ConnectionErrorAdvances(s, PROTOCOL_ERROR);
    }
  }

  lemma SettingsAdvance(s: SessionState, h: FrameHeader)
    requires |s.input| >= Need(h)
    ensures Advances(s, HandleSettings(s, h))
  {
    if h.streamId != 0 {
      ConnectionErrorAdvances(s, PROTOCOL_ERROR);
    } else if h.flags == 0 {
      if h.length % 6 != 0 {
        ConnectionErrorAdvances(s, FRAME_SIZE_ERROR);
      } else {
        var a := ApplyPairs(s.outSettings, s.input[..h.length]);
        var applied := s.(input := s.input[a.read..], outSettings := a.settings);
        assert |s.input| - |applied.input| == a.read;
        if a.error.Some? {
          ConnectionErrorAdvances(applied, a.error.value);
        } else {
          AfterSettingsKeepsInputOutput(s.outSettings, applied);
        }
      }
    } else if h.flags == SETTINGS_ACK && h.length > 0 {
      ConnectionErrorAdvances(s, FRAME_SIZE_ERROR);
    } else {
      assert s.input[0..] == s.input;
    }
  }

  lemma AfterSettingsKeepsInputOutput(before: Settings, s: SessionState)
    ensures var a := AfterSettings(before, s);
            a.input == s.input && a.output == s.output && a.lastStream == s.lastStream
  {
  }

  lemma DelegateAdvances(s: SessionState, h: FrameHeader, handler: StreamHandlerFn)
    requires h.streamId in s.streams && |s.input| >= h.length
    ensures Advances(s, DelegateToHandler(s, h, handler))
  {
    var error := StateError(h.ftype, s.streams[h.streamId].state);
    if error.Some? {
      ConnectionErrorAdvances(s, error.value);
    } else {
      var checked :=
        if h.ftype == HEADERS then
          s.(highestNonIdleStreamId := HighestAfterHeaders(s.streams[h.streamId], s.highestNonIdleStreamId))
        else s;
      RunHandlerAdvances(checked, h, handler);
    }
  }

  lemma RunHandlerAdvances(s: SessionState, h: FrameHeader, handler: StreamHandlerFn)
    requires h.streamId in s.streams && |s.input| >= h.length
    ensures var r := RunHandler(s, h, handler);
            && Advances(s, r)
            && r.next.input == s.input[h.length..]
            && (HandlerOutcome(s, h, handler).Handled? ==> r.next.output == s.output)
  {
    assert |s.input| - |s.input[h.length..]| == h.length;
  }

  /** Every step keeps the session well formed. */
  lemma HandleFramePreservesWellformed(s: SessionState, h: FrameHeader, handler: StreamHandlerFn)
    requires |s.input| >= Need(h) && Wellformed(s)
    ensures Wellformed(HandleFrame(s, h, handler).next)
  {
    if (h.streamId != 0 && h.streamId % 2 == 0) || BreaksHeaderBlock(s, h.streamId) {
      assert HandleFrame(s, h, handler).next.streams == s.streams;
    } else if h.ftype == PING {
      assert HandlePing(s, h).next.streams == s.streams;
    } else if h.ftype == SETTINGS {
      SettingsPreserveWellformed(s, h);
    } else if h.ftype == GOAWAY {
      assert HandleGoaway(s, h).next.streams == s.streams;
    } else if h.ftype == WINDOW_UPDATE {
      WindowUpdatePreservesWellformed(s, h, handler);
    } else if IsStreamFrameType(h.ftype) {
      var found := FindOrCreateStream(s, h.streamId);
      if h.streamId != 0 && found.Some? {
        assert Wellformed(found.value);
        DelegatePreservesWellformed(found.value.(lastStream := Some(h.streamId)), h, handler);
      }
    }
  }

  lemma WindowUpdatePreservesWellformed(s: SessionState, h: FrameHeader, handler: StreamHandlerFn)
    requires |s.input| >= Need(h) && Wellformed(s) && (h.streamId == 0 || h.streamId % 2 == 1)
    ensures Wellformed(HandleWindowUpdate(s, h, handler).next)
  {
    if h.streamId == 0 {
      if h.length == 4 {
        var read := Drop(s, 4);
        var increment := ReadBE32(s.input[..4]);
        var r := SetKnown(read.outSettings, InitialWindowSize, AddU32(read.outSettings.initialWindowSize, increment));
        assert Wellformed(read);
      }
    } else {
      var found := FindOrCreateStream(s, h.streamId);
      if found.Some? {
        assert Wellformed(found.value);
        DelegatePreservesWellformed(found.value, h, handler);
      }
    }
  }

  lemma SettingsPreserveWellformed(s: SessionState, h: FrameHeader)
    requires |s.input| >= Need(h) && Wellformed(s)
    ensures Wellformed(HandleSettings(s, h).next)
  {
    if h.streamId == 0 && h.flags == 0 && h.length % 6 == 0 {
      var a := ApplyPairs(s.outSettings, s.input[..h.length]);
      var applied := s.(input := s.input[a.read..], outSettings := a.settings);
      assert Wellformed(applied);
      if a.error.None? {
        var after := AfterSettings(s.outSettings, applied);
        assert after.streams.Keys == s.streams.Keys;
      }
    }
  }

  lemma DelegatePreservesWellformed(s: SessionState, h: FrameHeader, handler: StreamHandlerFn)
    requires h.streamId in s.streams && |s.input| >= h.length && Wellformed(s)
    ensures Wellformed(DelegateToHandler(s, h, handler).next)
  {
    DelegateKeepsStreamIds(s, h, handler);
  }

  /** Delegation never files a stream under a new id. */
  lemma DelegateKeepsStreamIds(s: SessionState, h: FrameHeader, handler: StreamHandlerFn)
    requires h.streamId in s.streams && |s.input| >= h.length
    ensures DelegateToHandler(s, h, handler).next.streams.Keys <= s.streams.Keys
  {
  }

}
