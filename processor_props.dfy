/**
 * What the blocking processor's functions promise: the frames it builds,
 * the SETTINGS loop against the asynchronous session's reader, and the
 * outcome of one `processNextRequest` for each kind of frame.
 */
module ProcessorProperties {
  import opened Wire
  import opened Wrappers
  import opened Http2Settings
  import opened SettingsFrame
  import opened Streams
  import opened ProcessorSpec

  // ---------------------------------------------------------------------------
  // Frames

  /**
   * The SETTINGS frame is a header whose length field is the payload size,
   * type SETTINGS, no flags, stream 0, followed by whole 6-byte entries, at
   * most 36 bytes of them.
   */
  lemma SettingsFrameShape(s: Settings, defaults: Settings)
    ensures var f := SettingsFrameAsWritten(s, defaults);
            && HEADER_SIZE <= |f| <= HEADER_SIZE + 36
            && (|f| - HEADER_SIZE) % 6 == 0
            && DecodeHeader(f[..HEADER_SIZE]) == FrameHeader(|f| - HEADER_SIZE, 0, SETTINGS, 0)
            && (f[HEADER_SIZE..] == [] <==> s == defaults)
  {
    var p := SettingsPayloadAsWritten(s, defaults);
    var f := SettingsFrameAsWritten(s, defaults);
    assert f[..HEADER_SIZE] == EncodeHeader(FrameHeader(|p|, 0, SETTINGS, 0));
    assert f[HEADER_SIZE..] == p;
    PayloadSize(s, defaults);
  }

  /** The ACK and the PING answer decode to the headers the source constructs. */
  lemma ControlFramesShape(data: seq<Byte>)
    requires |data| == 8
    ensures |ACK_FRAME| == HEADER_SIZE
    ensures DecodeHeader(ACK_FRAME) == FrameHeader(0, SETTINGS_ACK, SETTINGS, 0)
    ensures var f := PingAnswer(data);
            && |f| == HEADER_SIZE + 8
            && DecodeHeader(f[..HEADER_SIZE]) == FrameHeader(8, PING_ACK, PING, 0)
            && f[HEADER_SIZE..] == data
  {
    var f := PingAnswer(data);
    assert f[..HEADER_SIZE] == EncodeHeader(FrameHeader(8, PING_ACK, PING, 0));
  }

  /**
   * The processor's payload is the session's whenever the MAX_FRAME_SIZE
   * entry is left out or happens to hold the header table size.
   */
  lemma {:induction false} AsWrittenAgrees(s: Settings, defaults: Settings, n: nat)
    requires n <= |ORDER|
    requires s.maxFrameSize == defaults.maxFrameSize || s.maxFrameSize == s.headerTableSize
    ensures EntriesAsWritten(s, defaults, n) == Entries(s, defaults, n)
  {
    if n > 0 {
      AsWrittenAgrees(s, defaults, n - 1);
      if n - 1 == Position(MaxFrameSize) && Differs(s, defaults, n - 1) {
        assert AdvertisedValue(s, ORDER[n - 1]) == Get(s, ORDER[n - 1]);
      }
    }
  }

  // ---------------------------------------------------------------------------
  // The SETTINGS loop

  /**
   * Where the session's reader finishes without error, the processor's loop,
   * which skips refused values instead of stopping, stores the same table.
   */
  lemma {:induction false} ApplyAllAgrees(s: Settings, p: seq<Byte>)
    requires |p| % 6 == 0 && ApplyPairs(s, p).error.None?
    ensures ApplyAll(s, p) == ApplyPairs(s, p).settings
    decreases |p|
  {
    if |p| > 0 {
      ApplyPairsStep(s, p);
      var step := SetSetting(s, ReadBE16(p[..2]), ReadBE32(p[2..6]));
      ApplyAllAgrees(if step.Updated? then step.settings else s, p[6..]);
    }
  }

  /** A refused value is skipped and the pairs after it are still applied. */
  lemma ApplyAllSkipsRefused(s: Settings, id: Identifier, v: U32, rest: seq<Byte>)
    requires RangeError(id, v).Some? && |rest| % 6 == 0
    ensures ApplyAll(s, Entry(id, v) + rest) == ApplyAll(s, rest)
  {
    ApplyAllFront(s, id, v, rest);
  }

  /** The front pair is stored when its value is legal and skipped otherwise; the rest follows. */
  lemma ApplyAllFront(s: Settings, id: Identifier, v: U32, rest: seq<Byte>)
    requires |rest| % 6 == 0
    ensures ApplyAll(s, Entry(id, v) + rest) == ApplyAll(if RangeError(id, v).None? then Put(s, id, v) else s, rest)
  {
    var p := Entry(id, v) + rest;
    assert p[..2] == BE16(Code(id)) && p[2..6] == BE32(v) && p[6..] == rest;
    assert FromCode(Code(id)) == Some(id) by {
      match id
      case HeaderTableSize =>
      case EnablePush =>
      case MaxConcurrentStreams =>
      case InitialWindowSize =>
      case MaxFrameSize =>
      case MaxHeaderListSize =>
    }
  }

  /**
   * Pairs for two different settings may arrive in either order: since a
   * refused value is skipped rather than fatal, the processor stores the
   * same table whatever the values.
   */
  lemma ApplyAllSwap(s: Settings, a: Identifier, x: U32, b: Identifier, y: U32)
    requires a != b
    ensures ApplyAll(s, Entry(a, x) + Entry(b, y)) == ApplyAll(s, Entry(b, y) + Entry(a, x))
  {
    var sa := if RangeError(a, x).None? then Put(s, a, x) else s;
    var sb := if RangeError(b, y).None? then Put(s, b, y) else s;
    ApplyAllFront(s, a, x, Entry(b, y));
    ApplyAllFront(s, b, y, Entry(a, x));
    assert Entry(b, y) + [] == Entry(b, y) && Entry(a, x) + [] == Entry(a, x);
    ApplyAllFront(sa, b, y, []);
    ApplyAllFront(sb, a, x, []);
    if RangeError(a, x).None? && RangeError(b, y).None? {
      PutCommutes(s, a, x, b, y);
    }
  }

  /** A legal table advertised with the session's encoder is what the processor's loop stores. */
  lemma ApplyAllRoundTrip(s: Settings, defaults: Settings)
    requires Valid(s)
    ensures ApplyAll(defaults, SettingsPayload(s, defaults)) == s
  {
    SettingsRoundTrip(s, defaults);
    PayloadSize(s, defaults);
    ApplyAllAgrees(defaults, SettingsPayload(s, defaults));
  }

  // ---------------------------------------------------------------------------
  // Streams

  /** A known id leaves the map as it is; an unknown one, whatever its value, adds exactly one new stream. */
  lemma FindOrCreateCases(streams: map<StreamId, ProcStream>, id: StreamId)
    ensures var r := FindOrCreate(streams, id);
            && id in r
            && (id in streams ==> r == streams)
            && (id !in streams ==>
                  && r.Keys == streams.Keys + {id}
                  && |r.Keys| == |streams.Keys| + 1
                  && r[id] == ProcStream(id, Init)
                  && forall k :: k in streams ==> r[k] == streams[k])
  {
  }

  /** `delegateToHandler` throws exactly for the three refused cases, after consuming the payload. */
  lemma DelegateThrows(st: ProcState, h: FrameHeader, handler: ProcHandlerFn)
    requires h.streamId in st.streams && h.length <= |st.input|
    ensures var stream := st.streams[h.streamId];
            var d := Delegate(st, h, handler);
            && (d.completion == Threw <==>
                  || (h.ftype == DATA && (stream.state == Init || stream.state == Goaway))
                  || (h.ftype == HEADERS && stream.state != Init)
                  || (h.ftype == CONTINUATION && stream.state != Headers))
            && (d.completion == Threw ==> d.next == st.(input := st.input[h.length..]))
  {
    var stream := st.streams[h.streamId];
    if h.ftype == DATA {
      assert Refused(h.ftype, stream.state) <==> stream.state == Init || stream.state == Goaway by {
        match stream.state
        case Init =>
        case Headers =>
        case Continuation =>
        case Payload =>
        case Processing =>
        case Ready =>
        case Goaway =>
      }
    }
  }

  /** An unknown frame type is answered with CLOSING; nothing is read or changed. */
  lemma DelegateUnknownType(st: ProcState, h: FrameHeader, handler: ProcHandlerFn)
    requires h.streamId in st.streams && h.length <= |st.input| && !IsDelegatedType(h.ftype)
    ensures Delegate(st, h, handler) == Outcome(Returned(Closing), st)
  {
  }

  // ---------------------------------------------------------------------------
  // processNextRequest

  /** The stream a frame is delegated to: the known one, or a new stream in its initial state. */
  function StreamBefore(streams: map<StreamId, ProcStream>, id: StreamId): ProcStream
  {
    if id in streams then streams[id] else ProcStream(id, Init)
  }

  /** DEAD is reported exactly when no frame header can be read. */
  lemma DeadOnlyWithoutHeader(st: ProcState, handler: ProcHandlerFn)
    requires Readable(st)
    ensures Process(st, handler).completion == Returned(Dead) <==> |st.input| < HEADER_SIZE
    ensures |st.input| < HEADER_SIZE ==> Process(st, handler).next == st
  {
    if |st.input| >= HEADER_SIZE {
      ReadHeaderOutcome(st, handler);
    }
  }

  /**
   * A connection whose last bytes are a lone SETTINGS ACK, or one PING
   * without flags, is served to its end: that frame is handled with ALIVE,
   * and the next call finds no header and reports DEAD.
   */
  lemma LastFrameThenClose(st: ProcState, handler: ProcHandlerFn, data: seq<Byte>)
    requires |data| == 8
    requires st.input == ACK_FRAME || st.input == EncodeHeader(FrameHeader(8, 0, PING, 0)) + data
    ensures Readable(st)
    ensures var o := Process(st, handler);
            && o.completion == Returned(Alive) && o.next.input == []
            && Readable(o.next) && Process(o.next, handler).completion == Returned(Dead)
  {
    ControlFramesShape(data);
    if st.input != ACK_FRAME {
      assert st.input[..HEADER_SIZE] == EncodeHeader(FrameHeader(8, 0, PING, 0));
    }
  }

  /**
   * Once a header is read the result is ALIVE, unless a stream frame is
   * refused by `delegateToHandler`, which throws.
   */
  lemma ReadHeaderOutcome(st: ProcState, handler: ProcHandlerFn)
    requires Readable(st) && |st.input| >= HEADER_SIZE
    ensures var h := DecodeHeader(st.input[..HEADER_SIZE]);
            var c := Process(st, handler).completion;
            && (c == Returned(Alive) || c == Threw)
            && (c == Threw <==>
                  IsDelegatedType(h.ftype) && h.streamId != 0
                  && Refused(h.ftype, StreamBefore(st.streams, h.streamId).state))
  {
    var h := DecodeHeader(st.input[..HEADER_SIZE]);
    var body := Drop(st, HEADER_SIZE);
    if h.ftype != PING && h.ftype != SETTINGS && IsDelegatedType(h.ftype) && h.streamId != 0 {
      var found := body.(streams := FindOrCreate(body.streams, h.streamId));
      assert found.streams[h.streamId].state == StreamBefore(st.streams, h.streamId).state;
    }
  }

  /**
   * PING: a frame without flags has 8 bytes read and echoed with the ACK
   * flag, whatever its length; any other has only its header read, so its
   * payload is left in the input. Only the input and output change.
   */
  lemma PingHandled(st: ProcState, handler: ProcHandlerFn)
    requires Readable(st) && |st.input| >= HEADER_SIZE
    requires DecodeHeader(st.input[..HEADER_SIZE]).ftype == PING
    ensures var h := DecodeHeader(st.input[..HEADER_SIZE]);
            var o := Process(st, handler);
            && o.completion == Returned(Alive)
            && (h.flags == 0 ==>
                  o.next == st.(input := st.input[HEADER_SIZE + 8..],
                                output := st.output + PingAnswer(st.input[HEADER_SIZE..HEADER_SIZE + 8])))
            && (h.flags != 0 ==> o.next == st.(input := st.input[HEADER_SIZE..]))
  {
    var body := Drop(st, HEADER_SIZE);
    if DecodeHeader(st.input[..HEADER_SIZE]).flags == 0 {
      assert body.input[..8] == st.input[HEADER_SIZE..HEADER_SIZE + 8];
    }
  }

  /**
   * SETTINGS: a frame without flags, on whatever stream, has every pair read
   * and applied and is acknowledged; any other has only its header read, so
   * its payload is left in the input.
   */
  lemma SettingsHandled(st: ProcState, handler: ProcHandlerFn)
    requires Readable(st) && |st.input| >= HEADER_SIZE
    requires DecodeHeader(st.input[..HEADER_SIZE]).ftype == SETTINGS
    ensures var h := DecodeHeader(st.input[..HEADER_SIZE]);
            var n := RoundUp6(h.length);
            var o := Process(st, handler);
            && o.completion == Returned(Alive)
            && (h.flags == 0 ==>
                  o.next == st.(input := st.input[HEADER_SIZE + n..],
                                outSettings := ApplyAll(st.outSettings, st.input[HEADER_SIZE..HEADER_SIZE + n]),
                                output := st.output + ACK_FRAME))
            && (h.flags != 0 ==> o.next == st.(input := st.input[HEADER_SIZE..]))
  {
    var h := DecodeHeader(st.input[..HEADER_SIZE]);
    var n := RoundUp6(h.length);
    var body := Drop(st, HEADER_SIZE);
    if h.flags == 0 {
      assert body.input[..n] == st.input[HEADER_SIZE..HEADER_SIZE + n];
      assert body.input[n..] == st.input[HEADER_SIZE + n..];
    }
  }

  /**
   * A frame of an unknown type, or a stream frame (WINDOW_UPDATE included)
   * on stream 0, is ignored: only its header is read.
   */
  lemma OtherFramesIgnored(st: ProcState, handler: ProcHandlerFn)
    requires Readable(st) && |st.input| >= HEADER_SIZE
    requires var h := DecodeHeader(st.input[..HEADER_SIZE]);
             h.ftype != PING && h.ftype != SETTINGS && (!IsDelegatedType(h.ftype) || h.streamId == 0)
    ensures Process(st, handler) == Outcome(Returned(Alive), st.(input := st.input[HEADER_SIZE..]))
  {
  }

  /**
   * A stream frame on a nonzero stream that is not refused is read by the
   * handler, and the stream is kept, with the state the handler left it in,
   * exactly when the handler reports ALIVE; no other stream is touched.
   */
  lemma StreamFrameHandled(st: ProcState, handler: ProcHandlerFn)
    requires Readable(st) && |st.input| >= HEADER_SIZE
    requires var h := DecodeHeader(st.input[..HEADER_SIZE]);
             IsDelegatedType(h.ftype) && h.streamId != 0
             && !Refused(h.ftype, StreamBefore(st.streams, h.streamId).state)
    ensures var h := DecodeHeader(st.input[..HEADER_SIZE]);
            var id := h.streamId;
            var payload := st.input[HEADER_SIZE..HEADER_SIZE + h.length];
            var r := handler(StreamBefore(st.streams, id), h, payload);
            var o := Process(st, handler);
            && o.completion == Returned(Alive)
            && o.next.input == st.input[HEADER_SIZE + h.length..]
            && o.next.output == st.output && o.next.outSettings == st.outSettings
            && (id in o.next.streams <==> r.connection == Alive)
            && (id in o.next.streams ==> o.next.streams[id].state == r.state)
            && o.next.streams.Keys - {id} == st.streams.Keys - {id}
            && (forall k :: k in o.next.streams && k != id ==> o.next.streams[k] == st.streams[k])
  {
    var h := DecodeHeader(st.input[..HEADER_SIZE]);
    var id := h.streamId;
    var body := Drop(st, HEADER_SIZE);
    var found := body.(streams := FindOrCreate(body.streams, id));
    assert found.streams[id] == StreamBefore(st.streams, id);
    assert body.input[..h.length] == st.input[HEADER_SIZE..HEADER_SIZE + h.length];
    assert h.ftype != PING && h.ftype != SETTINGS;
  }

  /** Streams stay filed under their own ids. */
  ghost predicate Wellformed(st: ProcState)
  {
    forall id :: id in st.streams ==> st.streams[id].id == id
  }

  lemma ProcessPreservesWellformed(st: ProcState, handler: ProcHandlerFn)
    requires Readable(st) && Wellformed(st)
    ensures Wellformed(Process(st, handler).next)
  {
    if |st.input| >= HEADER_SIZE {
      var h := DecodeHeader(st.input[..HEADER_SIZE]);
      if h.ftype != PING && h.ftype != SETTINGS && IsDelegatedType(h.ftype) && h.streamId != 0 {
        var body := Drop(st, HEADER_SIZE);
        var found := body.(streams := FindOrCreate(body.streams, h.streamId));
        assert Wellformed(found);
      }
    }
  }

  /**
   * Every call that reads a header consumes at least that header and only
   * appends to the output: the loop of `Task::run`, which calls again while
   * ALIVE is reported, runs out of input.
   */
  lemma ProcessAdvances(st: ProcState, handler: ProcHandlerFn)
    requires Readable(st) && |st.input| >= HEADER_SIZE
    ensures var next := Process(st, handler).next;
            && |next.input| <= |st.input| - HEADER_SIZE
            && next.input == st.input[|st.input| - |next.input|..]
            && st.output <= next.output
  {
    var h := DecodeHeader(st.input[..HEADER_SIZE]);
    var n := |Process(st, handler).next.input|;
    if h.ftype == PING {
      PingHandled(st, handler);
    } else if h.ftype == SETTINGS {
      SettingsHandled(st, handler);
    } else if IsDelegatedType(h.ftype) && h.streamId != 0 {
      ReadHeaderOutcome(st, handler);
      var body := Drop(st, HEADER_SIZE);
      var found := body.(streams := FindOrCreate(body.streams, h.streamId));
      assert Process(st, handler).next.input == st.input[HEADER_SIZE + h.length..];
    }
  }

}
