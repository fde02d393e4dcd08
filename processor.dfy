/**
 * The blocking processor's resources as an object updated in place
 * (`Http2Processor::ProcessingResources`), with one method per member of the
 * source, each proved to take the step `ProcessorSpec` describes.
 */
module BlockingProcessor {
  import opened Wire
  import opened Http2Settings
  import opened SettingsFrame
  import opened Streams
  import opened ProcessorSpec
  import ProcessorProperties
  import SessionHandler

  /** Chunk size of `consumeStream`. */
  const CHUNK: nat := 1024

  function Sum(xs: seq<nat>): nat
  {
    if xs == [] then 0 else Sum(xs[..|xs| - 1]) + xs[|xs| - 1]
  }

  /**
   * One `if` block of `sendSettingsFrame`: when the i-th setting of ORDER
   * differs from the defaults, its identifier and `value` are written at
   * `pos`, big-endian, and the position moves past them.
   */
  method PutEntry(buf: array<Byte>, pos: nat, s: Settings, defaults: Settings, i: nat, value: U32)
      returns (next: nat)
    requires i < |ORDER| && HEADER_SIZE <= pos <= buf.Length && buf.Length == HEADER_SIZE + 6 * 6
    requires buf[HEADER_SIZE..pos] == EntriesAsWritten(s, defaults, i)
    requires value == AdvertisedValue(s, ORDER[i])
    modifies buf
    ensures buf[..HEADER_SIZE] == old(buf[..HEADER_SIZE])
    ensures next == pos + (if Differs(s, defaults, i) then 6 else 0)
    ensures HEADER_SIZE <= next <= buf.Length
    ensures buf[HEADER_SIZE..next] == EntriesAsWritten(s, defaults, i + 1)
  {
    next := pos;
    if Get(s, ORDER[i]) != Get(defaults, ORDER[i]) {
      ghost var before := buf[..pos];
      ghost var entry := Entry(ORDER[i], value);
      SessionHandler.WriteEntry(buf, pos, ORDER[i], value);
      assert buf[..pos + 6] == before + entry by {
        assert buf[..pos + 6] == buf[..pos] + buf[pos..pos + 6];
      }
      assert EntriesAsWritten(s, defaults, i + 1) == EntriesAsWritten(s, defaults, i) + entry;
      assert buf[HEADER_SIZE..pos + 6] == before[HEADER_SIZE..] + entry;
      next := pos + 6;
    }
  }

  /** The six `if` blocks of `sendSettingsFrame`, writing the entries behind the header. */
  method WriteEntries(buf: array<Byte>, s: Settings, defaults: Settings) returns (pos: nat)
    requires buf.Length == HEADER_SIZE + 6 * 6
    modifies buf
    ensures buf[..HEADER_SIZE] == old(buf[..HEADER_SIZE])
    ensures HEADER_SIZE <= pos <= buf.Length
    ensures buf[HEADER_SIZE..pos] == SettingsPayloadAsWritten(s, defaults)
  {
    pos := HEADER_SIZE;
    pos := PutEntry(buf, pos, s, defaults, 0, s.headerTableSize);
    pos := PutEntry(buf, pos, s, defaults, 1, s.enablePush);
    pos := PutEntry(buf, pos, s, defaults, 2, s.maxConcurrentStreams);
    pos := PutEntry(buf, pos, s, defaults, 3, s.initialWindowSize);
    // Http2Processor.cpp:156, as written: the MAX_FRAME_SIZE entry carries
    // the HEADER_TABLE_SIZE value.
    pos := PutEntry(buf, pos, s, defaults, 4, s.headerTableSize);
    pos := PutEntry(buf, pos, s, defaults, 5, s.maxHeaderListSize);
  }

  /**
   * The length patch of `sendSettingsFrame`: the payload size's three bytes,
   * high first (`(payload >> 16) & 0xff`, `(payload >> 8) & 0xff`,
   * `payload & 0xff`), written over the first three bytes of the buffer.
   */
  method PatchLength(buf: array<Byte>, payload: U24, end: nat)
    requires HEADER_SIZE <= end <= buf.Length
    modifies buf
    ensures buf[..3] == BE24(payload)
    ensures buf[3..HEADER_SIZE] == old(buf[3..HEADER_SIZE])
    ensures buf[HEADER_SIZE..end] == old(buf[HEADER_SIZE..end])
  {
    var low := payload % 0x1_0000;
    buf[0] := payload / 0x1_0000;
    buf[1] := low / 0x100;
    buf[2] := low % 0x100;
  }

  /** The header fields after the length: type SETTINGS, no flags, stream 0. */
  method WriteSettingsFields(buf: array<Byte>)
    requires buf.Length >= HEADER_SIZE
    modifies buf
    ensures buf[3..HEADER_SIZE] == [SETTINGS, 0] + BE32(0)
  {
    buf[3] := SETTINGS;
    buf[4] := 0;
    buf[5], buf[6], buf[7], buf[8] := 0, 0, 0, 0;
  }

  /**
   * The buffer `sendSettingsFrame` fills: the header's type, flags and stream
   * id are written first, then one entry per changed setting, then the
   * length is patched into the first three bytes.
   */
  method BuildSettingsFrame(s: Settings, defaults: Settings) returns (frame: seq<Byte>)
    ensures frame == SettingsFrameAsWritten(s, defaults)
  {
    var buf := new Byte[HEADER_SIZE + 6 * 6];
    WriteSettingsFields(buf);
    ghost var fields := buf[3..HEADER_SIZE];
    var pos := WriteEntries(buf, s, defaults);
    ghost var entries := buf[HEADER_SIZE..pos];
    assert buf[3..HEADER_SIZE] == fields;
    var payload := pos - HEADER_SIZE;
    PatchLength(buf, payload, pos);
    ghost var header := EncodeHeader(FrameHeader(payload, 0, SETTINGS, 0));
    assert buf[..HEADER_SIZE] == header by {
      assert buf[..HEADER_SIZE] == buf[..3] + buf[3..HEADER_SIZE];
    }
    frame := buf[..pos];
    assert frame == header + entries by {
      assert frame == buf[..HEADER_SIZE] + buf[HEADER_SIZE..pos];
    }
  }

  /**
   * The SETTINGS pair loop of `processNextRequest`: pairs are read while
   * fewer than `length` bytes were consumed; each is handed to `setSetting`,
   * and one it refuses is logged and skipped.
   */
  method ReadSettingsPairs(settings: Settings, input: seq<Byte>, length: nat)
      returns (updated: Settings, rest: seq<Byte>)
    requires RoundUp6(length) <= |input|
    ensures updated == ApplyAll(settings, input[..RoundUp6(length)])
    ensures rest == input[RoundUp6(length)..]
  {
    var pairs := (length + 5) / 6;
    var end := 6 * pairs;
    assert end == RoundUp6(length);
    updated := settings;
    var pending := input;
    var consumed, i := 0, 0;
    while consumed < length
      invariant consumed == 6 * i && i <= pairs
      invariant pending == input[consumed..]
      invariant ApplyAll(settings, input[..end]) == ApplyAll(updated, input[consumed..end])
      decreases length - consumed
    {
      var ident := ReadBE16(pending[..2]);
      var parameter := ReadBE32(pending[2..6]);
      ghost var p := input[consumed..end];
      assert consumed + 6 <= end;
      assert p[..6] == pending[..6];
      assert p[..2] == pending[..2] && p[2..6] == pending[2..6];
      assert p[6..] == input[consumed + 6..end];
      pending := pending[6..];
      var r := SetSetting(updated, ident, parameter);
      if r.Updated? {
        updated := r.settings;
      }
      consumed, i := consumed + 6, i + 1;
    }
    assert input[consumed..end] == [];
    rest := pending;
  }

  class Processor {
    /** The default-constructed table `sendSettingsFrame` compares against. */
    const defaults: Settings

    var input: seq<Byte>
    var output: seq<Byte>
    var inSettings: Settings
    var outSettings: Settings
    var streams: map<StreamId, ProcStream>

    function State(): ProcState
      reads this
    {
      ProcState(input, output, inSettings, outSettings, streams)
    }

    ghost predicate Wellformed()
      reads this
    {
      ProcessorProperties.Wellformed(State())
    }

    /** The resources over given settings and input, with nothing sent and no stream yet. */
    constructor(defaults: Settings, inSettings: Settings, outSettings: Settings, input: seq<Byte>)
      ensures this.defaults == defaults
      ensures State() == ProcState(input, [], inSettings, outSettings, map[])
      ensures Wellformed()
    {
      this.defaults := defaults;
      this.input := input;
      output := [];
      this.inSettings := inSettings;
      this.outSettings := outSettings;
      streams := map[];
    }

    /** `sendSettingsFrame`: the frame is built and sent; returns the bytes sent. */
    method SendSettingsFrame() returns (written: nat)
      modifies this
      ensures State() == old(State()).(output := old(output) + SettingsFrameAsWritten(inSettings, defaults))
      ensures written == |SettingsFrameAsWritten(inSettings, defaults)|
    {
      var frame := BuildSettingsFrame(inSettings, defaults);
      output := output + frame;
      written := |frame|;
    }

    /** `ackSettingsFrame`: an empty SETTINGS frame with the ACK flag; returns the bytes sent. */
    method AckSettingsFrame() returns (written: nat)
      modifies this
      ensures State() == old(State()).(output := old(output) + ACK_FRAME)
      ensures written == |ACK_FRAME|
    {
      var header := FrameHeader(0, SETTINGS_ACK, SETTINGS, 0);
      output := output + EncodeHeader(header);
      written := HEADER_SIZE;
    }

    /** `answerPingFrame`: 8 bytes are read and sent back behind a PING header with the ACK flag. */
    method AnswerPingFrame() returns (written: nat)
      requires |input| >= 8
      modifies this
      ensures State() == old(State()).(input := old(input)[8..], output := old(output) + PingAnswer(old(input)[..8]))
      ensures written == HEADER_SIZE + 8
    {
      var header := FrameHeader(8, PING_ACK, PING, 0);
      var data := input[..8];
      input := input[8..];
      output := output + EncodeHeader(header) + data;
      written := HEADER_SIZE + 8;
    }

    /**
     * `consumeStream`: reads and discards `length` bytes in chunks of at most
     * 1024, each no larger than what remains; `chunks` are their sizes.
     */
    method ConsumeStream(length: nat) returns (consumed: nat, ghost chunks: seq<nat>)
      requires length <= |input|
      modifies this
      ensures consumed == length && Sum(chunks) == length
      ensures forall i :: 0 <= i < |chunks| ==> 0 < chunks[i] <= CHUNK
      ensures State() == old(State()).(input := old(input)[length..])
    {
      consumed := 0;
      chunks := [];
      while consumed < length
        invariant consumed <= length && Sum(chunks) == consumed
        invariant forall i :: 0 <= i < |chunks| ==> 0 < chunks[i] <= CHUNK
        invariant State() == old(State()).(input := old(input)[consumed..])
        decreases length - consumed
      {
        var chunk := if CHUNK < length - consumed then CHUNK else length - consumed;
        input := input[chunk..];
        assert chunks + [chunk] != [] && (chunks + [chunk])[..|chunks|] == chunks;
        chunks := chunks + [chunk];
        consumed := consumed + chunk;
      }
    }

    /** `findOrCreateStream`. */
    method FindOrCreateStream(id: StreamId)
      modifies this
      ensures State() == old(State()).(streams := FindOrCreate(old(streams), id))
    {
      if id !in streams {
        streams := streams[id := ProcStream(id, Init)];
      }
    }

    /** A `handle*` call: the handler reads the payload and sets its stream's state. */
    method RunHandler(h: FrameHeader, handler: ProcHandlerFn) returns (c: Completion)
      requires h.streamId in streams && h.length <= |input|
      modifies this
      ensures var stream := old(streams)[h.streamId];
              var o := handler(stream, h, old(input)[..h.length]);
              && c == Returned(o.connection)
              && State() == old(State()).(input := old(input)[h.length..],
                                          streams := old(streams)[h.streamId := stream.(state := o.state)])
    {
      var stream := streams[h.streamId];
      var o := handler(stream, h, input[..h.length]);
      input := input[h.length..];
      streams := streams[h.streamId := stream.(state := o.state)];
      c := Returned(o.connection);
    }

    /** `delegateToHandler`. */
    method DelegateToHandler(h: FrameHeader, handler: ProcHandlerFn) returns (c: Completion)
      requires h.streamId in streams && h.length <= |input|
      modifies this
      ensures Outcome(c, State()) == Delegate(old(State()), h, handler)
    {
      var state := streams[h.streamId].state;
      if h.ftype == DATA {
        if state.Ordinal() <= Init.Ordinal() || state.Ordinal() >= Goaway.Ordinal() {
          var _, _ := ConsumeStream(h.length);
          return Threw;
        }
        c := RunHandler(h, handler);
      } else if h.ftype == HEADERS {
        if state != Init {
          var _, _ := ConsumeStream(h.length);
          return Threw;
        }
        c := RunHandler(h, handler);
      } else if h.ftype == CONTINUATION {
        if state != Headers {
          var _, _ := ConsumeStream(h.length);
          return Threw;
        }
        c := RunHandler(h, handler);
      } else if h.ftype == PRIORITY || h.ftype == RST_STREAM || h.ftype == PUSH_PROMISE
             || h.ftype == GOAWAY || h.ftype == WINDOW_UPDATE {
        // RST_STREAM on a stream in INIT is not refused: the check is a to-do in the source.
        c := RunHandler(h, handler);
      } else {
        c := Returned(Closing);
      }
    }

    /**
     * A stream frame with a nonzero id: the stream is found or created and
     * the frame delegated; a stream whose handler reports anything but ALIVE
     * is erased. A throw passes on.
     */
    method DelegateStreamFrame(h: FrameHeader, handler: ProcHandlerFn) returns (c: Completion)
      requires h.length <= |input|
      modifies this
      ensures Outcome(c, State()) == DelegateAndErase(old(State()), h, handler)
    {
      FindOrCreateStream(h.streamId);
      var state := DelegateToHandler(h, handler);
      if state.Threw? {
        return Threw;
      }
      if state.state != Alive {
        streams := streams - {h.streamId};
      }
      c := Returned(Alive);
    }

    /** `processNextRequest`. */
    method ProcessNextRequest(handler: ProcHandlerFn) returns (c: Completion)
      requires Readable(State())
      modifies this
      ensures Outcome(c, State()) == Process(old(State()), handler)
      ensures old(Wellformed()) ==> Wellformed()
    {
      if old(Wellformed()) {
        ProcessorProperties.ProcessPreservesWellformed(State(), handler);
      }
      if |input| < HEADER_SIZE {
        return Returned(Dead);
      }
      var h := DecodeHeader(input[..HEADER_SIZE]);
      input := input[HEADER_SIZE..];
      c := Returned(Alive);
      if h.ftype == PING {
        // A nonzero stream id and a length other than 8 are to-dos in the source.
        if h.flags == 0 {
          var _ := AnswerPingFrame();
        }
      } else if h.ftype == SETTINGS {
        // A nonzero stream id is a to-do in the source.
        if h.flags == 0 {
          var updated, rest := ReadSettingsPairs(outSettings, input, h.length);
          outSettings, input := updated, rest;
          var _ := AckSettingsFrame();
        }
      } else if h.ftype == WINDOW_UPDATE {
        if h.streamId != 0 {
          c := DelegateStreamFrame(h, handler);
        }
      } else if h.ftype == DATA || h.ftype == HEADERS || h.ftype == PRIORITY || h.ftype == RST_STREAM
             || h.ftype == PUSH_PROMISE || h.ftype == GOAWAY || h.ftype == CONTINUATION {
        // Stream 0 is a to-do in the source: the frame is ignored.
        if h.streamId != 0 {
          c := DelegateStreamFrame(h, handler);
        }
      }
    }
  }
}
