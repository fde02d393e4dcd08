/**
 * Lines of the two servers whose behaviour, as written, departs from what
 * the surrounding code and RFC 7540 evidently intend. For each: a lemma
 * exhibiting an input on which the as-written model misbehaves, and a
 * corrected definition with the intended property proved about it.
 */
module Findings {
  import opened Wire
  import opened Wrappers
  import opened Http2Settings
  import opened SettingsFrame
  import opened Streams
  import S = SessionSpec
  import P = ProcessorSpec
  import ProcessorProperties

  // ---------------------------------------------------------------------------
  // Http2Processor.cpp:156: the MAX_FRAME_SIZE entry carries HEADER_TABLE_SIZE.

  /** The peer's table used in the counterexamples: legal values, 16384 as MAX_FRAME_SIZE. */
  const SAMPLE_DEFAULTS: Settings := Settings(4096, 1, 100, 65535, 16384, 8192)

  /**
   * An endpoint that raised only its MAX_FRAME_SIZE to 32768 advertises the
   * value 4096 under that identifier; the session's reader refuses it with
   * PROTOCOL_ERROR (4096 is below the 16384 minimum).
   */
  lemma MaxFrameSizeMisadvertised()
    ensures var s := SAMPLE_DEFAULTS.(maxFrameSize := 32768);
            && Valid(SAMPLE_DEFAULTS) && Valid(s)
            && P.SettingsPayloadAsWritten(s, SAMPLE_DEFAULTS) == Entry(MaxFrameSize, 4096)
            && ApplyPairs(SAMPLE_DEFAULTS, P.SettingsPayloadAsWritten(s, SAMPLE_DEFAULTS))
               == ApplyResult(SAMPLE_DEFAULTS, Some(PROTOCOL_ERROR), 6)
  {
    SampleTablesValid();
    SampleEntries();
    var e := Entry(MaxFrameSize, 4096);
    assert e[..6] == e && e[..2] == BE16(5) && e[2..] == BE32(4096);
  }

  lemma SampleTablesValid()
    ensures Valid(SAMPLE_DEFAULTS) && Valid(SAMPLE_DEFAULTS.(maxFrameSize := 32768))
  {
    var d := SAMPLE_DEFAULTS;
    var s := d.(maxFrameSize := 32768);
    forall id ensures RangeError(id, Get(d, id)).None? && RangeError(id, Get(s, id)).None? {
      match id
      case HeaderTableSize =>
      case EnablePush =>
      case MaxConcurrentStreams =>
      case InitialWindowSize =>
      case MaxFrameSize =>
      case MaxHeaderListSize =>
    }
  }

  /** Only MAX_FRAME_SIZE differs, so the payload is its one entry, carrying 4096. */
  lemma SampleEntries()
    ensures P.SettingsPayloadAsWritten(SAMPLE_DEFAULTS.(maxFrameSize := 32768), SAMPLE_DEFAULTS)
            == Entry(MaxFrameSize, 4096)
  {
    var d := SAMPLE_DEFAULTS;
    var s := d.(maxFrameSize := 32768);
    assert P.EntriesAsWritten(s, d, 4) == [] by {
      assert P.EntriesAsWritten(s, d, 1) == [];
      assert P.EntriesAsWritten(s, d, 2) == [];
      assert P.EntriesAsWritten(s, d, 3) == [];
    }
    assert P.EntriesAsWritten(s, d, 5) == Entry(MaxFrameSize, 4096);
  }

  /** The frame with each entry carrying its own setting's value. */
  function CorrectedSettingsFrame(s: Settings, defaults: Settings): seq<Byte>
  {
    var payload := SettingsPayload(s, defaults);
    assert |payload| <= 36 by { PayloadSize(s, defaults); }
    EncodeHeader(FrameHeader(|payload|, 0, SETTINGS, 0)) + payload
  }

  /**
   * The corrected frame announces its payload's length, and reading its
   * payload back onto the defaults, with either server's reader, recovers
   * every legal table exactly.
   */
  lemma CorrectedSettingsFrameRoundTrip(s: Settings, defaults: Settings)
    requires Valid(s)
    ensures var f := CorrectedSettingsFrame(s, defaults);
            && |f| >= HEADER_SIZE
            && DecodeHeader(f[..HEADER_SIZE]) == FrameHeader(|f| - HEADER_SIZE, 0, SETTINGS, 0)
            && ApplyPairs(defaults, f[HEADER_SIZE..]) == ApplyResult(s, None, |f| - HEADER_SIZE)
            && P.ApplyAll(defaults, f[HEADER_SIZE..]) == s
  {
    var p := SettingsPayload(s, defaults);
    PayloadSize(s, defaults);
    var f := CorrectedSettingsFrame(s, defaults);
    assert f[..HEADER_SIZE] == EncodeHeader(FrameHeader(|p|, 0, SETTINGS, 0));
    assert f[HEADER_SIZE..] == p;
    SettingsRoundTrip(s, defaults);
    ProcessorProperties.ApplyAllRoundTrip(s, defaults);
  }

  // ---------------------------------------------------------------------------
  // Http2SessionHandler.cpp:473: a stream state is compared with a stream id.

  /**
   * HEADERS opening a new stream leaves the highest non-idle id where it
   * was: the new stream is in INIT, whose ordinal 0 is never above it. So an
   * unknown lower id opened afterwards is accepted, where section 5.1.1 of
   * RFC 7540 makes it a PROTOCOL_ERROR; the corrected update, applied to the
   * same step, refuses that id.
   */
  lemma LowerStreamAcceptedAfterHeaders(s: S.SessionState, h: FrameHeader, handler: StreamHandlerFn, lower: StreamId)
    requires |s.input| >= S.Need(h)
    requires h.ftype == HEADERS && h.streamId % 2 == 1 && !S.BreaksHeaderBlock(s, h.streamId)
    requires h.streamId !in s.streams && h.streamId >= s.highestNonIdleStreamId
    requires s.highestNonIdleStreamId <= lower < h.streamId && lower !in s.streams
    requires handler(S.NewStream(s, h.streamId), h, s.input[..h.length]).Handled?
    ensures var r := S.HandleFrame(s, h, handler);
            && r.action == S.NextRequest
            && h.streamId in r.next.streams
            && r.next.highestNonIdleStreamId == s.highestNonIdleStreamId
            && S.FindOrCreateStream(r.next, lower).Some?
            && var corrected := HighestAfterHeadersCorrected(r.next.streams[h.streamId], s.highestNonIdleStreamId);
               S.FindOrCreateStream(r.next.(highestNonIdleStreamId := corrected), lower).None?
  {
    var found := s.(streams := s.streams[h.streamId := S.NewStream(s, h.streamId)], lastStream := Some(h.streamId));
    assert S.FindOrCreateStream(s, h.streamId) == Some(found.(lastStream := s.lastStream));
    assert S.StateError(HEADERS, Init) == None;
    assert S.HighestAfterHeaders(found.streams[h.streamId], s.highestNonIdleStreamId) == s.highestNonIdleStreamId;
  }

  /** The intended update: the stored id becomes the stream's id when that is higher. */
  function HighestAfterHeadersCorrected(rec: StreamRec, highest: StreamId): StreamId
  {
    if rec.id > highest then rec.id else highest
  }

  /**
   * With the corrected update, once HEADERS was taken on a stream, every
   * unknown lower id is refused, and the stored id never goes down.
   */
  lemma CorrectedRefusesLowerIds(s: S.SessionState, rec: StreamRec, lower: StreamId)
    requires lower !in s.streams && lower < rec.id
    ensures var highest := HighestAfterHeadersCorrected(rec, s.highestNonIdleStreamId);
            && highest >= s.highestNonIdleStreamId && highest >= rec.id
            && S.FindOrCreateStream(s.(highestNonIdleStreamId := highest), lower).None?
  {
  }

  // ---------------------------------------------------------------------------
  // Http2SessionHandler.cpp:350: the new table size is read from INITIAL_WINDOW_SIZE.

  /**
   * A SETTINGS frame that leaves HEADER_TABLE_SIZE alone still asks the HPACK
   * codec for a new table size, the INITIAL_WINDOW_SIZE value, whenever that
   * value differs from the table size.
   */
  lemma TableSizeTakenFromWindow(before: Settings, s: S.SessionState)
    requires s.outSettings.headerTableSize == before.headerTableSize
    requires s.outSettings.initialWindowSize != before.headerTableSize
    ensures S.AfterSettings(before, s).tableSizeRequests
            == s.tableSizeRequests + [s.outSettings.initialWindowSize]
  {
  }

  /** The intended step: window resize as written, table size read from HEADER_TABLE_SIZE. */
  function AfterSettingsCorrected(before: Settings, s: S.SessionState): S.SessionState
  {
    var resized := S.AfterSettings(before, s).(tableSizeRequests := s.tableSizeRequests);
    var newTableSize := s.outSettings.headerTableSize;
    if before.headerTableSize != newTableSize then
      resized.(tableSizeRequests := s.tableSizeRequests + [newTableSize])
    else resized
  }

  /**
   * The codec is asked for a new table size exactly when HEADER_TABLE_SIZE
   * changed, and then for the new value; the streams are resized as before.
   */
  lemma CorrectedTableSizeRequests(before: Settings, s: S.SessionState)
    ensures var r := AfterSettingsCorrected(before, s);
            && (s.outSettings.headerTableSize == before.headerTableSize <==> r.tableSizeRequests == s.tableSizeRequests)
            && (s.outSettings.headerTableSize != before.headerTableSize ==>
                  r.tableSizeRequests == s.tableSizeRequests + [s.outSettings.headerTableSize])
            && r.streams == S.AfterSettings(before, s).streams
            && r.(tableSizeRequests := s.tableSizeRequests) == S.AfterSettings(before, s).(tableSizeRequests := s.tableSizeRequests)
  {
    var r := AfterSettingsCorrected(before, s);
    if s.outSettings.headerTableSize != before.headerTableSize {
      assert |r.tableSizeRequests| == |s.tableSizeRequests| + 1;
    }
  }

  // ---------------------------------------------------------------------------
  // Http2SessionHandler.cpp:316: the consume action of a PING ACK is dropped.

  /**
   * A well-formed PING with the ACK flag leaves the session exactly as it
   * was, its 8 payload bytes still unread, and control goes to `repeat()`.
   */
  lemma PingAckLeavesPayloadUnread(s: S.SessionState, h: FrameHeader, handler: StreamHandlerFn)
    requires |s.input| >= S.Need(h)
    requires h.ftype == PING && h.streamId == 0 && h.length == 8 && h.flags % 2 == 1
    requires !S.BreaksHeaderBlock(s, 0)
    ensures S.HandleFrame(s, h, handler) == S.Step(S.Repeat, s)
  {
  }

  /** The intended PING branch: an ACK's payload is consumed and the next frame read. */
  function HandlePingCorrected(s: S.SessionState, h: FrameHeader): S.Step
    requires |s.input| >= S.Need(h)
  {
    if h.streamId != 0 then S.ConnectionError(s, PROTOCOL_ERROR)
    else if h.length != 8 then S.ConnectionError(s, FRAME_SIZE_ERROR)
    else if h.flags % 2 == 0 then
      S.Step(S.NextRequest, S.Send(S.Drop(s, 8), S.OutFrame(PING, PING_ACK, 0, s.input[..8])))
    else S.Step(S.NextRequest, S.Drop(s, 8))
  }

  /**
   * Every well-formed PING is consumed and followed by the next frame; it is
   * answered, with its own payload, exactly when the ACK bit is clear.
   */
  lemma CorrectedPingConsumesPayload(s: S.SessionState, h: FrameHeader)
    requires |s.input| >= S.Need(h) && h.streamId == 0 && h.length == 8
    ensures var r := HandlePingCorrected(s, h);
            && r.action == S.NextRequest
            && r.next.input == s.input[8..]
            && (h.flags % 2 == 0 <==> r.next.output != s.output)
            && (h.flags % 2 == 0 ==> r.next.output == s.output + [S.OutFrame(PING, PING_ACK, 0, s.input[..8])])
  {
    if h.flags % 2 == 0 {
      assert |HandlePingCorrected(s, h).next.output| == |s.output| + 1;
    }
  }

  // ---------------------------------------------------------------------------
  // Http2SessionHandler.cpp:400-408: the increment keeps its reserved bit and
  // is added in 32 bits.

  /**
   * An increment of 0xFFFFFFFF (the reserved bit set over 2^31 - 1) on a
   * window of 65535 wraps to 65534: the update is accepted and the window
   * shrinks, where the intended outcome is FLOW_CONTROL_ERROR.
   */
  lemma WindowUpdateWrapsAround(s: S.SessionState, h: FrameHeader, handler: StreamHandlerFn)
    requires h == FrameHeader(4, 0, WINDOW_UPDATE, 0) && |s.input| >= S.Need(h)
    requires s.input[..4] == [0xFF, 0xFF, 0xFF, 0xFF] && s.outSettings.initialWindowSize == 65535
    requires !S.BreaksHeaderBlock(s, 0)
    ensures var r := S.HandleFrame(s, h, handler);
            && r.action == S.Repeat
            && r.next.outSettings.initialWindowSize == 65534
  {
    assert ReadBE32(s.input[..4]) == 0xFFFF_FFFF by {
      assert s.input[..4][..2] == [0xFF, 0xFF] && s.input[..4][2..] == [0xFF, 0xFF];
    }
    assert S.AddU32(65535, 0xFFFF_FFFF) == 65534;
  }

  datatype WindowResult = Grown(size: U32) | Refused(code: U32)

  /**
   * The intended connection-level update (section 6.9 of RFC 7540): the
   * reserved bit is ignored, an increment of 0 is a PROTOCOL_ERROR, and a
   * window above 2^31 - 1 is a FLOW_CONTROL_ERROR.
   */
  function WindowUpdateCorrected(window: U32, raw: U32): WindowResult
  {
    var increment := raw % 0x8000_0000;
    if increment == 0 then Refused(PROTOCOL_ERROR)
    else if window + increment > MAX_WINDOW_SIZE then Refused(FLOW_CONTROL_ERROR)
    else Grown(window + increment)
  }

  /** The corrected window grows by exactly the 31-bit increment, never wraps and never exceeds the maximum. */
  lemma CorrectedWindowNeverShrinks(window: U32, raw: U32)
    ensures var r := WindowUpdateCorrected(window, raw);
            && (r.Grown? <==> 0 < raw % 0x8000_0000 && window + raw % 0x8000_0000 <= MAX_WINDOW_SIZE)
            && (r.Grown? ==> r.size > window && r.size == window + raw % 0x8000_0000 && r.size <= MAX_WINDOW_SIZE)
            && (r.Refused? ==> r.code == PROTOCOL_ERROR || r.code == FLOW_CONTROL_ERROR)
  {
  }

  // ---------------------------------------------------------------------------
  // Http2SessionHandler.cpp:194-213: the GOAWAY coroutine hands over an unset label.

  /**
   * The frame `SendGoawayFrameCoroutine` queues as written: `frameData()`
   * returns the member label, which the constructor never points at the
   * 8-byte buffer it fills, so the frame goes out with an empty payload.
   */
  function GoawayFrameAsWritten(lastStream: StreamId, code: U32): S.OutFrame
  {
    S.OutFrame(GOAWAY, 0, 0, [])
  }

  /**
   * As written, every GOAWAY the session sends is shorter than the 8 bytes
   * section 6.8 of RFC 7540 requires, so neither the last stream id nor the
   * error code reaches the peer; the frame `connectionError` sends in this
   * model differs from it only in the payload, which carries both.
   */
  lemma GoawaySentWithoutPayload(s: S.SessionState, code: U32)
    ensures var f := GoawayFrameAsWritten(S.LastStreamId(s), code);
            var sent := S.ConnectionError(s, code).next.output;
            && |f.payload| < 8
            && |sent| == |s.output| + 1
            && sent[|s.output|] == f.(payload := S.GoawayPayload(S.LastStreamId(s), code))
            && ReadBE32(sent[|s.output|].payload[4..]) == code
  {
  }
}
