/**
 * The asynchronous session object itself: the fields `Http2SessionHandler`
 * keeps in its processing resources, updated in place by one method per
 * member of the source, each proved to take the step `SessionSpec` describes.
 */
module SessionHandler {
  import opened Wire
  import opened Wrappers
  import opened Http2Settings
  import opened SettingsFrame
  import opened Streams
  import S = SessionSpec
  import SessionProperties

  /**
   * The payload builder of `sendSettingsFrame`: a 36-byte buffer filled
   * entry by entry, one 6-byte entry per setting that differs from the
   * defaults, in identifier order.
   */
  method EncodeSettingsPayload(settings: Settings, defaults: Settings) returns (payload: seq<Byte>)
    ensures payload == SettingsPayload(settings, defaults)
  {
    var data := new Byte[6 * 6];
    var count := 0;
    for i := 0 to |ORDER|
      invariant count == 6 * DiffCount(settings, defaults, i) <= 6 * i
      invariant data[..count] == Entries(settings, defaults, i)
    {
      var id := ORDER[i];
      if Get(settings, id) != Get(defaults, id) {
        WriteEntry(data, count, id, Get(settings, id));
        assert data[..count + 6] == data[..count] + data[count..count + 6];
        count := count + 6;
      }
    }
    payload := data[..count];
  }

  /** One entry written through the buffer pointer: identifier high and low byte, then the value's four bytes. */
  method WriteEntry(data: array<Byte>, at: nat, id: Identifier, setting: U32)
    requires at + 6 <= data.Length
    modifies data
    ensures data[..at] == old(data[..at])
    ensures data[at..at + 6] == Entry(id, setting)
  {
    var hi, lo := setting / 0x1_0000, setting % 0x1_0000;
    data[at] := Code(id) / 0x100;
    data[at + 1] := Code(id) % 0x100;
    data[at + 2] := hi / 0x100;
    data[at + 3] := hi % 0x100;
    data[at + 4] := lo / 0x100;
    data[at + 5] := lo % 0x100;
  }

  /** The payload builder of `sendGoawayFrame`: last stream id, then error code, big-endian. */
  method EncodeGoawayPayload(lastStream: U32, errorCode: U32) returns (payload: seq<Byte>)
    ensures payload == S.GoawayPayload(lastStream, errorCode)
  {
    var buf := new Byte[8];
    var hi, lo := lastStream / 0x1_0000, lastStream % 0x1_0000;
    buf[0] := hi / 0x100;
    buf[1] := hi % 0x100;
    buf[2] := lo / 0x100;
    buf[3] := lo % 0x100;
    hi, lo := errorCode / 0x1_0000, errorCode % 0x1_0000;
    buf[4] := hi / 0x100;
    buf[5] := hi % 0x100;
    buf[6] := lo / 0x100;
    buf[7] := lo % 0x100;
    payload := buf[..];
  }

  /**
   * The pair loop of the SETTINGS branch: `length / 6` reads of a 2-byte
   * identifier and a 4-byte value from `input`, each stored in `settings`
   * with `setSetting`; a refused value stops the loop with its error code.
   * Returns the table and the stream position the loop leaves behind.
   */
  method ApplySettingsPairs(settings: Settings, input: seq<Byte>, length: nat)
      returns (updated: Settings, rest: seq<Byte>, error: Option<U32>)
    requires length % 6 == 0 && length <= |input|
    ensures var a := ApplyPairs(settings, input[..length]);
            updated == a.settings && error == a.error && rest == input[a.read..]
  {
    updated := settings;
    var pending := input[..length];
    var consumed := 0;
    while consumed < length
      invariant 0 <= consumed <= length && consumed % 6 == 0
      invariant pending == input[consumed..length]
      invariant var a := ApplyPairs(updated, pending);
                ApplyPairs(settings, input[..length]) == a.(read := a.read + consumed)
      decreases length - consumed
    {
      ApplyPairsStep(updated, pending);
      var ident := ReadBE16(pending[..2]);
      var parameter := ReadBE32(pending[2..6]);
      pending := pending[6..];
      consumed := consumed + 6;
      var r := SetSetting(updated, ident, parameter);
      if r.Rejected? {
        return updated, input[consumed..], Some(r.code);
      }
      if r.Updated? {
        updated := r.settings;
      }
    }
    rest, error := input[consumed..], None;
  }

  class Session {
    /** The table `sendSettingsFrame` compares against. */
    const defaults: Settings

    var input: seq<Byte>
    var inSettings: Settings
    var outSettings: Settings
    var streams: map<StreamId, StreamRec>
    var lastStream: Option<StreamId>
    var highestNonIdleStreamId: StreamId
    var output: seq<S.OutFrame>
    var tableSizeRequests: seq<U32>

    /** The fields as one value of the specification's state. */
    function State(): S.SessionState
      reads this
    {
      S.SessionState(input, inSettings, outSettings, streams, lastStream,
                     highestNonIdleStreamId, output, tableSizeRequests)
    }

    ghost predicate Wellformed()
      reads this
    {
      S.Wellformed(State())
    }

    /** Both settings tables start at the defaults; no stream is open yet. */
    constructor(defaults: Settings, input: seq<Byte>)
      requires Valid(defaults)
      ensures this.defaults == defaults
      ensures State() == S.SessionState(input, defaults, defaults, map[], None, 0, [], [])
      ensures Wellformed()
    {
      this.defaults := defaults;
      this.input := input;
      inSettings := defaults;
      outSettings := defaults;
      streams := map[];
      lastStream := None;
      highestNonIdleStreamId := 0;
      output := [];
      tableSizeRequests := [];
    }

    /** `act`: advertise this endpoint's settings, then read the first frame. */
    method Start() returns (action: S.Action)
      modifies this
      ensures action == S.NextRequest
      ensures State() == old(State()).(output := old(output) + [S.OutFrame(SETTINGS, 0, 0, SettingsPayload(inSettings, defaults))])
    {
      var payload := EncodeSettingsPayload(inSettings, defaults);
      output := output + [S.OutFrame(SETTINGS, 0, 0, payload)];
      action := S.NextRequest;
    }

    /** `connectionError`. */
    method ConnectionError(errorCode: U32) returns (action: S.Action)
      modifies this
      ensures S.Step(action, State()) == S.ConnectionError(old(State()), errorCode)
    {
      var payload := EncodeGoawayPayload(if lastStream.Some? then lastStream.value else 0, errorCode);
      output := output + [S.OutFrame(GOAWAY, 0, 0, payload)];
      action := S.Teardown;
    }

    /** `sendResetStreamFrame`. */
    method SendResetStreamFrame(stream: StreamId, errorCode: U32) returns (action: S.Action)
      modifies this
      ensures S.Step(action, State()) == S.ResetStream(old(State()), stream, errorCode)
    {
      output := output + [S.OutFrame(RST_STREAM, 0, stream, BE32(errorCode))];
      action := S.NextRequest;
    }

    /** `handleFrame`. */
    method HandleFrame(h: FrameHeader, handler: StreamHandlerFn) returns (action: S.Action)
      requires |input| >= S.Need(h)
      modifies this
      ensures S.Step(action, State()) == S.HandleFrame(old(State()), h, handler)
      ensures old(Wellformed()) ==> Wellformed()
    {
      if h.streamId != 0 && h.streamId % 2 == 0 {
        action := ConnectionError(PROTOCOL_ERROR);
      } else if S.BreaksHeaderBlock(State(), h.streamId) {
        action := ConnectionError(PROTOCOL_ERROR);
      } else if h.ftype == PING {
        action := HandlePing(h);
      } else if h.ftype == SETTINGS {
        action := HandleSettings(h);
      } else if h.ftype == GOAWAY {
        action := HandleGoaway(h);
      } else if h.ftype == WINDOW_UPDATE {
        action := HandleWindowUpdate(h, handler);
      } else if S.IsStreamFrameType(h.ftype) {
        action := HandleStreamFrame(h, handler);
      } else {
        input := input[h.length..];
        action := S.NextRequest;
      }
      if old(Wellformed()) {
        SessionProperties.HandleFramePreservesWellformed(old(State()), h, handler);
      }
    }

    method HandlePing(h: FrameHeader) returns (action: S.Action)
      requires |input| >= S.Need(h)
      modifies this
      ensures S.Step(action, State()) == S.HandlePing(old(State()), h)
    {
      if h.streamId != 0 {
        action := ConnectionError(PROTOCOL_ERROR);
      } else if h.length != 8 {
        action := ConnectionError(FRAME_SIZE_ERROR);
      } else if h.flags % 2 == 0 {
        var payload := input[..8];
        input := input[8..];
        output := output + [S.OutFrame(PING, PING_ACK, 0, payload)];
        action := S.NextRequest;
      } else {
        // As written (Http2SessionHandler.cpp:316): the consume action is
        // built and dropped, so the 8 payload bytes stay unread.
        action := S.Repeat;
      }
    }

    method HandleSettings(h: FrameHeader) returns (action: S.Action)
      requires |input| >= S.Need(h)
      modifies this
      ensures S.Step(action, State()) == S.HandleSettings(old(State()), h)
    {
      if h.streamId != 0 {
        action := ConnectionError(PROTOCOL_ERROR);
      } else if h.flags == 0 {
        if h.length % 6 != 0 {
          action := ConnectionError(FRAME_SIZE_ERROR);
          return;
        }
        var initialWindowSize := outSettings.initialWindowSize;
        var tableSize := outSettings.headerTableSize;
        var updated, rest, error := ApplySettingsPairs(outSettings, input, h.length);
        input, outSettings := rest, updated;
        if error.Some? {
          action := ConnectionError(error.value);
          return;
        }
        var newInitialWindowSize := outSettings.initialWindowSize;
        // As written (Http2SessionHandler.cpp:350): the "new table size" is
        // read from INITIAL_WINDOW_SIZE.
        var newTableSize := outSettings.initialWindowSize;
        if initialWindowSize != newInitialWindowSize {
          ResizeWindows(S.WindowChange(initialWindowSize, newInitialWindowSize));
        }
        if tableSize != newTableSize {
          tableSizeRequests := tableSizeRequests + [newTableSize];
        }
        output := output + [S.ACK_FRAME];
        action := S.NextRequest;
      } else if h.flags == SETTINGS_ACK && h.length > 0 {
        action := ConnectionError(FRAME_SIZE_ERROR);
      } else {
        action := S.Repeat;
      }
    }

    /** `resizeWindow(change)` on every stream in the map. */
    method ResizeWindows(change: int)
      modifies this
      ensures State() == old(State()).(streams := S.ResizeAll(old(streams), change))
    {
      var pending := streams.Keys;
      while pending != {}
        invariant pending <= old(streams).Keys && streams.Keys == old(streams).Keys
        invariant forall id :: id in streams ==>
                    streams[id] == if id in pending then old(streams)[id]
                                   else old(streams)[id].(window := old(streams)[id].window + change)
        invariant State() == old(State()).(streams := streams)
        decreases |pending|
      {
        var id :| id in pending;
        streams := streams[id := streams[id].(window := streams[id].window + change)];
        pending := pending - {id};
      }
    }

    /** GOAWAY: last id and error code are read, the debug data drained in chunks of at most 2048 bytes. */
    method HandleGoaway(h: FrameHeader) returns (action: S.Action)
      requires h.ftype == GOAWAY && |input| >= S.Need(h)
      modifies this
      ensures S.Step(action, State()) == S.HandleGoaway(old(State()), h)
    {
      if h.streamId == 0 {
        input := input[8..];
        if h.length > 8 {
          var remaining := h.length - 8;
          while remaining > 0
            invariant 0 <= remaining <= h.length - 8
            invariant input == old(input)[h.length - remaining..]
            invariant State() == old(State()).(input := input)
          {
            var chunk := if remaining < 2048 then remaining else 2048;
            input := input[chunk..];
            remaining := remaining - chunk;
          }
        }
        action := S.Teardown;
      } else {
        action := ConnectionError(PROTOCOL_ERROR);
      }
    }

    method HandleWindowUpdate(h: FrameHeader, handler: StreamHandlerFn) returns (action: S.Action)
      requires |input| >= S.Need(h)
      modifies this
      ensures S.Step(action, State()) == S.HandleWindowUpdate(old(State()), h, handler)
    {
      if h.streamId == 0 {
        if h.length != 4 {
          action := ConnectionError(FRAME_SIZE_ERROR);
          return;
        }
        var increment := ReadBE32(input[..4]);
        input := input[4..];
        if increment == 0 {
          action := ConnectionError(PROTOCOL_ERROR);
          return;
        }
        var r := SetKnown(outSettings, InitialWindowSize, S.AddU32(outSettings.initialWindowSize, increment));
        if r.Updated? {
          outSettings := r.settings;
          action := S.Repeat;
        } else {
          action := ConnectionError(r.code);
        }
      } else {
        var found := FindOrCreateStream(h.streamId);
        if !found {
          action := ConnectionError(PROTOCOL_ERROR);
        } else {
          action := DelegateToHandler(h, handler);
        }
      }
    }

    method HandleStreamFrame(h: FrameHeader, handler: StreamHandlerFn) returns (action: S.Action)
      requires |input| >= S.Need(h)
      modifies this
      ensures S.Step(action, State()) == S.HandleStreamFrame(old(State()), h, handler)
    {
      if h.streamId == 0 {
        action := ConnectionError(PROTOCOL_ERROR);
        return;
      }
      var found := FindOrCreateStream(h.streamId);
      if !found {
        action := ConnectionError(PROTOCOL_ERROR);
      } else {
        lastStream := Some(h.streamId);
        action := DelegateToHandler(h, handler);
      }
    }

    /** `findOrCreateStream`; false where the source throws a connection ProtocolError. */
    method FindOrCreateStream(id: StreamId) returns (found: bool)
      modifies this
      ensures var r := S.FindOrCreateStream(old(State()), id);
              && found == r.Some?
              && State() == (if found then r.value else old(State()))
    {
      if id !in streams {
        if id < highestNonIdleStreamId {
          return false;
        }
        streams := streams[id := StreamRec(id, Init, outSettings.initialWindowSize)];
      }
      return true;
    }

    /** `delegateToHandler`. */
    method DelegateToHandler(h: FrameHeader, handler: StreamHandlerFn) returns (action: S.Action)
      requires h.streamId in streams && |input| >= h.length
      modifies this
      ensures S.Step(action, State()) == S.DelegateToHandler(old(State()), h, handler)
    {
      var error := S.StateError(h.ftype, streams[h.streamId].state);
      if error.Some? {
        action := ConnectionError(error.value);
        return;
      }
      if h.ftype == HEADERS {
        // As written (Http2SessionHandler.cpp:473): the stream's state is
        // compared with the highest stream id.
        if streams[h.streamId].state.Ordinal() > highestNonIdleStreamId {
          highestNonIdleStreamId := streams[h.streamId].id;
        }
      }
      var handled;
      action, handled := RunHandler(h, handler);
      if h.ftype == RST_STREAM && handled {
        action := SendResetStreamFrame(h.streamId, CANCEL);
      }
    }

    /** The stream's handler reads the payload; its error, if any, goes through the catch block of `handleFrame`. */
    method RunHandler(h: FrameHeader, handler: StreamHandlerFn) returns (action: S.Action, handled: bool)
      requires h.streamId in streams && |input| >= h.length
      modifies this
      ensures handled == S.HandlerOutcome(old(State()), h, handler).Handled?
      ensures S.Step(action, State()) == S.RunHandler(old(State()), h, handler)
    {
      var payload := input[..h.length];
      input := input[h.length..];
      var rec := streams[h.streamId];
      match handler(rec, h, payload)
      case Handled(state, window) =>
        streams := streams[h.streamId := rec.(state := state, window := window)];
        action, handled := S.NextRequest, true;
      case Raised(e) =>
        handled := false;
        if e.scope == ConnectionScope {
          action := ConnectionError(e.code);
        } else {
          action := SendResetStreamFrame(h.streamId, e.code);
        }
    }
  }

}
