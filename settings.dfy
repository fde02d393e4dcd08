/**
 * The settings table both servers keep per direction (`inSettings`: what this
 * endpoint advertises; `outSettings`: what the peer advertised). The class
 * itself is not among the modelled files; its identifiers and the range checks
 * of its `setSetting` are those of section 6.5.2 of RFC 7540.
 */
module Http2Settings {
  import opened Wire
  import opened Wrappers

  datatype Identifier =
    | HeaderTableSize
    | EnablePush
    | MaxConcurrentStreams
    | InitialWindowSize
    | MaxFrameSize
    | MaxHeaderListSize

  /** The identifier's 16-bit code on the wire. */
  function Code(id: Identifier): U16
  {
    match id
    case HeaderTableSize => 0x1
    case EnablePush => 0x2
    case MaxConcurrentStreams => 0x3
    case InitialWindowSize => 0x4
    case MaxFrameSize => 0x5
    case MaxHeaderListSize => 0x6
  }

  /** The identifier a code names, if any. */
  function FromCode(c: U16): (r: Option<Identifier>)
    ensures r.Some? <==> 1 <= c <= 6
    ensures r.Some? ==> Code(r.value) == c
  {
    if c == 0x1 then Some(HeaderTableSize)
    else if c == 0x2 then Some(EnablePush)
    else if c == 0x3 then Some(MaxConcurrentStreams)
    else if c == 0x4 then Some(InitialWindowSize)
    else if c == 0x5 then Some(MaxFrameSize)
    else if c == 0x6 then Some(MaxHeaderListSize)
    else None
  }

  /** The fixed order in which both SETTINGS builders walk the table. */
  const ORDER: seq<Identifier> :=
    [HeaderTableSize, EnablePush, MaxConcurrentStreams, InitialWindowSize, MaxFrameSize, MaxHeaderListSize]

  /** Where an identifier stands in ORDER. */
  function Position(id: Identifier): (i: nat)
    ensures i < |ORDER| && ORDER[i] == id
  {
    Code(id) - 1
  }

  datatype Settings = Settings(
    headerTableSize: U32,
    enablePush: U32,
    maxConcurrentStreams: U32,
    initialWindowSize: U32,
    maxFrameSize: U32,
    maxHeaderListSize: U32)

  /** `getSetting(id)`. */
  function Get(s: Settings, id: Identifier): U32
  {
    match id
    case HeaderTableSize => s.headerTableSize
    case EnablePush => s.enablePush
    case MaxConcurrentStreams => s.maxConcurrentStreams
    case InitialWindowSize => s.initialWindowSize
    case MaxFrameSize => s.maxFrameSize
    case MaxHeaderListSize => s.maxHeaderListSize
  }

  /** The table with one entry replaced and every other entry kept. */
  function Put(s: Settings, id: Identifier, v: U32): (r: Settings)
    ensures Get(r, id) == v
    ensures forall o :: o != id ==> Get(r, o) == Get(s, o)
  {
    match id
    case HeaderTableSize => s.(headerTableSize := v)
    case EnablePush => s.(enablePush := v)
    case MaxConcurrentStreams => s.(maxConcurrentStreams := v)
    case InitialWindowSize => s.(initialWindowSize := v)
    case MaxFrameSize => s.(maxFrameSize := v)
    case MaxHeaderListSize => s.(maxHeaderListSize := v)
  }

  const MAX_WINDOW_SIZE: U32 := 0x7FFF_FFFF
  const MIN_MAX_FRAME_SIZE: U32 := 0x4000
  const MAX_MAX_FRAME_SIZE: U32 := 0xFF_FFFF

  /** The error code a value is refused with (section 6.5.2 of RFC 7540), if any. */
  function RangeError(id: Identifier, v: U32): Option<U32>
  {
    match id
    case EnablePush => if v > 1 then Some(PROTOCOL_ERROR) else None
    case InitialWindowSize => if v > MAX_WINDOW_SIZE then Some(FLOW_CONTROL_ERROR) else None
    case MaxFrameSize =>
      if v < MIN_MAX_FRAME_SIZE || v > MAX_MAX_FRAME_SIZE then Some(PROTOCOL_ERROR) else None
    case _ => None
  }

  /** Every entry is within its legal range. */
  predicate Valid(s: Settings)
  {
    forall id :: RangeError(id, Get(s, id)).None?
  }

  datatype SetResult =
    | Updated(settings: Settings)
    | UnknownIdentifier
    | Rejected(code: U32)

  /** `setSetting` for an identifier the table knows. */
  function SetKnown(s: Settings, id: Identifier, v: U32): (r: SetResult)
    ensures !r.UnknownIdentifier?
    ensures r.Rejected? <==> RangeError(id, v).Some?
    ensures r.Rejected? ==> r.code == PROTOCOL_ERROR || r.code == FLOW_CONTROL_ERROR
    ensures r.Updated? ==> r.settings == Put(s, id, v)
    ensures r.Updated? && Valid(s) ==> Valid(r.settings)
  {
    match RangeError(id, v)
    case Some(code) => Rejected(code)
    case None => Updated(Put(s, id, v))
  }

  /**
   * `setSetting` with the identifier as read from the wire: an unknown code
   * is reported (the callers log it and go on), an out-of-range value is
   * refused with its connection error code, anything else is stored.
   */
  function SetSetting(s: Settings, code: U16, v: U32): (r: SetResult)
    ensures r.UnknownIdentifier? <==> FromCode(code).None?
    ensures FromCode(code).Some? ==> r == SetKnown(s, FromCode(code).value, v)
  {
    match FromCode(code)
    case None => UnknownIdentifier
    case Some(id) => SetKnown(s, id, v)
  }

  /** Two tables that agree on every identifier are the same table. */
  lemma Extensionality(a: Settings, b: Settings)
    requires forall id :: Get(a, id) == Get(b, id)
    ensures a == b
  {
    assert Get(a, HeaderTableSize) == Get(b, HeaderTableSize);
    assert Get(a, EnablePush) == Get(b, EnablePush);
    assert Get(a, MaxConcurrentStreams) == Get(b, MaxConcurrentStreams);
    assert Get(a, InitialWindowSize) == Get(b, InitialWindowSize);
    assert Get(a, MaxFrameSize) == Get(b, MaxFrameSize);
    assert Get(a, MaxHeaderListSize) == Get(b, MaxHeaderListSize);
  }

}
