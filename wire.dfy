/**
 * Byte-level vocabulary shared by both HTTP/2 server classes: fixed-width
 * unsigned integers, their big-endian encodings, the frame-type, flag and
 * error-code registries of RFC 7540 (sections 6 and 7), and the 9-byte frame
 * header of section 4.1 of RFC 7540.
 */
module Wire {

  type Byte = x: int | 0 <= x < 0x100
  type U16 = x: int | 0 <= x < 0x1_0000
  type U24 = x: int | 0 <= x < 0x100_0000
  type U32 = x: int | 0 <= x < 0x1_0000_0000

  /** A stream identifier: the low 31 bits of the header's last field. */
  type StreamId = x: int | 0 <= x < 0x8000_0000

  const HEADER_SIZE: nat := 9

  // Frame types (section 6 of RFC 7540).
  const DATA: Byte := 0x0
  const HEADERS: Byte := 0x1
  const PRIORITY: Byte := 0x2
  const RST_STREAM: Byte := 0x3
  const SETTINGS: Byte := 0x4
  const PUSH_PROMISE: Byte := 0x5
  const PING: Byte := 0x6
  const GOAWAY: Byte := 0x7
  const WINDOW_UPDATE: Byte := 0x8
  const CONTINUATION: Byte := 0x9

  // Flags.
  const SETTINGS_ACK: Byte := 0x1
  const PING_ACK: Byte := 0x1

  // Error codes (section 7 of RFC 7540).
  const NO_ERROR: U32 := 0x0
  const PROTOCOL_ERROR: U32 := 0x1
  const INTERNAL_ERROR: U32 := 0x2
  const FLOW_CONTROL_ERROR: U32 := 0x3
  const SETTINGS_TIMEOUT: U32 := 0x4
  const STREAM_CLOSED: U32 := 0x5
  const FRAME_SIZE_ERROR: U32 := 0x6
  const REFUSED_STREAM: U32 := 0x7
  const CANCEL: U32 := 0x8

  /** `(v >> 8) & 0xff`, `v & 0xff`. */
  function BE16(v: U16): (r: seq<Byte>)
    ensures |r| == 2 && ReadBE16(r) == v
  {
    [v / 0x100, v % 0x100]
  }

  /** `ntohs` over two bytes read from the stream. */
  function ReadBE16(b: seq<Byte>): U16
    requires |b| == 2
  {
    b[0] as int * 0x100 + b[1]
  }

  function BE24(v: U24): (r: seq<Byte>)
    ensures |r| == 3 && ReadBE24(r) == v
  {
    [v / 0x1_0000] + BE16(v % 0x1_0000)
  }

  function ReadBE24(b: seq<Byte>): U24
    requires |b| == 3
  {
    b[0] as int * 0x1_0000 + ReadBE16(b[1..])
  }

  /**
   * `(v >> 24) & 0xff`, `(v >> 16) & 0xff`, `(v >> 8) & 0xff`, `v & 0xff`:
   * the high half then the low half, each in two bytes.
   */
  function BE32(v: U32): (r: seq<Byte>)
    ensures |r| == 4 && ReadBE32(r) == v
  {
    BE16(v / 0x1_0000) + BE16(v % 0x1_0000)
  }

  /** `ntohl` over four bytes read from the stream. */
  function ReadBE32(b: seq<Byte>): U32
    requires |b| == 4
  {
    ReadBE16(b[..2]) as int * 0x1_0000 + ReadBE16(b[2..])
  }

  /** Decoding two bytes and encoding the value again gives the same bytes. */
  lemma ReadThenEncode16(b: seq<Byte>)
    requires |b| == 2
    ensures BE16(ReadBE16(b)) == b
  {
    var v := ReadBE16(b);
    assert v / 0x100 == b[0] && v % 0x100 == b[1];
  }

  /** The two halves of a 32-bit value come back out of it. */
  lemma SplitHalves(hi: U16, lo: U16)
    ensures (hi * 0x1_0000 + lo) / 0x1_0000 == hi && (hi * 0x1_0000 + lo) % 0x1_0000 == lo
  {
  }

  /** Decoding four bytes and encoding the value again gives the same bytes. */
  lemma ReadThenEncode32(b: seq<Byte>)
    requires |b| == 4
    ensures BE32(ReadBE32(b)) == b
  {
    var hi, lo := ReadBE16(b[..2]), ReadBE16(b[2..]);
    SplitHalves(hi, lo);
    ReadThenEncode16(b[..2]);
    ReadThenEncode16(b[2..]);
    assert b == b[..2] + b[2..];
  }

  /** Length, type, flags and stream identifier of one frame. */
  datatype FrameHeader = FrameHeader(length: U24, flags: Byte, ftype: Byte, streamId: StreamId)

  /**
   * The header on the wire: 24-bit length, type, flags, then the stream
   * identifier in 32 bits with the reserved top bit clear.
   */
  function EncodeHeader(h: FrameHeader): (r: seq<Byte>)
    ensures |r| == HEADER_SIZE && DecodeHeader(r) == h
  {
    BE24(h.length) + [h.ftype, h.flags] + BE32(h.streamId)
  }

  /** Reading a header; the reserved top bit of the identifier is dropped. */
  function DecodeHeader(b: seq<Byte>): FrameHeader
    requires |b| == HEADER_SIZE
  {
    FrameHeader(ReadBE24(b[..3]), b[4], b[3], ReadBE32(b[5..]) % 0x8000_0000)
  }

}
