/**
 * What the session knows of one stream. The per-stream handler class is not
 * among the modelled files: its frame handlers are abstract here (a function
 * the caller supplies), and only the state ordering and the flow-control
 * window that the session itself reads and resizes are kept.
 */
module Streams {
  import opened Wire

  /**
   * The stream states the session compares against, in their declared
   * order. States declared between READY and GOAWAY are not named by the
   * modelled code and are left out.
   */
  datatype StreamState = Init | Headers | Continuation | Payload | Processing | Ready | Goaway
  {
    /** The enumerator's numeric value, which the source compares with `<`, `>=` and, once, with a stream id. */
    function Ordinal(): nat
    {
      match this
      case Init => 0
      case Headers => 1
      case Continuation => 2
      case Payload => 3
      case Processing => 4
      case Ready => 5
      case Goaway => 6
    }
  }

  /** A stream handler as the session sees it: its id, state and flow-control window. */
  datatype StreamRec = StreamRec(id: StreamId, state: StreamState, window: int)

  /** Whether a thrown h2 error asks for GOAWAY (connection) or RST_STREAM (stream). */
  datatype ErrorScope = ConnectionScope | StreamScope

  datatype H2Error = H2Error(scope: ErrorScope, code: U32)

  /** What a per-stream handler did with a frame: the stream's new state and window, or an error it threw. */
  datatype HandlerResult =
    | Handled(state: StreamState, window: int)
    | Raised(error: H2Error)

  /**
   * The per-stream handlers of the asynchronous session (`handleData`,
   * `handleHeaders`, ...): given the stream, the frame header and the frame's
   * payload bytes, they return the stream's next state or throw.
   */
  type StreamHandlerFn = (StreamRec, FrameHeader, seq<Byte>) -> HandlerResult

}
