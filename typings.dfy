/** The chunk types shared by the runtime: a chunk's status and the three shapes a chunk can take. */
module Typings {
  import opened Wrappers
  import opened Js

  /** `ESwsrChunkStatus`, a closed variant with the numeric codes the connection objects store. */
  datatype ChunkStatus = Pending | Resolved | Rejected {
    /** The enum's numeric value: its position in the declaration. */
    function Code(): (c: int)
      ensures 0 <= c <= 2
    {
      match this
      case Pending => 0
      case Resolved => 1
      case Rejected => 2
    }
  }

  /** The status a numeric code stands for, if any. */
  function StatusOf(code: int): (r: Option<ChunkStatus>)
    ensures r.Some? <==> 0 <= code <= 2
    ensures r.Some? ==> r.value.Code() == code
  {
    if code == 0 then Some(Pending)
    else if code == 1 then Some(Resolved)
    else if code == 2 then Some(Rejected)
    else None
  }

  /** Decoding a status's code gives the status back, so distinct statuses have distinct codes. */
  lemma StatusCodeRoundTrip(s: ChunkStatus)
    ensures StatusOf(s.Code()) == Some(s)
  {
    match s
    case Pending =>
    case Resolved =>
    case Rejected =>
  }

  /** `SwsrChunk<T> = Promise<T> | T | Error`. */
  datatype Chunk<V> = PromiseChunk(promise: Promise<V>) | ErrorChunk(error: JsError) | ValueChunk(value: V)

  /**
   * The page globals the runtime reads: `__SWSR_MODE__`, `__SWSR_CHUNKS__`
   * (the literal map the string-mode bootstrap embeds) and the body's HTML.
   * A browser has a window; the worker's render does not.
   */
  datatype Window<V> = Window(mode: Option<string>, stringChunks: Option<map<string, V>>, bodyHtml: string)
}
