/**
 * The suspending chunk reader: `createReader` turns a chunk (a promise, a
 * plain value or an Error) into a memoised tri-state view whose status the
 * promise's callbacks update once; `Read` dispatches on that view; `Use`
 * rebuilds the reader only when the chunk changes.
 */
module Use {
  import opened Wrappers
  import opened Js
  import opened Typings

  /** `ChunkState<T>`: what the reader returns. */
  datatype ChunkState<V> = PendingState(promise: Promise<V>) | ResolvedState(data: V) | RejectedState(error: Option<string>) {
    function Status(): ChunkStatus {
      match this
      case PendingState(_) => Pending
      case ResolvedState(_) => Resolved
      case RejectedState(_) => Rejected
    }
  }

  /**
   * The view a reader over `chunk` must give once its promise callbacks have
   * seen `delivered` (`None`: not yet, or the chunk is not a promise).
   */
  function ExpectedState<V>(chunk: Chunk<V>, delivered: Option<Settlement<V>>): ChunkState<V>
  {
    match chunk
    case ValueChunk(v) => ResolvedState(v)
    case ErrorChunk(e) => RejectedState(Some(e.message))
    case PromiseChunk(p) =>
      match delivered
      case None => PendingState(p)
      case Some(Fulfilled(v)) => ResolvedState(v)
      case Some(RejectedWith(r)) => RejectedState(MessageOf(r))
  }

  /** The closure `createReader` returns, with the three locals it captures. */
  class Reader<V> {
    const chunk: Chunk<V>
    var status: ChunkStatus
    var data: Option<V>
    var error: Option<string>
    /** The settlement the promise callbacks have seen so far. */
    ghost var delivered: Option<Settlement<V>>

    ghost predicate WellFormed()
      reads this
    {
      (status == Pending ==> chunk.PromiseChunk?) && (status == Resolved ==> data.Some?)
    }

    /** The reader shows exactly the expected view of what it has been told. */
    ghost predicate Valid()
      reads this
    {
      && WellFormed()
      && (!chunk.PromiseChunk? ==> delivered.None?)
      && Read() == ExpectedState(chunk, delivered)
    }

    /** `createReader(chunk)`: subscribes to a promise chunk once; other chunks are settled from the start. */
    constructor (chunk: Chunk<V>)
      ensures this.chunk == chunk && delivered == None && Valid()
    {
      this.chunk := chunk;
      delivered := None;
      match chunk
      case PromiseChunk(_) =>
        status, data, error := Pending, None, None;
      case ErrorChunk(e) =>
        status, data, error := Rejected, None, Some(e.message);
      case ValueChunk(v) =>
        status, data, error := Resolved, Some(v), None;
    }

    /**
     * The `then`/`catch` callbacks, which the promise runs once, after it has
     * settled and while the reader is still Pending.
     */
    method OnSettled()
      requires Valid() && chunk.PromiseChunk? && delivered.None? && chunk.promise.settled.Some?
      modifies this
      ensures Valid() && delivered == chunk.promise.settled
      ensures status != Pending
    {
      match chunk.promise.settled.value {
        case Fulfilled(v) =>
          data := Some(v);
          status := Resolved;
        case RejectedWith(r) =>
          error := MessageOf(r);
          status := Rejected;
      }
      delivered := chunk.promise.settled;
    }

    /** One call of the reader: a view of the current status; it subscribes to nothing. */
    function Read(): (s: ChunkState<V>)
      reads this
      requires WellFormed()
      ensures s.Status() == status
      ensures s.PendingState? ==> chunk.PromiseChunk? && s.promise == chunk.promise
    {
      if status == Pending then PendingState(chunk.promise)
      else if status == Resolved then ResolvedState(data.value)
      else RejectedState(error)
    }
  }

  /** A promise chunk leaves Pending exactly when its settlement is delivered; other chunks are never Pending. */
  lemma PendingOnlyBeforeDelivery<V>(chunk: Chunk<V>, delivered: Option<Settlement<V>>)
    ensures ExpectedState(chunk, delivered).PendingState? <==> chunk.PromiseChunk? && delivered.None?
    ensures ExpectedState(chunk, delivered).PendingState? ==> ExpectedState(chunk, delivered).promise == chunk.promise
  {
  }

  /** `rejected`: absent, a static node, or a function of the error message. */
  datatype Fallback<N> = NoFallback | StaticFallback(node: N) | FallbackFn(render: Option<string> -> N)

  /** What `Read` does: throw the promise to suspend, or render a node (`None`: nothing). */
  datatype Element<V, N> = Suspend(promise: Promise<V>) | Render(node: Option<N>)

  /** The `Read` component: dispatch on the reader's view. */
  function ReadElement<V, N>(state: ChunkState<V>, children: Option<V -> N>, rejected: Fallback<N>): (e: Element<V, N>)
    ensures e.Suspend? <==> state.PendingState?
    ensures e.Suspend? ==> e.promise == state.promise
    ensures state.ResolvedState? ==> (e.node.Some? <==> children.Some?)
    ensures state.RejectedState? ==> (e.node.Some? <==> !rejected.NoFallback?)
    ensures state.ResolvedState? && children.Some? ==> e == Render(Some(children.value(state.data)))
    ensures state.RejectedState? && rejected.FallbackFn? ==> e == Render(Some(rejected.render(state.error)))
    ensures state.RejectedState? && rejected.StaticFallback? ==> e == Render(Some(rejected.node))
  {
    match state
    case PendingState(p) => Suspend(p)
    case ResolvedState(d) => Render(if children.Some? then Some(children.value(d)) else None)
    case RejectedState(err) =>
      match rejected
      case NoFallback => Render(None)
      case StaticFallback(n) => Render(Some(n))
      case FallbackFn(f) => Render(Some(f(err)))
  }

  /** The reader `Use` keeps across renders: `useMemo(() => createReader(chunk), [chunk])`. */
  class UseSlot<V(==)> {
    var memo: Option<(Chunk<V>, Reader<V>)>

    constructor ()
      ensures memo == None
    {
      memo := None;
    }

    /** The reader for this render: the memoised one while the chunk is the same, a new one otherwise. */
    method ReaderFor(chunk: Chunk<V>) returns (r: Reader<V>)
      modifies this
      ensures memo == Some((chunk, r))
      ensures old(memo).Some? && old(memo).value.0 == chunk ==> r == old(memo).value.1
      ensures old(memo).None? || old(memo).value.0 != chunk ==>
                fresh(r) && r.chunk == chunk && r.delivered == None && r.Valid()
    {
      if memo.Some? && memo.value.0 == chunk {
        r := memo.value.1;
      } else {
        r := new Reader(chunk);
        memo := Some((chunk, r));
      }
    }
  }
}
