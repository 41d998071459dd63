/**
 * How the page gets its chunks: in stream mode from the connection table
 * (projected by status into promise, value or Error), in string mode from
 * the embedded literal map; during the worker's render from the React
 * context the worker provides.
 */
module Chunks {
  import opened Wrappers
  import opened Js
  import opened Typings
  import opened StreamRuntime

  /** The chunk a connection stands for, by its status. */
  function Projection<V>(c: Connection<V>): Chunk<V>
    reads c
    requires c.Valid()
  {
    if c.status == Pending.Code() then PromiseChunk(c.promise)
    else if c.status == Resolved.Code() then ValueChunk(c.data.value)
    else ErrorChunk(c.error.value)
  }

  /**
   * `getStreamChunks()`: `None` when the page has no connection table;
   * otherwise one chunk per table entry, keyed like the table.
   */
  method GetStreamChunks<V>(registry: Registry<V>) returns (r: Option<map<string, Chunk<V>>>)
    requires registry.Valid()
    ensures registry.connections.None? <==> r.None?
    ensures r.Some? ==> r.value.Keys == registry.connections.value.Keys
    ensures r.Some? ==> forall k :: k in r.value ==> r.value[k] == Projection(registry.connections.value[k])
  {
    if registry.connections.None? {
      return None;
    }
    var conns := registry.connections.value;
    var chunks: map<string, Chunk<V>> := map[];
    var remaining := conns.Keys;
    while remaining != {}
      invariant remaining <= conns.Keys
      invariant chunks.Keys == conns.Keys - remaining
      invariant forall k :: k in chunks ==> chunks[k] == Projection(conns[k])
      decreases remaining
    {
      var key :| key in remaining;
      var bridge := conns[key];
      if bridge.status == Pending.Code() {
        chunks := chunks[key := PromiseChunk(bridge.promise)];
      }
      if bridge.status == Resolved.Code() {
        chunks := chunks[key := ValueChunk(bridge.data.value)];
      }
      if bridge.status == Rejected.Code() {
        chunks := chunks[key := ErrorChunk(bridge.error.value)];
      }
      remaining := remaining - {key};
    }
    return Some(chunks);
  }

  /** The value of `StreamContext`: the chunk promises the worker's render passes down. */
  datatype StreamContextValue<V> = StreamContextValue(chunks: map<string, Chunk<V>>)

  /** The value of `StringContext`: the settled values the worker's render passes down. */
  datatype StringContextValue<V> = StringContextValue(chunks: map<string, V>)

  /**
   * `useStreamChunks()`: the context's chunks where there is no window
   * (`None` without a provider), the projected connection table in a browser.
   */
  method UseStreamChunks<V>(window: Option<Window<V>>, ctx: Option<StreamContextValue<V>>, registry: Registry<V>)
    returns (r: Option<map<string, Chunk<V>>>)
    requires registry.Valid()
    ensures window.None? ==> r == if ctx.Some? then Some(ctx.value.chunks) else None
    ensures window.Some? ==> (r.None? <==> registry.connections.None?)
    ensures window.Some? && r.Some? ==>
              && r.value.Keys == registry.connections.value.Keys
              && forall k :: k in r.value ==> r.value[k] == Projection(registry.connections.value[k])
  {
    if window.None? {
      r := if ctx.Some? then Some(ctx.value.chunks) else None;
    } else {
      r := GetStreamChunks(registry);
    }
  }

  /** `getStringChunks()`: the embedded literal map `window.__SWSR_CHUNKS__`. */
  function GetStringChunks<V>(window: Window<V>): Option<map<string, V>>
  {
    window.stringChunks
  }

  /** `useStringChunks()`: the context's chunks where there is no window, the embedded map in a browser. */
  function UseStringChunks<V>(window: Option<Window<V>>, ctx: Option<StringContextValue<V>>): (r: Option<map<string, V>>)
    ensures window.None? && ctx.None? ==> r.None?
    ensures window.None? && ctx.Some? ==> r == Some(ctx.value.chunks)
    ensures window.Some? ==> r == window.value.stringChunks
  {
    if window.None? then (if ctx.Some? then Some(ctx.value.chunks) else None)
    else GetStringChunks(window.value)
  }
}
