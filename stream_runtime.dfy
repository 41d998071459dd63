/**
 * The client chunk-connection registry that the stream-mode bootstrap script
 * installs: `__SWSR_CREATE_CONNECTIONS__` builds the global table
 * `window.__SWSR_CHUNK_CONNECTIONS__` from a list of chunk names, and each
 * connection's `resolve`/`reject` closures set its `status`, `data` and
 * `error` fields and settle its promise. The readable source and its
 * minified twin (Constants.MinifiedStreamRuntime) do the same.
 */
module StreamRuntime {
  import opened Wrappers
  import opened Js
  import opened Typings
  import opened Text

  /** The Error `reject(message)` builds: `new Error(message)` renamed `SwsrChunkError`. */
  function ChunkError(message: Option<string>): (e: JsError)
    ensures e.name == "SwsrChunkError"
    ensures e.message == NewError(message).message
  {
    JsError("SwsrChunkError", NewError(message).message)
  }

  /** A chunk connection: the object `__SWSR_CREATE_CONNECTION__` returns. */
  class Connection<V> {
    var status: int
    var data: Option<V>
    var error: Option<JsError>
    const promise: Promise<V>

    /** The status is one of the three codes, and a terminal status has its field set. */
    ghost predicate Valid()
      reads this
    {
      && 0 <= status <= 2
      && (status == Resolved.Code() ==> data.Some?)
      && (status == Rejected.Code() ==> error.Some?)
    }

    /** The fields agree with how the connection's promise settled. */
    ghost predicate Consistent()
      reads this, promise
    {
      match promise.settled
      case None => status == Pending.Code()
      case Some(Fulfilled(v)) => status == Resolved.Code() && data == Some(v)
      case Some(RejectedWith(r)) => status == Rejected.Code() && r.ErrorReason? && error == Some(r.error)
    }

    /** `__SWSR_CREATE_CONNECTION__()`. */
    constructor ()
      ensures Valid() && Consistent()
      ensures status == Pending.Code() && data == None && error == None
      ensures fresh(promise) && promise.settled == None
    {
      status := 0;
      data := None;
      error := None;
      promise := new Promise();
    }

    /**
     * The connection's `resolve(value)`. Nothing guards a second call: the
     * fields are overwritten although the promise keeps its first settlement.
     */
    method Resolve(value: V)
      requires Valid()
      modifies this, promise
      ensures Valid()
      ensures status == Resolved.Code() && data == Some(value) && error == old(error)
      ensures old(promise.settled).None? ==> promise.settled == Some(Fulfilled(value)) && Consistent()
      ensures old(promise.settled).Some? ==> promise.settled == old(promise.settled)
      ensures old(promise.settled).Some? && old(promise.settled).value.RejectedWith? ==> !Consistent()
    {
      status := 1;
      data := Some(value);
      promise.Settle(Fulfilled(value));
    }

    /** The connection's `reject(message)`, with the same lack of a guard. */
    method Reject(message: Option<string>)
      requires Valid()
      modifies this, promise
      ensures Valid()
      ensures status == Rejected.Code() && error == Some(ChunkError(message)) && data == old(data)
      ensures old(promise.settled).None? ==>
                promise.settled == Some(RejectedWith(ErrorReason(ChunkError(message)))) && Consistent()
      ensures old(promise.settled).Some? ==> promise.settled == old(promise.settled)
      ensures old(promise.settled).Some? && old(promise.settled).value.Fulfilled? ==> !Consistent()
    {
      status := 2;
      var e := ChunkError(message);
      error := Some(e);
      promise.Settle(RejectedWith(ErrorReason(e)));
    }
  }

  /** The page's registry: the global `window.__SWSR_CHUNK_CONNECTIONS__`. */
  class Registry<V> {
    /** `None` until the bootstrap script has run. */
    var connections: Option<map<string, Connection<V>>>

    ghost function Conns(): set<Connection<V>>
      reads this
    {
      if connections.Some? then connections.value.Values else {}
    }

    /** The connections and their promises. */
    ghost function Footprint(): set<object>
      reads this
    {
      Conns() + set c | c in Conns() :: c.promise
    }

    /** Every connection is valid, and no two names share a connection or a promise. */
    ghost predicate Valid()
      reads this, Conns()
    {
      connections.Some? ==>
        var t := connections.value;
        && (forall n :: n in t ==> t[n].Valid())
        && (forall n, m :: n in t && m in t && n != m ==> t[n] != t[m] && t[n].promise != t[m].promise)
    }

    /** The page before the bootstrap script: no table. */
    constructor ()
      ensures connections == None && Valid()
    {
      connections := None;
    }

    /**
     * `__SWSR_CREATE_CONNECTIONS__(names)`: replaces the table with one fresh
     * Pending connection per distinct name; for a repeated name the
     * connection created last wins. `created` lists the connections in
     * creation order.
     */
    method CreateConnections(names: seq<string>) returns (ghost created: seq<Connection<V>>)
      modifies this
      ensures Valid() && connections.Some?
      ensures connections.value.Keys == set k | 0 <= k < |names| :: names[k]
      ensures |created| == |names|
      ensures forall k :: 0 <= k < |names| && LastOccurrence(names, k) ==> connections.value[names[k]] == created[k]
      ensures forall c :: c in Conns() ==>
                && fresh(c) && fresh(c.promise)
                && c.status == Pending.Code() && c.data == None && c.error == None
                && c.promise.settled == None
    {
      var table: map<string, Connection<V>> := map[];
      created := [];
      var i := 0;
      while i < |names|
        invariant 0 <= i <= |names| && |created| == i
        invariant table.Keys == set k | 0 <= k < i :: names[k]
        invariant forall k :: 0 <= k < i && (forall j :: k < j < i ==> names[j] != names[k]) ==>
                    table[names[k]] == created[k]
        invariant forall c :: c in table.Values ==>
                    && fresh(c) && fresh(c.promise) && c.Valid()
                    && c.status == Pending.Code() && c.data == None && c.error == None
                    && c.promise.settled == None
        invariant forall n, m :: n in table && m in table && n != m ==>
                    table[n] != table[m] && table[n].promise != table[m].promise
      {
        var c := new Connection();
        table := table[names[i] := c];
        created := created + [c];
        i := i + 1;
      }
      connections := Some(table);
    }

    /**
     * The settlement script `window.__SWSR_CHUNK_CONNECTIONS__.<name>.resolve(value)`.
     * It throws a TypeError, changing nothing, when there is no table or no
     * such name; otherwise it resolves that one connection and nothing else.
     */
    method Resolve(name: string, value: V) returns (threw: bool)
      requires Valid()
      modifies Footprint()
      ensures Valid() && connections == old(connections)
      ensures threw <==> connections.None? || name !in connections.value
      ensures !threw ==>
                var c := connections.value[name];
                && c.status == Resolved.Code() && c.data == Some(value) && c.error == old(c.error)
                && (old(c.promise.settled).None? ==> c.promise.settled == Some(Fulfilled(value)))
                && (old(c.promise.settled).Some? ==> c.promise.settled == old(c.promise.settled))
      ensures threw ==> forall c :: c in Conns() ==> unchanged(c, c.promise)
      ensures forall n :: connections.Some? && n in connections.value && n != name ==>
                unchanged(connections.value[n], connections.value[n].promise)
    {
      if connections.None? || name !in connections.value {
        return true;
      }
      var c := connections.value[name];
      c.Resolve(value);
      threw := false;
    }

    /** The settlement script `window.__SWSR_CHUNK_CONNECTIONS__.<name>.reject(message)`. */
    method Reject(name: string, message: Option<string>) returns (threw: bool)
      requires Valid()
      modifies Footprint()
      ensures Valid() && connections == old(connections)
      ensures threw <==> connections.None? || name !in connections.value
      ensures !threw ==>
                var c := connections.value[name];
                && c.status == Rejected.Code() && c.error == Some(ChunkError(message)) && c.data == old(c.data)
                && (old(c.promise.settled).None? ==>
                      c.promise.settled == Some(RejectedWith(ErrorReason(ChunkError(message)))))
                && (old(c.promise.settled).Some? ==> c.promise.settled == old(c.promise.settled))
      ensures threw ==> forall c :: c in Conns() ==> unchanged(c, c.promise)
      ensures forall n :: connections.Some? && n in connections.value && n != name ==>
                unchanged(connections.value[n], connections.value[n].promise)
    {
      if connections.None? || name !in connections.value {
        return true;
      }
      var c := connections.value[name];
      c.Reject(message);
      threw := false;
    }
  }
}
