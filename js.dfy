/**
 * The few JavaScript runtime objects the code relies on: Error objects, the
 * reason a promise is rejected with, and promises themselves (a promise
 * settles at most once; later calls of its resolve/reject functions are
 * ignored).
 */
module Js {
  import opened Wrappers

  /** An `Error` object: its `name` and its `message`, which is always a string. */
  datatype JsError = JsError(name: string, message: string)

  /** `new Error(m)`: an undefined argument gives the empty message. */
  function NewError(message: Option<string>): (e: JsError)
    ensures e.name == "Error"
    ensures message.Some? ==> e.message == message.value
    ensures message.None? ==> e.message == ""
  {
    JsError("Error", if message.Some? then message.value else "")
  }

  /**
   * A value a promise is rejected with. Only its `message` property is ever
   * read: an Error always has one, any other value may not.
   */
  datatype Reason = ErrorReason(error: JsError) | OtherReason(message: Option<string>)

  /** `reason?.message`. */
  function MessageOf(r: Reason): (m: Option<string>)
    ensures r.ErrorReason? ==> m == Some(r.error.message)
  {
    match r
    case ErrorReason(e) => Some(e.message)
    case OtherReason(m) => m
  }

  /** How a promise settled. */
  datatype Settlement<V> = Fulfilled(value: V) | RejectedWith(reason: Reason)

  /** A promise, seen through the settlement it has reached, if any. */
  class Promise<V> {
    var settled: Option<Settlement<V>>

    constructor ()
      ensures settled == None
    {
      settled := None;
    }

    /** The resolve/reject function handed to a promise's executor: only the first call settles. */
    method Settle(s: Settlement<V>)
      modifies this
      ensures old(settled).None? ==> settled == Some(s)
      ensures old(settled).Some? ==> settled == old(settled)
    {
      if settled.None? {
        settled := Some(s);
      }
    }
  }
}
