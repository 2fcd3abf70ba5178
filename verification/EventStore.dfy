/** The store both control streams live in, and what can happen around one
    append. */
module EventStore {
  import opened Prelude
  import opened Budget
  import opened Directory
  import opened Projection

  datatype Fault = Fine | LostBeforeCommit | LostAfterCommit

  /** Everything around one operation: whether it can load the streams at all,
      what other writers land first, what the store does with our write, whether
      the stream can be read again to explain a failed append and to return the
      result of a good one, and whether the caller is cancelled while it waits. */
  datatype Weather<+T> = Weather(
    loads: bool, rivals: seq<T>, fault: Fault, rereads: bool, readsBack: bool, cancelled: bool)
  {
    /** A compare-and-swap lands exactly when no rival came first. */
    predicate Lands() { rivals == [] && fault != LostBeforeCommit }

    /** And is acknowledged when nothing was lost on the way back. */
    predicate Acknowledged() { rivals == [] && fault == Fine }

    /** Nothing goes wrong. */
    predicate Smooth() { loads && Acknowledged() && readsBack && !cancelled }

    /** A write that landed goes untold when its caller learns neither that it
        did nor that it did not: an acknowledged one cannot be read back, or an
        unacknowledged one cannot be looked up. */
    predicate Untold() { !cancelled && if fault == Fine then !readsBack else !rereads }
  }

  /** The Budget ledger's fact log and the Directory's creation log. */
  class Store {
    var log: seq<Fact>
    var agents: seq<Creation>

    constructor ()
      ensures log == [] && agents == []
    {
      log, agents := [], [];
    }

    ghost predicate Readable()
      reads this
    {
      Rebuilt(agents).Success? && Replay(log, Rebuilt(agents).value).Success?
    }
  }
}
