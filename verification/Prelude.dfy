/** Small shared datatypes and the identifiers every component compares. */
module Prelude {
  datatype Option<+T> = None | Some(value: T)

  datatype Result<+T, +E> = Success(value: T) | Failure(error: E) {
    predicate IsFailure() { Failure? }

    function PropagateFailure<U>(): Result<U, E>
      requires Failure?
    {
      Failure(error)
    }

    function Extract(): T
      requires Success?
    {
      value
    }
  }

  /** An identifier is either supplied by a caller or derived from host-owned
      identity.  `Derived` stands for the fingerprint of a kind and its parts,
      which is taken to be injective. */
  datatype Id = Name(text: string) | Derived(kind: string, parts: seq<Id>)

  function Min(a: int, b: int): int { if a <= b then a else b }

  function Max(a: int, b: int): int { if a <= b then b else a }
}
