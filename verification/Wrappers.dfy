/** Failure-compatible datatypes and the few identifiers every component shares. */
module Wrappers {

  datatype Option<+T> = None | Some(value: T)

  datatype Result<+R, +E> = Success(value: R) | Failure(error: E) {

    predicate IsFailure() {
      Failure?
    }

    function PropagateFailure<U>(): Result<U, E>
      requires Failure?
    {
      Failure(this.error)
    }

    function Extract(): R
      requires Success?
    {
      value
    }
  }

  // A universally unique id. Only equality and the database's ordering are ever used.
  datatype Uuid = Uuid(bits: nat)

  // An id as text: in its canonical spelling, in another spelling of the same id, or not an id at all.
  datatype UuidText = Canonical(id: Uuid) | OtherSpelling(id: Uuid) | NotAnId

  // A point in time, in microseconds; the backend's datetimes resolve no finer.
  type Time = int

  type RobotId = string

  predicate NoDuplicates<T(==)>(s: seq<T>) {
    forall i, j :: 0 <= i < j < |s| ==> s[i] != s[j]
  }

  function Last<T>(s: seq<T>): T
    requires s != []
  {
    s[|s| - 1]
  }
}
