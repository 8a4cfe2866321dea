/** Vocabulary shared by every model: optional values, outcomes and a few sequence facts. */
module Common {

  datatype Option<+T> = None | Some(value: T)

  /** The result of an operation that either yields a value or raises one of the program's errors. */
  datatype Result<+T, +E> = Success(value: T) | Failure(error: E)

  function Max(a: int, b: int): (r: int)
    ensures r >= a && r >= b && (r == a || r == b)
  {
    if a >= b then a else b
  }

  function Min(a: int, b: int): (r: int)
    ensures r <= a && r <= b && (r == a || r == b)
  {
    if a <= b then a else b
  }

  ghost predicate Distinct<T(!new)>(s: seq<T>) {
    forall i, j :: 0 <= i < j < |s| ==> s[i] != s[j]
  }

  /** The operational states of an event. */
  datatype EventStatus =
    | AwaitingSignature | Scheduled | AwaitingBalance | InProgress | Extended | Settled | Cancelled
}
