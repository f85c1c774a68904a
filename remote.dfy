/**
 * What a call into the hosted backend gives back.  The backend itself is
 * not modelled: each screen receives the answer of its call as an input.
 */
module Remote {
  import opened Options

  /** The `error` object of a failed call; only its message is ever read. */
  datatype Failure = Failure(message: string)

  /** `{ data, error }`, the shape every backend call resolves with. */
  datatype Reply<T> = Reply(data: Option<T>, error: Option<Failure>)

  /** `error.message || fallback`. */
  function MessageOr(e: Failure, fallback: string): (r: string)
    ensures e.message != "" ==> r == e.message
    ensures e.message == "" ==> r == fallback
  {
    OrString(e.message, fallback)
  }

  /** `data || []` on a list result. */
  function RowsOr<T>(data: Option<seq<T>>): (r: seq<T>)
    ensures data.Some? ==> r == data.value
    ensures data.None? ==> r == []
  {
    match data
    case Some(rows) => rows
    case None => []
  }

  /** How an awaited call ended: it threw, or it returned a value. */
  datatype Outcome<T> = Threw | Returned(value: T)
}
