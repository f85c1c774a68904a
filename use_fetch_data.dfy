/**
 * The fetch-on-mount hook: it runs its producer when mounted and again
 * whenever its dependency list changes, and keeps the last data, the
 * loading flag and the last error.  Each run settles before the next
 * starts.
 */
module FetchDataHook {
  import opened Options
  import opened Remote

  const Generic := "An error occurred"

  /** What a failed producer threw: an `Error` with its message, or any other value. */
  datatype Thrown = ErrorValue(message: string) | OtherValue

  /** The error the hook exposes: an `Error` as it is, anything else wrapped with the generic message. */
  function AsError(t: Thrown): (e: string)
    ensures t.ErrorValue? ==> e == t.message
    ensures t.OtherValue? ==> e == Generic
  {
    match t
    case ErrorValue(m) => m
    case OtherValue => Generic
  }

  /** How one run of the producer settled. */
  datatype Settle<T> = Resolved(value: T) | Rejected(reason: Thrown)

  class FetchData<T, D(==)> {
    var data: Option<T>
    var loading: bool
    var error: Option<string>
    var dependencies: seq<D>
    var runs: nat

    constructor(dependencies: seq<D>)
      ensures data.None? && loading && error.None?
      ensures this.dependencies == dependencies && runs == 0
    {
      data := None;
      loading := true;
      error := None;
      this.dependencies := dependencies;
      runs := 0;
    }

    /** One run of the effect. */
    method Run(outcome: Settle<T>)
      modifies this
      ensures !loading && runs == old(runs) + 1 && dependencies == old(dependencies)
      ensures outcome.Resolved? ==> data == Some(outcome.value) && error.None?
      ensures outcome.Rejected? ==> data == old(data) && error == Some(AsError(outcome.reason))
    {
      loading := true;
      error := None;
      runs := runs + 1;
      if outcome.Resolved? {
        data := Some(outcome.value);
      } else {
        error := Some(AsError(outcome.reason));
      }
      loading := false;
    }

    /** A render with a dependency list; the effect is due again exactly when the list differs. */
    method Render(next: seq<D>) returns (rerun: bool)
      modifies this
      ensures rerun <==> next != old(dependencies)
      ensures dependencies == next
      ensures data == old(data) && loading == old(loading) && error == old(error) && runs == old(runs)
    {
      rerun := next != dependencies;
      dependencies := next;
    }
  }

  /** A failed refresh keeps the data of the last successful one and shows the error beside it. */
  method StaleDataKept<T, D(==)>(hook: FetchData<T, D>, v: T, t: Thrown)
    modifies hook
    ensures hook.data == Some(v) && hook.error == Some(AsError(t)) && !hook.loading
  {
    hook.Run(Resolved(v));
    hook.Run(Rejected(t));
  }
}
