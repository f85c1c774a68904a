/**
 * The list updates every admin screen applies after a successful backend
 * call: `rows.filter(r => r.id !== id)` and
 * `rows.map(r => r.id === id ? patch(r) : r)`.
 */
module Rows {
  import opened Seqs

  /** `rows.filter(r => r.id !== id)`. */
  function DropId<T(==,!new)>(rows: seq<T>, idOf: T -> string, id: string): (r: seq<T>)
    ensures forall x :: x in r <==> x in rows && idOf(x) != id
    ensures forall x :: multiset(r)[x] == if idOf(x) != id then multiset(rows)[x] else 0
    ensures IsSubsequence(r, rows)
    ensures (forall x :: x in rows ==> idOf(x) != id) ==> r == rows
  {
    var keep := (x: T) => idOf(x) != id;
    FilterMultiset(rows, keep);
    if forall x :: x in rows ==> keep(x) then
      FilterKeepsAll(rows, keep);
      Filter(rows, keep)
    else
      Filter(rows, keep)
  }

  /** `rows.map(r => r.id === id ? patch(r) : r)`. */
  function PatchId<T>(rows: seq<T>, idOf: T -> string, id: string, patch: T -> T): (r: seq<T>)
    ensures |r| == |rows|
    ensures forall i :: 0 <= i < |rows| && idOf(rows[i]) == id ==> r[i] == patch(rows[i])
    ensures forall i :: 0 <= i < |rows| && idOf(rows[i]) != id ==> r[i] == rows[i]
  {
    MapWhere(rows, (x: T) => idOf(x) == id, patch)
  }

  /**
   * Patching the same rows twice, the second patch undoing the first,
   * gives the list back.
   */
  lemma PatchIdUndone<T>(rows: seq<T>, idOf: T -> string, id: string, patch: T -> T, undo: T -> T)
    requires forall x :: idOf(patch(x)) == idOf(x)
    requires forall i :: 0 <= i < |rows| && idOf(rows[i]) == id ==> undo(patch(rows[i])) == rows[i]
    ensures PatchId(PatchId(rows, idOf, id, patch), idOf, id, undo) == rows
  {
    var once := PatchId(rows, idOf, id, patch);
    var twice := PatchId(once, idOf, id, undo);
    forall i | 0 <= i < |rows|
      ensures twice[i] == rows[i]
    {
      if idOf(rows[i]) == id {
        assert once[i] == patch(rows[i]);
      }
    }
  }
}
