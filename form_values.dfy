/**
 * The edit forms load a stored record into the form by walking its keys
 * in order and setting every key that is not skipped.  A record is the
 * list of its key/value pairs in key order; the form is a map from field
 * names to values.
 */
module FormValues {
  import opened Options

  /** A field value as the form holds it. */
  datatype Value =
    | Str(s: string)
    | Num(n: int)
    | Flag(b: bool)
    | Strs(items: seq<string>)
    | Missing
    | Nested   // any other structured value, copied as it is

  /** A stored record: its keys in `Object.keys` order, each with its value. */
  type Record = seq<(string, Value)>

  /** The value a record gives a key; when a key repeats, its last pair wins. */
  function Lookup(record: Record, key: string): (r: Option<Value>)
    ensures r.None? <==> forall i :: 0 <= i < |record| ==> record[i].0 != key
    ensures r.Some? ==> exists i :: 0 <= i < |record| && record[i] == (key, r.value)
  {
    if record == [] then None
    else
      var later := Lookup(record[1..], key);
      if later.Some? then
        assert forall i :: 1 <= i < |record| ==> record[i] == record[1..][i - 1];
        later
      else if record[0].0 == key then Some(record[0].1)
      else None
  }

  /**
   * The form after setting every pair of `record`, in order, whose key is
   * not in `skip`.
   */
  function Overlay(values: map<string, Value>, record: Record, skip: set<string>): (r: map<string, Value>)
    ensures forall k :: k in skip ==> (k in r <==> k in values) && (k in values ==> r[k] == values[k])
    ensures forall k :: k !in skip && Lookup(record, k).Some? ==> k in r && r[k] == Lookup(record, k).value
    ensures forall k :: Lookup(record, k).None? ==> (k in r <==> k in values) && (k in values ==> r[k] == values[k])
    decreases |record|
  {
    if record == [] then values
    else
      var (key, v) := record[0];
      var next := if key in skip then values else values[key := v];
      Overlay(next, record[1..], skip)
  }

  /** The values of a form, which loading a record updates field by field. */
  class Form {
    var values: map<string, Value>

    constructor(defaults: map<string, Value>)
      ensures values == defaults
    {
      values := defaults;
    }

    /** `Object.keys(record).forEach(key => { if (!skip(key)) setValue(key, record[key]) })`. */
    method Populate(record: Record, skip: set<string>)
      modifies this
      ensures values == Overlay(old(values), record, skip)
    {
      var i := 0;
      while i < |record|
        invariant 0 <= i <= |record|
        invariant Overlay(values, record[i..], skip) == Overlay(old(values), record, skip)
      {
        assert record[i..][1..] == record[i + 1..];
        var (key, v) := record[i];
        if key !in skip {
          values := values[key := v];
        }
        i := i + 1;
      }
    }
  }
}
