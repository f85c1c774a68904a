/**
 * The destination editor.  Unlike the other editors it keeps its fields in
 * a plain record (here a map from field names to values, with the nested
 * `location` record as a second map), updates them one input at a time,
 * and takes the slug verbatim from its own input.
 */
module DestinationFormPage {
  import opened Options
  import opened Text
  import opened Seqs
  import opened Remote
  import opened FormValues

  /** `"location." + key`: the input names that address the nested location record. */
  const LocationPrefix := "location."

  /** `item => item.trim()`: a line holding something other than white space. */
  function NotBlank(line: string): bool { !IsBlank(line) }

  /** `value.split('\n').filter(item => item.trim())`: the non-blank lines, untrimmed and in order. */
  function ArrayItems(value: string): (r: seq<string>)
    ensures forall x :: x in r <==> x in Split(value, '\n') && !IsBlank(x)
    ensures forall x :: multiset(r)[x] == if IsBlank(x) then 0 else multiset(Split(value, '\n'))[x]
    ensures IsSubsequence(r, Split(value, '\n'))
    ensures forall i :: 0 <= i < |r| ==> '\n' !in r[i]
  {
    var lines := Split(value, '\n');
    FilterMultiset(lines, NotBlank);
    var r := Filter(lines, NotBlank);
    assert forall i :: 0 <= i < |r| ==> r[i] in lines;
    r
  }

  /**
   * The lines the text area shows, `items.join('\n')`, read back by
   * `ArrayItems` give the list again when every item is non-blank and on
   * one line.
   */
  lemma ArrayItemsRoundTrip(items: seq<string>)
    requires forall i :: 0 <= i < |items| ==> !IsBlank(items[i]) && '\n' !in items[i]
    ensures ArrayItems(Join(items, "\n")) == items
  {
    if items == [] {
      assert Split("", '\n') == [""];
      assert IsBlank("");
    } else {
      SplitJoin(items, '\n');
      FilterKeepsAll(items, NotBlank);
    }
  }

  /** The key a `location.<key>` input name addresses: the text up to the next `.`. */
  function LocationKey(name: string): (r: Option<string>)
    ensures r.Some? <==> LocationPrefix <= name
    ensures r.Some? ==> r.value <= name[|LocationPrefix|..] && '.' !in r.value
    ensures r.Some? && '.' !in name[|LocationPrefix|..] ==> r.value == name[|LocationPrefix|..]
  {
    if LocationPrefix <= name then
      SplitAfterPrefix(name);
      Some(Split(name, '.')[1])
    else None
  }

  /** `name.split('.')[1]` is the first `.`-separated piece after the prefix. */
  lemma SplitAfterPrefix(name: string)
    requires LocationPrefix <= name
    ensures |Split(name, '.')| >= 2
    ensures Split(name, '.')[1] == Split(name[|LocationPrefix|..], '.')[0]
    ensures Split(name, '.')[1] <= name[|LocationPrefix|..]
    ensures '.' !in name[|LocationPrefix|..] ==> Split(name, '.')[1] == name[|LocationPrefix|..]
  {
    var rest := name[|LocationPrefix|..];
    assert name == "location" + ['.'] + rest;
    SplitPrefix("location", rest, '.');
    SplitFirst(rest, '.');
    if '.' !in rest {
      SplitWithoutSeparator(rest, '.');
    }
  }

  /** A stored destination: its top-level fields and its location record. */
  datatype StoredDestination = StoredDestination(id: string, fields: map<string, Value>, location: map<string, Value>)

  /** What is sent to be stored: the record exactly as the form holds it. */
  datatype DestinationPayload = DestinationPayload(fields: map<string, Value>, location: map<string, Value>)

  datatype Call =
    | ListDestinations
    | UpdateDestination(id: string, payload: DestinationPayload)
    | CreateDestination(payload: DestinationPayload)

  const ListPath := "/admin/destinations"
  const SaveFailed := "Failed to save destination. Please try again."

  /** The initial record of a new destination. */
  const DefaultFields: map<string, Value> := map[
    "name" := Str(""), "slug" := Str(""), "description" := Str(""),
    "short_description" := Str(""), "featured_image" := Str(""), "images" := Strs([]),
    "category" := Str("mountain"), "best_time_to_visit" := Str(""),
    "activities" := Strs([]), "highlights" := Strs([]), "difficulty_level" := Str("moderate"),
    "duration_recommended" := Str(""), "entry_requirements" := Strs([]),
    "accommodation_options" := Strs([]), "transportation" := Strs([]),
    "featured" := Flag(false), "active" := Flag(true)]

  const DefaultLocation: map<string, Value> := map[
    "latitude" := Num(0), "longitude" := Num(0), "region" := Str(""), "district" := Str("")]

  function HasId(id: string): StoredDestination -> bool {
    (d: StoredDestination) => d.id == id
  }

  function Located(rows: Option<seq<StoredDestination>>, id: string): (r: Option<StoredDestination>)
    ensures r.Some? ==> r.value.id == id && rows.Some? && r.value in rows.value
    ensures r.None? ==> rows.None? || forall d :: d in rows.value ==> d.id != id
    ensures r.Some? ==> exists i :: 0 <= i < |rows.value| && rows.value[i] == r.value &&
                                     forall j :: 0 <= j < i ==> rows.value[j].id != id
  {
    match rows
    case None => None
    case Some(list) => Find(list, HasId(id))
  }

  class DestinationForm {
    const routeId: Option<string>
    var loading: bool
    var submitting: bool
    var error: string
    var fields: map<string, Value>
    var location: map<string, Value>
    var alerts: seq<string>
    var navigatedTo: Option<string>
    var calls: seq<Call>

    /** `if (id)`: the form edits when the route carries a non-empty id. */
    predicate Editing()
    {
      routeId.Some? && routeId.value != ""
    }

    constructor(routeId: Option<string>)
      ensures this.routeId == routeId && loading == Editing() && !submitting && error == ""
      ensures fields == DefaultFields && location == DefaultLocation
      ensures alerts == [] && navigatedTo == None && calls == []
    {
      this.routeId := routeId;
      loading := routeId.Some? && routeId.value != "";
      submitting := false;
      error := "";
      fields := DefaultFields;
      location := DefaultLocation;
      alerts := [];
      navigatedTo := None;
      calls := [];
    }

    /** The edit view loads the destination list and replaces the record with the matching one. */
    method FetchDestination(reply: Reply<seq<StoredDestination>>)
      modifies this
      ensures !Editing() ==> loading == old(loading) && fields == old(fields) && location == old(location) &&
                             alerts == old(alerts) && navigatedTo == old(navigatedTo) && calls == old(calls)
      ensures Editing() ==> !loading && calls == old(calls) + [ListDestinations]
      ensures Editing() && reply.error.Some? ==>
        fields == old(fields) && location == old(location) &&
        alerts == old(alerts) + ["Failed to fetch destination data"] && navigatedTo == Some(ListPath)
      ensures Editing() && reply.error.None? && Located(reply.data, routeId.value).None? ==>
        fields == old(fields) && location == old(location) &&
        alerts == old(alerts) + ["Destination not found"] && navigatedTo == Some(ListPath)
      ensures Editing() && reply.error.None? && Located(reply.data, routeId.value).Some? ==>
        fields == Located(reply.data, routeId.value).value.fields &&
        location == Located(reply.data, routeId.value).value.location &&
        alerts == old(alerts) && navigatedTo == old(navigatedTo)
    {
      if !Editing() {
        return;
      }
      calls := calls + [ListDestinations];
      if reply.error.Some? {
        alerts := alerts + ["Failed to fetch destination data"];
        navigatedTo := Some(ListPath);
      } else {
        var found := Located(reply.data, routeId.value);
        if found.Some? {
          fields := found.value.fields;
          location := found.value.location;
        } else {
          alerts := alerts + ["Destination not found"];
          navigatedTo := Some(ListPath);
        }
      }
      loading := false;
    }

    /**
     * A text input changed.  `asNumber` is what `Number(value)` gives, or
     * `None` when that is not a number; only location inputs use it.
     */
    method HandleInputChange(name: string, value: string, asNumber: Option<int>)
      modifies this
      ensures LocationKey(name).Some? ==>
        fields == old(fields) &&
        location == old(location)[LocationKey(name).value := if asNumber.Some? then Num(asNumber.value) else Str(value)]
      ensures LocationKey(name).None? ==>
        fields == old(fields)[name := Str(value)] && location == old(location)
      ensures alerts == old(alerts) && calls == old(calls) && error == old(error)
    {
      var key := LocationKey(name);
      if key.Some? {
        location := location[key.value := if asNumber.Some? then Num(asNumber.value) else Str(value)];
      } else {
        fields := fields[name := Str(value)];
      }
    }

    method HandleCheckboxChange(name: string, checked: bool)
      modifies this
      ensures fields == old(fields)[name := Flag(checked)] && location == old(location)
      ensures alerts == old(alerts) && calls == old(calls) && error == old(error)
    {
      fields := fields[name := Flag(checked)];
    }

    method HandleArrayInput(name: string, value: string)
      modifies this
      ensures fields == old(fields)[name := Strs(ArrayItems(value))] && location == old(location)
      ensures alerts == old(alerts) && calls == old(calls) && error == old(error)
    {
      fields := fields[name := Strs(ArrayItems(value))];
    }

    /**
     * Saves the record as it stands (updated when editing, created
     * otherwise); on failure the error is shown and the form stays.
     */
    method HandleSubmit(reply: Option<Failure>)
      modifies this
      ensures !submitting && fields == old(fields) && location == old(location)
      ensures calls == old(calls) + [SaveCall(DestinationPayload(old(fields), old(location)))]
      ensures reply.None? ==> error == "" && alerts == old(alerts) + [SavedAlert()] && navigatedTo == Some(ListPath)
      ensures reply.Some? ==> error == MessageOr(reply.value, SaveFailed) && alerts == old(alerts) &&
                              navigatedTo == old(navigatedTo)
    {
      submitting := true;
      error := "";
      calls := calls + [SaveCall(DestinationPayload(fields, location))];
      if reply.None? {
        alerts := alerts + [SavedAlert()];
        navigatedTo := Some(ListPath);
      } else {
        error := MessageOr(reply.value, SaveFailed);
      }
      submitting := false;
    }

    function SaveCall(payload: DestinationPayload): (c: Call)
      ensures Editing() ==> c == UpdateDestination(routeId.value, payload)
      ensures !Editing() ==> c == CreateDestination(payload)
    {
      if Editing() then UpdateDestination(routeId.value, payload) else CreateDestination(payload)
    }

    function SavedAlert(): string
    {
      if Editing() then "Destination updated successfully" else "Destination created successfully"
    }
  }
}
