/**
 * The tour package editor: the itinerary it edits day by day, loading an
 * existing package for editing, and saving the package.
 */
module TourFormPage {
  import opened Options
  import opened Seqs
  import opened Remote
  import opened Slug
  import opened FormValues
  import opened ValidationSchemas

  // ------------------------------------------------------------ itinerary

  /** One day of a tour's itinerary. */
  datatype Day = Day(
    day: int, title: string, description: string,
    activities: seq<string>, accommodation: string, meals: seq<string>)

  /** A change to one field of a day: `updateItineraryDay(index, field, value)`. */
  datatype DayEdit =
    | SetDayNumber(n: int)
    | SetTitle(title: string)
    | SetDescription(description: string)
    | SetActivities(activities: seq<string>)
    | SetAccommodation(accommodation: string)
    | SetMeals(meals: seq<string>)

  /** The days are numbered 1, 2, ..., n in list order. */
  predicate Numbered(days: seq<Day>) {
    forall i :: 0 <= i < |days| ==> days[i].day == i + 1
  }

  /** The blank day `addItineraryDay` appends as day `n`. */
  function NewDay(n: int): (d: Day)
    ensures d.day == n
    ensures d.title == "" && d.description == "" && d.accommodation == ""
    ensures d.activities == [""] && d.meals == [""]
  {
    Day(n, "", "", [""], "", [""])
  }

  /** `{ ...day, [field]: value }`. */
  function Edit(d: Day, e: DayEdit): (r: Day)
    ensures r.day == if e.SetDayNumber? then e.n else d.day
    ensures r.title == if e.SetTitle? then e.title else d.title
    ensures r.description == if e.SetDescription? then e.description else d.description
    ensures r.activities == if e.SetActivities? then e.activities else d.activities
    ensures r.accommodation == if e.SetAccommodation? then e.accommodation else d.accommodation
    ensures r.meals == if e.SetMeals? then e.meals else d.meals
  {
    match e
    case SetDayNumber(n) => d.(day := n)
    case SetTitle(t) => d.(title := t)
    case SetDescription(t) => d.(description := t)
    case SetActivities(a) => d.(activities := a)
    case SetAccommodation(t) => d.(accommodation := t)
    case SetMeals(m) => d.(meals := m)
  }

  /** `days.filter((_, i) => i !== index)`. */
  function Without(days: seq<Day>, index: int): (r: seq<Day>)
    ensures 0 <= index < |days| ==> |r| == |days| - 1
    ensures 0 <= index < |days| ==> forall i :: 0 <= i < |r| ==> r[i] == if i < index then days[i] else days[i + 1]
    ensures !(0 <= index < |days|) ==> r == days
  {
    if 0 <= index < |days| then days[..index] + days[index + 1..] else days
  }

  /** The days with their numbers reset to their positions. */
  function Renumbered(days: seq<Day>): (r: seq<Day>)
    ensures |r| == |days|
    ensures forall i :: 0 <= i < |r| ==> r[i] == days[i].(day := i + 1)
  {
    seq(|days|, i requires 0 <= i < |days| => days[i].(day := i + 1))
  }

  /** Appending the blank day keeps a numbered itinerary numbered. */
  lemma AddKeepsNumbering(days: seq<Day>)
    requires Numbered(days)
    ensures Numbered(days + [NewDay(|days| + 1)])
  {
  }

  /** Removing a day and renumbering leaves the days numbered, whatever they were. */
  lemma RemoveNumbers(days: seq<Day>, index: int)
    ensures Numbered(Renumbered(Without(days, index)))
  {
  }

  /**
   * Removing a day keeps every other day, in order, apart from its number:
   * the days before `index` keep their position, the later ones move up.
   */
  lemma RemoveKeepsOthers(days: seq<Day>, index: int, i: int)
    requires 0 <= index < |days| && 0 <= i < |days| && i != index
    ensures var r := Renumbered(Without(days, index));
      var j := if i < index then i else i - 1;
      0 <= j < |r| && r[j] == days[i].(day := j + 1)
  {
  }

  /** A field edit other than the day number keeps a numbered itinerary numbered. */
  lemma EditKeepsNumbering(days: seq<Day>, index: int, e: DayEdit)
    requires Numbered(days) && 0 <= index < |days| && !e.SetDayNumber?
    ensures Numbered(days[index := Edit(days[index], e)])
  {
    assert Edit(days[index], e).day == days[index].day;
  }

  // --------------------------------------------------------- loading, saving

  /** A stored package as the list of packages returns it. */
  datatype StoredTour = StoredTour(id: string, fields: Record, itinerary: Option<seq<Day>>)

  /** What is sent to be stored: the form data, the derived slug and the itinerary. */
  datatype TourPayload = TourPayload(data: ValidationSchemas.Tour, slug: string, itinerary: seq<Day>)

  /** A call the editor makes to the backend. */
  datatype Call = ListTours | UpdateTour(id: string, payload: TourPayload) | CreateTour(payload: TourPayload)

  /** The keys loading a package into the form leaves alone. */
  const Skipped: set<string> := {"id", "created_at", "updated_at"}

  const ListPath := "/admin/tours"
  const SaveFailed := "Failed to save tour package. Please try again."

  /** `t => t.id === id`. */
  function HasId(id: string): StoredTour -> bool {
    (t: StoredTour) => t.id == id
  }

  /** The package the edit view loads, if the list holds one with the id. */
  function Located(rows: Option<seq<StoredTour>>, id: string): (r: Option<StoredTour>)
    ensures r.Some? ==> r.value.id == id && rows.Some? && r.value in rows.value
    ensures r.None? ==> rows.None? || forall t :: t in rows.value ==> t.id != id
    ensures r.Some? ==> exists i :: 0 <= i < |rows.value| && rows.value[i] == r.value &&
                                     forall j :: 0 <= j < i ==> rows.value[j].id != id
  {
    match rows
    case None => None
    case Some(list) => Find(list, HasId(id))
  }

  /** The payload saved for valid form data: the slug is the title's slug, which is its own slug. */
  function Payload(data: ValidationSchemas.Tour, itinerary: seq<Day>): (p: TourPayload)
    ensures p.data == data && p.itinerary == itinerary
    ensures p.slug == Slugify(data.title)
    ensures Slugify(p.slug) == p.slug
  {
    SlugifyIdempotent(data.title);
    TourPayload(data, Slugify(data.title), itinerary)
  }

  class TourForm {
    /** The `:id` route parameter; the form edits when it is present and non-empty. */
    const routeId: Option<string>
    const form: Form
    var itinerary: seq<Day>
    var initialLoading: bool
    var loading: bool
    var issues: seq<Issue>
    var alerts: seq<string>
    var navigatedTo: Option<string>
    var calls: seq<Call>

    /** `const isEditing = !!id`. */
    predicate Editing()
    {
      routeId.Some? && routeId.value != ""
    }

    constructor(routeId: Option<string>, defaults: map<string, Value>)
      ensures this.routeId == routeId && fresh(form) && form.values == defaults
      ensures itinerary == [] && !loading && initialLoading == Editing()
      ensures issues == [] && alerts == [] && navigatedTo == None && calls == []
    {
      this.routeId := routeId;
      form := new Form(defaults);
      itinerary := [];
      loading := false;
      initialLoading := routeId.Some? && routeId.value != "";
      issues := [];
      alerts := [];
      navigatedTo := None;
      calls := [];
    }

    method AddItineraryDay()
      modifies this
      ensures itinerary == old(itinerary) + [NewDay(|old(itinerary)| + 1)]
      ensures Numbered(old(itinerary)) ==> Numbered(itinerary)
      ensures unchanged(this`alerts) && unchanged(this`calls) && navigatedTo == old(navigatedTo)
    {
      if Numbered(itinerary) {
        AddKeepsNumbering(itinerary);
      }
      itinerary := itinerary + [NewDay(|itinerary| + 1)];
    }

    method UpdateItineraryDay(index: int, e: DayEdit)
      requires 0 <= index < |itinerary|
      modifies this
      ensures itinerary == old(itinerary)[index := Edit(old(itinerary)[index], e)]
      ensures Numbered(old(itinerary)) && !e.SetDayNumber? ==> Numbered(itinerary)
      ensures unchanged(this`alerts) && unchanged(this`calls) && navigatedTo == old(navigatedTo)
    {
      if Numbered(itinerary) && !e.SetDayNumber? {
        EditKeepsNumbering(itinerary, index, e);
      }
      itinerary := itinerary[index := Edit(itinerary[index], e)];
    }

    /** Drops the day at `index` and renumbers the remaining days one by one. */
    method RemoveItineraryDay(index: int)
      modifies this
      ensures itinerary == Renumbered(Without(old(itinerary), index))
      ensures Numbered(itinerary)
      ensures unchanged(this`alerts) && unchanged(this`calls) && navigatedTo == old(navigatedTo)
    {
      var updated := Without(itinerary, index);
      ghost var kept := updated;
      var i := 0;
      while i < |updated|
        invariant 0 <= i <= |updated| && |updated| == |kept|
        invariant forall j :: 0 <= j < i ==> updated[j] == kept[j].(day := j + 1)
        invariant forall j :: i <= j < |updated| ==> updated[j] == kept[j]
      {
        updated := updated[i := updated[i].(day := i + 1)];
        i := i + 1;
      }
      itinerary := updated;
    }

    /** The edit view loads the package list and fills the form from the matching package. */
    method FetchTour(reply: Reply<seq<StoredTour>>)
      modifies this, form
      ensures !initialLoading
      ensures !Editing() ==> form.values == old(form.values) && itinerary == old(itinerary) &&
                             alerts == old(alerts) && navigatedTo == old(navigatedTo) && calls == old(calls)
      ensures Editing() ==> calls == old(calls) + [ListTours]
      ensures Editing() && reply.error.Some? ==>
        && form.values == old(form.values) && itinerary == old(itinerary)
        && alerts == old(alerts) + ["Failed to fetch tour data"] && navigatedTo == Some(ListPath)
      ensures Editing() && reply.error.None? && Located(reply.data, routeId.value).None? ==>
        && form.values == old(form.values) && itinerary == old(itinerary)
        && alerts == old(alerts) + ["Tour not found"] && navigatedTo == Some(ListPath)
      ensures Editing() && reply.error.None? && Located(reply.data, routeId.value).Some? ==>
        var t := Located(reply.data, routeId.value).value;
        && form.values == Overlay(old(form.values), t.fields, Skipped)
        && itinerary == RowsOr(t.itinerary)
        && alerts == old(alerts) && navigatedTo == old(navigatedTo)
    {
      if !Editing() {
        initialLoading := false;
        return;
      }
      initialLoading := true;
      calls := calls + [ListTours];
      if reply.error.Some? {
        alerts := alerts + ["Failed to fetch tour data"];
        navigatedTo := Some(ListPath);
      } else {
        var found := Located(reply.data, routeId.value);
        if found.None? {
          alerts := alerts + ["Tour not found"];
          navigatedTo := Some(ListPath);
        } else {
          form.Populate(found.value.fields, Skipped);
          itinerary := RowsOr(found.value.itinerary);
        }
      }
      initialLoading := false;
    }

    /**
     * `handleSubmit(onSubmit)`: data the schema rejects only shows its
     * issues; accepted data goes on to `OnSubmit`.
     */
    method HandleSubmit(data: ValidationSchemas.Tour, isUrl: string -> bool, reply: Option<Failure>)
      modifies this
      ensures issues == TourIssues(data, isUrl) && itinerary == old(itinerary)
      ensures issues != [] ==>
        loading == old(loading) && calls == old(calls) && alerts == old(alerts) && navigatedTo == old(navigatedTo)
      ensures issues == [] ==>
        && !loading
        && calls == old(calls) + [SaveCall(Payload(data, itinerary))]
        && alerts == old(alerts) + [SaveAlert(reply)]
        && navigatedTo == (if reply.None? then Some(ListPath) else old(navigatedTo))
    {
      var found := TourIssues(data, isUrl);
      issues := found;
      if found == [] {
        OnSubmit(data, reply);
      }
    }

    /**
     * Saves accepted data (updated when editing, created otherwise); the
     * list is shown only once the call succeeded.
     */
    method OnSubmit(data: ValidationSchemas.Tour, reply: Option<Failure>)
      modifies this
      ensures !loading && itinerary == old(itinerary) && issues == old(issues)
      ensures calls == old(calls) + [SaveCall(Payload(data, itinerary))]
      ensures alerts == old(alerts) + [SaveAlert(reply)]
      ensures navigatedTo == if reply.None? then Some(ListPath) else old(navigatedTo)
    {
      var call, alert := SaveCall(Payload(data, itinerary)), SaveAlert(reply);
      var target := if reply.None? then Some(ListPath) else navigatedTo;
      loading := true;
      calls, alerts, navigatedTo := calls + [call], alerts + [alert], target;
      loading := false;
    }

    /** Update when editing, create otherwise. */
    function SaveCall(payload: TourPayload): (c: Call)
      ensures Editing() ==> c == UpdateTour(routeId.value, payload)
      ensures !Editing() ==> c == CreateTour(payload)
    {
      if Editing() then UpdateTour(routeId.value, payload) else CreateTour(payload)
    }

    /** The message shown once the save call has answered. */
    function SaveAlert(reply: Option<Failure>): string
    {
      if reply.Some? then SaveFailed
      else if Editing() then "Tour package updated successfully!"
      else "Tour package created successfully!"
    }
  }
}
