/**
 * The home page search hero: the destination options derived from the
 * tour categories, the search form, the path and query the search
 * submits to, and the quick-search shortcuts.
 */
module HeroSection {
  import opened Options
  import opened Text
  import opened Seqs
  import opened Remote

  datatype DestinationOption = DestinationOption(value: string, labelText: string)

  /** The display name of a category: three have a fixed name, any other is shown as it is. */
  function CategoryLabel(category: string): (r: string)
    ensures category == "mountain-climbing" ==> r == "Mount Kilimanjaro"
    ensures category == "safari" ==> r == "Safari Parks"
    ensures category == "day-trips" ==> r == "Day Trips"
    ensures category !in {"mountain-climbing", "safari", "day-trips"} ==> r == category
  {
    if category == "mountain-climbing" then "Mount Kilimanjaro"
    else if category == "safari" then "Safari Parks"
    else if category == "day-trips" then "Day Trips"
    else category
  }

  function ToOption(category: string): DestinationOption {
    DestinationOption(category, CategoryLabel(category))
  }

  const FallbackOptions := [
    DestinationOption("mountain-climbing", "Mount Kilimanjaro"),
    DestinationOption("safari", "Safari Parks"),
    DestinationOption("day-trips", "Day Trips")]

  function ToOptions(categories: seq<string>): (r: seq<DestinationOption>)
    ensures |r| == |categories|
    ensures forall i :: 0 <= i < |r| ==> r[i].value == categories[i] && r[i] == ToOption(categories[i])
  {
    seq(|categories|, i requires 0 <= i < |categories| => ToOption(categories[i]))
  }

  /** The options after the load of the tour categories (one category per tour). */
  function DestinationOptions(reply: Reply<seq<string>>): (r: seq<DestinationOption>)
    ensures reply.error.Some? ==> r == FallbackOptions
    ensures reply.error.None? ==> |r| <= |RowsOr(reply.data)|
    ensures forall i :: 0 <= i < |r| ==> r[i] == ToOption(r[i].value)
  {
    if reply.error.Some? then FallbackOptions
    else
      DistinctNoLonger(RowsOr(reply.data));
      ToOptions(Distinct(RowsOr(reply.data)))
  }

  /**
   * After a successful load there is one option per distinct category,
   * in the order the categories first occur among the tours.
   */
  lemma OptionsAreDistinctCategories(reply: Reply<seq<string>>)
    requires reply.error.None?
    ensures forall c :: c in RowsOr(reply.data) <==>
              exists i :: 0 <= i < |DestinationOptions(reply)| && DestinationOptions(reply)[i].value == c
    ensures forall i, j :: 0 <= i < j < |DestinationOptions(reply)| ==>
              DestinationOptions(reply)[i].value != DestinationOptions(reply)[j].value
    ensures forall i, j :: 0 <= i < j < |DestinationOptions(reply)| ==>
              DestinationOptions(reply)[i].value in RowsOr(reply.data) &&
              DestinationOptions(reply)[j].value in RowsOr(reply.data) &&
              FirstIndex(RowsOr(reply.data), DestinationOptions(reply)[i].value) <
              FirstIndex(RowsOr(reply.data), DestinationOptions(reply)[j].value)
  {
    var categories := RowsOr(reply.data);
    var d := Distinct(categories);
    var r := DestinationOptions(reply);
    assert r == ToOptions(d);
    forall c | c in categories ensures exists i :: 0 <= i < |r| && r[i].value == c {
      var i :| 0 <= i < |d| && d[i] == c;
      assert r[i].value == c;
    }
  }

  /** Removing repeats never lengthens a list. */
  lemma {:induction false} DistinctNoLonger<T(!new)>(s: seq<T>)
    ensures |Distinct(s)| <= |s|
  {
    if s != [] {
      DistinctNoLonger(s[..|s| - 1]);
    }
  }

  datatype SearchForm = SearchForm(destination: string, checkIn: string, checkOut: string, guests: string)

  const InitialForm := SearchForm("", "", "", "1")

  datatype Field = DestinationField | CheckInField | CheckOutField | GuestsField

  function WithField(form: SearchForm, field: Field, value: string): (r: SearchForm)
    ensures field == DestinationField ==> r == form.(destination := value)
    ensures field == CheckInField ==> r == form.(checkIn := value)
    ensures field == CheckOutField ==> r == form.(checkOut := value)
    ensures field == GuestsField ==> r == form.(guests := value)
  {
    match field
    case DestinationField => form.(destination := value)
    case CheckInField => form.(checkIn := value)
    case CheckOutField => form.(checkOut := value)
    case GuestsField => form.(guests := value)
  }

  /** The query parameters of a search, in the order they are set; an empty field sets none. */
  function QueryParams(form: SearchForm): (r: seq<(string, string)>)
    ensures forall i :: 0 <= i < |r| ==> r[i].1 != ""
    ensures ("category", form.destination) in r <==> form.destination != ""
    ensures ("from", form.checkIn) in r <==> form.checkIn != ""
    ensures ("to", form.checkOut) in r <==> form.checkOut != ""
    ensures ("guests", form.guests) in r <==> form.guests != ""
    ensures r == [] <==> form.destination == "" && form.checkIn == "" && form.checkOut == "" && form.guests == ""
  {
    Param("category", form.destination) + Param("from", form.checkIn) +
    Param("to", form.checkOut) + Param("guests", form.guests)
  }

  /** `if (value) params.set(name, value)` on a fresh parameter list. */
  function Param(name: string, value: string): (r: seq<(string, string)>)
    ensures |r| <= 1
    ensures forall pair :: pair in r ==> pair == (name, value) && value != ""
    ensures value != "" ==> (name, value) in r
  {
    if value != "" then [(name, value)] else []
  }

  /** `name=value` pairs joined by `&`; percent-encoding is not modelled. */
  function QueryString(params: seq<(string, string)>): (q: string)
    ensures q == "" <==> params == []
  {
    if params == [] then ""
    else
      var first := params[0].0 + "=" + params[0].1;
      assert first[|params[0].0|] == '=';
      if |params| == 1 then first else first + "&" + QueryString(params[1..])
  }

  /** The address a search opens: the category page when a destination is chosen, the tour list otherwise. */
  function SearchTarget(form: SearchForm): (path: string)
    ensures form.destination != "" ==> "/tours/" + form.destination <= path
    ensures form.destination == "" ==> "/tours" <= path
    ensures QueryParams(form) == [] ==> path == if form.destination != "" then "/tours/" + form.destination else "/tours"
  {
    var query := QueryString(QueryParams(form));
    var suffix := if query != "" then "?" + query else "";
    if form.destination != "" then "/tours/" + form.destination + suffix else "/tours" + suffix
  }

  /** The shortcut buttons: "Beach" clears the destination. */
  function QuickDestination(search: string): (r: string)
    ensures search == "Kilimanjaro" ==> r == "mountain-climbing"
    ensures search == "Safari" ==> r == "safari"
    ensures search == "Day Trips" ==> r == "day-trips"
    ensures search !in {"Kilimanjaro", "Safari", "Day Trips"} ==> r == ""
  {
    if search == "Kilimanjaro" then "mountain-climbing"
    else if search == "Safari" then "safari"
    else if search == "Day Trips" then "day-trips"
    else ""
  }

  /** Every shortcut other than "Beach" picks one of the fallback options. */
  lemma QuickSearchesAreOptions()
    ensures forall s :: s in ["Kilimanjaro", "Safari", "Day Trips"] ==>
              exists i :: 0 <= i < |FallbackOptions| && FallbackOptions[i].value == QuickDestination(s)
  {
    assert FallbackOptions[0].value == QuickDestination("Kilimanjaro");
    assert FallbackOptions[1].value == QuickDestination("Safari");
    assert FallbackOptions[2].value == QuickDestination("Day Trips");
  }

  /** `if (value) params.set(name, value)`: an empty field sets nothing. */
  method SetParam(params: seq<(string, string)>, name: string, value: string)
    returns (r: seq<(string, string)>)
    ensures r == params + Param(name, value)
  {
    r := params;
    if value != "" {
      r := r + [(name, value)];
    }
  }

  class Hero {
    var form: SearchForm
    var options: seq<DestinationOption>
    var searching: bool
    var navigatedTo: seq<string>

    constructor()
      ensures form == InitialForm && options == [] && !searching && navigatedTo == []
    {
      form := InitialForm;
      options := [];
      searching := false;
      navigatedTo := [];
    }

    method FetchDestinations(reply: Reply<seq<string>>)
      modifies this
      ensures options == DestinationOptions(reply)
      ensures form == old(form) && searching == old(searching) && navigatedTo == old(navigatedTo)
    {
      options := DestinationOptions(reply);
    }

    /** `handleInputChange`: only the named field changes. */
    method HandleInputChange(field: Field, value: string)
      modifies this
      ensures form == WithField(old(form), field, value)
      ensures options == old(options) && searching == old(searching) && navigatedTo == old(navigatedTo)
    {
      form := WithField(form, field, value);
    }

    method QuickSearch(search: string)
      modifies this
      ensures form == old(form).(destination := QuickDestination(search))
      ensures options == old(options) && searching == old(searching) && navigatedTo == old(navigatedTo)
    {
      HandleInputChange(DestinationField, QuickDestination(search));
    }

    /** `handleSearchSubmit`: the parameters are set one field at a time, then the page navigates. */
    method HandleSearchSubmit()
      modifies this
      ensures navigatedTo == old(navigatedTo) + [SearchTarget(form)]
      ensures !searching && form == old(form) && options == old(options)
    {
      searching := true;
      var params: seq<(string, string)> := [];
      params := SetParam(params, "category", form.destination);
      params := SetParam(params, "from", form.checkIn);
      params := SetParam(params, "to", form.checkOut);
      params := SetParam(params, "guests", form.guests);
      assert params == QueryParams(form) by {
        assert [] + Param("category", form.destination) == Param("category", form.destination);
      }
      var query := QueryString(params);
      var suffix := if query != "" then "?" + query else "";
      if form.destination != "" {
        navigatedTo := navigatedTo + ["/tours/" + form.destination + suffix];
      } else {
        navigatedTo := navigatedTo + ["/tours" + suffix];
      }
      searching := false;
    }
  }
}
