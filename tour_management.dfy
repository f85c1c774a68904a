/**
 * The tour package list of the admin area: its filters, and the delete and
 * toggle actions that patch the loaded list once the backend accepted them.
 */
module TourManagementPage {
  import opened Options
  import opened Text
  import opened Seqs
  import opened Remote
  import opened Rows

  /** The fields of a tour package the list reads. */
  datatype Tour = Tour(
    id: string, title: string, description: string, category: string,
    difficulty: string, featured: bool, active: bool)

  function TourId(t: Tour): string { t.id }

  /** The filter of the list: a search term, a category, a difficulty and "featured only". */
  predicate Matches(t: Tour, term: string, category: string, difficulty: string, featuredOnly: bool) {
    && (Contains(Lower(t.title), Lower(term)) || Contains(Lower(t.description), Lower(term)))
    && (category == "all" || t.category == category)
    && (difficulty == "all" || t.difficulty == difficulty)
    && (!featuredOnly || t.featured)
  }

  function MatchesAll(term: string, category: string, difficulty: string, featuredOnly: bool): Tour -> bool {
    (t: Tour) => Matches(t, term, category, difficulty, featuredOnly)
  }

  /** `filteredTours`: the packages that pass every filter, in list order. */
  function Shown(tours: seq<Tour>, term: string, category: string, difficulty: string, featuredOnly: bool): (r: seq<Tour>)
    ensures forall t :: t in r <==> t in tours && Matches(t, term, category, difficulty, featuredOnly)
    ensures forall t :: multiset(r)[t] == if Matches(t, term, category, difficulty, featuredOnly) then multiset(tours)[t] else 0
    ensures IsSubsequence(r, tours) && |r| <= |tours|
  {
    FilterMultiset(tours, MatchesAll(term, category, difficulty, featuredOnly));
    Filter(tours, MatchesAll(term, category, difficulty, featuredOnly))
  }

  /** With the filters cleared every package is shown. */
  lemma ClearedShowsAll(tours: seq<Tour>)
    ensures Shown(tours, "", "all", "all", false) == tours
  {
    forall t | t in tours ensures Matches(t, "", "all", "all", false) {
      ContainsEmpty(Lower(t.title));
    }
    FilterKeepsAll(tours, MatchesAll("", "all", "all", false));
  }

  function WithActive(v: bool): Tour -> Tour { (t: Tour) => t.(active := v) }

  function WithFeatured(v: bool): Tour -> Tour { (t: Tour) => t.(featured := v) }

  /** Two successful featured toggles of a package, each from its shown state, restore the list. */
  lemma ToggleFeaturedTwice(tours: seq<Tour>, id: string, current: bool)
    requires forall t :: t in tours && t.id == id ==> t.featured == current
    ensures PatchId(PatchId(tours, TourId, id, WithFeatured(!current)), TourId, id, WithFeatured(current)) == tours
  {
    PatchIdUndone(tours, TourId, id, WithFeatured(!current), WithFeatured(current));
  }

  /** The same for the active flag. */
  lemma ToggleActiveTwice(tours: seq<Tour>, id: string, current: bool)
    requires forall t :: t in tours && t.id == id ==> t.active == current
    ensures PatchId(PatchId(tours, TourId, id, WithActive(!current)), TourId, id, WithActive(current)) == tours
  {
    PatchIdUndone(tours, TourId, id, WithActive(!current), WithActive(current));
  }

  const Gray := "bg-gray-100 text-gray-800"

  const Difficulties := ["easy", "moderate", "challenging", "extreme"]
  const Categories := ["mountain-climbing", "safari", "day-trips"]

  /** The badge colour of a difficulty; an unknown one is gray. */
  function DifficultyColor(difficulty: string): (r: string)
    ensures difficulty !in Difficulties <==> r == Gray
  {
    match difficulty
    case "easy" => "bg-green-100 text-green-800"
    case "moderate" => "bg-yellow-100 text-yellow-800"
    case "challenging" => "bg-orange-100 text-orange-800"
    case "extreme" => "bg-red-100 text-red-800"
    case _ => Gray
  }

  /** The badge colour of a category; an unknown one is gray. */
  function CategoryColor(category: string): (r: string)
    ensures category !in Categories <==> r == Gray
  {
    match category
    case "mountain-climbing" => "bg-blue-100 text-blue-800"
    case "safari" => "bg-green-100 text-green-800"
    case "day-trips" => "bg-teal-100 text-teal-800"
    case _ => Gray
  }

  datatype Call = ListTours | DeleteTour(id: string) | SetActive(id: string, v: bool) | SetFeatured(id: string, v: bool)

  class TourManagement {
    var tours: seq<Tour>
    var loading: bool
    var searchTerm: string
    var selectedCategory: string
    var selectedDifficulty: string
    var showFeaturedOnly: bool
    var alerts: seq<string>
    var calls: seq<Call>

    constructor()
      ensures tours == [] && loading && searchTerm == "" && selectedCategory == "all"
      ensures selectedDifficulty == "all" && !showFeaturedOnly && alerts == [] && calls == []
    {
      tours := [];
      loading := true;
      searchTerm := "";
      selectedCategory := "all";
      selectedDifficulty := "all";
      showFeaturedOnly := false;
      alerts := [];
      calls := [];
    }

    /** The list as shown; "Showing X of Y" never has X above Y. */
    function Filtered(): (r: seq<Tour>)
      reads this
      ensures IsSubsequence(r, tours) && |r| <= |tours|
    {
      Shown(tours, searchTerm, selectedCategory, selectedDifficulty, showFeaturedOnly)
    }

    /** On a failed load the list stays as it was and an alert is shown. */
    method FetchTours(reply: Reply<seq<Tour>>)
      modifies this
      ensures !loading && calls == old(calls) + [ListTours]
      ensures reply.error.None? ==> tours == RowsOr(reply.data) && alerts == old(alerts)
      ensures reply.error.Some? ==> tours == old(tours) &&
                                    alerts == old(alerts) + ["Failed to fetch tours. Please try again."]
      ensures searchTerm == old(searchTerm) && selectedCategory == old(selectedCategory)
      ensures selectedDifficulty == old(selectedDifficulty) && showFeaturedOnly == old(showFeaturedOnly)
    {
      loading := true;
      calls := calls + [ListTours];
      if reply.error.None? {
        tours := RowsOr(reply.data);
      } else {
        alerts := alerts + ["Failed to fetch tours. Please try again."];
      }
      loading := false;
    }

    /** `confirmed` is the answer to the confirmation dialog; without it nothing is called. */
    method HandleDelete(id: string, confirmed: bool, reply: Option<Failure>)
      modifies this
      ensures !confirmed ==> tours == old(tours) && calls == old(calls) && alerts == old(alerts)
      ensures confirmed ==> calls == old(calls) + [DeleteTour(id)]
      ensures confirmed && reply.None? ==>
        tours == DropId(old(tours), TourId, id) &&
        alerts == old(alerts) + ["Tour package deleted successfully!"]
      ensures confirmed && reply.Some? ==>
        tours == old(tours) && alerts == old(alerts) + ["Failed to delete tour package. Please try again."]
      ensures loading == old(loading) && searchTerm == old(searchTerm) && selectedCategory == old(selectedCategory)
      ensures selectedDifficulty == old(selectedDifficulty) && showFeaturedOnly == old(showFeaturedOnly)
    {
      if confirmed {
        calls := calls + [DeleteTour(id)];
        if reply.None? {
          tours := DropId(tours, TourId, id);
          alerts := alerts + ["Tour package deleted successfully!"];
        } else {
          alerts := alerts + ["Failed to delete tour package. Please try again."];
        }
      }
    }

    method ToggleActive(id: string, currentStatus: bool, reply: Option<Failure>)
      modifies this
      ensures calls == old(calls) + [SetActive(id, !currentStatus)]
      ensures reply.None? ==> tours == PatchId(old(tours), TourId, id, WithActive(!currentStatus)) && alerts == old(alerts)
      ensures reply.Some? ==> tours == old(tours) &&
                              alerts == old(alerts) + ["Failed to update tour status. Please try again."]
      ensures loading == old(loading) && searchTerm == old(searchTerm) && selectedCategory == old(selectedCategory)
      ensures selectedDifficulty == old(selectedDifficulty) && showFeaturedOnly == old(showFeaturedOnly)
    {
      calls := calls + [SetActive(id, !currentStatus)];
      if reply.None? {
        tours := PatchId(tours, TourId, id, WithActive(!currentStatus));
      } else {
        alerts := alerts + ["Failed to update tour status. Please try again."];
      }
    }

    method ToggleFeatured(id: string, currentStatus: bool, reply: Option<Failure>)
      modifies this
      ensures calls == old(calls) + [SetFeatured(id, !currentStatus)]
      ensures reply.None? ==> tours == PatchId(old(tours), TourId, id, WithFeatured(!currentStatus)) && alerts == old(alerts)
      ensures reply.Some? ==> tours == old(tours) &&
                              alerts == old(alerts) + ["Failed to update featured status. Please try again."]
      ensures loading == old(loading) && searchTerm == old(searchTerm) && selectedCategory == old(selectedCategory)
      ensures selectedDifficulty == old(selectedDifficulty) && showFeaturedOnly == old(showFeaturedOnly)
    {
      calls := calls + [SetFeatured(id, !currentStatus)];
      if reply.None? {
        tours := PatchId(tours, TourId, id, WithFeatured(!currentStatus));
      } else {
        alerts := alerts + ["Failed to update featured status. Please try again."];
      }
    }

    /** The "Clear Filters" button: afterwards every loaded package is shown. */
    method ClearFilters()
      modifies this
      ensures searchTerm == "" && selectedCategory == "all" && selectedDifficulty == "all" && !showFeaturedOnly
      ensures tours == old(tours) && alerts == old(alerts) && calls == old(calls) && loading == old(loading)
      ensures Filtered() == tours
    {
      searchTerm := "";
      selectedCategory := "all";
      selectedDifficulty := "all";
      showFeaturedOnly := false;
      ClearedShowsAll(tours);
    }
  }
}
