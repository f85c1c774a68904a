/**
 * The travel guide list of the admin area: its filters, delete and the two
 * toggles, the category labels and the tag badges of each row.
 */
module TravelInfoManagementPage {
  import opened Options
  import opened Text
  import opened Seqs
  import opened Remote
  import opened Rows

  datatype Guide = Guide(
    id: string, title: string, excerpt: string, category: string,
    tags: seq<string>, featured: bool, active: bool)

  function GuideId(g: Guide): string { g.id }

  predicate Matches(g: Guide, term: string, category: string, featuredOnly: bool) {
    && (Contains(Lower(g.title), Lower(term)) || Contains(Lower(g.excerpt), Lower(term)))
    && (category == "all" || g.category == category)
    && (!featuredOnly || g.featured)
  }

  function MatchesAll(term: string, category: string, featuredOnly: bool): Guide -> bool {
    (g: Guide) => Matches(g, term, category, featuredOnly)
  }

  /** `filteredInfo`. */
  function Shown(guides: seq<Guide>, term: string, category: string, featuredOnly: bool): (r: seq<Guide>)
    ensures forall g :: g in r <==> g in guides && Matches(g, term, category, featuredOnly)
    ensures forall g :: multiset(r)[g] == if Matches(g, term, category, featuredOnly) then multiset(guides)[g] else 0
    ensures IsSubsequence(r, guides) && |r| <= |guides|
  {
    FilterMultiset(guides, MatchesAll(term, category, featuredOnly));
    Filter(guides, MatchesAll(term, category, featuredOnly))
  }

  lemma ClearedShowsAll(guides: seq<Guide>)
    ensures Shown(guides, "", "all", false) == guides
  {
    forall g | g in guides ensures Matches(g, "", "all", false) {
      ContainsEmpty(Lower(g.title));
    }
    FilterKeepsAll(guides, MatchesAll("", "all", false));
  }

  function WithActive(v: bool): Guide -> Guide { (g: Guide) => g.(active := v) }

  function WithFeatured(v: bool): Guide -> Guide { (g: Guide) => g.(featured := v) }

  lemma ToggleActiveTwice(guides: seq<Guide>, id: string, current: bool)
    requires forall g :: g in guides && g.id == id ==> g.active == current
    ensures PatchId(PatchId(guides, GuideId, id, WithActive(!current)), GuideId, id, WithActive(current)) == guides
  {
    PatchIdUndone(guides, GuideId, id, WithActive(!current), WithActive(current));
  }

  lemma ToggleFeaturedTwice(guides: seq<Guide>, id: string, current: bool)
    requires forall g :: g in guides && g.id == id ==> g.featured == current
    ensures PatchId(PatchId(guides, GuideId, id, WithFeatured(!current)), GuideId, id, WithFeatured(current)) == guides
  {
    PatchIdUndone(guides, GuideId, id, WithFeatured(!current), WithFeatured(current));
  }

  /** A category value with its display label. */
  datatype CategoryOption = CategoryOption(value: string, text: string)

  const CategoryTable := [
    CategoryOption("tips", "Travel Tips"),
    CategoryOption("packing", "Packing Guide"),
    CategoryOption("visa", "Visa & Entry"),
    CategoryOption("best-time", "Best Time to Visit"),
    CategoryOption("health-safety", "Health & Safety"),
    CategoryOption("currency", "Currency & Payments"),
    CategoryOption("weather", "Weather Information")]

  function HasValue(category: string): CategoryOption -> bool {
    (c: CategoryOption) => c.value == category
  }

  /** The label a table gives a category value, or the value itself when the table lacks it. */
  function LabelIn(table: seq<CategoryOption>, category: string): (r: string)
    ensures (forall c :: c in table ==> c.value != category) ==> r == category
    ensures (exists c :: c in table && c.value == category) ==>
              exists c :: c in table && c.value == category && r == c.text
  {
    match Find(table, HasValue(category))
    case Some(c) => c.text
    case None => category
  }

  /** `getCategoryLabel`: the table's label for a known category, the category itself otherwise. */
  function CategoryLabel(category: string): (r: string)
    ensures (forall c :: c in CategoryTable ==> c.value != category) ==> r == category
    ensures (exists c :: c in CategoryTable && c.value == category) ==>
              exists c :: c in CategoryTable && c.value == category && r == c.text
  {
    LabelIn(CategoryTable, category)
  }

  /** The tag badges of a row: at most three tags, then the number of the others. */
  datatype TagBadges = TagBadges(shown: seq<string>, more: Option<nat>)

  function Badges(tags: seq<string>): (b: TagBadges)
    ensures b.shown <= tags && |b.shown| == if |tags| < 3 then |tags| else 3
    ensures b.more.Some? <==> |tags| > 3
    ensures b.more.Some? ==> |b.shown| + b.more.value == |tags|
  {
    TagBadges(Take(tags, 3), if |tags| > 3 then Some(|tags| - 3) else None)
  }

  datatype Call = ListGuides | DeleteGuide(id: string) | SetActive(id: string, v: bool) | SetFeatured(id: string, v: bool)

  class TravelInfoManagement {
    var guides: seq<Guide>
    var loading: bool
    var searchTerm: string
    var selectedCategory: string
    var showFeaturedOnly: bool
    var alerts: seq<string>
    var calls: seq<Call>

    constructor()
      ensures guides == [] && loading && searchTerm == "" && selectedCategory == "all" && !showFeaturedOnly
      ensures alerts == [] && calls == []
    {
      guides := [];
      loading := true;
      searchTerm := "";
      selectedCategory := "all";
      showFeaturedOnly := false;
      alerts := [];
      calls := [];
    }

    function Filtered(): (r: seq<Guide>)
      reads this
      ensures IsSubsequence(r, guides) && |r| <= |guides|
    {
      Shown(guides, searchTerm, selectedCategory, showFeaturedOnly)
    }

    method FetchTravelInfo(reply: Reply<seq<Guide>>)
      modifies this
      ensures !loading && calls == old(calls) + [ListGuides]
      ensures reply.error.None? ==> guides == RowsOr(reply.data) && alerts == old(alerts)
      ensures reply.error.Some? ==> guides == old(guides) &&
                                    alerts == old(alerts) + ["Failed to fetch travel information. Please try again."]
      ensures searchTerm == old(searchTerm) && selectedCategory == old(selectedCategory)
      ensures showFeaturedOnly == old(showFeaturedOnly)
    {
      loading := true;
      calls := calls + [ListGuides];
      if reply.error.None? {
        guides := RowsOr(reply.data);
      } else {
        alerts := alerts + ["Failed to fetch travel information. Please try again."];
      }
      loading := false;
    }

    method HandleDelete(id: string, confirmed: bool, reply: Option<Failure>)
      modifies this
      ensures !confirmed ==> guides == old(guides) && calls == old(calls) && alerts == old(alerts)
      ensures confirmed ==> calls == old(calls) + [DeleteGuide(id)]
      ensures confirmed && reply.None? ==>
        guides == DropId(old(guides), GuideId, id) &&
        alerts == old(alerts) + ["Travel information deleted successfully!"]
      ensures confirmed && reply.Some? ==>
        guides == old(guides) && alerts == old(alerts) + ["Failed to delete travel information. Please try again."]
      ensures loading == old(loading) && searchTerm == old(searchTerm) && selectedCategory == old(selectedCategory)
      ensures showFeaturedOnly == old(showFeaturedOnly)
    {
      if confirmed {
        calls := calls + [DeleteGuide(id)];
        if reply.None? {
          guides := DropId(guides, GuideId, id);
          alerts := alerts + ["Travel information deleted successfully!"];
        } else {
          alerts := alerts + ["Failed to delete travel information. Please try again."];
        }
      }
    }

    method ToggleActive(id: string, currentStatus: bool, reply: Option<Failure>)
      modifies this
      ensures calls == old(calls) + [SetActive(id, !currentStatus)]
      ensures reply.None? ==> guides == PatchId(old(guides), GuideId, id, WithActive(!currentStatus)) &&
                              alerts == old(alerts)
      ensures reply.Some? ==> guides == old(guides) &&
                              alerts == old(alerts) + ["Failed to update active status. Please try again."]
      ensures loading == old(loading) && searchTerm == old(searchTerm) && selectedCategory == old(selectedCategory)
      ensures showFeaturedOnly == old(showFeaturedOnly)
    {
      calls := calls + [SetActive(id, !currentStatus)];
      if reply.None? {
        guides := PatchId(guides, GuideId, id, WithActive(!currentStatus));
      } else {
        alerts := alerts + ["Failed to update active status. Please try again."];
      }
    }

    method ToggleFeatured(id: string, currentStatus: bool, reply: Option<Failure>)
      modifies this
      ensures calls == old(calls) + [SetFeatured(id, !currentStatus)]
      ensures reply.None? ==> guides == PatchId(old(guides), GuideId, id, WithFeatured(!currentStatus)) &&
                              alerts == old(alerts)
      ensures reply.Some? ==> guides == old(guides) &&
                              alerts == old(alerts) + ["Failed to update featured status. Please try again."]
      ensures loading == old(loading) && searchTerm == old(searchTerm) && selectedCategory == old(selectedCategory)
      ensures showFeaturedOnly == old(showFeaturedOnly)
    {
      calls := calls + [SetFeatured(id, !currentStatus)];
      if reply.None? {
        guides := PatchId(guides, GuideId, id, WithFeatured(!currentStatus));
      } else {
        alerts := alerts + ["Failed to update featured status. Please try again."];
      }
    }

    method ClearFilters()
      modifies this
      ensures searchTerm == "" && selectedCategory == "all" && !showFeaturedOnly
      ensures guides == old(guides) && alerts == old(alerts) && calls == old(calls) && loading == old(loading)
      ensures Filtered() == guides
    {
      searchTerm := "";
      selectedCategory := "all";
      showFeaturedOnly := false;
      ClearedShowsAll(guides);
    }
  }
}
