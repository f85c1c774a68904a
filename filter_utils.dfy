/**
 * The generic list filters of the shared library: by category, by a
 * free-text term, and the two in a row.
 */
module FilterUtils {
  import opened Options
  import opened Text
  import opened Seqs

  /** The fields the filters read; every one of them may be missing. */
  datatype Listing = Listing(
    category: Option<string>,
    title: Option<string>,
    name: Option<string>,
    description: Option<string>)

  /** `!category || category === 'all'`: the category filter is switched off. */
  predicate AnyCategory(category: Option<string>) {
    category.None? || category.value == "" || category.value == "all"
  }

  /** `item.title || item.name || ''`. */
  function Heading(item: Listing): (r: string)
    ensures OrEmpty(item.title) != "" ==> r == item.title.value
    ensures OrEmpty(item.title) == "" ==> r == OrEmpty(item.name)
  {
    OrString(OrEmpty(item.title), OrEmpty(item.name))
  }

  /** The heading or the description includes the term, both lowercased. */
  predicate SearchHit(item: Listing, term: string) {
    Contains(Lower(Heading(item)), Lower(term)) || Contains(Lower(OrEmpty(item.description)), Lower(term))
  }

  /** The test `item => item.category === category`. */
  function InCategory(category: Option<string>): Listing -> bool {
    (x: Listing) => x.category == category
  }

  /** The test the search filter applies to each item. */
  function Hits(term: string): Listing -> bool {
    (x: Listing) => SearchHit(x, term)
  }

  function FilterByCategory(items: seq<Listing>, category: Option<string>): (r: seq<Listing>)
    ensures AnyCategory(category) ==> r == items
    ensures !AnyCategory(category) ==> forall x :: x in r <==> x in items && x.category == category
    ensures !AnyCategory(category) ==> forall x :: multiset(r)[x] == if x.category == category then multiset(items)[x] else 0
    ensures IsSubsequence(r, items)
  {
    if AnyCategory(category) then
      SubsequenceReflexive(items);
      items
    else
      FilterMultiset(items, InCategory(category));
      Filter(items, InCategory(category))
  }

  function FilterBySearch(items: seq<Listing>, term: string): (r: seq<Listing>)
    ensures IsBlank(term) ==> r == items
    ensures !IsBlank(term) ==> forall x :: x in r <==> x in items && SearchHit(x, term)
    ensures !IsBlank(term) ==> forall x :: multiset(r)[x] == if SearchHit(x, term) then multiset(items)[x] else 0
    ensures IsSubsequence(r, items)
  {
    if IsBlank(term) then
      SubsequenceReflexive(items);
      items
    else
      FilterMultiset(items, Hits(term));
      Filter(items, Hits(term))
  }

  /** An item passes both filters. */
  predicate Passes(x: Listing, category: Option<string>, term: string) {
    (AnyCategory(category) || x.category == category) && (IsBlank(term) || SearchHit(x, term))
  }

  function FilterByMultiple(items: seq<Listing>, category: Option<string>, term: string): (r: seq<Listing>)
    ensures forall x :: x in r <==>
      && x in items
      && (AnyCategory(category) || x.category == category)
      && (IsBlank(term) || SearchHit(x, term))
    ensures forall x :: multiset(r)[x] == (if Passes(x, category, term) then multiset(items)[x] else 0)
    ensures IsSubsequence(r, items)
  {
    var byCategory := FilterByCategory(items, category);
    SubsequenceTransitive(FilterBySearch(byCategory, term), byCategory, items);
    FilterBySearch(byCategory, term)
  }

  /** The order of the two filters does not matter. */
  lemma {:induction false} FiltersCommute(items: seq<Listing>, category: Option<string>, term: string)
    ensures FilterByCategory(FilterBySearch(items, term), category) == FilterByMultiple(items, category, term)
  {
    if !AnyCategory(category) && !IsBlank(term) {
      var byCat := InCategory(category);
      var hit := Hits(term);
      var both := (x: Listing) => hit(x) && byCat(x);
      FilterFilter(items, hit, byCat, both);
      FilterFilter(items, byCat, hit, both);
    }
  }

  /** An item whose only field is the title "Safari". */
  const SafariItem := Listing(None, Some("Safari"), None, None)

  /** The lowercased term finds the capitalised title. */
  lemma TrimmedTermHits()
    ensures SearchHit(SafariItem, "safari")
  {
    assert Heading(SafariItem) == "Safari";
    assert Lower("Safari") == "safari";
    assert Lower("safari") == "safari";
    assert "safari" <= "safari";
  }

  /** With a leading space the term occurs nowhere in the title. */
  lemma UntrimmedTermMisses()
    ensures !SearchHit(SafariItem, " safari")
  {
    assert Heading(SafariItem) == "Safari";
    assert Lower("Safari") == "safari";
    assert Lower(" safari") == " safari";
    ContainsAt("safari", " safari");
    ContainsAt("", " safari");
  }

  /**
   * The term is not trimmed: with a leading space it no longer finds a
   * title that starts with the word, though the trimmed term does.
   */
  lemma UntrimmedTerm()
    ensures FilterBySearch([SafariItem], "safari") == [SafariItem]
    ensures FilterBySearch([SafariItem], " safari") == []
  {
    assert !IsBlank("safari") by { assert !IsWhitespace("safari"[0]); }
    assert !IsBlank(" safari") by { assert !IsWhitespace(" safari"[1]); }
    TrimmedTermHits();
    UntrimmedTermMisses();
    assert Filter([SafariItem], Hits("safari")) == [SafariItem];
  }
}
