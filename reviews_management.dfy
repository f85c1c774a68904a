/**
 * The review list of the admin area: the server-side "verified only"
 * switch that re-runs the load, the search over one joined text, the
 * verification update and delete.
 */
module ReviewsManagementPage {
  import opened Options
  import opened Text
  import opened Seqs
  import opened Remote
  import opened Rows

  datatype Review = Review(
    id: string, title: string, content: string, reviewer: Option<string>,
    tourTitle: Option<string>, verified: bool)

  function ReviewId(r: Review): string { r.id }

  /** `${title} ${content} ${reviewer || ''} ${tour title || ''}`, lowercased. */
  function Haystack(r: Review): string {
    Lower(r.title + " " + r.content + " " + OrEmpty(r.reviewer) + " " + OrEmpty(r.tourTitle))
  }

  predicate Matches(r: Review, term: string) {
    Contains(Haystack(r), Lower(term))
  }

  function MatchesTerm(term: string): Review -> bool {
    (r: Review) => Matches(r, term)
  }

  function Shown(reviews: seq<Review>, term: string): (r: seq<Review>)
    ensures forall x :: x in r <==> x in reviews && Matches(x, term)
    ensures forall x :: multiset(r)[x] == if Matches(x, term) then multiset(reviews)[x] else 0
    ensures IsSubsequence(r, reviews) && |r| <= |reviews|
  {
    FilterMultiset(reviews, MatchesTerm(term));
    Filter(reviews, MatchesTerm(term))
  }

  /** A term that occurs in the review text finds the review, whatever its case. */
  lemma ContentFound(r: Review, term: string)
    requires Contains(Lower(r.content), Lower(term))
    ensures Matches(r, term)
  {
    var before := r.title + " ";
    var after := " " + OrEmpty(r.reviewer) + " " + OrEmpty(r.tourTitle);
    assert r.title + " " + r.content + " " + OrEmpty(r.reviewer) + " " + OrEmpty(r.tourTitle)
        == before + r.content + after;
    LowerAppend(before + r.content, after);
    LowerAppend(before, r.content);
    ContainsInMiddle(Lower(before), Lower(r.content), Lower(after), Lower(term));
  }

  function WithVerified(v: bool): Review -> Review { (r: Review) => r.(verified := v) }

  /** The load passes the switch as its argument (`!showVerifiedOnly ? false : true`). */
  datatype Call = ListReviews(verifiedOnly: bool) | Verify(id: string, verified: bool) | DeleteReview(id: string)

  const LoadFailed := "Failed to load reviews"

  class ReviewsManagement {
    var reviews: seq<Review>
    var loading: bool
    var searchTerm: string
    var showVerifiedOnly: bool
    var error: string
    var alerts: seq<string>
    var calls: seq<Call>

    constructor()
      ensures reviews == [] && loading && searchTerm == "" && !showVerifiedOnly && error == ""
      ensures alerts == [] && calls == []
    {
      reviews := [];
      loading := true;
      searchTerm := "";
      showVerifiedOnly := false;
      error := "";
      alerts := [];
      calls := [];
    }

    function Filtered(): (r: seq<Review>)
      reads this
      ensures IsSubsequence(r, reviews) && |r| <= |reviews|
    {
      Shown(reviews, searchTerm)
    }

    /** The load asks the server for verified reviews only exactly when the switch is on. */
    method FetchReviews(reply: Reply<seq<Review>>)
      modifies this
      ensures !loading && calls == old(calls) + [ListReviews(showVerifiedOnly)] && alerts == old(alerts)
      ensures reply.error.Some? ==> reviews == [] && error == MessageOr(reply.error.value, LoadFailed)
      ensures reply.error.None? ==> reviews == RowsOr(reply.data) && error == ""
      ensures searchTerm == old(searchTerm) && showVerifiedOnly == old(showVerifiedOnly)
    {
      loading := true;
      error := "";
      var verifiedOnly := if !showVerifiedOnly then false else true;
      calls := calls + [ListReviews(verifiedOnly)];
      if reply.error.Some? {
        error := MessageOr(reply.error.value, LoadFailed);
        reviews := [];
      } else {
        reviews := RowsOr(reply.data);
      }
      loading := false;
    }

    /**
     * Flipping the switch; the load depends on it, so it runs again
     * (`rerun`) exactly when the value changes.
     */
    method SetShowVerifiedOnly(v: bool) returns (rerun: bool)
      modifies this
      ensures showVerifiedOnly == v
      ensures rerun <==> v != old(showVerifiedOnly)
      ensures reviews == old(reviews) && loading == old(loading) && error == old(error)
      ensures searchTerm == old(searchTerm) && alerts == old(alerts) && calls == old(calls)
    {
      rerun := v != showVerifiedOnly;
      showVerifiedOnly := v;
    }

    method SetVerified(id: string, verified: bool, reply: Option<Failure>)
      modifies this
      ensures calls == old(calls) + [Verify(id, verified)]
      ensures reply.None? ==> reviews == PatchId(old(reviews), ReviewId, id, WithVerified(verified)) &&
                              alerts == old(alerts)
      ensures reply.Some? ==> reviews == old(reviews) &&
                              alerts == old(alerts) + [MessageOr(reply.value, "Failed to update review")]
      ensures loading == old(loading) && error == old(error)
      ensures searchTerm == old(searchTerm) && showVerifiedOnly == old(showVerifiedOnly)
    {
      calls := calls + [Verify(id, verified)];
      if reply.Some? {
        alerts := alerts + [MessageOr(reply.value, "Failed to update review")];
        return;
      }
      reviews := PatchId(reviews, ReviewId, id, WithVerified(verified));
    }

    method DeleteReviewRow(id: string, confirmed: bool, reply: Option<Failure>)
      modifies this
      ensures !confirmed ==> reviews == old(reviews) && calls == old(calls) && alerts == old(alerts)
      ensures confirmed ==> calls == old(calls) + [DeleteReview(id)]
      ensures confirmed && reply.None? ==> reviews == DropId(old(reviews), ReviewId, id) && alerts == old(alerts)
      ensures confirmed && reply.Some? ==> reviews == old(reviews) &&
                                           alerts == old(alerts) + [MessageOr(reply.value, "Failed to delete review")]
      ensures loading == old(loading) && error == old(error)
      ensures searchTerm == old(searchTerm) && showVerifiedOnly == old(showVerifiedOnly)
    {
      if !confirmed {
        return;
      }
      calls := calls + [DeleteReview(id)];
      if reply.Some? {
        alerts := alerts + [MessageOr(reply.value, "Failed to delete review")];
        return;
      }
      reviews := DropId(reviews, ReviewId, id);
    }
  }
}
