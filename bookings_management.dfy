/**
 * The booking list of the admin area: loading with an error state, the
 * search and status filters, and the status update.
 */
module BookingsManagementPage {
  import opened Options
  import opened Text
  import opened Seqs
  import opened Remote
  import opened Rows

  /** A booking row; the customer name and tour title come from joined records that may be missing. */
  datatype Booking = Booking(
    id: string, customerName: Option<string>, tourTitle: Option<string>,
    email: Option<string>, status: string)

  function BookingId(b: Booking): string { b.id }

  /** A missing value searches as the empty string. */
  predicate MatchesSearch(b: Booking, term: string) {
    || Contains(Lower(OrEmpty(b.customerName)), Lower(term))
    || Contains(Lower(OrEmpty(b.tourTitle)), Lower(term))
    || Contains(Lower(OrEmpty(b.email)), Lower(term))
  }

  predicate Matches(b: Booking, term: string, status: string) {
    MatchesSearch(b, term) && (status == "all" || b.status == status)
  }

  function MatchesAll(term: string, status: string): Booking -> bool {
    (b: Booking) => Matches(b, term, status)
  }

  /** `filtered`. */
  function Shown(bookings: seq<Booking>, term: string, status: string): (r: seq<Booking>)
    ensures forall b :: b in r <==> b in bookings && Matches(b, term, status)
    ensures forall b :: multiset(r)[b] == if Matches(b, term, status) then multiset(bookings)[b] else 0
    ensures IsSubsequence(r, bookings) && |r| <= |bookings|
  {
    FilterMultiset(bookings, MatchesAll(term, status));
    Filter(bookings, MatchesAll(term, status))
  }

  /** With no term and status "all" every booking is shown. */
  lemma UnfilteredShowsAll(bookings: seq<Booking>)
    ensures Shown(bookings, "", "all") == bookings
  {
    forall b | b in bookings ensures Matches(b, "", "all") {
      ContainsEmpty(Lower(OrEmpty(b.customerName)));
    }
    FilterKeepsAll(bookings, MatchesAll("", "all"));
  }

  function WithStatus(status: string): Booking -> Booking { (b: Booking) => b.(status := status) }

  datatype Call = ListBookings | SetStatus(id: string, status: string)

  const LoadFailed := "Failed to load bookings"
  const UpdateFailed := "Failed to update status"

  class BookingsManagement {
    var bookings: seq<Booking>
    var loading: bool
    var searchTerm: string
    var statusFilter: string
    var error: string
    var alerts: seq<string>
    var calls: seq<Call>

    constructor()
      ensures bookings == [] && loading && searchTerm == "" && statusFilter == "all" && error == ""
      ensures alerts == [] && calls == []
    {
      bookings := [];
      loading := true;
      searchTerm := "";
      statusFilter := "all";
      error := "";
      alerts := [];
      calls := [];
    }

    function Filtered(): (r: seq<Booking>)
      reads this
      ensures IsSubsequence(r, bookings) && |r| <= |bookings|
    {
      Shown(bookings, searchTerm, statusFilter)
    }

    /** A failed load empties the list and shows the error; a successful one shows `data || []`. */
    method FetchBookings(reply: Reply<seq<Booking>>)
      modifies this
      ensures !loading && calls == old(calls) + [ListBookings] && alerts == old(alerts)
      ensures reply.error.Some? ==> bookings == [] && error == MessageOr(reply.error.value, LoadFailed)
      ensures reply.error.None? ==> bookings == RowsOr(reply.data) && error == ""
      ensures searchTerm == old(searchTerm) && statusFilter == old(statusFilter)
    {
      loading := true;
      error := "";
      calls := calls + [ListBookings];
      if reply.error.Some? {
        error := MessageOr(reply.error.value, LoadFailed);
        bookings := [];
      } else {
        bookings := RowsOr(reply.data);
      }
      loading := false;
    }

    method UpdateStatus(id: string, status: string, reply: Option<Failure>)
      modifies this
      ensures calls == old(calls) + [SetStatus(id, status)]
      ensures reply.None? ==> bookings == PatchId(old(bookings), BookingId, id, WithStatus(status)) &&
                              alerts == old(alerts)
      ensures reply.Some? ==> bookings == old(bookings) &&
                              alerts == old(alerts) + [MessageOr(reply.value, UpdateFailed)]
      ensures loading == old(loading) && error == old(error)
      ensures searchTerm == old(searchTerm) && statusFilter == old(statusFilter)
    {
      calls := calls + [SetStatus(id, status)];
      if reply.Some? {
        alerts := alerts + [MessageOr(reply.value, UpdateFailed)];
        return;
      }
      bookings := PatchId(bookings, BookingId, id, WithStatus(status));
    }
  }
}
