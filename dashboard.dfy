/**
 * The admin dashboard: six independent loads settle one by one, each
 * failed load gets its own error entry, the counts fall back to 0, and
 * the page reports a fatal error only when every load failed.
 */
module DashboardPage {
  import opened Options
  import opened Seqs
  import opened Remote

  /** How one promise of `Promise.allSettled` ended. */
  datatype Settled<T> = Rejected | Fulfilled(reply: Reply<T>)

  /** Rejected, or resolved with an error. */
  predicate Failed<T>(s: Settled<T>) {
    s.Rejected? || s.reply.error.Some?
  }

  /** The rows of a load that succeeded; nothing otherwise (the load may also succeed without rows). */
  function DataOf<T>(s: Settled<seq<T>>): (r: Option<seq<T>>)
    ensures Failed(s) ==> r.None?
    ensures !Failed(s) ==> r == s.reply.data
  {
    if Failed(s) then None else s.reply.data
  }

  datatype TourRow = TourRow(id: string)
  datatype UserRow = UserRow(id: string)
  datatype BookingRow = BookingRow(status: string)
  datatype ReviewRow = ReviewRow(verified: bool)
  datatype InquiryRow = InquiryRow(status: string)
  /** A payment amount is a whole number here; a missing or zero amount is falsy. */
  datatype PaymentRow = PaymentRow(status: string, amount: Option<int>)

  datatype Results = Results(
    tours: Settled<seq<TourRow>>, users: Settled<seq<UserRow>>,
    bookings: Settled<seq<BookingRow>>, reviews: Settled<seq<ReviewRow>>,
    inquiries: Settled<seq<InquiryRow>>, payments: Settled<seq<PaymentRow>>)

  /** The six sources; an error entry is keyed by the source's name. */
  datatype Source = Tours | Users | Bookings | Reviews | Inquiries | Payments

  const AllSources: set<Source> := {Tours, Users, Bookings, Reviews, Inquiries, Payments}

  function Name(s: Source): string {
    match s
    case Tours => "tours"
    case Users => "users"
    case Bookings => "bookings"
    case Reviews => "reviews"
    case Inquiries => "inquiries"
    case Payments => "payments"
  }

  /** The error entry of a failed source. */
  function Message(s: Source): string { "Failed to load " + Name(s) }

  /** Each source has its own error entry. */
  lemma MessagesDistinct(a: Source, b: Source)
    ensures Message(a) == Message(b) <==> a == b
  {
    var prefix := "Failed to load ";
    if Message(a) == Message(b) {
      assert Message(a)[|prefix|..] == Name(a);
      assert Message(b)[|prefix|..] == Name(b);
    }
  }

  predicate SourceFailed(r: Results, s: Source) {
    match s
    case Tours => Failed(r.tours)
    case Users => Failed(r.users)
    case Bookings => Failed(r.bookings)
    case Reviews => Failed(r.reviews)
    case Inquiries => Failed(r.inquiries)
    case Payments => Failed(r.payments)
  }

  predicate AllFailed(r: Results) {
    Failed(r.tours) && Failed(r.users) && Failed(r.bookings) &&
    Failed(r.reviews) && Failed(r.inquiries) && Failed(r.payments)
  }

  /** The error entries of one refresh: one per failed source. */
  function Errors(r: Results): (m: map<Source, string>)
    ensures forall s :: s in m <==> SourceFailed(r, s)
    ensures forall s :: s in m ==> m[s] == Message(s)
  {
    map s | s in AllSources && SourceFailed(r, s) :: Message(s)
  }

  /** Six entries, the most there can be, exactly when every load failed. */
  lemma {:induction false} AllEntriesIffAllFailed(r: Results)
    ensures |Errors(r)| == 6 <==> AllFailed(r)
  {
    SourcesCount();
    var keys := Errors(r).Keys;
    assert keys <= AllSources;
    if AllFailed(r) {
      assert keys == AllSources;
    } else {
      var s :| s in AllSources && !SourceFailed(r, s);
      assert keys <= AllSources - {s};
      SubsetCard(keys, AllSources - {s});
    }
  }

  lemma SourcesCount()
    ensures |AllSources| == 6
  {
    var a := {Tours, Users, Bookings, Reviews, Inquiries};
    assert |{Tours, Users, Bookings, Reviews}| == 4;
    assert |a| == 5;
  }

  lemma SubsetCard(a: set<Source>, b: set<Source>)
    requires a <= b
    ensures |a| <= |b|
  {
    assert b == a + (b - a);
  }

  /** `rows?.filter(p).length || 0`: the number of positions whose row passes. */
  function CountWhere<T(!new)>(rows: Option<seq<T>>, p: T -> bool): (n: nat)
    ensures rows.None? ==> n == 0
    ensures rows.Some? ==> n <= |rows.value|
    ensures rows.Some? ==> n == |Passing(rows.value, p)|
  {
    match rows
    case None => 0
    case Some(s) => FilterCountsPassing(s, p); |Filter(s, p)|
  }

  function Total<T>(rows: Option<seq<T>>): (n: nat)
    ensures rows.None? ==> n == 0
    ensures rows.Some? ==> n == |rows.value|
  {
    match rows
    case None => 0
    case Some(s) => |s|
  }

  /** The payments that count: status "completed" and a truthy amount. */
  predicate Counts(p: PaymentRow) {
    p.status == "completed" && p.amount.Some? && p.amount.value != 0
  }

  /** The `reduce` over payments. */
  function Revenue(payments: seq<PaymentRow>): (r: int)
    ensures (forall i :: 0 <= i < |payments| && payments[i].amount.Some? ==> payments[i].amount.value >= 0) ==> r >= 0
  {
    if payments == [] then 0
    else Revenue(payments[..|payments| - 1]) +
         (var p := payments[|payments| - 1]; if Counts(p) then p.amount.value else 0)
  }

  /** The revenue of two lists of payments is the sum of their revenues. */
  lemma {:induction false} RevenueAppend(a: seq<PaymentRow>, b: seq<PaymentRow>)
    ensures Revenue(a + b) == Revenue(a) + Revenue(b)
    decreases |b|
  {
    if b == [] {
      assert a + b == a;
    } else {
      RevenueAppend(a, b[..|b| - 1]);
      assert (a + b)[..|a + b| - 1] == a + b[..|b| - 1];
    }
  }

  /** Payments that do not count leave the revenue as it is. */
  lemma {:induction false} RevenueOnlyCompleted(payments: seq<PaymentRow>)
    ensures Revenue(payments) == Revenue(Filter(payments, IsCounted))
    decreases |payments|
  {
    if payments != [] {
      var init := payments[..|payments| - 1];
      var last := payments[|payments| - 1];
      assert payments == init + [last];
      RevenueOnlyCompleted(init);
      FilterAppend(init, last, IsCounted);
      RevenueAppend(Filter(init, IsCounted), Filter([last], IsCounted));
      assert [last][1..] == [];
    }
  }

  function IsCounted(p: PaymentRow): bool { Counts(p) }

  predicate IsPending(b: BookingRow) { b.status == "pending" }
  predicate IsUnverified(r: ReviewRow) { !r.verified }
  predicate IsNew(i: InquiryRow) { i.status == "new" }

  datatype Stats = Stats(
    totalTours: nat, totalUsers: nat, totalBookings: nat, totalReviews: nat, totalInquiries: nat,
    pendingBookings: nat, pendingReviews: nat, newInquiries: nat, totalRevenue: int)

  const NoStats := Stats(0, 0, 0, 0, 0, 0, 0, 0, 0)

  /** The figures of one refresh. */
  function StatsOf(r: Results): (s: Stats)
    ensures s.pendingBookings <= s.totalBookings
    ensures s.pendingReviews <= s.totalReviews
    ensures s.newInquiries <= s.totalInquiries
    ensures Failed(r.tours) ==> s.totalTours == 0
    ensures Failed(r.users) ==> s.totalUsers == 0
    ensures Failed(r.bookings) ==> s.totalBookings == 0 && s.pendingBookings == 0
    ensures Failed(r.reviews) ==> s.totalReviews == 0 && s.pendingReviews == 0
    ensures Failed(r.inquiries) ==> s.totalInquiries == 0 && s.newInquiries == 0
    ensures Failed(r.payments) ==> s.totalRevenue == 0
  {
    var tours, users, bookings := DataOf(r.tours), DataOf(r.users), DataOf(r.bookings);
    var reviews, inquiries, payments := DataOf(r.reviews), DataOf(r.inquiries), DataOf(r.payments);
    Stats(
      Total(tours), Total(users), Total(bookings), Total(reviews), Total(inquiries),
      CountWhere(bookings, IsPending), CountWhere(reviews, IsUnverified), CountWhere(inquiries, IsNew),
      if payments.Some? then Revenue(payments.value) else 0)
  }

  /** The totals of the loads that succeeded: each is the number of rows loaded. */
  lemma StatsOfTotals(r: Results)
    ensures !Failed(r.tours) ==> StatsOf(r).totalTours == |RowsOr(r.tours.reply.data)|
    ensures !Failed(r.users) ==> StatsOf(r).totalUsers == |RowsOr(r.users.reply.data)|
    ensures !Failed(r.bookings) ==> StatsOf(r).totalBookings == |RowsOr(r.bookings.reply.data)|
    ensures !Failed(r.reviews) ==> StatsOf(r).totalReviews == |RowsOr(r.reviews.reply.data)|
    ensures !Failed(r.inquiries) ==> StatsOf(r).totalInquiries == |RowsOr(r.inquiries.reply.data)|
  {
  }

  /**
   * The status figures and the revenue of the loads that succeeded: the number
   * of rows in that status, and the revenue of the payments loaded.
   */
  lemma StatsOfCounts(r: Results)
    ensures !Failed(r.bookings) ==> StatsOf(r).pendingBookings == |Passing(RowsOr(r.bookings.reply.data), IsPending)|
    ensures !Failed(r.reviews) ==> StatsOf(r).pendingReviews == |Passing(RowsOr(r.reviews.reply.data), IsUnverified)|
    ensures !Failed(r.inquiries) ==> StatsOf(r).newInquiries == |Passing(RowsOr(r.inquiries.reply.data), IsNew)|
    ensures !Failed(r.payments) ==> StatsOf(r).totalRevenue == Revenue(RowsOr(r.payments.reply.data))
  {
  }

  const AllFailedMessage := "Unable to load dashboard data. Please check your connection and try again."

  /** The entries among some of the sources. */
  function ErrorsAmong(r: Results, among: set<Source>): map<Source, string>
  {
    map s | s in among && SourceFailed(r, s) :: Message(s)
  }

  /** `if (<source> failed) errors.<source> = 'Failed to load <source>'`. */
  method RecordSource(errors: map<Source, string>, r: Results, among: set<Source>, s: Source)
    returns (next: map<Source, string>)
    requires errors == ErrorsAmong(r, among)
    ensures next == ErrorsAmong(r, among + {s})
  {
    next := errors;
    if SourceFailed(r, s) {
      next := next[s := Message(s)];
    }
  }

  /**
   * The `errors` record, built one source at a time in the order
   * tours, users, bookings, reviews, inquiries, payments.
   */
  method CollectErrors(r: Results) returns (errors: map<Source, string>)
    ensures errors == Errors(r)
  {
    errors := map[];
    assert errors == ErrorsAmong(r, {});
    var among: set<Source> := {};
    errors := RecordSource(errors, r, among, Tours);
    among := among + {Tours};
    errors := RecordSource(errors, r, among, Users);
    among := among + {Users};
    errors := RecordSource(errors, r, among, Bookings);
    among := among + {Bookings};
    errors := RecordSource(errors, r, among, Reviews);
    among := among + {Reviews};
    errors := RecordSource(errors, r, among, Inquiries);
    among := among + {Inquiries};
    errors := RecordSource(errors, r, among, Payments);
    among := among + {Payments};
    assert among == AllSources;
  }

  class Dashboard {
    var stats: Stats
    var loading: bool
    var error: Option<string>
    var dataErrors: map<Source, string>

    constructor()
      ensures stats == NoStats && loading && error.None? && dataErrors == map[]
    {
      stats := NoStats;
      loading := true;
      error := None;
      dataErrors := map[];
    }

    /**
     * One refresh: clears the old errors, records an entry per failed
     * source, the figures, and the fatal message when all six failed.
     */
    method FetchDashboardData(r: Results)
      modifies this
      ensures !loading
      ensures dataErrors == Errors(r)
      ensures stats == StatsOf(r)
      ensures error.Some? <==> AllFailed(r)
      ensures error.Some? ==> error.value == AllFailedMessage
    {
      loading := true;
      error := None;
      dataErrors := map[];
      var errors := CollectErrors(r);
      if |errors| > 0 {
        dataErrors := errors;
      }
      stats := StatsOf(r);
      AllEntriesIffAllFailed(r);
      if |errors| == 6 {
        error := Some(AllFailedMessage);
      }
      loading := false;
    }
  }
}
