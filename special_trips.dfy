/**
 * The "Seasonal Trips" section: the first six tours as cards, the first
 * one large, the second medium and the rest small.
 */
module SpecialTripsSection {
  import opened Options
  import opened Seqs
  import opened Remote

  datatype TourPackage = TourPackage(id: string, title: string, category: string, images: Option<seq<string>>)

  datatype Size = Large | Medium | Small

  datatype Trip = Trip(id: string, title: string, subtitle: string, image: string, size: Size)

  const FallbackImage := "https://images.pexels.com/photos/1470332/pexels-photo-1470332.jpeg"

  function Subtitle(category: string): (r: string)
    ensures category == "mountain-climbing" ==> r == "Peak Adventure"
    ensures category == "safari" ==> r == "Wildlife Safari"
    ensures category != "mountain-climbing" && category != "safari" ==> r == "Unique Experience"
  {
    if category == "mountain-climbing" then "Peak Adventure"
    else if category == "safari" then "Wildlife Safari"
    else "Unique Experience"
  }

  /** The card size by position. */
  function SizeAt(index: nat): (s: Size)
    ensures s == Large <==> index == 0
    ensures s == Medium <==> index == 1
    ensures s == Small <==> index >= 2
  {
    if index == 0 then Large else if index < 2 then Medium else Small
  }

  /** `images?.[0] || fallback`. */
  function CoverImage(images: Option<seq<string>>): (r: string)
    ensures images.Some? && |images.value| > 0 && images.value[0] != "" ==> r == images.value[0]
    ensures images.None? || |images.value| == 0 || images.value[0] == "" ==> r == FallbackImage
  {
    if images.Some? && |images.value| > 0 then OrString(images.value[0], FallbackImage) else FallbackImage
  }

  function ToTrip(t: TourPackage, index: nat): (r: Trip)
    ensures r.id == t.id && r.title == t.title && r.subtitle == Subtitle(t.category)
    ensures r.image == CoverImage(t.images) && r.size == SizeAt(index)
  {
    Trip(t.id, t.title, Subtitle(t.category), CoverImage(t.images), SizeAt(index))
  }

  /** The trips after the load; a failed load leaves the list empty. */
  function Trips(reply: Reply<seq<TourPackage>>): (r: seq<Trip>)
    ensures |r| <= 6
    ensures reply.error.Some? ==> r == []
    ensures reply.error.None? ==> |r| == if |RowsOr(reply.data)| < 6 then |RowsOr(reply.data)| else 6
    ensures reply.error.None? ==> forall i :: 0 <= i < |r| ==> r[i] == ToTrip(RowsOr(reply.data)[i], i)
  {
    if reply.error.Some? then []
    else
      var tours := Take(RowsOr(reply.data), 6);
      seq(|tours|, i requires 0 <= i < |tours| => ToTrip(tours[i], i))
  }

  /** The section is drawn only once loaded and only with at least one trip. */
  predicate Renders(loading: bool, trips: seq<Trip>) {
    !loading && |trips| > 0
  }
}
