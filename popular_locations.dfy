/**
 * The "Popular Locations" section: the first four destinations, or four
 * fixed ones when the load fails; the first two cards are featured.
 */
module PopularLocationsSection {
  import opened Options
  import opened Seqs
  import opened Remote

  datatype Destination = Destination(id: string, name: string, slug: string, category: Option<string>, featuredImage: string)

  datatype Card = Card(id: string, name: string, image: string, category: string, featured: bool)

  const Fallback := [
    Destination("1", "Singapore", "singapore", Some("City"),
      "https://images.pexels.com/photos/2398220/pexels-photo-2398220.jpeg?auto=compress&cs=tinysrgb&w=1920&h=1080&fit=crop"),
    Destination("2", "Australia", "australia", Some("Beach"),
      "https://images.pexels.com/photos/3573351/pexels-photo-3573351.jpeg?auto=compress&cs=tinysrgb&w=1920&h=1080&fit=crop"),
    Destination("3", "Thailand", "thailand", Some("Culture"),
      "https://images.pexels.com/photos/2356059/pexels-photo-2356059.jpeg?auto=compress&cs=tinysrgb&w=1920&h=1080&fit=crop"),
    Destination("4", "Japan", "japan", Some("Adventure"),
      "https://images.pexels.com/photos/1591373/pexels-photo-1591373.jpeg?auto=compress&cs=tinysrgb&w=1920&h=1080&fit=crop")]

  /** The destinations after the load. */
  function Locations(reply: Reply<seq<Destination>>): (r: seq<Destination>)
    ensures |r| <= 4
    ensures reply.error.Some? ==> r == Fallback
    ensures reply.error.None? ==> r <= RowsOr(reply.data)
    ensures reply.error.None? ==> |r| == if |RowsOr(reply.data)| < 4 then |RowsOr(reply.data)| else 4
  {
    if reply.error.Some? then Fallback else Take(RowsOr(reply.data), 4)
  }

  /** The card at `index`: linked by slug, a missing category shown as "Destination". */
  function ToCard(d: Destination, index: nat): (c: Card)
    ensures c.featured <==> index < 2
    ensures c.id == d.slug && c.name == d.name && c.image == d.featuredImage
    ensures OrEmpty(d.category) == "" ==> c.category == "Destination"
    ensures OrEmpty(d.category) != "" ==> c.category == d.category.value
  {
    Card(d.slug, d.name, d.featuredImage, OrString(OrEmpty(d.category), "Destination"), index < 2)
  }

  /** The cards drawn: none while loading. */
  function Cards(loading: bool, destinations: seq<Destination>): (r: seq<Card>)
    ensures loading ==> r == []
    ensures !loading ==> |r| == |destinations| && forall i :: 0 <= i < |r| ==> r[i] == ToCard(destinations[i], i)
  {
    if loading then [] else seq(|destinations|, i requires 0 <= i < |destinations| => ToCard(destinations[i], i))
  }
}
