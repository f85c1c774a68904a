/**
 * The home page gallery: up to two images from each of the first nine
 * tours, nine images at most, or a fixed set of nine when the load fails.
 */
module TourGallerySection {
  import opened Options
  import opened Seqs
  import opened Remote

  datatype GalleryTour = GalleryTour(id: string, title: string, images: Option<seq<string>>)

  datatype Image = Image(id: string, src: string, alt: string)

  /** `${tour.id}-${idx}` for the two positions a tour can fill. */
  function ImageId(tourId: string, idx: nat): string
    requires idx < 2
  {
    tourId + "-" + (if idx == 0 then "0" else "1")
  }

  /** `(tour.images || []).slice(0, 2)` as gallery images. */
  function TourImages(t: GalleryTour): (r: seq<Image>)
    ensures |r| <= 2
    ensures t.images.None? ==> r == []
    ensures t.images.Some? ==> |r| == if |t.images.value| < 2 then |t.images.value| else 2
    ensures forall k :: 0 <= k < |r| ==> r[k] == Image(ImageId(t.id, k), t.images.value[k], t.title)
  {
    var srcs := Take(RowsOr(t.images), 2);
    seq(|srcs|, k requires 0 <= k < |srcs| => Image(ImageId(t.id, k), srcs[k], t.title))
  }

  /** `flatMap`: the images of each tour in turn. */
  function Flatten(tours: seq<GalleryTour>): (r: seq<Image>)
    ensures |r| <= 2 * |tours|
  {
    if tours == [] then [] else TourImages(tours[0]) + Flatten(tours[1..])
  }

  /** The images of a list of tours are those of its first part followed by those of its second. */
  lemma {:induction false} FlattenAppend(a: seq<GalleryTour>, b: seq<GalleryTour>)
    ensures Flatten(a + b) == Flatten(a) + Flatten(b)
  {
    if a != [] {
      assert (a + b)[1..] == a[1..] + b;
      FlattenAppend(a[1..], b);
    } else {
      assert a + b == b;
    }
  }

  /** Every image comes from one of the tours, at position 0 or 1 of its list. */
  lemma {:induction false} FlattenFrom(tours: seq<GalleryTour>, x: Image)
    requires x in Flatten(tours)
    ensures exists i, k :: 0 <= i < |tours| && 0 <= k < 2 && k < |RowsOr(tours[i].images)| &&
                           x == Image(ImageId(tours[i].id, k), tours[i].images.value[k], tours[i].title)
  {
    var head := TourImages(tours[0]);
    if x in head {
      var k :| 0 <= k < |head| && head[k] == x;
      assert 0 < |tours|;
    } else {
      FlattenFrom(tours[1..], x);
      var i, k :| 0 <= i < |tours[1..]| && 0 <= k < 2 && k < |RowsOr(tours[1..][i].images)| &&
                  x == Image(ImageId(tours[1..][i].id, k), tours[1..][i].images.value[k], tours[1..][i].title);
      assert tours[1..][i] == tours[i + 1];
    }
  }

  const Fallback := [
    Image("1", "https://images.pexels.com/photos/1287460/pexels-photo-1287460.jpeg", "Mountain"),
    Image("2", "https://images.pexels.com/photos/631292/pexels-photo-631292.jpeg", "Safari"),
    Image("3", "https://images.pexels.com/photos/1670732/pexels-photo-1670732.jpeg", "Beach"),
    Image("4", "https://images.pexels.com/photos/1054655/pexels-photo-1054655.jpeg", "Wildlife"),
    Image("5", "https://images.pexels.com/photos/1821644/pexels-photo-1821644.jpeg", "Culture"),
    Image("6", "https://images.pexels.com/photos/2398220/pexels-photo-2398220.jpeg", "City"),
    Image("7", "https://images.pexels.com/photos/3573351/pexels-photo-3573351.jpeg", "Coast"),
    Image("8", "https://images.pexels.com/photos/1470332/pexels-photo-1470332.jpeg", "Landscape"),
    Image("9", "https://images.pexels.com/photos/1287460/pexels-photo-1287460.jpeg", "Adventure")]

  /** The gallery after the load. */
  function Gallery(reply: Reply<seq<GalleryTour>>): (r: seq<Image>)
    ensures |r| <= 9
    ensures reply.error.Some? ==> r == Fallback && |r| == 9
    ensures reply.error.None? ==> r <= Flatten(Take(RowsOr(reply.data), 9))
    ensures reply.error.None? ==> |r| == if |Flatten(Take(RowsOr(reply.data), 9))| < 9 then |Flatten(Take(RowsOr(reply.data), 9))| else 9
  {
    if reply.error.Some? then Fallback
    else Take(Flatten(Take(RowsOr(reply.data), 9)), 9)
  }

  /** Each image of a loaded gallery is one of the first two images of one of the first nine tours. */
  lemma GalleryFromFirstNine(reply: Reply<seq<GalleryTour>>, x: Image)
    requires reply.error.None? && x in Gallery(reply)
    ensures exists i, k :: 0 <= i < 9 && i < |RowsOr(reply.data)| && 0 <= k < 2 &&
                           k < |RowsOr(RowsOr(reply.data)[i].images)| &&
                           x == Image(ImageId(RowsOr(reply.data)[i].id, k),
                                      RowsOr(reply.data)[i].images.value[k], RowsOr(reply.data)[i].title)
  {
    var first := Take(RowsOr(reply.data), 9);
    var j :| 0 <= j < |Gallery(reply)| && Gallery(reply)[j] == x;
    assert x in Flatten(first);
    FlattenFrom(first, x);
    var i, k :| 0 <= i < |first| && 0 <= k < 2 && k < |RowsOr(first[i].images)| &&
                x == Image(ImageId(first[i].id, k), first[i].images.value[k], first[i].title);
    assert first[i] == RowsOr(reply.data)[i];
  }
}
