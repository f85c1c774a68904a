/**
 * The home page hero slider: a welcome slide followed by at most four
 * tour slides, and the next / previous / indicator navigation guarded by
 * the transition in progress.  The two timers of the component (the
 * 500 ms end of a transition and the 6 s autoplay) are the events
 * `TransitionEnd` and `Tick`.
 */
module FeaturedTripsSliderSection {
  import opened Options
  import opened Seqs
  import opened Remote

  datatype TourPackage = TourPackage(
    id: string, title: string, shortDescription: Option<string>, description: string,
    images: Option<seq<string>>, category: string, slug: string)

  datatype SlideKind = Welcome | TourKind

  datatype Slide = Slide(
    id: nat, kind: SlideKind, title: string, description: string, image: string,
    tourLink: Option<string>, tourId: Option<string>, category: Option<string>)

  const WelcomeSlide := Slide(
    0, Welcome, "Welcome to Karibu Safariz",
    "Experience the magic of Tanzania with expertly guided tours through breathtaking landscapes and unforgettable adventures.",
    "https://images.pexels.com/photos/1670732/pexels-photo-1670732.jpeg?auto=compress&cs=tinysrgb&w=1920&h=1080&fit=crop",
    None, None, None)

  const FallbackImage := "https://images.pexels.com/photos/1670732/pexels-photo-1670732.jpeg"

  /** `images?.[0] || fallback`. */
  function FirstImage(images: Option<seq<string>>): (r: string)
    ensures images.Some? && |images.value| > 0 && images.value[0] != "" ==> r == images.value[0]
    ensures images.None? || |images.value| == 0 || images.value[0] == "" ==> r == FallbackImage
  {
    if images.Some? && |images.value| > 0 then OrString(images.value[0], FallbackImage) else FallbackImage
  }

  /** `short_description || description.substring(0, 150)`. */
  function Teaser(t: TourPackage): (r: string)
    ensures OrEmpty(t.shortDescription) != "" ==> r == t.shortDescription.value
    ensures OrEmpty(t.shortDescription) == "" ==> r <= t.description && |r| == if |t.description| < 150 then |t.description| else 150
  {
    OrString(OrEmpty(t.shortDescription), Take(t.description, 150))
  }

  /** The slide of the tour at `index` among the first four. */
  function TourSlide(t: TourPackage, index: nat): (s: Slide)
    ensures s.id == index + 1 && s.kind == TourKind && s.title == t.title
    ensures s.tourId == Some(t.id) && s.category == Some(t.category)
    ensures s.tourLink == Some("/tours/" + t.category + "/" + t.slug)
  {
    Slide(index + 1, TourKind, t.title, Teaser(t), FirstImage(t.images),
          Some("/tours/" + t.category + "/" + t.slug), Some(t.id), Some(t.category))
  }

  function TourSlides(tours: seq<TourPackage>): (r: seq<Slide>)
    ensures |r| == |tours|
    ensures forall i :: 0 <= i < |tours| ==> r[i] == TourSlide(tours[i], i)
  {
    seq(|tours|, i requires 0 <= i < |tours| => TourSlide(tours[i], i))
  }

  /** The slides after the load: the welcome slide alone when the load failed. */
  function BuildSlides(reply: Reply<seq<TourPackage>>): (slides: seq<Slide>)
    ensures 1 <= |slides| <= 5 && slides[0] == WelcomeSlide
    ensures reply.error.Some? ==> slides == [WelcomeSlide]
  {
    if reply.error.Some? then [WelcomeSlide]
    else
      var tours := Take(RowsOr(reply.data), 4);
      Take([WelcomeSlide] + TourSlides(tours), 5)
  }

  /** Slide `i` after the first is the tour at position `i - 1` of the list, with id `i`. */
  lemma TourSlidesInOrder(reply: Reply<seq<TourPackage>>, i: nat)
    requires reply.error.None? && 1 <= i < |BuildSlides(reply)|
    ensures i - 1 < |RowsOr(reply.data)| && i <= 4
    ensures BuildSlides(reply)[i] == TourSlide(RowsOr(reply.data)[i - 1], i - 1)
    ensures BuildSlides(reply)[i].id == i
  {
    var tours := Take(RowsOr(reply.data), 4);
    var all := [WelcomeSlide] + TourSlides(tours);
    assert BuildSlides(reply) == all;
    assert all[i] == TourSlides(tours)[i - 1];
    assert tours[i - 1] == RowsOr(reply.data)[i - 1];
  }

  /** Every tour among the first four gets a slide. */
  lemma FirstFourShown(reply: Reply<seq<TourPackage>>)
    requires reply.error.None?
    ensures |BuildSlides(reply)| == 1 + if |RowsOr(reply.data)| < 4 then |RowsOr(reply.data)| else 4
  {
  }

  /** `(i + 1) % n`. */
  function NextIndex(i: nat, n: nat): (r: nat)
    requires n > 0
    ensures r < n
  {
    (i + 1) % n
  }

  /** `(i - 1 + n) % n`. */
  function PrevIndex(i: nat, n: nat): (r: nat)
    requires 0 <= i < n
    ensures r < n
    ensures i == 0 ==> r == n - 1
    ensures i > 0 ==> r == i - 1
  {
    if i == 0 then ModUnique(n - 1, n, 0, n - 1); (i - 1 + n) % n
    else ModUnique(i - 1 + n, n, 1, i - 1); (i - 1 + n) % n
  }

  /** Going back undoes going forward, and the other way round. */
  lemma PrevUndoesNext(i: nat, n: nat)
    requires 0 <= i < n
    ensures PrevIndex(NextIndex(i, n), n) == i
    ensures NextIndex(PrevIndex(i, n), n) == i
  {
    if i + 1 < n {
      ModUnique(i + 1, n, 0, i + 1);
    } else {
      ModUnique(i + 1, n, 1, 0);
    }
    if i == 0 {
      ModUnique(n, n, 1, 0);
    } else {
      ModUnique(i, n, 0, i);
    }
  }

  /** The index after `k` advances from `i`. */
  function Advance(i: nat, n: nat, k: nat): (r: nat)
    requires n > 0
    ensures r < n
  {
    if k == 0 then i % n else NextIndex(Advance(i, n, k - 1), n)
  }

  /** `k` advances from the first slide land on slide `k mod n`. */
  lemma {:induction false} AdvanceFromFirst(n: nat, k: nat)
    requires n > 0
    ensures Advance(0, n, k) == k % n
  {
    if k == 0 {
      assert 0 % n == 0 by { ModUnique(0, n, 0, 0); }
    } else {
      AdvanceFromFirst(n, k - 1);
      var prev := Advance(0, n, k - 1);
      assert prev == (k - 1) % n;
      assert (prev + 1) % n == k % n by { ModSucc(k - 1, n); }
    }
  }

  lemma ModSucc(k: nat, n: nat)
    requires n > 0
    ensures (k % n + 1) % n == (k + 1) % n
  {
    var q, r := k / n, k % n;
    assert k == q * n + r;
    if r + 1 == n {
      assert k + 1 == (q + 1) * n + 0 by { assert (q + 1) * n == q * n + n; }
      ModUnique(k + 1, n, q + 1, 0);
      ModUnique(r + 1, n, 1, 0);
    } else {
      assert k + 1 == q * n + (r + 1);
      ModUnique(k + 1, n, q, r + 1);
      ModUnique(r + 1, n, 0, r + 1);
    }
  }

  /** The remainder is the one `r` in `[0, n)` with `k == q * n + r`. */
  lemma ModUnique(k: int, n: int, q: int, r: int)
    requires n > 0 && 0 <= r < n && k == q * n + r
    ensures k % n == r
  {
    var q', r' := k / n, k % n;
    assert k == q' * n + r';
    assert (q - q') * n == r' - r by { assert (q - q') * n == q * n - q' * n; }
    if q > q' {
      assert (q - q') * n >= n by { MulAtLeast(q - q', n); }
    } else if q < q' {
      assert (q' - q) * n >= n by { MulAtLeast(q' - q, n); }
    }
  }

  lemma MulAtLeast(a: int, n: int)
    requires a >= 1 && n > 0
    ensures a * n >= n
  {
    assert a * n == (a - 1) * n + n;
    assert (a - 1) * n >= 0;
  }

  class Slider {
    var slides: seq<Slide>
    var current: nat
    var transitioning: bool
    var loading: bool

    /** Before the load there are no slides; after it the first is the welcome slide and the index is in range. */
    predicate Valid()
      reads this
    {
      && (loading ==> slides == [] && current == 0)
      && (!loading ==> 1 <= |slides| <= 5 && slides[0] == WelcomeSlide && current < |slides|)
    }

    constructor()
      ensures Valid() && loading && !transitioning && current == 0
    {
      slides := [];
      current := 0;
      transitioning := false;
      loading := true;
    }

    method Load(reply: Reply<seq<TourPackage>>)
      requires Valid() && loading
      modifies this
      ensures Valid() && !loading
      ensures slides == BuildSlides(reply) && current == 0 && transitioning == old(transitioning)
    {
      slides := BuildSlides(reply);
      loading := false;
    }

    /** `nextSlide`: ignored while a transition runs. The buttons exist only once the slides are shown. */
    method Next()
      requires Valid() && !loading
      modifies this
      ensures Valid() && slides == old(slides) && loading == old(loading)
      ensures old(transitioning) ==> current == old(current) && transitioning
      ensures !old(transitioning) ==> current == NextIndex(old(current), |slides|) && transitioning
    {
      if transitioning {
        return;
      }
      transitioning := true;
      current := NextIndex(current, |slides|);
    }

    method Prev()
      requires Valid() && !loading
      modifies this
      ensures Valid() && slides == old(slides) && loading == old(loading)
      ensures old(transitioning) ==> current == old(current) && transitioning
      ensures !old(transitioning) ==> current == PrevIndex(old(current), |slides|) && transitioning
    {
      if transitioning {
        return;
      }
      transitioning := true;
      current := PrevIndex(current, |slides|);
    }

    /** A click on the indicator of slide `index`. */
    method Indicator(index: nat)
      requires Valid() && !loading && index < |slides|
      modifies this
      ensures Valid() && slides == old(slides) && loading == old(loading)
      ensures old(transitioning) ==> current == old(current) && transitioning
      ensures !old(transitioning) ==> current == index && transitioning
    {
      if !transitioning {
        transitioning := true;
        current := index;
      }
    }

    /** The 500 ms timer that ends a transition. */
    method TransitionEnd()
      requires Valid()
      modifies this
      ensures Valid() && !transitioning
      ensures slides == old(slides) && current == old(current) && loading == old(loading)
    {
      transitioning := false;
    }

    /** The autoplay interval, which runs only while there are slides. */
    method Tick()
      requires Valid()
      modifies this
      ensures Valid() && slides == old(slides) && loading == old(loading)
      ensures slides == [] || old(transitioning) ==> current == old(current) && transitioning == old(transitioning)
      ensures slides != [] && !old(transitioning) ==> current == NextIndex(old(current), |slides|) && transitioning
    {
      if |slides| == 0 {
        return;
      }
      Next();
    }
  }
}
