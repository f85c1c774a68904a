/**
 * The slug expression the tour, blog and travel-information forms share:
 *   title.toLowerCase().replace(/[^a-z0-9]+/g, '-').replace(/(^-|-$)/g, '')
 * written as its three steps, with the shape of its result and its
 * idempotence proved.
 */
module Slug {
  import opened Text
  import opened Options
  import opened Seqs

  /** `[a-z0-9]`: the characters the expression keeps as they are. */
  predicate IsSlugChar(c: char) { IsAsciiLower(c) || IsDigit(c) }

  /** The shape every derived slug has. */
  predicate IsSlug(s: string) {
    && (forall i :: 0 <= i < |s| ==> IsSlugChar(s[i]) || s[i] == '-')
    && (|s| > 0 ==> s[0] != '-' && s[|s| - 1] != '-')
    && (forall i :: 0 <= i < |s| - 1 ==> s[i] != '-' || s[i + 1] != '-')
  }

  /** Skips the rest of a run of characters outside `[a-z0-9]`. */
  function DropSeparators(s: string): (r: string)
    ensures |r| <= |s|
    ensures r == [] || IsSlugChar(r[0])
  {
    if s != [] && !IsSlugChar(s[0]) then DropSeparators(s[1..]) else s
  }

  /**
   * `.replace(/[^a-z0-9]+/g, '-')`: the greedy `+` makes every match a
   * maximal run, and each run becomes a single hyphen.
   */
  function CollapseRuns(s: string): (r: string)
    ensures forall i :: 0 <= i < |r| ==> IsSlugChar(r[i]) || r[i] == '-'
    ensures forall i :: 0 <= i < |r| - 1 ==> r[i] != '-' || r[i + 1] != '-'
    ensures r == [] <==> s == []
    ensures s != [] && IsSlugChar(s[0]) ==> r[0] == s[0]
    decreases |s|
  {
    if s == [] then []
    else if IsSlugChar(s[0]) then
      var rest := CollapseRuns(s[1..]);
      assert forall i :: 1 <= i < |[s[0]] + rest| ==> ([s[0]] + rest)[i] == rest[i - 1];
      [s[0]] + rest
    else
      var rest := CollapseRuns(DropSeparators(s[1..]));
      assert forall i :: 1 <= i < |"-" + rest| ==> ("-" + rest)[i] == rest[i - 1];
      "-" + rest
  }

  /**
   * `.replace(/(^-|-$)/g, '')`: removes a hyphen at the start and one at
   * the end (on "-" the single match at the start removes it).
   */
  function StripEdgeHyphens(s: string): (r: string)
    ensures |s| - 2 <= |r| <= |s|
    ensures (|s| == 0 || (s[0] != '-' && s[|s| - 1] != '-')) ==> r == s
    ensures r <= s || (|s| > 0 && r <= s[1..])
  {
    var a := if |s| > 0 && s[0] == '-' then s[1..] else s;
    if |a| > 0 && a[|a| - 1] == '-' then a[..|a| - 1] else a
  }

  /**
   * The slug of a title. Every slug holds only `a`-`z`, `0`-`9` and `-`,
   * neither starts nor ends with `-`, and never holds `--`.
   */
  function Slugify(title: string): (r: string)
    ensures |r| <= |title|
    ensures IsSlug(r)
  {
    var collapsed := CollapseRuns(Lower(title));
    CollapseLength(Lower(title));
    StripMakesSlug(collapsed);
    StripEdgeHyphens(collapsed)
  }

  /** The collapse never lengthens a string. */
  lemma {:induction false} CollapseLength(s: string)
    ensures |CollapseRuns(s)| <= |s|
    decreases |s|
  {
    if s != [] {
      if IsSlugChar(s[0]) {
        CollapseLength(s[1..]);
      } else {
        CollapseLength(DropSeparators(s[1..]));
      }
    }
  }

  /**
   * `generateSlug(title)` under the title field: the title's slug, shown
   * only while the title is non-empty.
   */
  function SlugPreview(title: string): (r: Option<string>)
    ensures r.Some? <==> title != ""
    ensures r.Some? ==> r.value == Slugify(title)
  {
    if title != "" then Some(Slugify(title)) else None
  }

  /** Skipping separators drops no letter or digit. */
  lemma {:induction false} DropSeparatorsKeepsLetters(s: string)
    ensures Filter(DropSeparators(s), IsSlugChar) == Filter(s, IsSlugChar)
  {
    if s != [] && !IsSlugChar(s[0]) {
      DropSeparatorsKeepsLetters(s[1..]);
    }
  }

  /** The collapse keeps every letter and digit, in order: it only rewrites the runs between them. */
  lemma {:induction false} CollapseKeepsLetters(s: string)
    ensures Filter(CollapseRuns(s), IsSlugChar) == Filter(s, IsSlugChar)
    decreases |s|
  {
    if s != [] {
      if IsSlugChar(s[0]) {
        var rest := CollapseRuns(s[1..]);
        CollapseKeepsLetters(s[1..]);
        assert ([s[0]] + rest)[1..] == rest;
      } else {
        var t := DropSeparators(s[1..]);
        var rest := CollapseRuns(t);
        CollapseKeepsLetters(t);
        DropSeparatorsKeepsLetters(s[1..]);
        assert ("-" + rest)[1..] == rest;
      }
    }
  }

  /** Removing the edge hyphens drops no letter or digit. */
  lemma StripKeepsLetters(s: string)
    ensures Filter(StripEdgeHyphens(s), IsSlugChar) == Filter(s, IsSlugChar)
  {
    var a := if |s| > 0 && s[0] == '-' then s[1..] else s;
    assert Filter(a, IsSlugChar) == Filter(s, IsSlugChar);
    if |a| > 0 && a[|a| - 1] == '-' {
      var init := a[..|a| - 1];
      assert a == init + ['-'];
      FilterAppend(init, '-', IsSlugChar);
    }
  }

  /**
   * The letters and digits of a slug are exactly those of the lowercased
   * title, in order; everything else in the slug is a hyphen.
   */
  lemma SlugifyKeepsLetters(title: string)
    ensures Filter(Slugify(title), IsSlugChar) == Filter(Lower(title), IsSlugChar)
    ensures forall i :: 0 <= i < |Slugify(title)| && !IsSlugChar(Slugify(title)[i]) ==> Slugify(title)[i] == '-'
  {
    CollapseKeepsLetters(Lower(title));
    StripKeepsLetters(CollapseRuns(Lower(title)));
  }

  /** Stripping the edge hyphens of a collapsed string leaves a slug. */
  lemma StripMakesSlug(s: string)
    requires forall i :: 0 <= i < |s| ==> IsSlugChar(s[i]) || s[i] == '-'
    requires forall i :: 0 <= i < |s| - 1 ==> s[i] != '-' || s[i + 1] != '-'
    ensures IsSlug(StripEdgeHyphens(s))
  {
    var a := if |s| > 0 && s[0] == '-' then s[1..] else s;
    assert forall i :: 0 <= i < |a| - 1 ==> a[i] != '-' || a[i + 1] != '-';
    assert |a| > 0 ==> a[0] != '-';
  }

  /** A string that already has the slug alphabet and no `--` comes out of the collapse unchanged. */
  lemma {:induction false} CollapseKeepsSlug(s: string)
    requires forall i :: 0 <= i < |s| ==> IsSlugChar(s[i]) || s[i] == '-'
    requires forall i :: 0 <= i < |s| - 1 ==> s[i] != '-' || s[i + 1] != '-'
    ensures CollapseRuns(s) == s
    decreases |s|
  {
    if s != [] {
      if IsSlugChar(s[0]) {
        CollapseKeepsSlug(s[1..]);
        assert [s[0]] + s[1..] == s;
      } else {
        assert s[1..] == [] || IsSlugChar(s[1]);
        assert DropSeparators(s[1..]) == s[1..];
        CollapseKeepsSlug(s[1..]);
        assert "-" + s[1..] == s;
      }
    }
  }

  /** A slug is its own slug. */
  lemma SlugifyKeepsSlug(s: string)
    requires IsSlug(s)
    ensures Slugify(s) == s
  {
    assert Lower(s) == s;
    CollapseKeepsSlug(s);
  }

  /** Deriving a slug twice gives the same slug as deriving it once. */
  lemma SlugifyIdempotent(title: string)
    ensures Slugify(Slugify(title)) == Slugify(title)
  {
    SlugifyKeepsSlug(Slugify(title));
  }

  /** A run of slug characters passes through the collapse as it is. */
  lemma {:induction false} CollapseWord(w: string, rest: string)
    requires forall i :: 0 <= i < |w| ==> IsSlugChar(w[i])
    ensures CollapseRuns(w + rest) == w + CollapseRuns(rest)
    decreases |w|
  {
    if w == [] {
      assert w + rest == rest;
    } else {
      CollapseWord(w[1..], rest);
      var s := w + rest;
      assert s[0] == w[0];
      assert s[1..] == w[1..] + rest;
      calc {
        CollapseRuns(s);
        [w[0]] + CollapseRuns(w[1..] + rest);
        [w[0]] + (w[1..] + CollapseRuns(rest));
        { assert [w[0]] + w[1..] == w; }
        w + CollapseRuns(rest);
      }
    }
  }

  /** A lone separator before a slug character becomes one hyphen. */
  lemma CollapseSeparator(c: char, rest: string)
    requires !IsSlugChar(c)
    requires rest == [] || IsSlugChar(rest[0])
    ensures CollapseRuns([c] + rest) == "-" + CollapseRuns(rest)
  {
    assert ([c] + rest)[1..] == rest;
  }

  /** The collapse step of the worked example. */
  lemma CollapseExample()
    ensures CollapseRuns("go now!") == "go-now-"
  {
    assert ['!'] + "" == "!";
    CollapseSeparator('!', "");
    CollapseWord("now", "!");
    assert "now" + "!" == "now!";
    assert [' '] + "now!" == " now!";
    CollapseSeparator(' ', "now!");
    assert "go" + " now!" == "go now!";
    CollapseWord("go", " now!");
  }

  /** The worked example: capitals, a space and a trailing `!`. */
  lemma SlugifyExample()
    ensures Slugify("Go Now!") == "go-now"
  {
    LowerExample();
    CollapseExample();
    assert StripEdgeHyphens("go-now-") == "go-now";
  }

  /** A slug as the tour pages store it is its own slug. */
  lemma KilimanjaroSlugIsFixed()
    ensures Slugify("mount-kilimanjaro-trek") == "mount-kilimanjaro-trek"
  {
    SlugifyKeepsSlug("mount-kilimanjaro-trek");
  }

  /** The lowercasing step of the worked example. */
  lemma LowerExample()
    ensures Lower("Go Now!") == "go now!"
  {
    var r := Lower("Go Now!");
    assert r[0] == LowerChar('G') == 'g';
    assert r[3] == LowerChar('N') == 'n';
    assert forall i :: 0 <= i < 7 && i != 0 && i != 3 ==> r[i] == "go now!"[i];
  }
}
