/**
 * The breadcrumb trail: one crumb per non-empty segment of the path, each
 * linking to the path up to and including its segment, labelled with the
 * segment's words capitalised.
 */
module BreadcrumbsComponent {
  import opened Text
  import opened Seqs

  datatype Crumb = Crumb(labelText: string, path: string)

  function NonEmpty(s: string): bool { s != "" }

  /** `pathname.split('/').filter(Boolean)`. */
  function Segments(pathname: string): (r: seq<string>)
    ensures forall i :: 0 <= i < |r| ==> r[i] != "" && '/' !in r[i]
  {
    var parts := Split(pathname, '/');
    var r := Filter(parts, NonEmpty);
    assert forall i :: 0 <= i < |r| ==> r[i] in parts;
    r
  }

  /** `word.charAt(0).toUpperCase() + word.slice(1)`. */
  function Capitalize(word: string): (r: string)
    ensures |r| == |word|
    ensures |word| > 0 ==> r[0] == UpperChar(word[0]) && r[1..] == word[1..]
  {
    if word == [] then [] else [UpperChar(word[0])] + word[1..]
  }

  function CapitalizeAll(words: seq<string>): (r: seq<string>)
    ensures |r| == |words|
    ensures forall i :: 0 <= i < |r| ==> r[i] == Capitalize(words[i])
  {
    seq(|words|, i requires 0 <= i < |words| => Capitalize(words[i]))
  }

  /**
   * The label of a segment read character by character: a `-` becomes a
   * space and the first character of each word is capitalised.
   */
  function LabelFrom(s: string, wordStart: bool): (r: string)
    ensures |r| == |s|
    ensures forall k :: 0 <= k < |s| && s[k] == '-' ==> r[k] == ' '
    ensures forall k :: 0 <= k < |s| && s[k] != '-' ==> r[k] == s[k] || r[k] == UpperChar(s[k])
  {
    if s == [] then []
    else if s[0] == '-' then " " + LabelFrom(s[1..], true)
    else [if wordStart then UpperChar(s[0]) else s[0]] + LabelFrom(s[1..], false)
  }

  function Label(segment: string): (r: string)
    ensures |r| == |segment|
    ensures forall k :: 0 <= k < |segment| && segment[k] == '-' ==> r[k] == ' '
    ensures |segment| > 0 && segment[0] != '-' ==> r[0] == UpperChar(segment[0])
  {
    LabelFrom(segment, true)
  }

  /** `segment.split('-').map(capitalise).join(' ')`, as the component writes it. */
  function WordsLabel(segment: string): string
  {
    Join(CapitalizeAll(Split(segment, '-')), " ")
  }

  lemma JoinHead(x: char, a: string, rest: seq<string>)
    ensures Join([[x] + a] + rest, " ") == [x] + Join([a] + rest, " ")
  {
    if |rest| > 0 {
      assert ([[x] + a] + rest)[1..] == rest;
      assert ([a] + rest)[1..] == rest;
    }
  }

  /** Split, capitalise and join gives the character-by-character label; inside a word nothing is capitalised. */
  lemma {:induction false} LabelFromWords(t: string)
    ensures LabelFrom(t, true) == Join(CapitalizeAll(Split(t, '-')), " ")
    ensures LabelFrom(t, false) == Join([Split(t, '-')[0]] + CapitalizeAll(Split(t, '-')[1..]), " ")
  {
    if t != [] {
      var u := t[1..];
      var w := Split(u, '-');
      LabelFromWords(u);
      if t[0] == '-' {
        assert Split(t, '-') == [""] + w;
        assert CapitalizeAll([""] + w) == [""] + CapitalizeAll(w);
        assert ([""] + CapitalizeAll(w))[1..] == CapitalizeAll(w);
        assert (([""] + w)[1..]) == w;
      } else {
        assert Split(t, '-') == [[t[0]] + w[0]] + w[1..];
        assert (([[t[0]] + w[0]] + w[1..])[1..]) == w[1..];
        assert CapitalizeAll([[t[0]] + w[0]] + w[1..]) == [[UpperChar(t[0])] + w[0]] + CapitalizeAll(w[1..]);
        JoinHead(t[0], w[0], CapitalizeAll(w[1..]));
        JoinHead(UpperChar(t[0]), w[0], CapitalizeAll(w[1..]));
      }
    }
  }

  /** The component's label is the character-by-character label. */
  lemma WordsLabelIsLabel(segment: string)
    ensures WordsLabel(segment) == Label(segment)
  {
    LabelFromWords(segment);
  }

  /** The path of the first `n` segments, accumulated as the loop does. */
  function PathUpTo(segments: seq<string>, n: nat): (p: string)
    requires n <= |segments|
    ensures n == 0 <==> p == ""
  {
    if n == 0 then "" else PathUpTo(segments, n - 1) + "/" + segments[n - 1]
  }

  /** The path of a crumb is `/` followed by the segments up to it joined by `/`. */
  lemma {:induction false} PathUpToJoin(segments: seq<string>, n: nat)
    requires 0 < n <= |segments|
    ensures PathUpTo(segments, n) == "/" + Join(segments[..n], "/")
  {
    if n > 1 {
      PathUpToJoin(segments, n - 1);
      JoinSnoc(segments[..n - 1], segments[n - 1], "/");
      assert segments[..n - 1] + [segments[n - 1]] == segments[..n];
    } else {
      assert segments[..1] == [segments[0]];
    }
  }

  lemma {:induction false} JoinSnoc(parts: seq<string>, x: string, sep: string)
    requires |parts| > 0
    ensures Join(parts + [x], sep) == Join(parts, sep) + sep + x
  {
    if |parts| > 1 {
      JoinSnoc(parts[1..], x, sep);
      assert (parts + [x])[1..] == parts[1..] + [x];
    } else {
      assert (parts + [x])[1..] == [x];
    }
  }

  /** Each crumb's path extends the path of every crumb before it. */
  lemma {:induction false} PathsNested(segments: seq<string>, m: nat, n: nat)
    requires m <= n <= |segments|
    ensures PathUpTo(segments, m) <= PathUpTo(segments, n)
    decreases n
  {
    if m < n {
      PathsNested(segments, m, n - 1);
    }
  }

  /** One crumb per segment. */
  function TrailOf(segments: seq<string>): (r: seq<Crumb>)
    ensures |r| == |segments|
    ensures forall i :: 0 <= i < |r| ==> r[i] == Crumb(Label(segments[i]), PathUpTo(segments, i + 1))
  {
    seq(|segments|, i requires 0 <= i < |segments| => Crumb(Label(segments[i]), PathUpTo(segments, i + 1)))
  }

  /** The trail of a path. */
  function Trail(pathname: string): (r: seq<Crumb>)
    ensures r == TrailOf(Segments(pathname))
    ensures |r| == |Segments(pathname)|
    ensures forall i :: 0 <= i < |r| ==> r[i].path != "" && |r[i].labelText| == |Segments(pathname)[i]|
  {
    TrailOf(Segments(pathname))
  }

  /** `generateBreadcrumbs`: the loop that accumulates the path and pushes one crumb per segment. */
  method GenerateBreadcrumbs(pathname: string) returns (items: seq<Crumb>)
    ensures items == Trail(pathname)
  {
    var segments := Segments(pathname);
    ghost var trail := TrailOf(segments);
    items := [];
    var currentPath := "";
    var index := 0;
    while index < |segments|
      invariant 0 <= index <= |segments|
      invariant currentPath == PathUpTo(segments, index)
      invariant items == trail[..index]
    {
      var segment := segments[index];
      currentPath := currentPath + "/" + segment;
      assert currentPath == PathUpTo(segments, index + 1);
      var labelText := WordsLabel(segment);
      WordsLabelIsLabel(segment);
      assert trail[index] == Crumb(labelText, currentPath);
      assert trail[..index + 1] == trail[..index] + [Crumb(labelText, currentPath)];
      items := items + [Crumb(labelText, currentPath)];
      index := index + 1;
    }
    assert trail[..index] == trail;
  }

  /** The trail is drawn only when there is a crumb and the page is not the home page. */
  predicate Renders(pathname: string, items: seq<Crumb>) {
    |items| > 0 && pathname != "/"
  }

  /** The home page has no crumbs, and neither has a path made only of slashes. */
  lemma {:induction false} OnlySlashesNoCrumbs(pathname: string)
    requires forall i :: 0 <= i < |pathname| ==> pathname[i] == '/'
    ensures Trail(pathname) == []
  {
    var parts := Split(pathname, '/');
    forall k | 0 <= k < |parts| ensures parts[k] == "" {
      SplitOnlySeparators(pathname, '/', k);
    }
    FilterKeepsNone(parts, NonEmpty);
  }

  lemma {:induction false} SplitOnlySeparators(s: string, sep: char, k: nat)
    requires forall i :: 0 <= i < |s| ==> s[i] == sep
    requires k < |Split(s, sep)|
    ensures Split(s, sep)[k] == ""
  {
    if s != [] && k > 0 {
      SplitOnlySeparators(s[1..], sep, k - 1);
    }
  }

  /** Every crumb but the last is a link. */
  predicate IsLink(items: seq<Crumb>, index: nat) {
    index != |items| - 1
  }
}
