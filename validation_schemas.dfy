/**
 * The form schemas, written as the list of issues each one reports for a
 * record, together with the plain condition under which that list is
 * empty.  The records carry the schema's field types already; only the
 * refinements (minimum lengths, minimum values, enumerations, URL and
 * e-mail checks) are checked here.  Whether a string is a URL or an
 * e-mail address is decided by the schema library and is a parameter.
 */
module ValidationSchemas {
  import opened Options

  /** One step of the path of an issue: a field name or a list position. */
  datatype Key = Name(name: string) | At(index: nat)

  /** An issue: where it is, and its custom message (`None`: the library's default text). */
  datatype Issue = Issue(path: seq<Key>, message: Option<string>)

  /** `z.string().min(n, message)`. */
  function MinLength(path: seq<Key>, s: string, n: nat, message: Option<string>): (r: seq<Issue>)
    ensures r == [] <==> |s| >= n
    ensures r != [] ==> r == [Issue(path, message)]
  {
    if |s| >= n then [] else [Issue(path, message)]
  }

  /** `z.number().min(n, message)`. */
  function AtLeast(path: seq<Key>, v: int, n: int, message: Option<string>): (r: seq<Issue>)
    ensures r == [] <==> v >= n
    ensures r != [] ==> r == [Issue(path, message)]
  {
    if v >= n then [] else [Issue(path, message)]
  }

  /** `z.enum(options)`. */
  function OneOf(path: seq<Key>, v: string, options: seq<string>): (r: seq<Issue>)
    ensures r == [] <==> v in options
    ensures r != [] ==> r == [Issue(path, None)]
  {
    if v in options then [] else [Issue(path, None)]
  }

  /** A library format check such as `.url(message)` or `.email(message)`. */
  function Format(path: seq<Key>, s: string, ok: string -> bool, message: Option<string>): (r: seq<Issue>)
    ensures r == [] <==> ok(s)
    ensures r != [] ==> r == [Issue(path, message)]
  {
    if ok(s) then [] else [Issue(path, message)]
  }

  /**
   * `z.array(z.string().min(1))`: one issue per empty entry, in order, at
   * the entry's position (`from` is the position of `items[0]`).
   */
  function EachNonEmpty(field: string, items: seq<string>, from: nat): (r: seq<Issue>)
    ensures r == [] <==> forall i :: 0 <= i < |items| ==> items[i] != ""
    ensures |r| <= |items|
    ensures forall k :: 0 <= k < |r| ==> r[k].message.None? && |r[k].path| == 2 && r[k].path[0] == Name(field)
    decreases |items|
  {
    if items == [] then []
    else
      var rest := EachNonEmpty(field, items[1..], from + 1);
      var head := if items[0] == "" then [Issue([Name(field), At(from)], None)] else [];
      head + rest
  }

  /** `z.array(z.string().url())`: one issue per entry that is not a URL. */
  function EachFormat(field: string, items: seq<string>, from: nat, ok: string -> bool): (r: seq<Issue>)
    ensures r == [] <==> forall i :: 0 <= i < |items| ==> ok(items[i])
    ensures |r| <= |items|
    decreases |items|
  {
    if items == [] then []
    else
      (if ok(items[0]) then [] else [Issue([Name(field), At(from)], None)])
      + EachFormat(field, items[1..], from + 1, ok)
  }

  // ---------------------------------------------------------------- login

  datatype Login = Login(email: string, password: string)

  const PasswordMessage := "Password must be at least 6 characters"

  function LoginIssues(d: Login, isEmail: string -> bool): (r: seq<Issue>)
    ensures r == [] <==> isEmail(d.email) && |d.password| >= 6
    ensures |d.password| < 6 ==> Issue([Name("password")], Some(PasswordMessage)) in r
  {
    Format([Name("email")], d.email, isEmail, Some("Please enter a valid email address"))
    + MinLength([Name("password")], d.password, 6, Some(PasswordMessage))
  }

  // ------------------------------------------------------------- register

  datatype Register = Register(email: string, password: string, fullName: string)

  function RegisterIssues(d: Register, isEmail: string -> bool): (r: seq<Issue>)
    ensures r == [] <==> isEmail(d.email) && |d.password| >= 6 && |d.fullName| >= 2
    ensures r == LoginIssues(Login(d.email, d.password), isEmail)
                 + MinLength([Name("full_name")], d.fullName, 2, Some("Full name is required"))
  {
    Format([Name("email")], d.email, isEmail, Some("Please enter a valid email address"))
    + MinLength([Name("password")], d.password, 6, Some(PasswordMessage))
    + MinLength([Name("full_name")], d.fullName, 2, Some("Full name is required"))
  }

  // ----------------------------------------------------------------- blog

  datatype Blog = Blog(
    title: string, excerpt: string, content: string, featuredImage: string,
    author: string, category: string, tags: seq<string>, published: bool)

  function BlogIssues(d: Blog, isUrl: string -> bool): (r: seq<Issue>)
    ensures r == [] <==>
      && |d.title| >= 5 && |d.excerpt| >= 20 && |d.content| >= 100
      && isUrl(d.featuredImage) && |d.author| >= 2 && |d.category| >= 1
      && forall i :: 0 <= i < |d.tags| ==> d.tags[i] != ""
  {
    MinLength([Name("title")], d.title, 5, Some("Title must be at least 5 characters"))
    + MinLength([Name("excerpt")], d.excerpt, 20, Some("Excerpt must be at least 20 characters"))
    + MinLength([Name("content")], d.content, 100, Some("Content must be at least 100 characters"))
    + Format([Name("featured_image")], d.featuredImage, isUrl, Some("Please enter a valid image URL"))
    + MinLength([Name("author")], d.author, 2, Some("Author name is required"))
    + MinLength([Name("category")], d.category, 1, Some("Category is required"))
    + EachNonEmpty("tags", d.tags, 0)
  }

  // ----------------------------------------------------------------- tour

  const TourCategories := ["mountain-climbing", "safari", "day-trips"]
  const Difficulties := ["easy", "moderate", "challenging", "extreme"]

  datatype Tour = Tour(
    title: string, description: string, shortDescription: string,
    category: string, duration: int, difficulty: string,
    priceUsd: int, priceTzs: int, maxParticipants: int, minParticipants: int,
    images: seq<string>, includes: seq<string>, excludes: seq<string>,
    requirements: seq<string>, bestTime: string, featured: bool, active: bool)

  /** The numeric refinements of the tour schema. */
  function TourNumberIssues(d: Tour): (r: seq<Issue>)
    ensures r == [] <==>
      d.duration >= 1 && d.priceUsd >= 1 && d.priceTzs >= 1 &&
      d.maxParticipants >= 1 && d.minParticipants >= 1
  {
    AtLeast([Name("duration")], d.duration, 1, Some("Duration must be at least 1 day"))
    + AtLeast([Name("price_usd")], d.priceUsd, 1, Some("Price must be greater than 0"))
    + AtLeast([Name("price_tzs")], d.priceTzs, 1, Some("Price must be greater than 0"))
    + AtLeast([Name("max_participants")], d.maxParticipants, 1, Some("Max participants must be at least 1"))
    + AtLeast([Name("min_participants")], d.minParticipants, 1, Some("Min participants must be at least 1"))
  }

  /** The list refinements of the tour schema. */
  function TourListIssues(d: Tour, isUrl: string -> bool): (r: seq<Issue>)
    ensures r == [] <==>
      && |d.images| >= 1 && (forall i :: 0 <= i < |d.images| ==> isUrl(d.images[i]))
      && (forall i :: 0 <= i < |d.includes| ==> d.includes[i] != "")
      && (forall i :: 0 <= i < |d.excludes| ==> d.excludes[i] != "")
      && (forall i :: 0 <= i < |d.requirements| ==> d.requirements[i] != "")
  {
    EachFormat("images", d.images, 0, isUrl)
    + (if |d.images| >= 1 then [] else [Issue([Name("images")], Some("At least one image is required"))])
    + EachNonEmpty("includes", d.includes, 0)
    + EachNonEmpty("excludes", d.excludes, 0)
    + EachNonEmpty("requirements", d.requirements, 0)
  }

  function TourIssues(d: Tour, isUrl: string -> bool): (r: seq<Issue>)
    ensures r == [] <==>
      && |d.title| >= 5 && |d.description| >= 50 && |d.shortDescription| >= 20
      && d.category in TourCategories && d.difficulty in Difficulties
      && TourNumberIssues(d) == [] && TourListIssues(d, isUrl) == []
      && |d.bestTime| >= 5
  {
    MinLength([Name("title")], d.title, 5, Some("Title must be at least 5 characters"))
    + MinLength([Name("description")], d.description, 50, Some("Description must be at least 50 characters"))
    + MinLength([Name("short_description")], d.shortDescription, 20, Some("Short description must be at least 20 characters"))
    + OneOf([Name("category")], d.category, TourCategories)
    + TourNumberIssues(d)
    + OneOf([Name("difficulty")], d.difficulty, Difficulties)
    + TourListIssues(d, isUrl)
    + MinLength([Name("best_time")], d.bestTime, 5, Some("Best time must be specified"))
  }

  /**
   * The tour schema never compares the two participant counts: any
   * accepted tour is still accepted with its minimum raised above its
   * maximum.
   */
  lemma ParticipantBoundsUnrelated(d: Tour, isUrl: string -> bool)
    requires TourIssues(d, isUrl) == []
    ensures var e := d.(minParticipants := d.maxParticipants + 1);
      TourIssues(e, isUrl) == [] && e.minParticipants > e.maxParticipants
  {
    var e := d.(minParticipants := d.maxParticipants + 1);
    assert TourNumberIssues(d) == [];
    assert TourNumberIssues(e) == [];
    assert TourListIssues(e, isUrl) == TourListIssues(d, isUrl);
  }

  // ------------------------------------------------------ travel information

  const TravelCategories := ["tips", "packing", "visa", "best-time", "health-safety", "currency", "weather"]

  datatype QuickFact = QuickFact(labelText: string, value: string, icon: Option<string>)

  datatype TravelInfo = TravelInfo(
    title: string, excerpt: string, content: string, featuredImage: string,
    category: string, tags: seq<string>, quickFacts: seq<QuickFact>,
    checklistItems: Option<seq<string>>, featured: bool, active: bool)

  /** `z.array(z.object({ label: z.string().min(1), value: z.string().min(1), icon: optional }))`. */
  function QuickFactIssues(facts: seq<QuickFact>, from: nat): (r: seq<Issue>)
    ensures r == [] <==> forall i :: 0 <= i < |facts| ==> facts[i].labelText != "" && facts[i].value != ""
    decreases |facts|
  {
    if facts == [] then []
    else
      MinLength([Name("quick_facts"), At(from), Name("label")], facts[0].labelText, 1, None)
      + MinLength([Name("quick_facts"), At(from), Name("value")], facts[0].value, 1, None)
      + QuickFactIssues(facts[1..], from + 1)
  }

  function TravelInfoIssues(d: TravelInfo, isUrl: string -> bool): (r: seq<Issue>)
    ensures r == [] <==>
      && |d.title| >= 5 && |d.excerpt| >= 20 && |d.content| >= 100
      && isUrl(d.featuredImage) && d.category in TravelCategories
      && (forall i :: 0 <= i < |d.tags| ==> d.tags[i] != "")
      && (forall i :: 0 <= i < |d.quickFacts| ==> d.quickFacts[i].labelText != "" && d.quickFacts[i].value != "")
      && (d.checklistItems.Some? ==> forall i :: 0 <= i < |d.checklistItems.value| ==> d.checklistItems.value[i] != "")
  {
    MinLength([Name("title")], d.title, 5, Some("Title must be at least 5 characters"))
    + MinLength([Name("excerpt")], d.excerpt, 20, Some("Excerpt must be at least 20 characters"))
    + MinLength([Name("content")], d.content, 100, Some("Content must be at least 100 characters"))
    + Format([Name("featured_image")], d.featuredImage, isUrl, Some("Please enter a valid image URL"))
    + OneOf([Name("category")], d.category, TravelCategories)
    + EachNonEmpty("tags", d.tags, 0)
    + QuickFactIssues(d.quickFacts, 0)
    + (match d.checklistItems
       case None => []
       case Some(items) => EachNonEmpty("checklist_items", items, 0))
  }

  /** The icon of a quick fact is never checked. */
  lemma IconIgnored(d: TravelInfo, isUrl: string -> bool, i: nat, icon: Option<string>)
    requires i < |d.quickFacts|
    ensures var e := d.(quickFacts := d.quickFacts[i := d.quickFacts[i].(icon := icon)]);
      (TravelInfoIssues(e, isUrl) == []) == (TravelInfoIssues(d, isUrl) == [])
  {
    var e := d.(quickFacts := d.quickFacts[i := d.quickFacts[i].(icon := icon)]);
    assert forall j :: 0 <= j < |d.quickFacts| ==>
      e.quickFacts[j].labelText == d.quickFacts[j].labelText && e.quickFacts[j].value == d.quickFacts[j].value;
  }
}
