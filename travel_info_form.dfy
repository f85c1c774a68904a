/**
 * The travel guide editor: loading a guide for editing, the slug preview,
 * and saving the guide with its checklist cleaned of blank entries.  Its
 * schema is the travel information schema of `ValidationSchemas`, which it
 * repeats field for field.
 */
module TravelInfoFormPage {
  import opened Options
  import opened Text
  import opened Seqs
  import opened Remote
  import opened Slug
  import opened FormValues
  import opened ValidationSchemas

  datatype StoredGuide = StoredGuide(id: string, fields: Record)

  /** What is sent to be stored: the form data, the derived slug and the cleaned checklist. */
  datatype GuidePayload = GuidePayload(data: TravelInfo, slug: string, checklistItems: seq<string>)

  datatype Call = ListGuides | UpdateGuide(id: string, payload: GuidePayload) | CreateGuide(payload: GuidePayload)

  const Skipped: set<string> := {"id", "created_at", "updated_at", "slug"}

  const ListPath := "/admin/travel-info"

  /** `item => item.trim() !== ''`. */
  function NotBlank(item: string): bool { !IsBlank(item) }

  /** `items?.filter(item => item.trim() !== '') || []`. */
  function Checklist(items: Option<seq<string>>): (r: seq<string>)
    ensures items.None? ==> r == []
    ensures items.Some? ==> IsSubsequence(r, items.value)
    ensures items.Some? ==> forall x :: x in r <==> x in items.value && !IsBlank(x)
  {
    match items
    case None => []
    case Some(list) => Filter(list, NotBlank)
  }

  /** Each filled entry keeps its number of occurrences; blank entries are all dropped. */
  lemma ChecklistMultiset(items: seq<string>)
    ensures forall x :: multiset(Checklist(Some(items)))[x] == if IsBlank(x) then 0 else multiset(items)[x]
  {
    FilterMultiset(items, NotBlank);
  }

  /** A checklist without blank entries is kept as it is. */
  lemma ChecklistKeepsFilled(items: seq<string>)
    requires forall i :: 0 <= i < |items| ==> !IsBlank(items[i])
    ensures Checklist(Some(items)) == items
  {
    FilterKeepsAll(items, NotBlank);
  }

  /** Cleaning a cleaned checklist changes nothing. */
  lemma ChecklistIdempotent(items: Option<seq<string>>)
    ensures Checklist(Some(Checklist(items))) == Checklist(items)
  {
    var r := Checklist(items);
    forall i | 0 <= i < |r| ensures !IsBlank(r[i]) {
      assert r[i] in r;
    }
    ChecklistKeepsFilled(r);
  }

  function Payload(data: TravelInfo): (p: GuidePayload)
    ensures p.data == data
    ensures p.slug == Slugify(data.title)
    ensures p.checklistItems == Checklist(data.checklistItems)
  {
    GuidePayload(data, Slugify(data.title), Checklist(data.checklistItems))
  }

  /** For data the schema accepts, the slug preview is shown and is the slug that is saved. */
  lemma PreviewIsSaved(data: TravelInfo, isUrl: string -> bool)
    requires TravelInfoIssues(data, isUrl) == []
    ensures SlugPreview(data.title) == Some(Payload(data).slug)
  {
  }

  function HasId(id: string): StoredGuide -> bool {
    (g: StoredGuide) => g.id == id
  }

  function Located(rows: Option<seq<StoredGuide>>, id: string): (r: Option<StoredGuide>)
    ensures r.Some? ==> r.value.id == id && rows.Some? && r.value in rows.value
    ensures r.None? ==> rows.None? || forall g :: g in rows.value ==> g.id != id
    ensures r.Some? ==> exists i :: 0 <= i < |rows.value| && rows.value[i] == r.value &&
                                     forall j :: 0 <= j < i ==> rows.value[j].id != id
  {
    match rows
    case None => None
    case Some(list) => Find(list, HasId(id))
  }

  class TravelInfoForm {
    const routeId: Option<string>
    const form: Form
    var initialLoading: bool
    var loading: bool
    var issues: seq<Issue>
    var alerts: seq<string>
    var navigatedTo: Option<string>
    var calls: seq<Call>

    predicate Editing()
    {
      routeId.Some? && routeId.value != ""
    }

    constructor(routeId: Option<string>, defaults: map<string, Value>)
      ensures this.routeId == routeId && fresh(form) && form.values == defaults
      ensures !loading && initialLoading == Editing()
      ensures issues == [] && alerts == [] && navigatedTo == None && calls == []
    {
      this.routeId := routeId;
      form := new Form(defaults);
      loading := false;
      initialLoading := routeId.Some? && routeId.value != "";
      issues := [];
      alerts := [];
      navigatedTo := None;
      calls := [];
    }

    method FetchTravelInfo(reply: Reply<seq<StoredGuide>>)
      modifies this, form
      ensures !initialLoading
      ensures !Editing() ==> form.values == old(form.values) &&
                             alerts == old(alerts) && navigatedTo == old(navigatedTo) && calls == old(calls)
      ensures Editing() ==> calls == old(calls) + [ListGuides]
      ensures Editing() && reply.error.Some? ==>
        && form.values == old(form.values)
        && alerts == old(alerts) + ["Failed to fetch travel information data"] && navigatedTo == Some(ListPath)
      ensures Editing() && reply.error.None? && Located(reply.data, routeId.value).None? ==>
        && form.values == old(form.values)
        && alerts == old(alerts) + ["Travel information not found"] && navigatedTo == Some(ListPath)
      ensures Editing() && reply.error.None? && Located(reply.data, routeId.value).Some? ==>
        && form.values == Overlay(old(form.values), Located(reply.data, routeId.value).value.fields, Skipped)
        && alerts == old(alerts) && navigatedTo == old(navigatedTo)
    {
      if !Editing() {
        initialLoading := false;
        return;
      }
      initialLoading := true;
      calls := calls + [ListGuides];
      if reply.error.Some? {
        alerts := alerts + ["Failed to fetch travel information data"];
        navigatedTo := Some(ListPath);
      } else {
        var found := Located(reply.data, routeId.value);
        if found.None? {
          alerts := alerts + ["Travel information not found"];
          navigatedTo := Some(ListPath);
        } else {
          form.Populate(found.value.fields, Skipped);
        }
      }
      initialLoading := false;
    }

    method HandleSubmit(data: TravelInfo, isUrl: string -> bool, reply: Option<Failure>)
      modifies this
      ensures issues == TravelInfoIssues(data, isUrl)
      ensures issues != [] ==>
        loading == old(loading) && calls == old(calls) && alerts == old(alerts) && navigatedTo == old(navigatedTo)
      ensures issues == [] ==>
        && !loading
        && calls == old(calls) + [SaveCall(Payload(data))]
        && alerts == old(alerts) + [SaveAlert(reply)]
        && navigatedTo == (if reply.None? then Some(ListPath) else old(navigatedTo))
    {
      var found := TravelInfoIssues(data, isUrl);
      issues := found;
      if found == [] {
        OnSubmit(data, reply);
      }
    }

    method OnSubmit(data: TravelInfo, reply: Option<Failure>)
      modifies this
      ensures !loading && issues == old(issues)
      ensures calls == old(calls) + [SaveCall(Payload(data))]
      ensures alerts == old(alerts) + [SaveAlert(reply)]
      ensures navigatedTo == if reply.None? then Some(ListPath) else old(navigatedTo)
    {
      var call, alert := SaveCall(Payload(data)), SaveAlert(reply);
      var target := if reply.None? then Some(ListPath) else navigatedTo;
      loading := true;
      calls, alerts, navigatedTo := calls + [call], alerts + [alert], target;
      loading := false;
    }

    function SaveCall(payload: GuidePayload): (c: Call)
      ensures Editing() ==> c == UpdateGuide(routeId.value, payload)
      ensures !Editing() ==> c == CreateGuide(payload)
    {
      if Editing() then UpdateGuide(routeId.value, payload) else CreateGuide(payload)
    }

    function SaveAlert(reply: Option<Failure>): string
    {
      if reply.Some? then "Failed to save travel information. Please try again."
      else if Editing() then "Travel information updated successfully!"
      else "Travel information created successfully!"
    }
  }
}
