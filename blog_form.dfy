/**
 * The blog post editor: loading a post for editing, the slug preview, and
 * saving the post with its publication time.
 */
module BlogFormPage {
  import opened Options
  import opened Seqs
  import opened Remote
  import opened Slug
  import opened FormValues
  import opened ValidationSchemas

  /** A stored post as the list of posts returns it. */
  datatype StoredPost = StoredPost(id: string, fields: Record)

  /** What is sent to be stored: the form data, the derived slug and the publication time. */
  datatype PostPayload = PostPayload(data: Blog, slug: string, publishedAt: Option<string>)

  datatype Call = ListPosts | UpdatePost(id: string, payload: PostPayload) | CreatePost(payload: PostPayload)

  /** The keys loading a post into the form leaves alone. */
  const Skipped: set<string> := {"id", "created_at", "updated_at", "slug"}

  const ListPath := "/admin/blog"

  /**
   * The payload saved for `data`: stamped with the current time `now` when
   * the post is published, and with no time otherwise.
   */
  function Payload(data: Blog, now: string): (p: PostPayload)
    ensures p.data == data
    ensures p.publishedAt.Some? <==> data.published
    ensures p.publishedAt.Some? ==> p.publishedAt.value == now
    ensures p.slug == Slugify(data.title)
  {
    PostPayload(data, Slugify(data.title), if data.published then Some(now) else None)
  }

  /** For data the schema accepts, the slug preview is shown and is the slug that is saved. */
  lemma PreviewIsSaved(data: Blog, isUrl: string -> bool, now: string)
    requires BlogIssues(data, isUrl) == []
    ensures SlugPreview(data.title) == Some(Payload(data, now).slug)
  {
  }

  /** `p => p.id === id`. */
  function HasId(id: string): StoredPost -> bool {
    (p: StoredPost) => p.id == id
  }

  function Located(rows: Option<seq<StoredPost>>, id: string): (r: Option<StoredPost>)
    ensures r.Some? ==> r.value.id == id && rows.Some? && r.value in rows.value
    ensures r.None? ==> rows.None? || forall p :: p in rows.value ==> p.id != id
    ensures r.Some? ==> exists i :: 0 <= i < |rows.value| && rows.value[i] == r.value &&
                                     forall j :: 0 <= j < i ==> rows.value[j].id != id
  {
    match rows
    case None => None
    case Some(list) => Find(list, HasId(id))
  }

  class BlogForm {
    const routeId: Option<string>
    const form: Form
    var initialLoading: bool
    var loading: bool
    var issues: seq<Issue>
    var alerts: seq<string>
    var navigatedTo: Option<string>
    var calls: seq<Call>

    predicate Editing()
    {
      routeId.Some? && routeId.value != ""
    }

    constructor(routeId: Option<string>, defaults: map<string, Value>)
      ensures this.routeId == routeId && fresh(form) && form.values == defaults
      ensures !loading && initialLoading == Editing()
      ensures issues == [] && alerts == [] && navigatedTo == None && calls == []
    {
      this.routeId := routeId;
      form := new Form(defaults);
      loading := false;
      initialLoading := routeId.Some? && routeId.value != "";
      issues := [];
      alerts := [];
      navigatedTo := None;
      calls := [];
    }

    /** The edit view loads the post list and fills the form from the matching post. */
    method FetchPost(reply: Reply<seq<StoredPost>>)
      modifies this, form
      ensures !initialLoading
      ensures !Editing() ==> form.values == old(form.values) &&
                             alerts == old(alerts) && navigatedTo == old(navigatedTo) && calls == old(calls)
      ensures Editing() ==> calls == old(calls) + [ListPosts]
      ensures Editing() && reply.error.Some? ==>
        && form.values == old(form.values)
        && alerts == old(alerts) + ["Failed to fetch blog post data"] && navigatedTo == Some(ListPath)
      ensures Editing() && reply.error.None? && Located(reply.data, routeId.value).None? ==>
        && form.values == old(form.values)
        && alerts == old(alerts) + ["Blog post not found"] && navigatedTo == Some(ListPath)
      ensures Editing() && reply.error.None? && Located(reply.data, routeId.value).Some? ==>
        && form.values == Overlay(old(form.values), Located(reply.data, routeId.value).value.fields, Skipped)
        && alerts == old(alerts) && navigatedTo == old(navigatedTo)
    {
      if !Editing() {
        initialLoading := false;
        return;
      }
      initialLoading := true;
      calls := calls + [ListPosts];
      if reply.error.Some? {
        alerts := alerts + ["Failed to fetch blog post data"];
        navigatedTo := Some(ListPath);
      } else {
        var found := Located(reply.data, routeId.value);
        if found.None? {
          alerts := alerts + ["Blog post not found"];
          navigatedTo := Some(ListPath);
        } else {
          form.Populate(found.value.fields, Skipped);
        }
      }
      initialLoading := false;
    }

    /** `handleSubmit(onSubmit)`: only data the schema accepts is saved. */
    method HandleSubmit(data: Blog, isUrl: string -> bool, now: string, reply: Option<Failure>)
      modifies this
      ensures issues == BlogIssues(data, isUrl)
      ensures issues != [] ==>
        loading == old(loading) && calls == old(calls) && alerts == old(alerts) && navigatedTo == old(navigatedTo)
      ensures issues == [] ==>
        && !loading
        && calls == old(calls) + [SaveCall(Payload(data, now))]
        && alerts == old(alerts) + [SaveAlert(reply)]
        && navigatedTo == (if reply.None? then Some(ListPath) else old(navigatedTo))
    {
      var found := BlogIssues(data, isUrl);
      issues := found;
      if found == [] {
        OnSubmit(data, now, reply);
      }
    }

    /** Saves accepted data; the list is shown only once the call succeeded. */
    method OnSubmit(data: Blog, now: string, reply: Option<Failure>)
      modifies this
      ensures !loading && issues == old(issues)
      ensures calls == old(calls) + [SaveCall(Payload(data, now))]
      ensures alerts == old(alerts) + [SaveAlert(reply)]
      ensures navigatedTo == if reply.None? then Some(ListPath) else old(navigatedTo)
    {
      loading := true;
      calls := calls + [SaveCall(Payload(data, now))];
      alerts := alerts + [SaveAlert(reply)];
      if reply.None? {
        navigatedTo := Some(ListPath);
      }
      loading := false;
    }

    /** Update when editing, create otherwise. */
    function SaveCall(payload: PostPayload): (c: Call)
      ensures Editing() ==> c == UpdatePost(routeId.value, payload)
      ensures !Editing() ==> c == CreatePost(payload)
    {
      if Editing() then UpdatePost(routeId.value, payload) else CreatePost(payload)
    }

    function SaveAlert(reply: Option<Failure>): string
    {
      if reply.Some? then "Failed to save blog post. Please try again."
      else if Editing() then "Blog post updated successfully!"
      else "Blog post created successfully!"
    }
  }
}
