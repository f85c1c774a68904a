/**
 * The blog post list of the admin area: its filters, the publish toggle
 * and delete, and the date each row shows.
 */
module BlogManagementPage {
  import opened Options
  import opened Text
  import opened Seqs
  import opened Remote
  import opened Rows

  /** The fields of a post the list reads; `publishedAt` is null for an unpublished post. */
  datatype Post = Post(
    id: string, title: string, excerpt: string, author: string, category: string,
    published: bool, publishedAt: Option<string>, createdAt: string)

  function PostId(p: Post): string { p.id }

  predicate Matches(p: Post, term: string, category: string, publishedOnly: bool) {
    && (Contains(Lower(p.title), Lower(term)) || Contains(Lower(p.excerpt), Lower(term))
        || Contains(Lower(p.author), Lower(term)))
    && (category == "all" || p.category == category)
    && (!publishedOnly || p.published)
  }

  function MatchesAll(term: string, category: string, publishedOnly: bool): Post -> bool {
    (p: Post) => Matches(p, term, category, publishedOnly)
  }

  /** `filteredPosts`. */
  function Shown(posts: seq<Post>, term: string, category: string, publishedOnly: bool): (r: seq<Post>)
    ensures forall p :: p in r <==> p in posts && Matches(p, term, category, publishedOnly)
    ensures forall p :: multiset(r)[p] == if Matches(p, term, category, publishedOnly) then multiset(posts)[p] else 0
    ensures IsSubsequence(r, posts) && |r| <= |posts|
  {
    FilterMultiset(posts, MatchesAll(term, category, publishedOnly));
    Filter(posts, MatchesAll(term, category, publishedOnly))
  }

  lemma ClearedShowsAll(posts: seq<Post>)
    ensures Shown(posts, "", "all", false) == posts
  {
    forall p | p in posts ensures Matches(p, "", "all", false) {
      ContainsEmpty(Lower(p.title));
    }
    FilterKeepsAll(posts, MatchesAll("", "all", false));
  }

  /** `{ published: v, published_at: v ? now : null }` merged into a post. */
  function WithPublication(v: bool, now: string): Post -> Post {
    (p: Post) => p.(published := v, publishedAt := if v then Some(now) else None)
  }

  /**
   * After a successful toggle the patched posts carry the new flag, with a
   * publication time exactly when they are now published; the other posts
   * are unchanged.
   */
  lemma TogglePublishedRows(posts: seq<Post>, id: string, current: bool, now: string)
    ensures var r := PatchId(posts, PostId, id, WithPublication(!current, now));
      && |r| == |posts|
      && (forall i :: 0 <= i < |r| && posts[i].id == id ==>
            r[i].published == !current && (r[i].publishedAt.Some? <==> r[i].published) &&
            r[i].title == posts[i].title && r[i].createdAt == posts[i].createdAt)
      && (forall i :: 0 <= i < |r| && posts[i].id != id ==> r[i] == posts[i])
  {
    var r := PatchId(posts, PostId, id, WithPublication(!current, now));
    forall i | 0 <= i < |r| && posts[i].id == id
      ensures r[i] == posts[i].(published := !current, publishedAt := if !current then Some(now) else None)
    {
      assert PostId(posts[i]) == id;
    }
  }

  /** The date a row shows: the publication time when there is one, else the creation time. */
  function DisplayDate(p: Post): (r: string)
    ensures p.publishedAt.Some? && p.publishedAt.value != "" ==> r == p.publishedAt.value
    ensures p.publishedAt.None? || p.publishedAt.value == "" ==> r == p.createdAt
  {
    OrString(OrEmpty(p.publishedAt), p.createdAt)
  }

  datatype Call = ListPosts | DeletePost(id: string) | SetPublished(id: string, v: bool, publishedAt: Option<string>)

  class BlogManagement {
    var posts: seq<Post>
    var loading: bool
    var searchTerm: string
    var selectedCategory: string
    var showPublishedOnly: bool
    var alerts: seq<string>
    var calls: seq<Call>

    constructor()
      ensures posts == [] && loading && searchTerm == "" && selectedCategory == "all" && !showPublishedOnly
      ensures alerts == [] && calls == []
    {
      posts := [];
      loading := true;
      searchTerm := "";
      selectedCategory := "all";
      showPublishedOnly := false;
      alerts := [];
      calls := [];
    }

    function Filtered(): (r: seq<Post>)
      reads this
      ensures IsSubsequence(r, posts) && |r| <= |posts|
    {
      Shown(posts, searchTerm, selectedCategory, showPublishedOnly)
    }

    method FetchPosts(reply: Reply<seq<Post>>)
      modifies this
      ensures !loading && calls == old(calls) + [ListPosts]
      ensures reply.error.None? ==> posts == RowsOr(reply.data) && alerts == old(alerts)
      ensures reply.error.Some? ==> posts == old(posts) &&
                                    alerts == old(alerts) + ["Failed to fetch blog posts. Please try again."]
      ensures searchTerm == old(searchTerm) && selectedCategory == old(selectedCategory)
      ensures showPublishedOnly == old(showPublishedOnly)
    {
      loading := true;
      calls := calls + [ListPosts];
      if reply.error.None? {
        posts := RowsOr(reply.data);
      } else {
        alerts := alerts + ["Failed to fetch blog posts. Please try again."];
      }
      loading := false;
    }

    method HandleDelete(id: string, confirmed: bool, reply: Option<Failure>)
      modifies this
      ensures !confirmed ==> posts == old(posts) && calls == old(calls) && alerts == old(alerts)
      ensures confirmed ==> calls == old(calls) + [DeletePost(id)]
      ensures confirmed && reply.None? ==>
        posts == DropId(old(posts), PostId, id) && alerts == old(alerts) + ["Blog post deleted successfully!"]
      ensures confirmed && reply.Some? ==>
        posts == old(posts) && alerts == old(alerts) + ["Failed to delete blog post. Please try again."]
      ensures loading == old(loading) && searchTerm == old(searchTerm) && selectedCategory == old(selectedCategory)
      ensures showPublishedOnly == old(showPublishedOnly)
    {
      if confirmed {
        calls := calls + [DeletePost(id)];
        if reply.None? {
          posts := DropId(posts, PostId, id);
          alerts := alerts + ["Blog post deleted successfully!"];
        } else {
          alerts := alerts + ["Failed to delete blog post. Please try again."];
        }
      }
    }

    /** `now` is the current time the toggle stamps on a post it publishes. */
    method TogglePublished(id: string, currentStatus: bool, now: string, reply: Option<Failure>)
      modifies this
      ensures calls == old(calls) + [SetPublished(id, !currentStatus, if !currentStatus then Some(now) else None)]
      ensures reply.None? ==> posts == PatchId(old(posts), PostId, id, WithPublication(!currentStatus, now)) &&
                              alerts == old(alerts)
      ensures reply.Some? ==> posts == old(posts) &&
                              alerts == old(alerts) + ["Failed to update publish status. Please try again."]
      ensures loading == old(loading) && searchTerm == old(searchTerm) && selectedCategory == old(selectedCategory)
      ensures showPublishedOnly == old(showPublishedOnly)
    {
      calls := calls + [SetPublished(id, !currentStatus, if !currentStatus then Some(now) else None)];
      if reply.None? {
        posts := PatchId(posts, PostId, id, WithPublication(!currentStatus, now));
      } else {
        alerts := alerts + ["Failed to update publish status. Please try again."];
      }
    }

    method ClearFilters()
      modifies this
      ensures searchTerm == "" && selectedCategory == "all" && !showPublishedOnly
      ensures posts == old(posts) && alerts == old(alerts) && calls == old(calls) && loading == old(loading)
      ensures Filtered() == posts
    {
      searchTerm := "";
      selectedCategory := "all";
      showPublishedOnly := false;
      ClearedShowsAll(posts);
    }
  }
}
