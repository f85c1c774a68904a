/**
 * The user list of the admin area: loading with an error state, the
 * search over one joined text and the admin flag switch.
 */
module UsersManagementPage {
  import opened Options
  import opened Text
  import opened Seqs
  import opened Remote
  import opened Rows

  datatype User = User(id: string, fullName: string, email: Option<string>, phone: Option<string>, isAdmin: bool)

  function UserId(u: User): string { u.id }

  /** `${full_name} ${email || ''} ${phone || ''}`, lowercased. */
  function Haystack(u: User): string {
    Lower(u.fullName + " " + OrEmpty(u.email) + " " + OrEmpty(u.phone))
  }

  predicate Matches(u: User, term: string) {
    Contains(Haystack(u), Lower(term))
  }

  function MatchesTerm(term: string): User -> bool {
    (u: User) => Matches(u, term)
  }

  function Shown(users: seq<User>, term: string): (r: seq<User>)
    ensures forall x :: x in r <==> x in users && Matches(x, term)
    ensures forall x :: multiset(r)[x] == if Matches(x, term) then multiset(users)[x] else 0
    ensures IsSubsequence(r, users) && |r| <= |users|
  {
    FilterMultiset(users, MatchesTerm(term));
    Filter(users, MatchesTerm(term))
  }

  /** A user is found by their own e-mail address, in any letter case. */
  lemma EmailFound(u: User)
    requires u.email.Some?
    ensures Matches(u, u.email.value)
  {
    var before := u.fullName + " ";
    var after := " " + OrEmpty(u.phone);
    assert u.fullName + " " + OrEmpty(u.email) + " " + OrEmpty(u.phone) == before + u.email.value + after;
    LowerAppend(before + u.email.value, after);
    LowerAppend(before, u.email.value);
    ContainsAt(Lower(u.email.value), Lower(u.email.value));
    assert Lower(u.email.value)[0..] == Lower(u.email.value);
    ContainsInMiddle(Lower(before), Lower(u.email.value), Lower(after), Lower(u.email.value));
  }

  function WithAdmin(v: bool): User -> User { (u: User) => u.(isAdmin := v) }

  datatype Call = ListUsers | SetAdmin(id: string, isAdmin: bool)

  class UsersManagement {
    var users: seq<User>
    var loading: bool
    var searchTerm: string
    var error: string
    var alerts: seq<string>
    var calls: seq<Call>

    constructor()
      ensures users == [] && loading && searchTerm == "" && error == "" && alerts == [] && calls == []
    {
      users := [];
      loading := true;
      searchTerm := "";
      error := "";
      alerts := [];
      calls := [];
    }

    function Filtered(): (r: seq<User>)
      reads this
      ensures IsSubsequence(r, users) && |r| <= |users|
    {
      Shown(users, searchTerm)
    }

    method FetchUsers(reply: Reply<seq<User>>)
      modifies this
      ensures !loading && calls == old(calls) + [ListUsers] && alerts == old(alerts)
      ensures reply.error.Some? ==> users == [] && error == MessageOr(reply.error.value, "Failed to load users")
      ensures reply.error.None? ==> users == RowsOr(reply.data) && error == ""
      ensures searchTerm == old(searchTerm)
    {
      loading := true;
      error := "";
      calls := calls + [ListUsers];
      if reply.error.Some? {
        error := MessageOr(reply.error.value, "Failed to load users");
        users := [];
      } else {
        users := RowsOr(reply.data);
      }
      loading := false;
    }

    /** Asks for the opposite of the flag the row showed, and shows it once the server agrees. */
    method ToggleAdmin(id: string, isAdmin: bool, reply: Option<Failure>)
      modifies this
      ensures calls == old(calls) + [SetAdmin(id, !isAdmin)]
      ensures reply.None? ==> users == PatchId(old(users), UserId, id, WithAdmin(!isAdmin)) && alerts == old(alerts)
      ensures reply.Some? ==> users == old(users) &&
                              alerts == old(alerts) + [MessageOr(reply.value, "Failed to update admin status")]
      ensures loading == old(loading) && error == old(error) && searchTerm == old(searchTerm)
    {
      calls := calls + [SetAdmin(id, !isAdmin)];
      if reply.Some? {
        alerts := alerts + [MessageOr(reply.value, "Failed to update admin status")];
        return;
      }
      users := PatchId(users, UserId, id, WithAdmin(!isAdmin));
    }
  }

  /** Toggling a user twice, each time from the flag it then shows, restores the list. */
  lemma ToggleAdminTwice(users: seq<User>, id: string, isAdmin: bool)
    requires forall u :: u in users && u.id == id ==> u.isAdmin == isAdmin
    ensures PatchId(PatchId(users, UserId, id, WithAdmin(!isAdmin)), UserId, id, WithAdmin(isAdmin)) == users
  {
    PatchIdUndone(users, UserId, id, WithAdmin(!isAdmin), WithAdmin(isAdmin));
  }
}
