/**
 * The destination list of the admin area: loading with an error state,
 * the search over one joined text, the active switch and delete.
 */
module DestinationManagementPage {
  import opened Options
  import opened Text
  import opened Seqs
  import opened Remote
  import opened Rows

  datatype Destination = Destination(
    id: string, name: string, description: Option<string>, category: Option<string>, active: bool)

  function DestinationId(d: Destination): string { d.id }

  /** `${name} ${description || ''} ${category || ''}`, lowercased. */
  function Haystack(d: Destination): string {
    Lower(d.name + " " + OrEmpty(d.description) + " " + OrEmpty(d.category))
  }

  predicate Matches(d: Destination, term: string) {
    Contains(Haystack(d), Lower(term))
  }

  function MatchesTerm(term: string): Destination -> bool {
    (d: Destination) => Matches(d, term)
  }

  function Shown(destinations: seq<Destination>, term: string): (r: seq<Destination>)
    ensures forall x :: x in r <==> x in destinations && Matches(x, term)
    ensures forall x :: multiset(r)[x] == if Matches(x, term) then multiset(destinations)[x] else 0
    ensures IsSubsequence(r, destinations) && |r| <= |destinations|
  {
    FilterMultiset(destinations, MatchesTerm(term));
    Filter(destinations, MatchesTerm(term))
  }

  /** A destination is found by the start of its name, in any letter case. */
  lemma NamePrefixFound(d: Destination, term: string)
    requires term <= d.name
    ensures Matches(d, term)
  {
    var rest := " " + OrEmpty(d.description) + " " + OrEmpty(d.category);
    var tail := d.name[|term|..] + rest;
    assert d.name == term + d.name[|term|..];
    assert d.name + " " + OrEmpty(d.description) + " " + OrEmpty(d.category) == term + tail;
    LowerAppend(term, tail);
    assert Lower(term) <= Haystack(d);
  }

  function WithActive(v: bool): Destination -> Destination { (d: Destination) => d.(active := v) }

  datatype Call = ListDestinations | SetActive(id: string, active: bool) | DeleteDestination(id: string)

  class DestinationManagement {
    var destinations: seq<Destination>
    var loading: bool
    var searchTerm: string
    var error: string
    var alerts: seq<string>
    var calls: seq<Call>

    constructor()
      ensures destinations == [] && loading && searchTerm == "" && error == "" && alerts == [] && calls == []
    {
      destinations := [];
      loading := true;
      searchTerm := "";
      error := "";
      alerts := [];
      calls := [];
    }

    function Filtered(): (r: seq<Destination>)
      reads this
      ensures IsSubsequence(r, destinations) && |r| <= |destinations|
    {
      Shown(destinations, searchTerm)
    }

    method FetchDestinations(reply: Reply<seq<Destination>>)
      modifies this
      ensures !loading && calls == old(calls) + [ListDestinations] && alerts == old(alerts)
      ensures reply.error.Some? ==> destinations == [] &&
                                    error == MessageOr(reply.error.value, "Failed to load destinations")
      ensures reply.error.None? ==> destinations == RowsOr(reply.data) && error == ""
      ensures searchTerm == old(searchTerm)
    {
      loading := true;
      error := "";
      calls := calls + [ListDestinations];
      if reply.error.Some? {
        error := MessageOr(reply.error.value, "Failed to load destinations");
        destinations := [];
      } else {
        destinations := RowsOr(reply.data);
      }
      loading := false;
    }

    method ToggleActive(id: string, active: bool, reply: Option<Failure>)
      modifies this
      ensures calls == old(calls) + [SetActive(id, !active)]
      ensures reply.None? ==> destinations == PatchId(old(destinations), DestinationId, id, WithActive(!active)) &&
                              alerts == old(alerts)
      ensures reply.Some? ==> destinations == old(destinations) &&
                              alerts == old(alerts) + [MessageOr(reply.value, "Failed to update destination")]
      ensures loading == old(loading) && error == old(error) && searchTerm == old(searchTerm)
    {
      calls := calls + [SetActive(id, !active)];
      if reply.Some? {
        alerts := alerts + [MessageOr(reply.value, "Failed to update destination")];
        return;
      }
      destinations := PatchId(destinations, DestinationId, id, WithActive(!active));
    }

    method DeleteDestinationRow(id: string, confirmed: bool, reply: Option<Failure>)
      modifies this
      ensures !confirmed ==> destinations == old(destinations) && calls == old(calls) && alerts == old(alerts)
      ensures confirmed ==> calls == old(calls) + [DeleteDestination(id)]
      ensures confirmed && reply.None? ==> destinations == DropId(old(destinations), DestinationId, id) &&
                                           alerts == old(alerts)
      ensures confirmed && reply.Some? ==> destinations == old(destinations) &&
                                           alerts == old(alerts) + [MessageOr(reply.value, "Failed to delete destination")]
      ensures loading == old(loading) && error == old(error) && searchTerm == old(searchTerm)
    {
      if !confirmed {
        return;
      }
      calls := calls + [DeleteDestination(id)];
      if reply.Some? {
        alerts := alerts + [MessageOr(reply.value, "Failed to delete destination")];
        return;
      }
      destinations := DropId(destinations, DestinationId, id);
    }
  }
}
