/**
 * The contact inquiry list of the admin area: loading with an error state,
 * the search over one joined text, the status filter, the status update
 * and delete.
 */
module InquiriesManagementPage {
  import opened Options
  import opened Text
  import opened Seqs
  import opened Remote
  import opened Rows

  datatype Inquiry = Inquiry(
    id: string, name: string, email: Option<string>, phone: Option<string>,
    subject: Option<string>, status: string)

  function InquiryId(i: Inquiry): string { i.id }

  /** `${name} ${email || ''} ${phone || ''} ${subject || ''}`, lowercased. */
  function Haystack(i: Inquiry): string {
    Lower(i.name + " " + OrEmpty(i.email) + " " + OrEmpty(i.phone) + " " + OrEmpty(i.subject))
  }

  predicate Matches(i: Inquiry, term: string, status: string) {
    Contains(Haystack(i), Lower(term)) && (status == "all" || i.status == status)
  }

  function MatchesAll(term: string, status: string): Inquiry -> bool {
    (i: Inquiry) => Matches(i, term, status)
  }

  function Shown(inquiries: seq<Inquiry>, term: string, status: string): (r: seq<Inquiry>)
    ensures forall i :: i in r <==> i in inquiries && Matches(i, term, status)
    ensures forall i :: multiset(r)[i] == if Matches(i, term, status) then multiset(inquiries)[i] else 0
    ensures IsSubsequence(r, inquiries) && |r| <= |inquiries|
  {
    FilterMultiset(inquiries, MatchesAll(term, status));
    Filter(inquiries, MatchesAll(term, status))
  }

  /**
   * The fields are searched as one text joined by spaces, so a term made
   * of the name, a space and the e-mail address finds the inquiry, though
   * no single field contains it.
   */
  lemma MatchAcrossFields(i: Inquiry)
    ensures Matches(i, i.name + " " + OrEmpty(i.email), "all")
  {
    var term := i.name + " " + OrEmpty(i.email);
    var rest := " " + OrEmpty(i.phone) + " " + OrEmpty(i.subject);
    assert i.name + " " + OrEmpty(i.email) + " " + OrEmpty(i.phone) + " " + OrEmpty(i.subject) == term + rest;
    LowerAppend(term, rest);
    assert Lower(term) <= Haystack(i);
  }

  function WithStatus(status: string): Inquiry -> Inquiry { (i: Inquiry) => i.(status := status) }

  datatype Call = ListInquiries | SetStatus(id: string, status: string) | DeleteInquiry(id: string)

  const LoadFailed := "Failed to load inquiries"

  class InquiriesManagement {
    var inquiries: seq<Inquiry>
    var loading: bool
    var searchTerm: string
    var statusFilter: string
    var error: string
    var alerts: seq<string>
    var calls: seq<Call>

    constructor()
      ensures inquiries == [] && loading && searchTerm == "" && statusFilter == "all" && error == ""
      ensures alerts == [] && calls == []
    {
      inquiries := [];
      loading := true;
      searchTerm := "";
      statusFilter := "all";
      error := "";
      alerts := [];
      calls := [];
    }

    function Filtered(): (r: seq<Inquiry>)
      reads this
      ensures IsSubsequence(r, inquiries) && |r| <= |inquiries|
    {
      Shown(inquiries, searchTerm, statusFilter)
    }

    method FetchInquiries(reply: Reply<seq<Inquiry>>)
      modifies this
      ensures !loading && calls == old(calls) + [ListInquiries] && alerts == old(alerts)
      ensures reply.error.Some? ==> inquiries == [] && error == MessageOr(reply.error.value, LoadFailed)
      ensures reply.error.None? ==> inquiries == RowsOr(reply.data) && error == ""
      ensures searchTerm == old(searchTerm) && statusFilter == old(statusFilter)
    {
      loading := true;
      error := "";
      calls := calls + [ListInquiries];
      if reply.error.Some? {
        error := MessageOr(reply.error.value, LoadFailed);
        inquiries := [];
      } else {
        inquiries := RowsOr(reply.data);
      }
      loading := false;
    }

    method UpdateStatus(id: string, status: string, reply: Option<Failure>)
      modifies this
      ensures calls == old(calls) + [SetStatus(id, status)]
      ensures reply.None? ==> inquiries == PatchId(old(inquiries), InquiryId, id, WithStatus(status)) &&
                              alerts == old(alerts)
      ensures reply.Some? ==> inquiries == old(inquiries) &&
                              alerts == old(alerts) + [MessageOr(reply.value, "Failed to update status")]
      ensures loading == old(loading) && error == old(error)
      ensures searchTerm == old(searchTerm) && statusFilter == old(statusFilter)
    {
      calls := calls + [SetStatus(id, status)];
      if reply.Some? {
        alerts := alerts + [MessageOr(reply.value, "Failed to update status")];
        return;
      }
      inquiries := PatchId(inquiries, InquiryId, id, WithStatus(status));
    }

    /** A declined confirmation makes no call at all. */
    method DeleteInquiryRow(id: string, confirmed: bool, reply: Option<Failure>)
      modifies this
      ensures !confirmed ==> inquiries == old(inquiries) && calls == old(calls) && alerts == old(alerts)
      ensures confirmed ==> calls == old(calls) + [DeleteInquiry(id)]
      ensures confirmed && reply.None? ==> inquiries == DropId(old(inquiries), InquiryId, id) && alerts == old(alerts)
      ensures confirmed && reply.Some? ==> inquiries == old(inquiries) &&
                                           alerts == old(alerts) + [MessageOr(reply.value, "Failed to delete inquiry")]
      ensures loading == old(loading) && error == old(error)
      ensures searchTerm == old(searchTerm) && statusFilter == old(statusFilter)
    {
      if !confirmed {
        return;
      }
      calls := calls + [DeleteInquiry(id)];
      if reply.Some? {
        alerts := alerts + [MessageOr(reply.value, "Failed to delete inquiry")];
        return;
      }
      inquiries := DropId(inquiries, InquiryId, id);
    }
  }
}
