/**
 * The officials' requests page. It is written against the backend-shaped
 * request record (`DBRequest`: snake_case fields, status and certificate type
 * as plain strings), so it is modelled over that shape. Its store calls
 * (`updateRequestStatus`) are returned as `StatusCall` values: the store they
 * reach is not part of this model.
 */
module RequestsView {
  import opened Options
  import opened Text
  import opened Seqs
  import opened Barangay
  import opened DataStore

  datatype DBRequest = DBRequest(
    id: string,
    residentName: string,
    certificateType: string,
    purpose: string,
    status: string,
    dateRequested: Date)

  /** A store call `updateRequestStatus(id, status)` issued by the page. */
  datatype StatusCall = StatusCall(id: string, status: RequestStatus)

  /** The search test: the term, lower-cased, occurs in the lower-cased resident name or certificate type. */
  predicate MatchesSearch(r: DBRequest, term: string) {
    Contains(Lower(r.residentName), Lower(term)) || Contains(Lower(r.certificateType), Lower(term))
  }

  function Matcher(term: string): DBRequest -> bool {
    (r: DBRequest) => MatchesSearch(r, term)
  }

  /** `filteredRequests`: the matching requests in their original order; an empty term keeps them all. */
  function FilteredRequests(rs: seq<DBRequest>, term: string): (r: seq<DBRequest>)
    ensures forall i :: 0 <= i < |r| ==> r[i] in rs && MatchesSearch(r[i], term)
    ensures forall i :: 0 <= i < |rs| && MatchesSearch(rs[i], term) ==> rs[i] in r
    ensures IsSubsequence(r, rs)
    ensures |r| == CountWhere(rs, Matcher(term))
  {
    FilterIsSubsequence(rs, Matcher(term));
    FilterCount(rs, Matcher(term));
    Filter(rs, Matcher(term))
  }

  /** An empty search term keeps every request. */
  lemma EmptySearchKeepsAll(rs: seq<DBRequest>)
    ensures FilteredRequests(rs, "") == rs
  {
    forall i | 0 <= i < |rs| ensures Matcher("")(rs[i]) {
      ContainsEmpty(Lower(rs[i].residentName));
    }
    FilterAllPass(rs, Matcher(""));
  }

  /** The "No requests found." row is shown exactly when no request matches the term. */
  function ShowsNoRequestsRow(rs: seq<DBRequest>, term: string): (shown: bool)
    ensures shown <==> forall i :: 0 <= i < |rs| ==> !MatchesSearch(rs[i], term)
  {
    FilterEmptyIff(rs, Matcher(term));
    |FilteredRequests(rs, term)| == 0
  }

  /** `REQ-${id.slice(0, 6).toUpperCase()}` */
  function RequestLabel(id: string): (tag: string)
    ensures |tag| == 4 + (if |id| <= 6 then |id| else 6)
    ensures tag[..4] == "REQ-"
    ensures forall i :: 0 <= i < |tag| - 4 ==> tag[4 + i] == UpperChar(id[i])
  {
    var head := Take(id, 6);
    var up := Upper(head);
    assert forall i :: 0 <= i < |up| ==> up[i] == UpperChar(head[i]);
    "REQ-" + up
  }

  /** The badge style of each known status. */
  function BadgeClass(s: RequestStatus): string {
    match s
    case Pending => "bg-warning text-warning-foreground"
    case Approved => "bg-success text-success-foreground"
    case Denied => "bg-destructive text-destructive-foreground"
  }

  /** `variants[status] || ''`: the style of a known status, the empty string for any other. */
  function StatusBadge(status: string): (cls: string)
    ensures cls == "" <==> ParseRequestStatus(status).None?
    ensures forall st :: RequestStatusLabel(st) == status ==> cls == BadgeClass(st)
  {
    match ParseRequestStatus(status)
    case Some(st) => BadgeClass(st)
    case None => ""
  }

  /**
   * The approve/deny buttons of a table row. They are rendered only for a
   * Pending request, so every call they issue is a legal lifecycle step.
   */
  function RowAction(r: DBRequest, approve: bool): (call: Option<StatusCall>)
    ensures call.Some? <==> r.status == "Pending"
    ensures call.Some? ==> call.value.id == r.id
    ensures call.Some? ==> call.value.status == (if approve then Approved else Denied)
    ensures call.Some? ==> Transition(Pending, call.value.status) == Some(call.value.status)
  {
    if r.status == "Pending" then Some(StatusCall(r.id, if approve then Approved else Denied)) else None
  }

  class RequestsPage {
    var searchTerm: string
    var selected: Option<DBRequest>

    constructor ()
      ensures searchTerm == "" && selected.None?
    {
      searchTerm := "";
      selected := None;
    }

    /** The top bar's search input hands its raw value to `onSearch`, which sets the term. */
    method SetSearch(value: string)
      modifies this
      ensures searchTerm == value && selected == old(selected)
    {
      searchTerm := value;
    }

    /** The view button of a row opens the details dialog on that request. */
    method Select(r: DBRequest)
      modifies this
      ensures selected == Some(r) && searchTerm == old(searchTerm)
    {
      selected := Some(r);
    }

    /**
     * The dialog's approve/deny buttons, rendered only while the selected
     * request is Pending: they issue the store call and then set the local
     * copy's status, leaving its other fields as they were.
     */
    method DialogDecide(approve: bool) returns (call: Option<StatusCall>)
      modifies this
      ensures searchTerm == old(searchTerm)
      ensures old(selected).Some? && old(selected).value.status == "Pending" ==>
        var target := if approve then Approved else Denied;
        && call == Some(StatusCall(old(selected).value.id, target))
        && selected == Some(old(selected).value.(status := RequestStatusLabel(target)))
      ensures !(old(selected).Some? && old(selected).value.status == "Pending") ==>
        call.None? && selected == old(selected)
    {
      if selected.Some? && selected.value.status == "Pending" {
        var target := if approve then Approved else Denied;
        call := Some(StatusCall(selected.value.id, target));
        selected := Some(selected.value.(status := RequestStatusLabel(target)));
      } else {
        call := None;
      }
    }
  }

  /** A decision taken in the dialog is a legal lifecycle step, and the dialog then offers no further one. */
  lemma DialogDecisionIsTerminal(r: DBRequest, approve: bool)
    requires r.status == "Pending"
    ensures var target := if approve then Approved else Denied;
      && Transition(Pending, target) == Some(target)
      && RowAction(r.(status := RequestStatusLabel(target)), approve).None?
      && RowAction(r.(status := RequestStatusLabel(target)), !approve).None?
  {
  }
}
