/**
 * The officials' residents page, written against the backend-shaped profile
 * record (`DBProfile`: snake_case fields, nullable optional fields, status as
 * a string). Its store calls (`approveResident`, `updateProfile`) are returned
 * as values: the store they reach is not part of this model.
 */
module ResidentsView {
  import opened Options
  import opened Text
  import opened Seqs
  import opened Barangay

  datatype DBProfile = DBProfile(
    id: string,
    userId: string,
    firstName: string,
    lastName: string,
    middleName: Option<string>,
    age: Option<int>,
    address: Option<string>,
    contact: Option<string>,
    status: string)

  /** The edit form's fields; `age` is the parsed age field (None when blank or not a number). */
  datatype EditForm = EditForm(
    lastName: string,
    firstName: string,
    middleName: string,
    age: Option<int>,
    address: string,
    contact: string)

  /** The field values `handleEditResident` sends to `updateProfile`. */
  datatype ProfileUpdate = ProfileUpdate(
    lastName: string,
    firstName: string,
    middleName: Option<string>,
    age: Option<int>,
    address: Option<string>,
    contact: Option<string>)

  /** A store call `updateProfile(userId, update)`. */
  datatype UpdateCall = UpdateCall(userId: string, update: ProfileUpdate)

  /** The search test: the lower-cased term occurs in the lower-cased first or last name. */
  predicate MatchesSearch(p: DBProfile, term: string) {
    Contains(Lower(p.firstName), Lower(term)) || Contains(Lower(p.lastName), Lower(term))
  }

  function Matcher(term: string): DBProfile -> bool {
    (p: DBProfile) => MatchesSearch(p, term)
  }

  /** `filteredResidents`: the matching profiles in their original order. */
  function FilteredResidents(ps: seq<DBProfile>, term: string): (r: seq<DBProfile>)
    ensures forall i :: 0 <= i < |r| ==> r[i] in ps && MatchesSearch(r[i], term)
    ensures forall i :: 0 <= i < |ps| && MatchesSearch(ps[i], term) ==> ps[i] in r
    ensures IsSubsequence(r, ps)
    ensures |r| == CountWhere(ps, Matcher(term))
  {
    FilterIsSubsequence(ps, Matcher(term));
    FilterCount(ps, Matcher(term));
    Filter(ps, Matcher(term))
  }

  /** "Showing X of Y Results": X counts the shown profiles, Y all of them, and X never exceeds Y. */
  function ShowingCounts(ps: seq<DBProfile>, term: string): (counts: (nat, nat))
    ensures counts.1 == |ps|
    ensures counts.0 <= counts.1
    ensures counts.0 == CountWhere(ps, Matcher(term))
  {
    FilterCount(ps, Matcher(term));
    (|FilteredResidents(ps, term)|, |ps|)
  }

  /** The "No residents found." row is shown exactly when no profile matches the term. */
  function ShowsNoResidentsRow(ps: seq<DBProfile>, term: string): (shown: bool)
    ensures shown <==> forall i :: 0 <= i < |ps| ==> !MatchesSearch(ps[i], term)
  {
    FilterEmptyIff(ps, Matcher(term));
    |FilteredResidents(ps, term)| == 0
  }

  /** The approve button exists only for a profile Pending Approval; it calls `approveResident(user_id)`. */
  function ApproveAction(p: DBProfile): (call: Option<string>)
    ensures call.Some? <==> p.status == "Pending Approval"
    ensures call.Some? <==> ParseResidentStatus(p.status) == Some(PendingApproval)
    ensures call.Some? ==> call.value == p.userId
  {
    if p.status == "Pending Approval" then Some(p.userId) else None
  }

  /** `x || ''` for an optional string. */
  function OrEmpty(s: Option<string>): (r: string)
    ensures s.None? ==> r == ""
    ensures s.Some? ==> r == s.value
  {
    s.GetOr("")
  }

  /** `x || null` for a form string: the empty string becomes null. */
  function NullIfEmpty(s: string): (r: Option<string>)
    ensures r.None? <==> s == ""
    ensures r.Some? ==> r.value == s
  {
    if s == "" then None else Some(s)
  }

  /** `openEditModal`'s form: missing middle name, address and contact become "", a missing age stays blank. */
  function FormFor(p: DBProfile): (f: EditForm)
    ensures f.lastName == p.lastName && f.firstName == p.firstName
    ensures f.middleName == OrEmpty(p.middleName) && f.address == OrEmpty(p.address)
    ensures f.contact == OrEmpty(p.contact) && f.age == p.age
  {
    EditForm(p.lastName, p.firstName, OrEmpty(p.middleName), p.age, OrEmpty(p.address), OrEmpty(p.contact))
  }

  /** No optional string holds "" and no age is 0: the forms `handleEditResident` stores. */
  predicate Normalized(middleName: Option<string>, age: Option<int>, address: Option<string>, contact: Option<string>) {
    middleName != Some("") && age != Some(0) && address != Some("") && contact != Some("")
  }

  /**
   * The update `handleEditResident` sends: names copied verbatim, empty
   * strings turned into null, and a blank, unparsable or zero age into null.
   */
  function UpdateFrom(f: EditForm): (u: ProfileUpdate)
    ensures u.lastName == f.lastName && u.firstName == f.firstName
    ensures Normalized(u.middleName, u.age, u.address, u.contact)
    ensures u.middleName == NullIfEmpty(f.middleName)
    ensures u.address == NullIfEmpty(f.address) && u.contact == NullIfEmpty(f.contact)
    ensures u.age.Some? <==> f.age.Some? && f.age.value != 0
    ensures u.age.Some? ==> u.age == f.age
  {
    ProfileUpdate(f.lastName, f.firstName, NullIfEmpty(f.middleName),
                  if f.age == Some(0) then None else f.age,
                  NullIfEmpty(f.address), NullIfEmpty(f.contact))
  }

  /** Opening the edit form and saving it unchanged writes back exactly the profile's fields when they are normalized. */
  lemma EditRoundTrip(p: DBProfile)
    requires Normalized(p.middleName, p.age, p.address, p.contact)
    ensures UpdateFrom(FormFor(p)) ==
      ProfileUpdate(p.lastName, p.firstName, p.middleName, p.age, p.address, p.contact)
  {
  }

  class ResidentsPage {
    var searchTerm: string
    var editing: Option<DBProfile>
    var form: EditForm

    constructor ()
      ensures searchTerm == "" && editing.None? && form == EditForm("", "", "", None, "", "")
    {
      searchTerm := "";
      editing := None;
      form := EditForm("", "", "", None, "", "");
    }

    /** `openEditModal`: the form is filled from the profile, which becomes the one being edited. */
    method OpenEditModal(p: DBProfile)
      modifies this
      ensures form == FormFor(p) && editing == Some(p)
      ensures searchTerm == old(searchTerm)
    {
      form := FormFor(p);
      editing := Some(p);
    }

    /** The top bar's search input hands its raw value to `onSearch`, which sets the term. */
    method SetSearch(value: string)
      modifies this
      ensures searchTerm == value && editing == old(editing) && form == old(form)
    {
      searchTerm := value;
    }

    /** The inputs of the edit form. */
    method SetForm(f: EditForm)
      modifies this
      ensures form == f && editing == old(editing) && searchTerm == old(searchTerm)
    {
      form := f;
    }

    /**
     * `handleEditResident`: nothing when no profile is being edited; otherwise
     * the update for that profile's user is issued and editing ends.
     */
    method HandleEditResident() returns (call: Option<UpdateCall>)
      modifies this
      ensures old(editing).None? ==> call.None? && editing.None?
      ensures old(editing).Some? ==>
        call == Some(UpdateCall(old(editing).value.userId, UpdateFrom(old(form)))) && editing.None?
      ensures form == old(form) && searchTerm == old(searchTerm)
    {
      if editing.None? {
        return None;
      }
      call := Some(UpdateCall(editing.value.userId, UpdateFrom(form)));
      editing := None;
    }
  }
}
