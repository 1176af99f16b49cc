/**
 * The authentication provider: who is logged in (`currentUser`, `userRole`),
 * the mock officials, and its own list of residents, which registration
 * appends to. Credential checks compare e-mails ignoring case and passwords
 * exactly; a resident must also be Active.
 */
module Auth {
  import opened Options
  import opened Text
  import opened Seqs
  import opened Barangay

  /** `o.email.toLowerCase() === email.toLowerCase() && o.password === password` */
  predicate OfficialMatches(o: Official, email: string, password: string) {
    Lower(o.email) == Lower(email) && o.password == password
  }

  /** The resident test of `login`: same e-mail ignoring case, same password, and Active. */
  predicate ResidentMatches(r: Resident, email: string, password: string) {
    Lower(r.info.email) == Lower(email) && r.info.password == password && r.status == Active
  }

  /**
   * The user `login(email, password, role)` signs in: the first matching
   * official for the official role, the first matching Active resident for the
   * resident role.
   */
  function FindUser(officials: seq<Official>, residents: seq<Resident>, email: string, password: string,
                    role: UserRole): (u: Option<User>)
    ensures u.Some? ==> RoleOf(u.value) == role
    ensures role == OfficialRole ==>
      (u.Some? <==> exists i :: 0 <= i < |officials| && OfficialMatches(officials[i], email, password))
    ensures role == ResidentRole ==>
      (u.Some? <==> exists i :: 0 <= i < |residents| && ResidentMatches(residents[i], email, password))
    ensures u.Some? && u.value.OfficialUser? ==>
      u.value.official in officials && OfficialMatches(u.value.official, email, password)
    ensures u.Some? && u.value.ResidentUser? ==>
      u.value.resident in residents && ResidentMatches(u.value.resident, email, password)
  {
    match role
    case OfficialRole =>
      (match Find(officials, (o: Official) => OfficialMatches(o, email, password))
       case Some(o) => Some(OfficialUser(o))
       case None => None)
    case ResidentRole =>
      (match Find(residents, (r: Resident) => ResidentMatches(r, email, password))
       case Some(r) => Some(ResidentUser(r))
       case None => None)
  }

  /** `residents.some(r => r.email.toLowerCase() === email.toLowerCase())` */
  predicate EmailTaken(residents: seq<Resident>, email: string) {
    exists i :: 0 <= i < |residents| && Lower(residents[i].info.email) == Lower(email)
  }

  /** No two residents share an e-mail address, ignoring case. */
  ghost predicate EmailsDistinct(residents: seq<Resident>) {
    forall i, j :: 0 <= i < j < |residents| ==>
      Lower(residents[i].info.email) != Lower(residents[j].info.email)
  }

  /** Both are null, or the user is set and the role is the user's own. */
  predicate SessionConsistent(user: Option<User>, role: Option<UserRole>) {
    (user.None? && role.None?) || (user.Some? && role == Some(RoleOf(user.value)))
  }

  lemma InitialResidentsEmailsDistinct()
    ensures EmailsDistinct(InitialResidents)
  {
    // The three addresses already differ in their first, lower-case letter.
    var rs := InitialResidents;
    assert Lower(rs[0].info.email)[0] == 'j';
    assert Lower(rs[1].info.email)[0] == 'm';
    assert Lower(rs[2].info.email)[0] == 'p';
  }

  /** Registering an e-mail that is not taken keeps e-mails distinct. */
  lemma RegisterKeepsEmailsDistinct(residents: seq<Resident>, r: Resident)
    requires EmailsDistinct(residents)
    requires !EmailTaken(residents, r.info.email)
    ensures EmailsDistinct(residents + [r])
  {
    var rs := residents + [r];
    forall i, j | 0 <= i < j < |rs|
      ensures Lower(rs[i].info.email) != Lower(rs[j].info.email)
    {
      if j == |residents| {
        assert rs[i] == residents[i];
      } else {
        assert rs[i] == residents[i] && rs[j] == residents[j];
      }
    }
  }

  /**
   * A resident still Pending Approval is refused even with the right e-mail
   * and password: no other resident can match, as e-mails are distinct.
   */
  lemma PendingResidentRefused(officials: seq<Official>, residents: seq<Resident>, k: nat,
                               email: string, password: string)
    requires EmailsDistinct(residents)
    requires k < |residents| && residents[k].status == PendingApproval
    requires Lower(residents[k].info.email) == Lower(email)
    ensures FindUser(officials, residents, email, password, ResidentRole) == None
  {
    forall i | 0 <= i < |residents|
      ensures !ResidentMatches(residents[i], email, password)
    {
      if i < k {
        assert Lower(residents[i].info.email) != Lower(residents[k].info.email);
      } else if i > k {
        assert Lower(residents[k].info.email) != Lower(residents[i].info.email);
      }
    }
  }

  class AuthProvider {
    const officials: seq<Official>
    var currentUser: Option<User>
    var userRole: Option<UserRole>
    var residents: seq<Resident>

    ghost predicate Valid()
      reads this
    {
      SessionConsistent(currentUser, userRole) && EmailsDistinct(residents)
    }

    /** Nobody is logged in; the lists are the mock ones. */
    constructor ()
      ensures Valid()
      ensures officials == MockOfficials && residents == InitialResidents
      ensures currentUser == None && userRole == None
    {
      officials := MockOfficials;
      currentUser := None;
      userRole := None;
      residents := InitialResidents;
      InitialResidentsEmailsDistinct();
    }

    /**
     * `login`: on a match the user and role are set and true is returned;
     * otherwise false is returned and the session is left as it was.
     */
    method Login(email: string, password: string, role: UserRole) returns (ok: bool)
      requires Valid()
      modifies this
      ensures Valid()
      ensures ok <==> FindUser(officials, residents, email, password, role).Some?
      ensures ok ==> currentUser == FindUser(officials, residents, email, password, role) && userRole == Some(role)
      ensures !ok ==> currentUser == old(currentUser) && userRole == old(userRole)
      ensures residents == old(residents)
    {
      var found := FindUser(officials, residents, email, password, role);
      ok := found.Some?;
      if ok {
        currentUser := found;
        userRole := Some(role);
      }
    }

    /** `logout`: both the user and the role become null. */
    method Logout()
      requires Valid()
      modifies this
      ensures Valid()
      ensures currentUser == None && userRole == None
      ensures residents == old(residents)
    {
      currentUser := None;
      userRole := None;
    }

    /**
     * `registerResident`: refused (false, nothing changes) when the e-mail is
     * taken ignoring case; otherwise one Pending Approval resident is appended
     * and true is returned. The session is never touched.
     */
    method RegisterResident(info: PersonalInfo, id: string, now: Date) returns (ok: bool)
      requires Valid()
      modifies this
      ensures Valid()
      ensures ok <==> !EmailTaken(old(residents), info.email)
      ensures ok ==> residents == old(residents) + [Resident(id, info, PendingApproval, now)]
      ensures !ok ==> residents == old(residents)
      ensures currentUser == old(currentUser) && userRole == old(userRole)
    {
      if EmailTaken(residents, info.email) {
        return false;
      }
      RegisterKeepsEmailsDistinct(residents, Resident(id, info, PendingApproval, now));
      residents := residents + [Resident(id, info, PendingApproval, now)];
      ok := true;
    }
  }
}
