/** The top bar: the unread-notification badge and the name of the logged-in user. */
module Topbar {
  import opened Options
  import opened Seqs
  import opened Barangay
  import opened DataStore
  import opened Auth
  import Portal

  /** `notifications.filter(n => !n.read).length` */
  function UnreadCount(ns: seq<Notification>): (n: nat)
    ensures n == CountWhere(ns, IsUnread)
  {
    FilterCount(ns, IsUnread);
    |Filter(ns, IsUnread)|
  }

  /** The badge is shown exactly when some notification is unread. */
  function BadgeShown(ns: seq<Notification>): (shown: bool)
    ensures shown <==> exists i :: 0 <= i < |ns| && !ns[i].read
  {
    FilterEmptyIff(ns, IsUnread);
    UnreadCount(ns) > 0
  }

  /** After "mark all as read" the badge disappears. */
  lemma NoBadgeAfterMarkAll(ns: seq<Notification>)
    ensures !BadgeShown(MarkAllRead(ns))
  {
    MarkAllReadSpec(ns);
  }

  /** The name shown: an official's `name`, a resident's first and last name, or "User" when nobody is logged in. */
  function UserName(u: Option<User>): (name: string)
    ensures u.None? ==> name == "User"
    ensures u.Some? && u.value.OfficialUser? ==> name == u.value.official.name
    ensures u.Some? && u.value.ResidentUser? ==>
      name == u.value.resident.info.firstName + " " + u.value.resident.info.lastName
  {
    match u
    case Some(OfficialUser(o)) => o.name
    case Some(ResidentUser(r)) => r.info.firstName + " " + r.info.lastName
    case None => "User"
  }

  /**
   * After a resident logs in, the top bar shows the first and last name of a
   * matching Active resident of the provider's list.
   */
  lemma LoggedInResidentName(officials: seq<Official>, residents: seq<Resident>, email: string, password: string)
    requires FindUser(officials, residents, email, password, ResidentRole).Some?
    ensures exists i ::
              && 0 <= i < |residents|
              && ResidentMatches(residents[i], email, password)
              && UserName(FindUser(officials, residents, email, password, ResidentRole))
                 == residents[i].info.firstName + " " + residents[i].info.lastName
  {
    var u := FindUser(officials, residents, email, password, ResidentRole);
    var r := u.value.resident;
    var i :| 0 <= i < |residents| && residents[i] == r;
  }

  /**
   * The top bar and the portal name a resident differently whenever a middle
   * name is given, or when it is missing (the portal then shows two spaces).
   */
  lemma TopbarNameDiffersFromPortalName(r: Resident)
    requires Portal.Bounded(r.info.firstName) && Portal.Bounded(r.info.lastName)
    ensures UserName(Some(ResidentUser(r))) != Portal.ResidentName(r)
  {
    Portal.ResidentNameShape(r);
    var first, last := r.info.firstName, r.info.lastName;
    var shown := UserName(Some(ResidentUser(r)));
    var full := Portal.ResidentName(r);
    assert |full| > |shown|;
  }
}
