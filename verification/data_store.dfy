/**
 * The in-memory data provider: three lists (residents, certificate requests,
 * notifications) that every operation replaces by a new list, and the queries
 * over them. The pure functions below compute each new list; the class
 * `DataProvider` holds the state and its methods perform the updates.
 */
module DataStore {
  import opened Options
  import opened Seqs
  import opened Barangay

  /** `Partial<Resident>`: the fields an update supplies; absent ones are kept. */
  datatype ResidentPatch = ResidentPatch(
    id: Option<string>,
    lastName: Option<string>,
    firstName: Option<string>,
    middleName: Option<Option<string>>,
    age: Option<Option<int>>,
    address: Option<string>,
    contact: Option<string>,
    email: Option<string>,
    password: Option<string>,
    status: Option<ResidentStatus>,
    createdAt: Option<Date>)

  /** `{ ...r, ...patch }`: each field supplied by the patch overrides the resident's. */
  function Merge(r: Resident, p: ResidentPatch): Resident {
    Resident(
      p.id.GetOr(r.id),
      PersonalInfo(
        p.lastName.GetOr(r.info.lastName),
        p.firstName.GetOr(r.info.firstName),
        p.middleName.GetOr(r.info.middleName),
        p.age.GetOr(r.info.age),
        p.address.GetOr(r.info.address),
        p.contact.GetOr(r.info.contact),
        p.email.GetOr(r.info.email),
        p.password.GetOr(r.info.password)),
      p.status.GetOr(r.status),
      p.createdAt.GetOr(r.createdAt))
  }

  /** Merging the same patch twice is merging it once; an empty patch changes nothing. */
  lemma MergeIdempotent(r: Resident, p: ResidentPatch)
    ensures Merge(Merge(r, p), p) == Merge(r, p)
    ensures Merge(r, ResidentPatch(None, None, None, None, None, None, None, None, None, None, None)) == r
  {
  }

  // ---------------------------------------------------------------------------
  // The new lists computed by the operations

  /** `residents.map(r => r.id === id ? { ...r, ...patch } : r)` */
  function UpdateWhere(rs: seq<Resident>, id: string, p: ResidentPatch): seq<Resident> {
    seq(|rs|, i requires 0 <= i < |rs| => if rs[i].id == id then Merge(rs[i], p) else rs[i])
  }

  /** The predicate `deleteResident(id)` filters with. */
  function OtherThan(id: string): Resident -> bool {
    (r: Resident) => r.id != id
  }

  /** `residents.filter(r => r.id !== id)` */
  function DeleteWhere(rs: seq<Resident>, id: string): seq<Resident> {
    Filter(rs, OtherThan(id))
  }

  /** `residents.map(r => r.id === id ? { ...r, status: 'Active' } : r)` */
  function ApproveWhere(rs: seq<Resident>, id: string): seq<Resident> {
    seq(|rs|, i requires 0 <= i < |rs| => if rs[i].id == id then rs[i].(status := Active) else rs[i])
  }

  /** `requests.map(r => r.id === id ? { ...r, status, dateProcessed: now } : r)` */
  function SetStatusWhere(rs: seq<CertificateRequest>, id: string, status: RequestStatus, now: Date)
    : seq<CertificateRequest>
  {
    seq(|rs|, i requires 0 <= i < |rs| =>
      if rs[i].id == id then rs[i].(status := status, dateProcessed := Some(now)) else rs[i])
  }

  /** `notifications.map(n => n.id === id ? { ...n, read: true } : n)` */
  function MarkReadWhere(ns: seq<Notification>, id: string): seq<Notification> {
    seq(|ns|, i requires 0 <= i < |ns| => if ns[i].id == id then ns[i].(read := true) else ns[i])
  }

  /** `notifications.map(n => ({ ...n, read: true }))` */
  function MarkAllRead(ns: seq<Notification>): seq<Notification> {
    seq(|ns|, i requires 0 <= i < |ns| => ns[i].(read := true))
  }

  /** The notification `addRequest` puts in front of the list. */
  function RequestNotice(d: RequestData, notificationId: string, requestId: string): Notification {
    Notification(notificationId, "New Certificate Request",
                 d.residentName + " requested a " + CertificateTypeLabel(d.certificateType),
                 PendingNotice, "Just now", false, Some(requestId))
  }

  /** The predicate `getResidentRequests(residentId)` filters with. */
  function OfResident(residentId: string): CertificateRequest -> bool {
    (r: CertificateRequest) => r.residentId == residentId
  }

  // ---------------------------------------------------------------------------
  // Properties of the operations

  /** Approving twice is approving once. */
  lemma ApproveIdempotent(rs: seq<Resident>, id: string)
    ensures ApproveWhere(ApproveWhere(rs, id), id) == ApproveWhere(rs, id)
  {
  }

  /** Approving never lowers the number of active residents, and raises it when a pending resident has that id. */
  lemma {:induction false} ApproveActiveCount(rs: seq<Resident>, id: string)
    ensures |Filter(ApproveWhere(rs, id), IsActive)| >= |Filter(rs, IsActive)|
    ensures (exists i :: 0 <= i < |rs| && rs[i].id == id && rs[i].status == PendingApproval) ==>
              |Filter(ApproveWhere(rs, id), IsActive)| > |Filter(rs, IsActive)|
  {
    if rs != [] {
      var a := ApproveWhere(rs, id);
      assert a == [a[0]] + ApproveWhere(rs[1..], id);
      assert rs == [rs[0]] + rs[1..];
      ApproveActiveCount(rs[1..], id);
      FilterAppend([a[0]], ApproveWhere(rs[1..], id), IsActive);
      FilterAppend([rs[0]], rs[1..], IsActive);
      if exists i :: 0 <= i < |rs| && rs[i].id == id && rs[i].status == PendingApproval {
        var i :| 0 <= i < |rs| && rs[i].id == id && rs[i].status == PendingApproval;
        if i > 0 {
          assert rs[1..][i - 1] == rs[i];
        }
      }
    }
  }

  /** Deleting removes every record with the id and keeps every other one, in order. */
  lemma DeleteWhereSpec(rs: seq<Resident>, id: string)
    ensures forall r :: r in DeleteWhere(rs, id) ==> r.id != id
    ensures forall r :: r in rs && r.id != id ==> r in DeleteWhere(rs, id)
    ensures IsSubsequence(DeleteWhere(rs, id), rs)
    ensures |DeleteWhere(rs, id)| == CountWhere(rs, OtherThan(id))
    ensures DeleteWhere(DeleteWhere(rs, id), id) == DeleteWhere(rs, id)
  {
    FilterIsSubsequence(rs, OtherThan(id));
    FilterCount(rs, OtherThan(id));
    var d := DeleteWhere(rs, id);
    FilterAllPass(d, OtherThan(id));
  }

  /**
   * The guarded request lifecycle: only a Pending request moves, and only to
   * Approved or Denied; both are terminal.
   */
  function Transition(from: RequestStatus, to: RequestStatus): (r: Option<RequestStatus>)
    ensures r.Some? <==> from == Pending && to != Pending
    ensures r.Some? ==> r.value == to
  {
    if from == Pending && to != Pending then Some(to) else None
  }

  /**
   * `updateRequestStatus` itself checks no prior status: an Approved request
   * can be set to Denied through it, which `Transition` refuses.
   */
  lemma SetStatusIgnoresLifecycle(r: CertificateRequest, now: Date)
    requires r.status == Approved
    ensures SetStatusWhere([r], r.id, Denied, now)[0].status == Denied
    ensures Transition(r.status, Denied).None?
  {
  }

  /** Every request has a processing date exactly when it is no longer Pending. */
  ghost predicate ProcessedMatchesStatus(rs: seq<CertificateRequest>) {
    forall i :: 0 <= i < |rs| ==> (rs[i].dateProcessed.None? <==> rs[i].status == Pending)
  }

  /** The seed requests satisfy it. */
  lemma InitialRequestsProcessedMatchStatus()
    ensures ProcessedMatchesStatus(InitialRequests)
  {
  }

  /** Setting Approved or Denied keeps it; a new Pending request without a processing date keeps it. */
  lemma ProcessedMatchesStatusPreserved(rs: seq<CertificateRequest>, id: string, status: RequestStatus,
                                        now: Date, d: RequestData, newId: string)
    requires ProcessedMatchesStatus(rs)
    ensures status != Pending ==> ProcessedMatchesStatus(SetStatusWhere(rs, id, status, now))
    ensures d.status == Pending && d.dateProcessed.None? ==> ProcessedMatchesStatus(rs + [Issue(d, newId, now)])
  {
  }

  /** Setting a status never raises the number of Pending requests when the new status is not Pending. */
  lemma {:induction false} SetStatusPendingCount(rs: seq<CertificateRequest>, id: string,
                                                 status: RequestStatus, now: Date)
    requires status != Pending
    ensures |Filter(SetStatusWhere(rs, id, status, now), IsPending)| <= |Filter(rs, IsPending)|
  {
    if rs != [] {
      var u := SetStatusWhere(rs, id, status, now);
      assert u == [u[0]] + SetStatusWhere(rs[1..], id, status, now);
      assert rs == [rs[0]] + rs[1..];
      SetStatusPendingCount(rs[1..], id, status, now);
      FilterAppend([u[0]], SetStatusWhere(rs[1..], id, status, now), IsPending);
      FilterAppend([rs[0]], rs[1..], IsPending);
    }
  }

  /**
   * After a request is added, the requesting resident's list has exactly that
   * request appended and every other resident's list is unchanged.
   */
  lemma AddRequestResidentRequests(rs: seq<CertificateRequest>, d: RequestData, newId: string,
                                   now: Date, residentId: string)
    ensures Filter(rs + [Issue(d, newId, now)], OfResident(residentId)) ==
              if d.residentId == residentId then Filter(rs, OfResident(residentId)) + [Issue(d, newId, now)]
              else Filter(rs, OfResident(residentId))
  {
    FilterAppend(rs, [Issue(d, newId, now)], OfResident(residentId));
  }

  /** After marking all notifications read none is unread, and marking all again changes nothing. */
  lemma MarkAllReadSpec(ns: seq<Notification>)
    ensures |Filter(MarkAllRead(ns), IsUnread)| == 0
    ensures MarkAllRead(MarkAllRead(ns)) == MarkAllRead(ns)
  {
    FilterEmptyIff(MarkAllRead(ns), IsUnread);
  }

  /** Marking one notification read never raises the unread count. */
  lemma {:induction false} MarkReadUnreadCount(ns: seq<Notification>, id: string)
    ensures |Filter(MarkReadWhere(ns, id), IsUnread)| <= |Filter(ns, IsUnread)|
  {
    if ns != [] {
      var m := MarkReadWhere(ns, id);
      assert m == [m[0]] + MarkReadWhere(ns[1..], id);
      assert ns == [ns[0]] + ns[1..];
      MarkReadUnreadCount(ns[1..], id);
      FilterAppend([m[0]], MarkReadWhere(ns[1..], id), IsUnread);
      FilterAppend([ns[0]], ns[1..], IsUnread);
    }
  }

  // ---------------------------------------------------------------------------
  // The provider

  class DataProvider {
    var residents: seq<Resident>
    var requests: seq<CertificateRequest>
    var notifications: seq<Notification>

    /** The provider starts from the mock lists. */
    constructor ()
      ensures residents == InitialResidents
      ensures requests == InitialRequests
      ensures notifications == InitialNotifications
    {
      residents := InitialResidents;
      requests := InitialRequests;
      notifications := InitialNotifications;
    }

    /** `addResident`: one resident appended at the end with the given id and creation date. */
    method AddResident(info: PersonalInfo, status: ResidentStatus, id: string, now: Date)
      modifies this
      ensures residents == old(residents) + [Resident(id, info, status, now)]
      ensures requests == old(requests) && notifications == old(notifications)
    {
      residents := residents + [Resident(id, info, status, now)];
    }

    /** `updateResident`: the patch is merged into the records with that id; the rest stay as they were. */
    method UpdateResident(id: string, patch: ResidentPatch)
      modifies this
      ensures |residents| == |old(residents)|
      ensures forall i :: 0 <= i < |residents| ==>
        residents[i] == if old(residents)[i].id == id then Merge(old(residents)[i], patch) else old(residents)[i]
      ensures requests == old(requests) && notifications == old(notifications)
    {
      residents := UpdateWhere(residents, id, patch);
    }

    /** `deleteResident`: every record with that id is gone; the others keep their order. */
    method DeleteResident(id: string)
      modifies this
      ensures forall r :: r in residents <==> r in old(residents) && r.id != id
      ensures IsSubsequence(residents, old(residents))
      ensures |residents| == CountWhere(old(residents), OtherThan(id))
      ensures requests == old(requests) && notifications == old(notifications)
    {
      DeleteWhereSpec(residents, id);
      residents := DeleteWhere(residents, id);
    }

    /** `approveResident`: the records with that id become Active; nothing else changes. */
    method ApproveResident(id: string)
      modifies this
      ensures |residents| == |old(residents)|
      ensures forall i :: 0 <= i < |residents| ==>
        && residents[i].id == old(residents)[i].id
        && residents[i].info == old(residents)[i].info
        && residents[i].createdAt == old(residents)[i].createdAt
        && residents[i].status == (if old(residents)[i].id == id then Active else old(residents)[i].status)
      ensures requests == old(requests) && notifications == old(notifications)
    {
      residents := ApproveWhere(residents, id);
    }

    /**
     * `addRequest`: the request is appended with the generated id and date, and
     * an unread "pending" notification pointing at it is put in front.
     */
    method AddRequest(d: RequestData, requestId: string, notificationId: string, now: Date)
      modifies this
      ensures requests == old(requests) + [Issue(d, requestId, now)]
      ensures |notifications| == |old(notifications)| + 1
      ensures notifications[1..] == old(notifications)
      ensures notifications[0].id == notificationId && notifications[0].requestId == Some(requestId)
      ensures notifications[0].title == "New Certificate Request" && notifications[0].time == "Just now"
      ensures notifications[0].kind == PendingNotice && !notifications[0].read
      ensures notifications[0].description == d.residentName + " requested a " + CertificateTypeLabel(d.certificateType)
      ensures residents == old(residents)
    {
      requests := requests + [Issue(d, requestId, now)];
      notifications := [RequestNotice(d, notificationId, requestId)] + notifications;
    }

    /** `updateRequestStatus`: status and processing date set on the records with that id, whatever their status was. */
    method UpdateRequestStatus(id: string, status: RequestStatus, now: Date)
      modifies this
      ensures |requests| == |old(requests)|
      ensures forall i :: 0 <= i < |requests| ==>
        requests[i] == if old(requests)[i].id == id
                       then old(requests)[i].(status := status, dateProcessed := Some(now))
                       else old(requests)[i]
      ensures residents == old(residents) && notifications == old(notifications)
    {
      requests := SetStatusWhere(requests, id, status, now);
    }

    /** `getResidentRequests`: exactly that resident's requests, in their original order. */
    function GetResidentRequests(residentId: string): (r: seq<CertificateRequest>)
      reads this
      ensures forall x :: x in r <==> x in requests && x.residentId == residentId
      ensures IsSubsequence(r, requests)
      ensures |r| == CountWhere(requests, OfResident(residentId))
    {
      FilterIsSubsequence(requests, OfResident(residentId));
      FilterCount(requests, OfResident(residentId));
      Filter(requests, OfResident(residentId))
    }

    /** `getPendingCount`: the number of Pending requests. */
    function GetPendingCount(): (n: nat)
      reads this
      ensures n == CountWhere(requests, IsPending)
    {
      FilterCount(requests, IsPending);
      |Filter(requests, IsPending)|
    }

    /** `getTotalResidents`: the number of Active residents. */
    function GetTotalResidents(): (n: nat)
      reads this
      ensures n == CountWhere(residents, IsActive)
    {
      FilterCount(residents, IsActive);
      |Filter(residents, IsActive)|
    }

    /** `markNotificationRead`: the notifications with that id become read; nothing else changes. */
    method MarkNotificationRead(id: string)
      modifies this
      ensures |notifications| == |old(notifications)|
      ensures forall i :: 0 <= i < |notifications| ==>
        notifications[i] == if old(notifications)[i].id == id then old(notifications)[i].(read := true)
                            else old(notifications)[i]
      ensures residents == old(residents) && requests == old(requests)
    {
      notifications := MarkReadWhere(notifications, id);
    }

    /** `markAllNotificationsRead`: every notification is read, otherwise unchanged. */
    method MarkAllNotificationsRead()
      modifies this
      ensures |notifications| == |old(notifications)|
      ensures forall i :: 0 <= i < |notifications| ==>
        notifications[i] == old(notifications)[i].(read := true)
      ensures Filter(notifications, IsUnread) == []
      ensures residents == old(residents) && requests == old(requests)
    {
      MarkAllReadSpec(notifications);
      notifications := MarkAllRead(notifications);
    }
  }
}
