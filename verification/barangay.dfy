/**
 * The portal's domain vocabulary: roles, the two status enumerations, the six
 * certificate types, and the records for residents, certificate requests,
 * officials and notifications, with the string labels the views display.
 */
module Barangay {
  import opened Options

  /** A JavaScript `Date`, as milliseconds since the epoch. */
  type Date = int

  datatype UserRole = OfficialRole | ResidentRole

  datatype RequestStatus = Pending | Approved | Denied

  datatype ResidentStatus = PendingApproval | Active

  datatype CertificateType =
    | BarangayClearance
    | CertificateOfIndigency
    | CertificateOfResidency
    | CertificateOfLowIncome
    | OathOfUndertaking
    | BusinessPermit

  /** A resident's personal data: everything of a `Resident` except id, status and creation date. */
  datatype PersonalInfo = PersonalInfo(
    lastName: string,
    firstName: string,
    middleName: Option<string>,
    age: Option<int>,      // the result of `parseInt`; None stands for NaN
    address: string,
    contact: string,
    email: string,
    password: string)

  datatype Resident = Resident(id: string, info: PersonalInfo, status: ResidentStatus, createdAt: Date)

  datatype CertificateRequest = CertificateRequest(
    id: string,
    residentId: string,
    residentName: string,
    certificateType: CertificateType,
    purpose: string,
    notes: Option<string>,
    status: RequestStatus,
    dateRequested: Date,
    dateProcessed: Option<Date>,
    validIdFile: Option<string>)

  /** What a caller supplies to create a request: a `CertificateRequest` without id and request date. */
  datatype RequestData = RequestData(
    residentId: string,
    residentName: string,
    certificateType: CertificateType,
    purpose: string,
    notes: Option<string>,
    status: RequestStatus,
    dateProcessed: Option<Date>,
    validIdFile: Option<string>)

  datatype Official = Official(id: string, name: string, email: string, password: string)

  datatype NotificationKind = PendingNotice | ApprovedNotice | InfoNotice

  datatype Notification = Notification(
    id: string,
    title: string,
    description: string,
    kind: NotificationKind,
    time: string,
    read: bool,
    requestId: Option<string>)

  /** The logged-in user: an official (one `name`) or a resident (first, middle, last names). */
  datatype User = OfficialUser(official: Official) | ResidentUser(resident: Resident)

  function RoleOf(u: User): UserRole {
    match u
    case OfficialUser(_) => OfficialRole
    case ResidentUser(_) => ResidentRole
  }

  /** The request built from `d` with the generated id and request date. */
  function Issue(d: RequestData, id: string, now: Date): CertificateRequest {
    CertificateRequest(id, d.residentId, d.residentName, d.certificateType, d.purpose,
                       d.notes, d.status, now, d.dateProcessed, d.validIdFile)
  }

  predicate IsPending(r: CertificateRequest) { r.status == Pending }
  predicate IsApproved(r: CertificateRequest) { r.status == Approved }
  predicate IsActive(r: Resident) { r.status == Active }
  predicate IsUnread(n: Notification) { !n.read }

  // ---------------------------------------------------------------------------
  // The string forms of the enumerations

  function RequestStatusLabel(s: RequestStatus): string {
    match s
    case Pending => "Pending"
    case Approved => "Approved"
    case Denied => "Denied"
  }

  /** Reading a status string back: succeeds exactly on the three labels. */
  function ParseRequestStatus(s: string): (r: Option<RequestStatus>)
    ensures r.Some? ==> RequestStatusLabel(r.value) == s
    ensures forall st :: RequestStatusLabel(st) == s ==> r == Some(st)
  {
    if s == "Pending" then Some(Pending)
    else if s == "Approved" then Some(Approved)
    else if s == "Denied" then Some(Denied)
    else None
  }

  function ResidentStatusLabel(s: ResidentStatus): string {
    match s
    case PendingApproval => "Pending Approval"
    case Active => "Active"
  }

  /** Reading a resident status string back: succeeds exactly on the two labels. */
  function ParseResidentStatus(s: string): (r: Option<ResidentStatus>)
    ensures r.Some? ==> ResidentStatusLabel(r.value) == s
    ensures forall st :: ResidentStatusLabel(st) == s ==> r == Some(st)
  {
    if s == "Pending Approval" then Some(PendingApproval)
    else if s == "Active" then Some(Active)
    else None
  }

  function CertificateTypeLabel(c: CertificateType): string {
    match c
    case BarangayClearance => "Barangay Clearance"
    case CertificateOfIndigency => "Certificate of Indigency"
    case CertificateOfResidency => "Certificate of Residency"
    case CertificateOfLowIncome => "Certificate of Low Income"
    case OathOfUndertaking => "Oath of Undertaking"
    case BusinessPermit => "Business Permit"
  }

  /** The certificate types in the order the request form lists them. */
  const AllCertificateTypes: seq<CertificateType> := [
    BarangayClearance, CertificateOfIndigency, CertificateOfResidency,
    CertificateOfLowIncome, OathOfUndertaking, BusinessPermit
  ]

  /** There are exactly six certificate types, with six different labels. */
  lemma CertificateTypesExactlySix()
    ensures |AllCertificateTypes| == 6
    ensures forall c :: c in AllCertificateTypes
    ensures forall i, j :: 0 <= i < j < 6 ==>
      CertificateTypeLabel(AllCertificateTypes[i]) != CertificateTypeLabel(AllCertificateTypes[j])
  {
    forall c ensures c in AllCertificateTypes {
      match c
      case BarangayClearance => assert AllCertificateTypes[0] == c;
      case CertificateOfIndigency => assert AllCertificateTypes[1] == c;
      case CertificateOfResidency => assert AllCertificateTypes[2] == c;
      case CertificateOfLowIncome => assert AllCertificateTypes[3] == c;
      case OathOfUndertaking => assert AllCertificateTypes[4] == c;
      case BusinessPermit => assert AllCertificateTypes[5] == c;
    }
  }

  // ---------------------------------------------------------------------------
  // The mock data both providers start from

  const InitialResidents: seq<Resident> := [
    Resident("1", PersonalInfo("Dela Cruz", "Juan", Some("Perez"), Some(30),
             "123 Rizal St, Palma-Urbano", "09171234567", "juan@email.com", "password123"),
             Active, 1705276800000),
    Resident("2", PersonalInfo("Santos", "Maria", Some("Garcia"), Some(25),
             "456 Mabini St, Palma-Urbano", "09189876543", "maria@email.com", "password123"),
             Active, 1708387200000),
    Resident("3", PersonalInfo("Reyes", "Pedro", None, Some(45),
             "789 Luna St, Palma-Urbano", "09201234567", "pedro@email.com", "password123"),
             PendingApproval, 1709251200000)
  ]

  const InitialRequests: seq<CertificateRequest> := [
    CertificateRequest("1", "1", "Juan Perez Dela Cruz", BarangayClearance, "For job application",
                       None, Pending, 1710028800000, None, None),
    CertificateRequest("2", "2", "Maria Garcia Santos", CertificateOfIndigency, "For medical assistance",
                       None, Approved, 1709856000000, Some(1709942400000), None)
  ]

  const InitialNotifications: seq<Notification> := [
    Notification("1", "New Request", "Juan Dela Cruz requested a Barangay Clearance",
                 PendingNotice, "2 hours ago", false, Some("1")),
    Notification("2", "Certificate Approved", "Certificate of Indigency for Maria Santos has been approved",
                 ApprovedNotice, "1 day ago", false, Some("2")),
    Notification("3", "New Resident Signup", "Pedro Reyes signed up and is pending approval",
                 InfoNotice, "2 days ago", false, None)
  ]

  const MockOfficials: seq<Official> := [
    Official("1", "Rose", "rose@barangay.gov", "admin123"),
    Official("2", "Admin", "admin@barangay.gov", "admin123")
  ]
}
