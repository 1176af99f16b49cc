# Barangay portal: a Dafny model of the in-memory domain layer

The portal lets residents of a barangay sign up, log in and request
certificates (clearance, indigency, residency, low income, oath of
undertaking, business permit). Officials review the requests and approve or
deny them, and they manage resident records. This project models the part of
the front end that holds and changes that data:

- `barangay.dfy` (`Barangay`): the roles, the request and resident statuses,
  the six certificate types, and the records for residents, requests,
  officials and notifications. The request status, the resident status and
  the certificate type have display labels; the two statuses also have a
  parser that accepts exactly their labels. The module also holds the mock
  seed data.
- `data_store.dfy` (`DataStore`): the data provider as a class whose three
  list fields (residents, requests, notifications) each operation replaces.
  Pure functions give the new lists, and lemmas give their properties. The
  module also defines the guarded request lifecycle (`Transition`), which the
  provider itself does not enforce.
- `auth.dfy` (`Auth`): the authentication provider. It holds `currentUser`,
  `userRole` and its own resident list. Its invariant says the session is
  either fully set or fully empty, and that resident e-mails are distinct
  ignoring case.
- `login_page.dfy` (`Login`): the four-view login page and its handlers.
- `resident_portal.dfy` (`Portal`): the resident's display name, their
  request list and the request form.
- `requests_page.dfy` (`RequestsView`) and `residents_page.dfy`
  (`ResidentsView`): the officials' pages. They are written against a
  backend-shaped store (snake_case records, statuses as strings) that is not
  among the modelled files. So they are modelled over their own record shapes,
  and the store calls they make are returned as values.
- `topbar.dfy` (`Topbar`) and `reports.dfy` (`Reports`): the unread badge, the
  user name and the report figures.
- `text.dfy`, `seqs.dfy`, `options.dfy`: JavaScript string operations
  (`toLowerCase`, `toUpperCase`, `includes`, `trim`, `slice`), the array
  operations `filter` and `find`, and an option type.

Identifiers and timestamps come from `Date.now()` / `new Date()` in the
source. Here they are method parameters, and dates are integers
(milliseconds). `addRequest` reads the clock twice, so it takes a request id
and a separate notification id. React state setters are modelled as immediate
field assignments.

Two resident lists: the authentication provider and the data provider each
keep their own list, and sign-up writes both. `approveResident` changes only
the data provider's copy, but `login` reads the authentication provider's
copy and requires Active. `Login.SignupApprovalDoesNotEnableLogin` proves the
consequence: a resident who signs up and is then approved is still refused
at login with the credentials they just registered.

## Model

| member | source | states |
|---|---|---|
| `Text.Lower` | src/pages/RequestsPage.tsx:23-24 | lower-casing keeps the length, leaves no upper-case ASCII letter, and agrees with the input character by character up to case |
| `Text.Upper` | src/pages/RequestsPage.tsx:59 | upper-casing keeps the length, leaves no lower-case ASCII letter, and agrees with the input up to case |
| `Text.ContainsEmpty` | src/pages/RequestsPage.tsx:21-25 | every string includes the empty string |
| `Text.Trim` | src/pages/ResidentPortal.tsx:45 | the result is the input with only white space removed from its two ends, and it neither starts nor ends with white space |
| `Text.TrimUnique` | src/pages/ResidentPortal.tsx:45 | those two conditions determine the trimmed string: any two results meeting them are equal |
| `Text.Utf16Length` | src/pages/LoginPage.tsx:72 | `length` counts UTF-16 units: one per character plus one more per character outside the Basic Multilingual Plane; so between one and two per character, exactly one each when no character is outside that plane |
| `Text.Take` | src/pages/RequestsPage.tsx:59 | `slice(0, n)` is the input's prefix of length min(n, length) |
| `Seqs.Filter` | src/context/DataContext.tsx:169-171 | a filter keeps exactly the passing elements, each as many times as in the input, and is never longer |
| `Seqs.FilterIsSubsequence` | src/pages/RequestsPage.tsx:21-25 | a filter keeps the original order of what it keeps |
| `Seqs.FilterCount` | src/context/DataContext.tsx:173-179 | `filter(p).length` equals the number of positions whose element satisfies p |
| `Seqs.Find` | src/context/AuthContext.tsx:77-79 | `find` returns the first element of the list that passes, and returns nothing only when none passes |
| `Barangay.ParseRequestStatus` | src/types/barangay.ts:3 | a status string is read back exactly when it is one of Pending, Approved, Denied, and then to the status it labels |
| `Barangay.ParseResidentStatus` | src/types/barangay.ts:5 | a resident status string is read back exactly for Pending Approval and Active |
| `Barangay.CertificateTypesExactlySix` | src/types/barangay.ts:7-13 | there are six certificate types, every type is listed, and their labels are pairwise different |
| `DataStore.MergeIdempotent` | src/context/DataContext.tsx:129-131 | merging a partial update twice equals merging it once; an empty update changes nothing |
| `DataStore.ApproveIdempotent` | src/context/DataContext.tsx:137-141 | approving a resident twice equals approving once |
| `DataStore.ApproveActiveCount` | src/context/DataContext.tsx:137-141 | approving never lowers the active-resident count, and raises it when a pending resident has that id |
| `DataStore.DeleteWhereSpec` | src/context/DataContext.tsx:133-135 | deletion removes every record with the id, keeps every other record, each occurrence and in order, and is idempotent |
| `DataStore.Transition` | src/pages/RequestsPage.tsx:128-137 | the guarded lifecycle: a status moves only from Pending, and only to Approved or Denied |
| `DataStore.SetStatusIgnoresLifecycle` | src/context/DataContext.tsx:163-167 | `updateRequestStatus` turns an Approved request into Denied, a step the guarded lifecycle refuses |
| `DataStore.InitialRequestsProcessedMatchStatus` | src/context/DataContext.tsx:64-84 | every seed request has a processing date exactly when it is not Pending |
| `DataStore.ProcessedMatchesStatusPreserved` | src/context/DataContext.tsx:143-167 | setting Approved or Denied, or adding a Pending request with no processing date, keeps that invariant |
| `DataStore.SetStatusPendingCount` | src/context/DataContext.tsx:163-167 | setting a non-Pending status never raises the pending count |
| `DataStore.AddRequestResidentRequests` | src/context/DataContext.tsx:143-149 | after a request is added, its resident's request list has exactly that request appended, and every other resident's list is unchanged |
| `DataStore.MarkAllReadSpec` | src/context/DataContext.tsx:185-187 | after marking all notifications read, none is unread; doing it again changes nothing |
| `DataStore.MarkReadUnreadCount` | src/context/DataContext.tsx:181-183 | marking one notification read never raises the unread count |
| `DataStore.DataProvider.constructor` | src/context/DataContext.tsx:115-118 | the provider starts from the seed residents, requests and notifications |
| `DataStore.DataProvider.AddResident` | src/context/DataContext.tsx:120-127 | one resident is appended at the end with the given id and creation date; nothing else changes |
| `DataStore.DataProvider.UpdateResident` | src/context/DataContext.tsx:129-131 | the update is merged into the records with that id only; length and all other records are unchanged |
| `DataStore.DataProvider.DeleteResident` | src/context/DataContext.tsx:133-135 | the remaining residents are exactly the records with a different id, every occurrence of them, in their original order |
| `DataStore.DataProvider.ApproveResident` | src/context/DataContext.tsx:137-141 | records with that id become Active; no other field and no other record changes |
| `DataStore.DataProvider.AddRequest` | src/context/DataContext.tsx:143-161 | one request is appended, and one unread pending notification is put first: titled "New Certificate Request", timed "Just now", carrying the new request's id and the text "<name> requested a <type>" |
| `DataStore.DataProvider.UpdateRequestStatus` | src/context/DataContext.tsx:163-167 | status and processing date are set on the records with that id, whatever their earlier status; the rest is unchanged |
| `DataStore.DataProvider.GetResidentRequests` | src/context/DataContext.tsx:169-171 | exactly the requests of that resident, every occurrence, in their original order |
| `DataStore.DataProvider.GetPendingCount` | src/context/DataContext.tsx:173-175 | the number of Pending requests |
| `DataStore.DataProvider.GetTotalResidents` | src/context/DataContext.tsx:177-179 | the number of Active residents |
| `DataStore.DataProvider.MarkNotificationRead` | src/context/DataContext.tsx:181-183 | only the notifications with that id change, and they become read |
| `DataStore.DataProvider.MarkAllNotificationsRead` | src/context/DataContext.tsx:185-187 | every notification becomes read and none is left unread; the rest is unchanged |
| `Auth.FindUser` | src/context/AuthContext.tsx:66-86 | login finds a user exactly when some official (or some Active resident) has the e-mail ignoring case and the exact password; the user found has the requested role |
| `Auth.InitialResidentsEmailsDistinct` | src/context/AuthContext.tsx:20-59 | the seed residents' e-mails are pairwise distinct ignoring case |
| `Auth.RegisterKeepsEmailsDistinct` | src/context/AuthContext.tsx:96-107 | appending a resident whose e-mail is not taken keeps e-mails distinct |
| `Auth.PendingResidentRefused` | src/context/AuthContext.tsx:76-85 | a resident Pending Approval is refused even with the right e-mail and password |
| `Auth.AuthProvider.constructor` | src/context/AuthContext.tsx:62-64 | nobody is logged in, and the lists are the mock officials and seed residents |
| `Auth.AuthProvider.Login` | src/context/AuthContext.tsx:66-87 | true exactly when a user matches; then user and role are set, otherwise both are left as they were |
| `Auth.AuthProvider.Logout` | src/context/AuthContext.tsx:89-92 | user and role both become null |
| `Auth.AuthProvider.RegisterResident` | src/context/AuthContext.tsx:94-109 | refused with no change when the e-mail is taken ignoring case; otherwise one Pending Approval resident is appended; the session is untouched and e-mails stay distinct |
| `Login.CheckSignup` | src/pages/LoginPage.tsx:67-75 | the password mismatch is reported first; only matching passwords are checked for a length of at least 6 UTF-16 units |
| `Login.ThreeAstralCharactersAreLongEnough` | src/pages/LoginPage.tsx:72 | a password of three characters outside the Basic Multilingual Plane (such as emoji) passes the length check, as `length` counts it as 6 |
| `Login.Registration` | src/pages/LoginPage.tsx:77-86 | every field is passed as typed, except that a blank middle name is passed as absent |
| `Login.LoginPage.constructor` | src/pages/LoginPage.tsx:19-38 | the page starts on role selection with every field and message empty |
| `Login.LoginPage.SetCredentials` | src/pages/LoginPage.tsx:186-258 | the login inputs set the e-mail and password only |
| `Login.LoginPage.SetSignup` | src/pages/LoginPage.tsx:308-423 | the sign-up inputs set the sign-up fields only |
| `Login.LoginPage.HandleOfficialLogin` | src/pages/LoginPage.tsx:40-49 | the error is cleared first; on success the matching official is the logged-in user and the page navigates to /dashboard; otherwise it sets the error, leaves the session as it was and does not navigate |
| `Login.LoginPage.HandleResidentLogin` | src/pages/LoginPage.tsx:51-60 | on success the matching Active resident is the logged-in user and the page navigates to /portal; otherwise it sets the "not found or pending approval" message and leaves the session as it was |
| `Login.LoginPage.HandleSignup` | src/pages/LoginPage.tsx:62-110 | mismatch, short password and duplicate e-mail each set their message and register nothing; otherwise the same data goes to both stores as Pending Approval, each store with its own creation time, and the success message is set |
| `Login.LoginPage.SignupDelayElapsed` | src/pages/LoginPage.tsx:103-106 | after the delay the resident login is shown and the success message cleared |
| `Login.LoginPage.ResetForm` | src/pages/LoginPage.tsx:112-128 | every field and both messages are emptied; the view is kept |
| `Login.LoginPage.GoBack` | src/pages/LoginPage.tsx:130-133 | the form is reset and role selection is shown |
| `Login.LoginPage.OpenView` | src/pages/LoginPage.tsx:148-155 | a role or sign-up button resets the form and shows the view it links to |
| `Login.SignupApprovalDoesNotEnableLogin` | src/pages/LoginPage.tsx:77-100 | after sign-up and approval, the data store holds the resident as Active, yet resident login with the same credentials is refused |
| `Portal.ResidentName` | src/pages/ResidentPortal.tsx:45 | the display name is "first middle last" with only white space removed from its two ends, and has no outer white space |
| `Portal.ResidentNameShape` | src/pages/ResidentPortal.tsx:45 | with trimmed names, the display name is "first middle last", or "first␣␣last" (two spaces) without a middle name |
| `Portal.SubmittedData` | src/pages/ResidentPortal.tsx:72-79 | a submitted request carries the resident's id and display name, the chosen type, the purpose and the file name, status Pending, and no processing date or notes |
| `Portal.ResidentPortal.constructor` | src/pages/ResidentPortal.tsx:38-42 | the form starts empty with the modal closed |
| `Portal.ResidentPortal.MyRequests` | src/pages/ResidentPortal.tsx:46 | exactly the current resident's requests, every occurrence, in order |
| `Portal.ResidentPortal.SetModalOpen` | src/pages/ResidentPortal.tsx:131 | the dialog's open state is set; the form is kept |
| `Portal.ResidentPortal.SelectType` | src/pages/ResidentPortal.tsx:171 | the selector sets the certificate type only |
| `Portal.ResidentPortal.SetPurpose` | src/pages/ResidentPortal.tsx:187 | the text area sets the purpose only |
| `Portal.ResidentPortal.ChooseFile` | src/pages/ResidentPortal.tsx:53-56 | choosing a file records it; the other fields are kept |
| `Portal.ResidentPortal.RemoveFile` | src/pages/ResidentPortal.tsx:63-66 | the file and its preview are both cleared |
| `Portal.ResidentPortal.HandleSubmitRequest` | src/pages/ResidentPortal.tsx:68-86 | with no type selected nothing changes; otherwise the submitted Pending request is appended to the store's requests and its notice is put first in the notifications, the form is cleared and the modal closed |
| `Portal.SubmissionEndsMyRequests` | src/pages/ResidentPortal.tsx:46-79 | a submitted request becomes the last of the resident's own requests, and the earlier ones are kept in order |
| `Topbar.UnreadCount` | src/components/Topbar.tsx:18 | the number of unread notifications |
| `Topbar.BadgeShown` | src/components/Topbar.tsx:43 | the badge is shown exactly when some notification is unread |
| `Topbar.NoBadgeAfterMarkAll` | src/context/DataContext.tsx:185-187 | after "mark all as read" the badge is hidden |
| `Topbar.UserName` | src/components/Topbar.tsx:19-23 | an official is shown by name, a resident as "first last", and "User" when nobody is logged in |
| `Topbar.LoggedInResidentName` | src/components/Topbar.tsx:19-23 | after a resident login the top bar shows the first and last name of a matching Active resident |
| `Topbar.TopbarNameDiffersFromPortalName` | src/components/Topbar.tsx:19-23 | the top bar shows a resident as "first last", which never equals the portal's display name for trimmed names |
| `RequestsView.FilteredRequests` | src/pages/RequestsPage.tsx:21-25 | a request is listed exactly when its lower-cased resident name or type includes the lower-cased term; every occurrence is kept, in order |
| `RequestsView.EmptySearchKeepsAll` | src/pages/RequestsPage.tsx:21-25 | an empty term keeps every request |
| `RequestsView.ShowsNoRequestsRow` | src/pages/RequestsPage.tsx:142-146 | "No requests found." appears exactly when no request matches |
| `RequestsView.RequestLabel` | src/pages/RequestsPage.tsx:59 | the label is "REQ-" followed by the upper-cased first six characters of the id (fewer for a shorter id) |
| `RequestsView.StatusBadge` | src/pages/RequestsPage.tsx:27-34 | a known status gets its style; any other string gets the empty string |
| `RequestsView.RowAction` | src/pages/RequestsPage.tsx:128-137 | row buttons issue a call only for a Pending request, and the call is a legal lifecycle step to Approved or Denied |
| `RequestsView.RequestsPage.constructor` | src/pages/RequestsPage.tsx:18-19 | empty search term and no selection |
| `RequestsView.RequestsPage.SetSearch` | src/components/Topbar.tsx:34 | the search input's raw value becomes the search term |
| `RequestsView.RequestsPage.Select` | src/pages/RequestsPage.tsx:68 | the view button selects that request |
| `RequestsView.RequestsPage.DialogDecide` | src/pages/RequestsPage.tsx:102-122 | only for a Pending selection: the call is issued and the local copy's status becomes Approved or Denied, with its other fields unchanged |
| `RequestsView.DialogDecisionIsTerminal` | src/pages/RequestsPage.tsx:102-118 | a dialog decision is a legal step, after which no approve or deny action is offered |
| `ResidentsView.FilteredResidents` | src/pages/ResidentsPage.tsx:28-32 | a profile is listed exactly when its lower-cased first or last name includes the lower-cased term; every occurrence is kept, in order |
| `ResidentsView.ShowingCounts` | src/pages/ResidentsPage.tsx:122 | "Showing X of Y": X counts the matching profiles, Y all of them, and X ≤ Y |
| `ResidentsView.ShowsNoResidentsRow` | src/pages/ResidentsPage.tsx:114-118 | "No residents found." appears exactly when no profile matches |
| `ResidentsView.ApproveAction` | src/pages/ResidentsPage.tsx:99-103 | the approve button exists exactly for the status Pending Approval and targets the profile's user id |
| `ResidentsView.FormFor` | src/pages/ResidentsPage.tsx:34-44 | the edit form copies the names; a missing middle name, address or contact becomes "" |
| `ResidentsView.UpdateFrom` | src/pages/ResidentsPage.tsx:49-56 | names are copied verbatim; a non-empty middle name, address or contact is sent as typed and an empty one as null; an age is sent exactly when present and non-zero, and then as typed |
| `ResidentsView.EditRoundTrip` | src/pages/ResidentsPage.tsx:34-56 | opening the form and saving it unchanged writes back exactly a normalized profile's fields |
| `ResidentsView.ResidentsPage.constructor` | src/pages/ResidentsPage.tsx:20-26 | empty search term, nobody being edited, empty form |
| `ResidentsView.ResidentsPage.OpenEditModal` | src/pages/ResidentsPage.tsx:34-44 | the form is filled from the profile, which becomes the one being edited |
| `ResidentsView.ResidentsPage.SetSearch` | src/pages/ResidentsPage.tsx:62 | the search input's raw value becomes the search term |
| `ResidentsView.ResidentsPage.SetForm` | src/pages/ResidentsPage.tsx:133-141 | the inputs set the form only |
| `ResidentsView.ResidentsPage.HandleEditResident` | src/pages/ResidentsPage.tsx:46-58 | does nothing when nobody is being edited; otherwise issues the update for that user and ends editing |
| `Reports.ApprovedRequests` | src/pages/ReportsPage.tsx:34 | exactly the Approved requests, every occurrence, in order |
| `Reports.TotalHouseholds` | src/pages/ReportsPage.tsx:35 | `Math.ceil(n / 2)`: the least h with 2h ≥ n |
| `Reports.Summary` | src/pages/ReportsPage.tsx:34-37 | requests YTD counts the Approved requests, total residents counts the Active ones, and households ≤ residents |
| `Reports.LogDate` | src/pages/ReportsPage.tsx:212-215 | a log row shows the processing date when there is one, and the request date otherwise |
| `Reports.LogDateIsProcessingDate` | src/pages/ReportsPage.tsx:212-215 | when processing dates follow the status, every logged row shows its processing date |
| `Reports.ShowsNoCertificatesRow` | src/pages/ReportsPage.tsx:222-228 | "No certificates issued yet." appears exactly when no request is Approved |

## Left out

- Rendering: the JSX markup, UI components, icons, charts and date formatting. The hard-coded chart data of the reports page is also left out.
- Routing and layout (`App.tsx`, `Sidebar.tsx`, `DashboardLayout.tsx`) and the dashboard page. The dashboard repeats the store counts, and its "Issued Today" figure compares against the wall clock.
- Id and time generation (`Date.now()`, `new Date()`): these are parameters. The source does not make ids unique, and neither does the model.
- `parseInt`: ages are already-parsed optional integers (None for NaN). The rules by which `parseInt` reads a prefix of the text are not modelled.
- The `FileReader` preview of a chosen file: `ChooseFile` records the file, and the preview the reader fills in later is not modelled. The two-second timer after sign-up is modelled only as the callback it runs (`SignupDelayElapsed`).
- The `useData`/`useAuth` hooks that throw outside their providers, and React's deferred, batched state updates: the model applies each update at once.
- The store that `RequestsPage` and `ResidentsPage` are written against (`DBRequest`, `DBProfile`, `updateProfile`, and the asynchronous `updateRequestStatus`/`approveResident`) is not part of this model. Its calls are returned as values and not executed.
- The residents page's delete button, which calls `deleteResident(user_id)` of that store for every row with no condition of its own.
- The backend-integrated revision: session restore, auth-state listeners, realtime refresh, status history and signing out after sign-up.
- Text.Lower: models `toLowerCase` on ASCII letters only; JavaScript maps every Unicode letter, and this model does not.
- Text.Upper: models `toUpperCase` on ASCII letters only, for the same reason.
- DataStore.ResidentPatch: a `Partial<Resident>` whose field is explicitly `undefined` erases that field in the source; the model only supplies or omits fields.
- Text.Take: counts characters, while JavaScript's `slice` counts UTF-16 units. The two agree on the ids it is applied to, which are made of ASCII digits and letters.
- Portal.ResidentPortal: modelled only for a logged-in resident, passed to its constructor. The source routes `/portal` with no guard and casts `currentUser` to a resident without checking it (src/pages/ResidentPortal.tsx:44). With nobody logged in, reading the name throws. With an official logged in, the page lists and files requests under the official's id, which may also be a resident's id.
- Passwords are stored and compared as plain strings; only equality is modelled.
