# Hostel management: a verified model of the request handlers and client state

The system is a hostel management web application. Students file maintenance
complaints and apply for leave. A warden updates the status of both, sees a
dashboard of counts and recent activity, and broadcasts notices. Students
receive notifications.

This project models three parts of it in Dafny:

- **Server.** The record store behind the request handlers has four tables:
  users, complaints, leaves and notifications. The model covers the complaint
  and leave schemas with their defaults and enums, the notification dispatcher,
  and the four groups of handlers: complaint, leave, notification and warden
  dashboard.
- **Client.** The six reducer slices (complaint, leave, notification, auth,
  warden, student), each as a class whose methods are the reducer cases.
- **Pure client rules.** The two route guards and the avatar-initials helper.

How the model is built:

- **Documents.** Every stored record is a `Documents.Doc`. It holds an
  identifier, `createdAt`, `updatedAt` and the schema's fields.
- **Clock.** One store clock hands out identifiers and timestamps. Insertion
  order is therefore creation order, and "sorted by `createdAt` descending" is
  the reverse of the table filtered by the query.
- **Table invariant.** `Documents.Chronological` holds for every table.
  `Store.Database.Valid` states it, and every handler restores it.
- **Saving.** `save()` moves `updatedAt`, and the clock, only when some field
  changed. This is how mongoose treats an unmodified document.
- **Required strings.** For string paths, the schema's `required` check rejects
  a missing value and also the empty string.
- **Validation errors.** A failed validation is the 500 reply of the handler's
  `catch`. It is modelled as `ServerError` carrying the schema paths that
  failed, not mongoose's message text.
- **Failing notifications.** Whether an individual notification insert throws
  is a parameter: `fails` for one dispatch, and `failing`, a set of user ids,
  for a broadcast. Such an error is swallowed.
- **Session.** The caller's identity (`req.user.id`) is a parameter.

Mongoose's required validator for strings rejects `""`, so
`ComplaintModel.NewComplaint` and `LeaveModel.NewLeave` reject empty strings.
Only a missing date, or one that cannot be cast, fails the date paths.

## Model

| member | source | states |
|---|---|---|
| ComplaintModel.ParseStatus | backend/models/complaint.model.js:22-26 | A status string is accepted exactly when it is one of "Pending", "In-Progress" or "Resolved", and the accepted value prints back as the same string |
| ComplaintModel.StatusRoundTrip | backend/models/complaint.model.js:24 | Every enum member's string parses back to that member |
| ComplaintModel.MissingPaths | backend/models/complaint.model.js:10-21 | A path is reported exactly when its required string is missing or empty; the list is empty exactly when all three are present |
| ComplaintModel.NewComplaint | backend/models/complaint.model.js:3-29 | Creation succeeds exactly when category, description and roomNumber are all present; the new complaint is owned by the caller, carries the fields as given and has status Pending; otherwise the failure lists the missing paths, never empty |
| LeaveModel.ParseStatus | backend/models/leave.model.js:26-30 | A status string is accepted exactly when it is "Pending", "Approved" or "Rejected", and it prints back unchanged |
| LeaveModel.StatusRoundTrip | backend/models/leave.model.js:28 | Every enum member's string parses back to that member |
| LeaveModel.MissingPaths | backend/models/leave.model.js:10-25 | A path is reported exactly when its date is missing or its string is missing or empty; empty exactly when all four are present |
| LeaveModel.NewLeave | backend/models/leave.model.js:3-37 | Creation succeeds exactly when all four required paths are present; the new leave is owned by the caller, has the given dates, reason and address, status Pending and an empty warden comment; otherwise the failure lists the missing paths |
| LeaveModel.ReversedDatesAccepted | backend/models/leave.model.js:10-17 | A leave whose start date is after its end date is accepted like any other |
| Documents.FindById | backend/controllers/complaint.controller.js:49 | The lookup returns the first position holding the identifier, or -1 exactly when no document has it |
| Documents.FindByIdSameIds | frontend/src/features/notification/notificationSlice.js:94-96 | The lookup depends only on the identifiers, so updating a document's other fields leaves every later lookup unchanged |
| Documents.ReplaceFirst | frontend/src/features/complaint/complaintSlice.js:116-121 | Same length; the first document with the payload's identifier becomes the payload, and every other position is unchanged |
| Documents.NewestFirst | backend/controllers/complaint.controller.js:25-27 | The listing holds exactly the table's documents that pass the filter, and all of them when every document passes |
| Documents.Count | backend/controllers/warden.controller.js:8-10 | A `countDocuments` count never exceeds the table size |
| Documents.CountIsListingLength | backend/controllers/warden.controller.js:8-10 | A count under a filter equals the length of the newest-first listing under the same filter, so a warden's status count matches the status-filtered list |
| Documents.CountUpdate | frontend/src/features/notification/notificationSlice.js:102 | Replacing one document changes a count by exactly the difference of the old and new documents' filter outcomes, which is how the unread count follows a notification marked read |
| Documents.NewestFirstDescending | backend/controllers/complaint.controller.js:25-27 | Over a table in insertion order, the listing's creation times strictly decrease |
| Documents.DescendingUnique | backend/controllers/complaint.controller.js:36-38 | Two newest-first lists holding the same documents are equal, so membership and order determine a listing; the scenarios use it to pin their one-entry listings |
| Documents.LatestIsLatest | backend/controllers/warden.controller.js:39-42 | The top-n view has min(n, table size) documents, all from the table, newest first, and no omitted document is newer than a shown one |
| Store.OwnerOf | backend/controllers/complaint.controller.js:37 | The populated owner is the name and email of a user with the referenced identifier, and is absent exactly when no user has it |
| Store.Populate | backend/controllers/leave.controller.js:36-38 | The join adds owners and loses nothing: taking the documents back out of the joined listing gives the listing it was built from, in the same order, and each owner is the `OwnerOf` lookup of that document's user |
| Notify.SendNotification | backend/utils/sendNotification.js:3-13 | On success, exactly one unread notification with the given user, title and message is appended; on failure nothing changes and the call still returns normally; the other tables never change |
| ComplaintController.CreateComplaint | backend/controllers/complaint.controller.js:3-21 | On valid input, one Pending complaint owned by the caller is appended and returned with 201 and "Complaint submitted successfully"; on invalid input, a 500 naming the missing paths and no change; no other table changes |
| ComplaintController.GetMyComplaints | backend/controllers/complaint.controller.js:23-32 | Exactly the caller's complaints, newest first |
| ComplaintController.GetAllComplaints | backend/controllers/complaint.controller.js:34-43 | Every complaint once, newest first, each with its owner's name and email |
| ComplaintController.UpdateComplaintStatus | backend/controllers/complaint.controller.js:45-64 | 404 "Complaint not found" exactly when the identifier is absent; 500 exactly when it is present and the status is outside the enum; both leave the store unchanged. Otherwise only that complaint's status is overwritten, from any status to any other, and saved; the reply is 200 "Status updated successfully" with the saved complaint, and no notification is created |
| LeaveController.ApplyLeave | backend/controllers/leave.controller.js:4-23 | On valid input, one Pending leave owned by the caller is appended and returned with 201 and "Leave request submitted successfully"; otherwise a 500 naming the missing paths and no change |
| LeaveController.GetMyLeaves | backend/controllers/leave.controller.js:25-32 | Exactly the caller's leaves, newest first |
| LeaveController.GetAllLeaves | backend/controllers/leave.controller.js:34-44 | Every leave once, newest first, with its owner's name and email |
| LeaveController.UpdateLeaveStatus | backend/controllers/leave.controller.js:46-71 | 404 "Leave request not found" when absent, and 500 when the status is outside the enum (the save fails); both change nothing and notify nobody. Otherwise the status and the comment (the given one when present and non-empty, "" otherwise) are overwritten and saved, then exactly one notification "Leave Status Updated" / "Your leave request has been {status}." goes to the leave's owner. A failed dispatch adds nothing but neither undoes the update nor changes the 200 "Leave status updated successfully" reply |
| NotificationController.GetMyNotifications | backend/controllers/notification.controller.js:5-14 | Exactly the caller's notifications, newest first |
| NotificationController.MarkAsRead | backend/controllers/notification.controller.js:16-28 | 404 "Notification not found" with no change exactly when absent; otherwise only that notification's `read` becomes true, every other field and record unchanged, reply 200 "Marked as read" |
| NotificationController.MarkAsReadIdempotent | backend/controllers/notification.controller.js:18-24 | A second mark finds the same notification and changes neither it nor the clock |
| NotificationController.Students | backend/controllers/notification.controller.js:34 | The enumeration holds exactly the student users of the table: each element is a student from the table, and every student of the table is in it |
| NotificationController.StudentsInTableOrder | backend/controllers/notification.controller.js:34 | Any two enumerated students occur in the user table in the order they are enumerated |
| NotificationController.Recipients | backend/controllers/notification.controller.js:36-38 | Every dispatched identifier belongs to an enumerated student and is not one whose dispatch fails, and every enumerated student whose dispatch does not fail is dispatched; never more dispatches than students, and one per student when nothing fails |
| NotificationController.Deliveries | backend/controllers/notification.controller.js:37 | The users of the inserted notifications are exactly the recipients, in order; every one is unread and carries the broadcast's title and message; their creation stamps strictly increase |
| NotificationController.WardenBroadcast | backend/controllers/notification.controller.js:30-44 | The reply is always 200 "Broadcast sent successfully", whatever failed and however many students there are; the notification table gains exactly one notification per student whose dispatch succeeded, in enumeration order, with the same title and message; the other tables are unchanged |
| NotificationController.SendToStudent | backend/controllers/notification.controller.js:37 | One loop iteration extends the sent notifications by one exactly when that student's dispatch succeeds |
| NotificationController.BroadcastOnePerStudent | backend/controllers/notification.controller.js:34-38 | Each student whose dispatch succeeds appears exactly once among the broadcast's recipients, and every other user, including a warden, not at all |
| NotificationController.BroadcastNotifiesOnce | backend/controllers/notification.controller.js:34-38 | Among the notifications a broadcast appends to the table, a student whose dispatch succeeds is the user of exactly one, and every other user, including a warden, of none |
| WardenController.ComplaintCountsPartition | backend/controllers/warden.controller.js:7-10 | The Pending, In-Progress and Resolved counts add up to the number of complaints |
| WardenController.LeaveCountsPartition | backend/controllers/warden.controller.js:13-16 | The Pending, Approved and Rejected counts add up to the number of leaves |
| WardenController.GetDashboardSummary | backend/controllers/warden.controller.js:4-35 | The totals are the table sizes, each of the eight figures counts its status, each total is the sum of its three status counts, and the store is only read |
| WardenController.GetRecentActivity | backend/controllers/warden.controller.js:37-56 | At most five complaints and five leaves (fewer only when a table is smaller), each newest first, all from the store, with no omitted one newer than a shown one, and each with its owner's contact |
| ComplaintSlice.ComplaintState.constructor | frontend/src/features/complaint/complaintSlice.js:76-80 | Empty list, not loading, no error |
| ComplaintSlice.ComplaintState.FetchMyPending | frontend/src/features/complaint/complaintSlice.js:87-89 | Only `loading` becomes true |
| ComplaintSlice.ComplaintState.FetchMyFulfilled | frontend/src/features/complaint/complaintSlice.js:90-93 | The list becomes the payload and `loading` false; the error is kept |
| ComplaintSlice.ComplaintState.FetchMyRejected | frontend/src/features/complaint/complaintSlice.js:94-97 | `loading` false, the error is the payload, the list is kept |
| ComplaintSlice.ComplaintState.CreateFulfilled | frontend/src/features/complaint/complaintSlice.js:102-104 | The complaint is prepended: the length grows by one and every old element moves one place back |
| ComplaintSlice.ComplaintState.FetchAllFulfilled | frontend/src/features/complaint/complaintSlice.js:109-111 | The list becomes the payload; `loading` and the error are untouched |
| ComplaintSlice.ComplaintState.UpdateStatusFulfilled | frontend/src/features/complaint/complaintSlice.js:116-121 | The first complaint with the payload's identifier is replaced by the payload, and nothing changes when there is none |
| LeaveSlice.LeaveState.constructor | frontend/src/features/leave/leaveSlice.js:74-78 | Empty list, not loading, no error |
| LeaveSlice.LeaveState.FetchMyPending | frontend/src/features/leave/leaveSlice.js:85-87 | Only `loading` becomes true |
| LeaveSlice.LeaveState.FetchMyFulfilled | frontend/src/features/leave/leaveSlice.js:88-91 | The list becomes the payload and `loading` false |
| LeaveSlice.LeaveState.FetchMyRejected | frontend/src/features/leave/leaveSlice.js:92-95 | `loading` false, the error is the payload, the list is kept |
| LeaveSlice.LeaveState.ApplyFulfilled | frontend/src/features/leave/leaveSlice.js:100-102 | The leave is prepended: the length grows by one and old elements move one place back |
| LeaveSlice.LeaveState.FetchAllFulfilled | frontend/src/features/leave/leaveSlice.js:107-109 | The list becomes the payload; `loading` untouched |
| LeaveSlice.LeaveState.UpdateStatusFulfilled | frontend/src/features/leave/leaveSlice.js:114-119 | The first leave with the payload's identifier is replaced, and nothing changes when there is none |
| NotificationSlice.MarkFirstRead | frontend/src/features/notification/notificationSlice.js:94-100 | Only the first notification with the identifier gets `read` true; its other fields and all other notifications are unchanged |
| NotificationSlice.MarkFirstReadUnread | frontend/src/features/notification/notificationSlice.js:93-103 | Marking read lowers the unread count by one exactly when the notification existed and was unread, and never raises it |
| NotificationSlice.MarkFirstReadIdempotent | frontend/src/features/notification/notificationSlice.js:93-103 | Marking the same identifier twice is marking it once |
| NotificationSlice.NotificationState.constructor | frontend/src/features/notification/notificationSlice.js:58-64 | Empty feed, zero unread, not loading, no error, no broadcast success; the count invariant holds |
| NotificationSlice.NotificationState.ResetBroadcastSuccess | frontend/src/features/notification/notificationSlice.js:66-68 | Only `broadcastSuccess` becomes false |
| NotificationSlice.NotificationState.FetchPending | frontend/src/features/notification/notificationSlice.js:76-78 | Only `loading` becomes true |
| NotificationSlice.NotificationState.FetchFulfilled | frontend/src/features/notification/notificationSlice.js:79-84 | The feed becomes the payload and the count its unread count, establishing the invariant |
| NotificationSlice.NotificationState.FetchRejected | frontend/src/features/notification/notificationSlice.js:85-88 | `loading` false and the error recorded; feed and count kept |
| NotificationSlice.NotificationState.MarkReadFulfilled | frontend/src/features/notification/notificationSlice.js:93-103 | The feed is marked as by `MarkFirstRead`, the invariant holds afterwards, and from a valid state the count never rises |
| NotificationSlice.NotificationState.BroadcastPending | frontend/src/features/notification/notificationSlice.js:108-111 | `loading` true and `broadcastSuccess` false |
| NotificationSlice.NotificationState.BroadcastFulfilled | frontend/src/features/notification/notificationSlice.js:112-115 | `loading` false and `broadcastSuccess` true |
| NotificationSlice.NotificationState.BroadcastRejected | frontend/src/features/notification/notificationSlice.js:116-120 | `loading` false, `broadcastSuccess` false, the error is the payload |
| AuthSlice.AuthState.constructor | frontend/src/features/auth/authSlice.js:12-17 | The stored user and token, not loading, no error |
| AuthSlice.AuthState.Logout | frontend/src/features/auth/authSlice.js:20-25 | User and token cleared; `loading` and the error untouched |
| AuthSlice.AuthState.LoginPending | frontend/src/features/auth/authSlice.js:34-37 | `loading` true and the error cleared; the session kept |
| AuthSlice.AuthState.LoginFulfilled | frontend/src/features/auth/authSlice.js:38-42 | `loading` false, user and token from the payload |
| AuthSlice.AuthState.LoginRejected | frontend/src/features/auth/authSlice.js:47-50 | `loading` false, the error is the payload, user and token kept |
| AuthSlice.AuthState.RegisterPending | frontend/src/features/auth/authSlice.js:55-58 | `loading` true and the error cleared |
| AuthSlice.AuthState.RegisterFulfilled | frontend/src/features/auth/authSlice.js:59-61 | Only `loading` is cleared; registering never signs anyone in |
| AuthSlice.AuthState.RegisterRejected | frontend/src/features/auth/authSlice.js:62-65 | `loading` false and the error is the payload |
| WardenSlice.WardenState.constructor | frontend/src/features/warden/wardenSlice.js:30-35 | No summary, no recent activity, not loading, no error |
| WardenSlice.WardenState.SummaryPending | frontend/src/features/warden/wardenSlice.js:39-41 | Only the shared `loading` becomes true |
| WardenSlice.WardenState.SummaryFulfilled | frontend/src/features/warden/wardenSlice.js:42-45 | The summary from the payload, `loading` false, the recent activity kept |
| WardenSlice.WardenState.SummaryRejected | frontend/src/features/warden/wardenSlice.js:46-49 | `loading` false and the error is the payload |
| WardenSlice.WardenState.RecentPending | frontend/src/features/warden/wardenSlice.js:51-53 | Only the shared `loading` becomes true |
| WardenSlice.WardenState.RecentFulfilled | frontend/src/features/warden/wardenSlice.js:54-57 | The recent activity from the payload, `loading` false, the summary kept |
| WardenSlice.WardenState.RecentRejected | frontend/src/features/warden/wardenSlice.js:58-61 | `loading` false and the error is the payload |
| WardenSlice.SharedLoadingFlag | frontend/src/features/warden/wardenSlice.js:39-57 | After summary-pending, recent-pending, summary-fulfilled, `loading` is false while the recent activity is still missing |
| StudentSlice.StudentState.constructor | frontend/src/features/student/studentSlice.js:18-22 | No summary, not loading, no error |
| StudentSlice.StudentState.SummaryPending | frontend/src/features/student/studentSlice.js:26-28 | Only `loading` becomes true |
| StudentSlice.StudentState.SummaryFulfilled | frontend/src/features/student/studentSlice.js:29-34 | The summary is the payload and `loading` false; the error is kept |
| StudentSlice.StudentState.SummaryRejected | frontend/src/features/student/studentSlice.js:35-38 | `loading` false, the error is the payload, the summary kept |
| StudentSlice.ErrorSticks | frontend/src/features/student/studentSlice.js:24-39 | No case clears the error: after a failed load and then a successful one, the error is still shown beside the new summary |
| Routes.ProtectedRoute | frontend/src/components/ProtectedRoute.jsx:4-27 | While loading, the spinner whatever the token; when loaded without a token, a replacing redirect to "/" carrying the current location; otherwise the page |
| Routes.ProtectedRouteIgnoresUser | frontend/src/components/ProtectedRoute.jsx:5 | The decision depends only on `loading` and the token, never on the user or the error |
| Routes.RoleRoute | frontend/src/components/RoleRoute.jsx:4-8 | The page exactly when there is a user whose role equals the required role; otherwise a replacing redirect to "/" (a null user included) |
| Routes.RoleRouteIgnoresToken | frontend/src/components/RoleRoute.jsx:5 | The decision depends only on the user, never on the token |
| Routes.GuardedPageRenders | frontend/src/App.jsx:51-60 | A role page renders exactly when the session is loaded, has a token and has a user of that role; a token without a user is sent to "/" |
| StudentProfile.Split | frontend/src/pages/StudentProfile.jsx:10 | Splitting gives at least one piece and no piece contains a space |
| StudentProfile.JoinSplit | frontend/src/pages/StudentProfile.jsx:10 | Joining the pieces with single spaces gives the name back |
| StudentProfile.Heads | frontend/src/pages/StudentProfile.jsx:11-12 | At most one character per piece |
| StudentProfile.WordStarts | frontend/src/pages/StudentProfile.jsx:9-12 | At most one character per character of the name |
| StudentProfile.HeadsAreWordStarts | frontend/src/pages/StudentProfile.jsx:10-12 | The first characters of the pieces are exactly the characters that start a word: a non-space at the start or right after a space, so empty pieces contribute nothing |
| StudentProfile.Upper | frontend/src/pages/StudentProfile.jsx:13 | Same length and no lower-case letter left; a character changes exactly when it was a lower-case letter |
| StudentProfile.UpperIdempotent | frontend/src/pages/StudentProfile.jsx:13 | Upper-casing twice is upper-casing once |
| StudentProfile.Initials | frontend/src/pages/StudentProfile.jsx:7-15 | A missing or empty name gives "U"; otherwise the upper-cased word-start characters cut to two; never longer than two |
| StudentProfile.OneWordInitial | frontend/src/pages/StudentProfile.jsx:9-14 | A one-word name gives its single upper-cased initial |
| StudentProfile.AllSpacesNoInitials | frontend/src/pages/StudentProfile.jsx:9-14 | A name made only of spaces gives "" |
| StudentProfile.TwoWordInitials | frontend/src/pages/StudentProfile.jsx:9-14 | Two words separated by any number of spaces give their two upper-cased initials, whatever follows |
| StudentProfile.Examples | frontend/src/pages/StudentProfile.jsx:7-15 | "John  Doe" gives "JD", "mary ann smith" gives "MA", and "" or no name gives "U" |
| Scenarios.ComplaintInProgress | backend/controllers/complaint.controller.js:3-64 | A filed complaint is listed once as Pending for its owner; after the warden sets In-Progress, both the owner's and the warden's listings show it In-Progress, the latter with the owner's contact, and no notification exists |
| Scenarios.LeaveRejected | backend/controllers/leave.controller.js:4-71 | An applied leave rejected with a comment carries status Rejected and that comment, and its owner's feed holds exactly one unread "Leave Status Updated" / "Your leave request has been Rejected." notification |
| Scenarios.StudentSession | frontend/src/App.jsx:51-60 | On the student dashboard a pending login shows the spinner and a completed student login renders the page; the warden dashboard sends that student to "/"; after logout the dashboard redirects to "/" carrying its own location |

## Left out

- HTTP plumbing is not part of this model: Express routing, the `protect` and `allowRoles` middleware, and the server bootstrap. The caller's identity is a parameter. Every handler is modelled as if its route is mounted. The broadcast route has no warden role check (backend/routes/notification.route.js:18), so any signed-in user may broadcast; the model accepts every caller of `WardenBroadcast` alike.
- Mongoose and MongoDB are replaced by in-memory sequences. A query is a filter over a table, `populate` is a join through `Store.OwnerOf`, and `createdAt` is the value of the store clock.
- Validation reports which paths failed, not mongoose's message text. A 500 reply's error text is therefore not modelled.
- The unique ObjectId cast is not modelled. A malformed identifier, which makes `findById` throw and the handler reply 500, cannot be written, because identifiers are natural numbers.
- ComplaintController.UpdateComplaintStatus: a status missing from the request body is not modelled; the `status` parameter is always a string.
- LeaveController.UpdateLeaveStatus: likewise, the requested status is always a string.
- Store outages other than validation failures are not modelled: a failed read, count or insert of a handler. The one exception is the notification insert, whose failure is an input because the code swallows it.
- The notification and user schemas are not part of this model. `read` defaulting to false and notifications carrying timestamps are assumptions.
- The notification schema's own validation is not modelled. An empty title or message in a broadcast is treated like any other dispatch that succeeds or fails as `failing` says.
- The async thunks, axios calls and API modules are out of scope; only the reducer transitions they trigger are modelled. A reducer payload is the value the thunk returns, for example the complaint inside the create reply.
- localStorage is not modelled. The stored user and token become the auth state constructor's parameters, and the writes on login and logout are left out.
- The warden and student dashboard payloads are opaque type parameters of their slices, because the client stores them as received.
- Populated owners in client lists are not modelled: the client slices hold the documents without the joined contacts.
- The IoT headcount and mess prediction controllers and pages are out of scope. They use randomness, the current date and floating point.
- JSX pages and components are markup and are out of scope, apart from the two guards and `getInitials`. This includes the status filters, the card buttons and the dashboard greeting.
- Concurrency is not modelled. Every request runs to completion before the next: the eight dashboard counts form one snapshot, and broadcast dispatches are sequential.
- StudentProfile.Upper: upper-casing covers the ASCII letters only; `toUpperCase` on other scripts is not modelled.
- StudentProfile.Initials: `substring(0, 2)` counts UTF-16 code units in the source; the model counts characters.
- LeaveModel.NewLeave: dates are whole day numbers. The time of day and the casting of date strings are not modelled. `None` stands for a missing date or one that cannot be cast.
