/** End-to-end runs on a small store: a complaint that a warden moves to
    In-Progress, a leave that a warden rejects, and a student's session seen
    through the route guards. */
module Scenarios {
  import opened Wrappers
  import opened Documents
  import opened Store
  import CM = ComplaintModel
  import LM = LeaveModel
  import ComplaintController
  import LeaveController
  import NotificationController
  import Notify
  import opened AuthSlice
  import opened Routes

  /** A newest-first listing drawn from `[d]` that holds `d` is `[d]`. */
  lemma SingleEntry<F>(r: seq<Doc<F>>, d: Doc<F>)
    requires forall k :: 0 <= k < |r| ==> r[k] in [d]
    requires d in r && Descending(r)
    ensures r == [d]
  {
    forall x ensures x in r <==> x in [d] {
      if x in r {
        var k :| 0 <= k < |r| && r[k] == x;
      }
    }
    DescendingUnique(r, [d]);
  }

  lemma OnlyMyComplaint(db: Database, d: Doc<CM.ComplaintFields>)
    requires db.Valid() && db.complaints == [d]
    ensures ComplaintController.GetMyComplaints(db, d.fields.user) == [d]
  {
    SingleEntry(ComplaintController.GetMyComplaints(db, d.fields.user), d);
  }

  lemma OnlyComplaint(db: Database, d: Doc<CM.ComplaintFields>)
    requires db.Valid() && db.complaints == [d]
    ensures
      var all := ComplaintController.GetAllComplaints(db);
      |all| == 1 && all[0] == Populated(d, OwnerOf(db.users, d.fields.user))
  {
    var all := ComplaintController.GetAllComplaints(db);
    assert all[0].doc in [d];
  }

  lemma OnlyMyNotification(db: Database, n: Doc<NotificationFields>)
    requires db.Valid() && db.notifications == [n]
    ensures NotificationController.GetMyNotifications(db, n.fields.user) == [n]
  {
    SingleEntry(NotificationController.GetMyNotifications(db, n.fields.user), n);
  }

  lemma OwnerOfFirst(users: seq<Doc<Account>>)
    requires |users| > 0
    ensures OwnerOf(users, users[0].id) == Some(Contact(users[0].fields.name, users[0].fields.email))
  {
    assert FindById(users, users[0].id) == 0;
  }

  /** Student 0 files the water complaint into an empty complaint table. */
  method FileWaterComplaint(db: Database) returns (d: Doc<CM.ComplaintFields>)
    requires db.Valid() && db.complaints == []
    modifies db
    ensures db.Valid() && db.complaints == [d]
    ensures d.fields == CM.ComplaintFields(0, "Water", "Leaking tap", "B-204", CM.Pending)
    ensures db.users == old(db.users) && db.notifications == old(db.notifications)
  {
    var created := ComplaintController.CreateComplaint(db, 0, Some("Water"), Some("Leaking tap"), Some("B-204"));
    d := created.body;
  }

  /** The warden's status update on the only complaint. */
  method MoveToInProgress(db: Database, d: Doc<CM.ComplaintFields>) returns (e: Doc<CM.ComplaintFields>)
    requires db.Valid() && db.complaints == [d] && d.fields.status == CM.Pending
    modifies db
    ensures db.Valid() && db.complaints == [e] && e.fields == d.fields.(status := CM.InProgress)
    ensures db.users == old(db.users) && db.notifications == old(db.notifications)
  {
    assert FindById(db.complaints, d.id) == 0;
    assert CM.ParseStatus("In-Progress") == Some(CM.InProgress);
    assert d.fields.(status := CM.InProgress) != d.fields;
    var updated := ComplaintController.UpdateComplaintStatus(db, d.id, "In-Progress");
    e := updated.body;
  }

  /** Student A (user 0) files a complaint; its owner's listing shows it Pending.
      The warden sets it to In-Progress: the warden's listing shows the update with
      A's contact, A's listing shows In-Progress too, and no notification exists. */
  method ComplaintInProgress() returns (before: seq<Doc<CM.ComplaintFields>>, after: seq<Doc<CM.ComplaintFields>>,
                                        all: seq<Populated<CM.ComplaintFields>>, notified: nat)
    ensures |before| == 1 && before[0].fields == CM.ComplaintFields(0, "Water", "Leaking tap", "B-204", CM.Pending)
    ensures |after| == 1 && after[0].fields == before[0].fields.(status := CM.InProgress)
    ensures |all| == 1 && all[0].doc == after[0] && all[0].owner == Some(Contact("A", "a@hostel"))
    ensures notified == 0
  {
    var db := new Database([Account("A", "a@hostel", Student), Account("W", "w@hostel", Warden)]);
    var d := FileWaterComplaint(db);
    OnlyMyComplaint(db, d);
    before := ComplaintController.GetMyComplaints(db, 0);
    assert before == [d];
    var e := MoveToInProgress(db, d);
    OnlyMyComplaint(db, e);
    after := ComplaintController.GetMyComplaints(db, 0);
    assert after == [e];
    OnlyComplaint(db, e);
    all := ComplaintController.GetAllComplaints(db);
    assert db.users[0] == Inserted(Account("A", "a@hostel", Student), 0);
    OwnerOfFirst(db.users);
    assert all[0] == Populated(e, Some(Contact("A", "a@hostel")));
    notified := |db.notifications|;
  }

  /** Student 0 applies for leave from 2025-03-01 to 2025-03-05 (days since
      1970-01-01) into an empty leave table. */
  method ApplyFamilyLeave(db: Database) returns (d: Doc<LM.LeaveFields>)
    requires db.Valid() && db.leaves == [] && db.notifications == []
    modifies db
    ensures db.Valid() && db.leaves == [d] && db.notifications == []
    ensures d.fields == LM.LeaveFields(0, 20148, 20152, "family event", "Home", LM.Pending, "")
  {
    assert LM.NewLeave(0, Some(20148), Some(20152), Some("family event"), Some("Home"))
      == Success(LM.LeaveFields(0, 20148, 20152, "family event", "Home", LM.Pending, ""));
    var applied := LeaveController.ApplyLeave(db, 0, Some(20148), Some(20152), Some("family event"), Some("Home"));
    d := applied.body;
  }

  /** The warden's rejection of the only leave, with a comment. */
  method RejectWithComment(db: Database, d: Doc<LM.LeaveFields>) returns (leave: Doc<LM.LeaveFields>)
    requires db.Valid() && db.leaves == [d] && db.notifications == [] && d.fields.status == LM.Pending
    modifies db
    ensures db.Valid() && leave.fields == d.fields.(status := LM.Rejected, wardenComment := "Insufficient notice")
    ensures db.notifications
      == [Notify.Notification(d.fields.user, "Leave Status Updated", "Your leave request has been Rejected.", old(db.clock) + 1)]
  {
    assert FindById(db.leaves, d.id) == 0;
    assert LM.ParseStatus("Rejected") == Some(LM.Rejected);
    assert LeaveController.CommentOrEmpty(Some("Insufficient notice")) == "Insufficient notice";
    assert d.fields.(status := LM.Rejected, wardenComment := "Insufficient notice") != d.fields;
    assert LeaveController.LeaveUpdatedMessage("Rejected") == "Your leave request has been Rejected.";
    var r := LeaveController.UpdateLeaveStatus(db, d.id, "Rejected", Some("Insufficient notice"), false);
    leave := r.body;
  }

  /** Student B (user 0) applies for leave; the warden rejects it with a comment.
      B's feed then holds one unread notification with the templated title and
      message. */
  method LeaveRejected() returns (leave: Doc<LM.LeaveFields>, feed: seq<Doc<NotificationFields>>)
    ensures leave.fields.status == LM.Rejected && leave.fields.wardenComment == "Insufficient notice"
    ensures |feed| == 1
    ensures feed[0].fields == NotificationFields(0, "Leave Status Updated", "Your leave request has been Rejected.", false)
  {
    var db := new Database([Account("B", "b@hostel", Student), Account("W", "w@hostel", Warden)]);
    var d := ApplyFamilyLeave(db);
    leave := RejectWithComment(db, d);
    var n := db.notifications[0];
    OnlyMyNotification(db, n);
    feed := NotificationController.GetMyNotifications(db, 0);
  }

  /** A student signs in: the student dashboard shows the spinner while the login
      is pending and then renders, the warden dashboard sends the student back to
      "/", and after logout the student dashboard redirects to "/" remembering
      where the student was. */
  method StudentSession() returns (pending: Outcome, own: Outcome, other: Outcome, signedOut: Outcome)
    ensures pending == Spinner
    ensures own == Children
    ensures other == Redirect("/", None, true)
    ensures signedOut == Redirect("/", Some("/student/dashboard"), true)
  {
    var auth := new AuthState(None, None);
    auth.LoginPending();
    pending := GuardedPage(auth.View(), "student", "/student/dashboard");
    auth.LoginFulfilled(LoginPayload(SessionUser(0, "B", "b@hostel", "student"), "token"));
    own := GuardedPage(auth.View(), "student", "/student/dashboard");
    other := GuardedPage(auth.View(), "warden", "/warden/dashboard");
    auth.Logout();
    signedOut := GuardedPage(auth.View(), "student", "/student/dashboard");
  }
}
