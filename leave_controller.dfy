/** The leave handlers: apply, the two listings, and the status update that also
    notifies the leave's owner. */
module LeaveController {
  import opened Wrappers
  import opened Documents
  import opened LeaveModel
  import opened Store
  import opened Notify

  const LeaveUpdatedTitle := "Leave Status Updated"

  /** The notification text for a status update, built from the requested status. */
  function LeaveUpdatedMessage(status: string): string {
    "Your leave request has been " + status + "."
  }

  /** The comment stored by `wardenComment || ""`: a missing or empty comment is "". */
  function CommentOrEmpty(comment: Option<string>): (r: string)
    ensures Truthy(comment) ==> r == comment.value
    ensures !Truthy(comment) ==> r == ""
  {
    if Truthy(comment) then comment.value else ""
  }

  /** POST: insert a Pending leave owned by the caller, reply 201 with it; a missing
      required field rejects the insert and the reply is 500. */
  method ApplyLeave(db: Database, caller: nat, fromDate: Option<Day>, toDate: Option<Day>, reason: Option<string>, destinationAddress: Option<string>)
    returns (r: Response<Doc<LeaveFields>>)
    requires db.Valid()
    modifies db
    ensures db.Valid()
    ensures db.users == old(db.users) && db.complaints == old(db.complaints) && db.notifications == old(db.notifications)
    ensures match NewLeave(caller, fromDate, toDate, reason, destinationAddress)
      case Failure(paths) =>
        r == ServerError(paths) && db.leaves == old(db.leaves) && db.clock == old(db.clock)
      case Success(fields) =>
        && r == Reply(201, "Leave request submitted successfully", Inserted(fields, old(db.clock)))
        && db.leaves == old(db.leaves) + [Inserted(fields, old(db.clock))]
        && db.clock == old(db.clock) + 1
  {
    match NewLeave(caller, fromDate, toDate, reason, destinationAddress)
    case Failure(paths) =>
      r := ServerError(paths);
    case Success(fields) =>
      var leave := Inserted(fields, db.clock);
      ChronologicalInsert(db.leaves, fields, db.clock);
      ChronologicalLater(db.users, db.clock, db.clock + 1);
      ChronologicalLater(db.complaints, db.clock, db.clock + 1);
      ChronologicalLater(db.notifications, db.clock, db.clock + 1);
      db.leaves := db.leaves + [leave];
      db.clock := db.clock + 1;
      r := Reply(201, "Leave request submitted successfully", leave);
  }

  /** GET my leaves: exactly the caller's leaves, newest first. */
  function GetMyLeaves(db: Database, caller: nat): (r: seq<Doc<LeaveFields>>)
    reads db
    requires db.Valid()
    ensures forall k :: 0 <= k < |r| ==> r[k] in db.leaves && r[k].fields.user == caller
    ensures forall d :: d in db.leaves && d.fields.user == caller ==> d in r
    ensures Descending(r)
  {
    var mine := (f: LeaveFields) => f.user == caller;
    NewestFirstDescending(db.leaves, mine, db.clock);
    NewestFirst(db.leaves, mine)
  }

  /** GET all leaves: every leave once, newest first, with its owner's name and email. */
  function GetAllLeaves(db: Database): (r: seq<Populated<LeaveFields>>)
    reads db
    requires db.Valid()
    ensures |r| == |db.leaves|
    ensures forall k :: 0 <= k < |r| ==> r[k].doc in db.leaves && r[k].owner == OwnerOf(db.users, r[k].doc.fields.user)
    ensures forall d :: d in db.leaves ==> d in Docs(r)
    ensures Descending(Docs(r))
  {
    var any := (f: LeaveFields) => true;
    NewestFirstDescending(db.leaves, any, db.clock);
    Populate(db.users, NewestFirst(db.leaves, any), (f: LeaveFields) => f.user)
  }

  /** PUT status: 404 when no leave has the identifier and 500 when the status is
      outside the enum, both leaving the store as it was and notifying nobody.
      Otherwise status and comment are overwritten whatever they were, the leave is
      saved, and then exactly one notification titled "Leave Status Updated" goes
      to the leave's owner unless that dispatch fails (`notifyFails`), which
      neither undoes the update nor changes the 200 reply. */
  method UpdateLeaveStatus(db: Database, id: nat, status: string, wardenComment: Option<string>, notifyFails: bool)
    returns (r: Response<Doc<LeaveFields>>)
    requires db.Valid()
    modifies db
    ensures db.Valid()
    ensures db.users == old(db.users) && db.complaints == old(db.complaints)
    ensures r.NotFound? <==> forall d :: d in old(db.leaves) ==> d.id != id
    ensures !r.Reply? ==>
      db.leaves == old(db.leaves) && db.notifications == old(db.notifications) && db.clock == old(db.clock)
    ensures r.NotFound? ==> r.message == "Leave request not found"
    ensures r.ServerError? <==> !r.NotFound? && ParseStatus(status).None?
    ensures r.ServerError? ==> r.invalid == ["status"]
    ensures r.Reply? ==>
      var i := FindById(old(db.leaves), id);
      var before := old(db.leaves)[i];
      var fields := before.fields.(status := ParseStatus(status).value, wardenComment := CommentOrEmpty(wardenComment));
      var saved := ClockAfterSave(before, fields, old(db.clock));
      && r == Reply(200, "Leave status updated successfully", Saved(before, fields, old(db.clock)))
      && db.leaves == old(db.leaves)[i := r.body]
      && (notifyFails ==> db.notifications == old(db.notifications) && db.clock == saved)
      && (!notifyFails ==>
            && db.notifications == old(db.notifications) + [Notification(before.fields.user, LeaveUpdatedTitle, LeaveUpdatedMessage(status), saved)]
            && db.clock == saved + 1)
  {
    var i := FindById(db.leaves, id);
    if i == -1 {
      return NotFound("Leave request not found");
    }
    var parsed := ParseStatus(status);
    if parsed.None? {
      return ServerError(["status"]);
    }
    var before := db.leaves[i];
    var fields := before.fields.(status := parsed.value, wardenComment := CommentOrEmpty(wardenComment));
    var after := Saved(before, fields, db.clock);
    var now := ClockAfterSave(before, fields, db.clock);
    ChronologicalSave(db.leaves, i, fields, db.clock);
    ChronologicalLater(db.users, db.clock, now);
    ChronologicalLater(db.complaints, db.clock, now);
    ChronologicalLater(db.notifications, db.clock, now);
    db.leaves := db.leaves[i := after];
    db.clock := now;
    SendNotification(db, after.fields.user, LeaveUpdatedTitle, LeaveUpdatedMessage(status), notifyFails);
    r := Reply(200, "Leave status updated successfully", after);
  }
}
