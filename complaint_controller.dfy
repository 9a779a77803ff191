/** The complaint handlers: create, the two listings, and the status update. */
module ComplaintController {
  import opened Wrappers
  import opened Documents
  import opened ComplaintModel
  import opened Store

  /** POST: insert a complaint owned by the caller, reply 201 with it; a missing
      required field rejects the insert and the reply is 500. */
  method CreateComplaint(db: Database, caller: nat, category: Option<string>, description: Option<string>, roomNumber: Option<string>)
    returns (r: Response<Doc<ComplaintFields>>)
    requires db.Valid()
    modifies db
    ensures db.Valid()
    ensures db.users == old(db.users) && db.leaves == old(db.leaves) && db.notifications == old(db.notifications)
    ensures match NewComplaint(caller, category, description, roomNumber)
      case Failure(paths) =>
        r == ServerError(paths) && db.complaints == old(db.complaints) && db.clock == old(db.clock)
      case Success(fields) =>
        && r == Reply(201, "Complaint submitted successfully", Inserted(fields, old(db.clock)))
        && db.complaints == old(db.complaints) + [Inserted(fields, old(db.clock))]
        && db.clock == old(db.clock) + 1
  {
    match NewComplaint(caller, category, description, roomNumber)
    case Failure(paths) =>
      r := ServerError(paths);
    case Success(fields) =>
      var complaint := Inserted(fields, db.clock);
      ChronologicalInsert(db.complaints, fields, db.clock);
      ChronologicalLater(db.users, db.clock, db.clock + 1);
      ChronologicalLater(db.leaves, db.clock, db.clock + 1);
      ChronologicalLater(db.notifications, db.clock, db.clock + 1);
      db.complaints := db.complaints + [complaint];
      db.clock := db.clock + 1;
      r := Reply(201, "Complaint submitted successfully", complaint);
  }

  /** GET my complaints: exactly the caller's complaints, newest first. */
  function GetMyComplaints(db: Database, caller: nat): (r: seq<Doc<ComplaintFields>>)
    reads db
    requires db.Valid()
    ensures forall k :: 0 <= k < |r| ==> r[k] in db.complaints && r[k].fields.user == caller
    ensures forall d :: d in db.complaints && d.fields.user == caller ==> d in r
    ensures Descending(r)
  {
    var mine := (f: ComplaintFields) => f.user == caller;
    NewestFirstDescending(db.complaints, mine, db.clock);
    NewestFirst(db.complaints, mine)
  }

  /** GET all complaints: every complaint once, newest first, each joined with
      its owner's name and email. */
  function GetAllComplaints(db: Database): (r: seq<Populated<ComplaintFields>>)
    reads db
    requires db.Valid()
    ensures |r| == |db.complaints|
    ensures forall k :: 0 <= k < |r| ==> r[k].doc in db.complaints && r[k].owner == OwnerOf(db.users, r[k].doc.fields.user)
    ensures forall d :: d in db.complaints ==> d in Docs(r)
    ensures Descending(Docs(r))
  {
    var any := (f: ComplaintFields) => true;
    NewestFirstDescending(db.complaints, any, db.clock);
    Populate(db.users, NewestFirst(db.complaints, any), (f: ComplaintFields) => f.user)
  }

  /** PUT status: 404 when no complaint has the identifier, 500 when the status is
      not one of the enum's strings; otherwise the status is overwritten whatever
      it was before, the complaint is saved and returned. Nothing else changes and
      no notification is sent. */
  method UpdateComplaintStatus(db: Database, id: nat, status: string) returns (r: Response<Doc<ComplaintFields>>)
    requires db.Valid()
    modifies db
    ensures db.Valid()
    ensures db.users == old(db.users) && db.leaves == old(db.leaves) && db.notifications == old(db.notifications)
    ensures r.NotFound? <==> forall d :: d in old(db.complaints) ==> d.id != id
    ensures !r.Reply? ==> db.complaints == old(db.complaints) && db.clock == old(db.clock)
    ensures r.NotFound? ==> r.message == "Complaint not found"
    ensures r.ServerError? <==> !r.NotFound? && ParseStatus(status).None?
    ensures r.ServerError? ==> r.invalid == ["status"]
    ensures r.Reply? ==>
      var i := FindById(old(db.complaints), id);
      var before := old(db.complaints)[i];
      var fields := before.fields.(status := ParseStatus(status).value);
      && r == Reply(200, "Status updated successfully", Saved(before, fields, old(db.clock)))
      && db.complaints == old(db.complaints)[i := r.body]
      && db.clock == ClockAfterSave(before, fields, old(db.clock))
  {
    var i := FindById(db.complaints, id);
    if i == -1 {
      return NotFound("Complaint not found");
    }
    var parsed := ParseStatus(status);
    if parsed.None? {
      return ServerError(["status"]);
    }
    var before := db.complaints[i];
    var fields := before.fields.(status := parsed.value);
    var after := Saved(before, fields, db.clock);
    var now := ClockAfterSave(before, fields, db.clock);
    ChronologicalSave(db.complaints, i, fields, db.clock);
    ChronologicalLater(db.users, db.clock, now);
    ChronologicalLater(db.leaves, db.clock, now);
    ChronologicalLater(db.notifications, db.clock, now);
    db.complaints := db.complaints[i := after];
    db.clock := now;
    r := Reply(200, "Status updated successfully", after);
  }
}
