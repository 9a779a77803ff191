/** The notification handlers: the caller's feed, mark-read and the warden broadcast. */
module NotificationController {
  import opened Documents
  import opened Store
  import opened Notify

  /** GET: exactly the caller's notifications, newest first. */
  function GetMyNotifications(db: Database, caller: nat): (r: seq<Doc<NotificationFields>>)
    reads db
    requires db.Valid()
    ensures forall k :: 0 <= k < |r| ==> r[k] in db.notifications && r[k].fields.user == caller
    ensures forall d :: d in db.notifications && d.fields.user == caller ==> d in r
    ensures Descending(r)
  {
    var mine := (f: NotificationFields) => f.user == caller;
    NewestFirstDescending(db.notifications, mine, db.clock);
    NewestFirst(db.notifications, mine)
  }

  /** PUT read: 404 and no change when no notification has the identifier;
      otherwise that notification's `read` becomes true, every other field and
      every other record staying as it was. */
  method MarkAsRead(db: Database, id: nat) returns (r: Response<Doc<NotificationFields>>)
    requires db.Valid()
    modifies db
    ensures db.Valid()
    ensures db.users == old(db.users) && db.complaints == old(db.complaints) && db.leaves == old(db.leaves)
    ensures r.NotFound? <==> forall d :: d in old(db.notifications) ==> d.id != id
    ensures r.NotFound? ==>
      r.message == "Notification not found" && db.notifications == old(db.notifications) && db.clock == old(db.clock)
    ensures !r.ServerError?
    ensures r.Reply? ==>
      var i := FindById(old(db.notifications), id);
      var before := old(db.notifications)[i];
      var fields := before.fields.(read := true);
      && r == Reply(200, "Marked as read", Saved(before, fields, old(db.clock)))
      && db.notifications == old(db.notifications)[i := r.body]
      && db.clock == ClockAfterSave(before, fields, old(db.clock))
  {
    var i := FindById(db.notifications, id);
    if i == -1 {
      return NotFound("Notification not found");
    }
    var before := db.notifications[i];
    var fields := before.fields.(read := true);
    var after := Saved(before, fields, db.clock);
    var now := ClockAfterSave(before, fields, db.clock);
    ChronologicalSave(db.notifications, i, fields, db.clock);
    ChronologicalLater(db.users, db.clock, now);
    ChronologicalLater(db.complaints, db.clock, now);
    ChronologicalLater(db.leaves, db.clock, now);
    db.notifications := db.notifications[i := after];
    db.clock := now;
    r := Reply(200, "Marked as read", after);
  }

  /** Marking read is idempotent: after one mark, a second finds the same
      notification, leaves it as it is and does not move the clock. */
  lemma {:induction false} MarkAsReadIdempotent(ns: seq<Doc<NotificationFields>>, id: nat, now: nat, later: nat)
    requires FindById(ns, id) != -1
    ensures
      var i := FindById(ns, id);
      var once := Saved(ns[i], ns[i].fields.(read := true), now);
      var after := ns[i := once];
      && FindById(after, id) == i
      && Saved(after[i], after[i].fields.(read := true), later) == after[i]
      && ClockAfterSave(after[i], after[i].fields.(read := true), later) == later
  {
    var i := FindById(ns, id);
    FindByIdSameIds(ns, ns[i := Saved(ns[i], ns[i].fields.(read := true), now)], id);
  }

  /** `User.find({ role: "student" })`: the student users in table order. */
  function Students(users: seq<Doc<Account>>): (r: seq<Doc<Account>>)
    ensures |r| <= |users|
    ensures forall k :: 0 <= k < |r| ==> r[k] in users && r[k].fields.role == Student
    ensures forall k :: 0 <= k < |users| && users[k].fields.role == Student ==> users[k] in r
  {
    if |users| == 0 then []
    else
      var init, last := users[..|users| - 1], users[|users| - 1];
      assert forall k :: 0 <= k < |init| ==> init[k] == users[k];
      Students(init) + (if last.fields.role == Student then [last] else [])
  }

  /** The students come out in table order: any two of them appear in the table
      in the order they are enumerated. */
  lemma {:induction false} StudentsInTableOrder(users: seq<Doc<Account>>, i: nat, j: nat)
    requires i < j < |Students(users)|
    ensures exists a, b :: 0 <= a < b < |users| && users[a] == Students(users)[i] && users[b] == Students(users)[j]
  {
    var init, last := users[..|users| - 1], users[|users| - 1];
    var s := Students(init);
    assert Students(users) == s + (if last.fields.role == Student then [last] else []);
    if j < |s| {
      StudentsInTableOrder(init, i, j);
      var a, b :| 0 <= a < b < |init| && init[a] == s[i] && init[b] == s[j];
      assert users[a] == init[a] && users[b] == init[b];
    } else {
      var a :| 0 <= a < |init| && init[a] == s[i];
      assert users[a] == init[a];
      assert users[|users| - 1] == Students(users)[j];
    }
  }

  /** The identifiers, in order, of the students whose dispatch succeeds;
      `failing` names the users whose notification insert throws. */
  function Recipients(students: seq<Doc<Account>>, failing: set<nat>): (r: seq<nat>)
    ensures |r| <= |students|
    ensures failing == {} ==> |r| == |students|
    ensures forall k :: 0 <= k < |r| ==> r[k] !in failing && exists j :: 0 <= j < |students| && students[j].id == r[k]
    ensures forall j :: 0 <= j < |students| && students[j].id !in failing ==> students[j].id in r
  {
    if |students| == 0 then []
    else
      var init, last := students[..|students| - 1], students[|students| - 1];
      assert forall j :: 0 <= j < |init| ==> init[j] == students[j];
      Recipients(init, failing) + (if last.id in failing then [] else [last.id])
  }

  /** The notifications a broadcast inserts for `ids`, from store time `clock` on. */
  function Deliveries(ids: seq<nat>, title: string, message: string, clock: nat): (r: seq<Doc<NotificationFields>>)
    ensures |r| == |ids|
    ensures forall k :: 0 <= k < |r| ==> r[k] == Notification(ids[k], title, message, clock + k)
    ensures UsersOf(r) == ids
    ensures forall k :: 0 <= k < |r| ==> !r[k].fields.read && r[k].fields.title == title && r[k].fields.message == message
    ensures forall i, j :: 0 <= i < j < |r| ==> r[i].createdAt < r[j].createdAt
  {
    seq(|ids|, k requires 0 <= k < |ids| => Notification(ids[k], title, message, clock + k))
  }

  /** POST broadcast: one dispatch per student, in table order; every successful
      dispatch adds one unread notification with the same title and message. The
      reply is the same success whatever failed and however many students there are. */
  method WardenBroadcast(db: Database, title: string, message: string, failing: set<nat>) returns (r: Response<()>)
    requires db.Valid()
    modifies db
    ensures db.Valid()
    ensures db.users == old(db.users) && db.complaints == old(db.complaints) && db.leaves == old(db.leaves)
    ensures r == Reply(200, "Broadcast sent successfully", ())
    ensures
      var ids := Recipients(Students(old(db.users)), failing);
      && db.notifications == old(db.notifications) + Deliveries(ids, title, message, old(db.clock))
      && db.clock == old(db.clock) + |ids|
  {
    var students := Students(db.users);
    ghost var start, c0 := db.notifications, db.clock;
    for k := 0 to |students|
      invariant db.Valid()
      invariant db.users == old(db.users) && db.complaints == old(db.complaints) && db.leaves == old(db.leaves)
      invariant db.notifications == start + Deliveries(Recipients(students[..k], failing), title, message, c0)
      invariant db.clock == c0 + |Recipients(students[..k], failing)|
    {
      RecipientsStep(students, k, failing);
      SendToStudent(db, students[k].id, title, message, failing, start, c0, Recipients(students[..k], failing));
    }
    assert students[..|students|] == students;
    r := Reply(200, "Broadcast sent successfully", ());
  }

  /** One iteration of the broadcast loop: the dispatch to student `id` extends the
      notifications sent so far by one exactly when that dispatch succeeds. */
  method SendToStudent(db: Database, id: nat, title: string, message: string, failing: set<nat>,
                       ghost start: seq<Doc<NotificationFields>>, ghost c0: nat, ghost sent: seq<nat>)
    requires db.Valid()
    requires db.notifications == start + Deliveries(sent, title, message, c0) && db.clock == c0 + |sent|
    modifies db
    ensures db.Valid()
    ensures db.users == old(db.users) && db.complaints == old(db.complaints) && db.leaves == old(db.leaves)
    ensures
      var now := sent + (if id in failing then [] else [id]);
      db.notifications == start + Deliveries(now, title, message, c0) && db.clock == c0 + |now|
  {
    SendNotification(db, id, title, message, id in failing);
    if id !in failing {
      DeliveriesAppend(sent, id, title, message, c0);
    } else {
      assert sent + [] == sent;
    }
  }

  lemma RecipientsStep(students: seq<Doc<Account>>, k: nat, failing: set<nat>)
    requires k < |students|
    ensures Recipients(students[..k + 1], failing)
      == Recipients(students[..k], failing) + (if students[k].id in failing then [] else [students[k].id])
  {
    assert students[..k + 1][..k] == students[..k];
  }

  lemma DeliveriesAppend(ids: seq<nat>, id: nat, title: string, message: string, clock: nat)
    ensures Deliveries(ids + [id], title, message, clock)
      == Deliveries(ids, title, message, clock) + [Notification(id, title, message, clock + |ids|)]
  {
    var a := Deliveries(ids + [id], title, message, clock);
    var b := Deliveries(ids, title, message, clock) + [Notification(id, title, message, clock + |ids|)];
    assert |a| == |b|;
    forall k | 0 <= k < |a| ensures a[k] == b[k] {
      if k < |ids| {
        assert (ids + [id])[k] == ids[k];
      }
    }
  }

  lemma {:induction false} RecipientsAppend(a: seq<Doc<Account>>, b: seq<Doc<Account>>, failing: set<nat>)
    ensures Recipients(a + b, failing) == Recipients(a, failing) + Recipients(b, failing)
  {
    if |b| > 0 {
      var b' := b[..|b| - 1];
      assert (a + b)[..|a + b| - 1] == a + b';
      RecipientsAppend(a, b', failing);
    } else {
      assert a + b == a;
    }
  }

  /** Removing the newest user from the table removes at most its own identifier
      from the broadcast's recipients. */
  lemma StudentRecipientsStep(users: seq<Doc<Account>>, failing: set<nat>)
    requires |users| > 0
    ensures
      var last := users[|users| - 1];
      Recipients(Students(users), failing)
        == Recipients(Students(users[..|users| - 1]), failing)
           + (if last.fields.role == Student && last.id !in failing then [last.id] else [])
  {
    var init, last := users[..|users| - 1], users[|users| - 1];
    var tail := if last.fields.role == Student then [last] else [];
    assert Students(users) == Students(init) + tail;
    RecipientsAppend(Students(init), tail, failing);
    assert tail != [] ==> tail[..0] == [];
  }

  lemma {:induction false} RecipientsAbsent(users: seq<Doc<Account>>, failing: set<nat>, id: nat)
    requires forall k :: 0 <= k < |users| ==> users[k].id != id
    ensures multiset(Recipients(Students(users), failing))[id] == 0
  {
    if |users| > 0 {
      StudentRecipientsStep(users, failing);
      RecipientsAbsent(users[..|users| - 1], failing, id);
    }
  }

  /** Identifiers strictly increase along the table. */
  ghost predicate IdsIncrease(users: seq<Doc<Account>>) {
    forall i, j :: 0 <= i < j < |users| ==> users[i].id < users[j].id
  }

  /** How often `id` is a recipient, counted newest user first. */
  lemma RecipientCountStep(users: seq<Doc<Account>>, failing: set<nat>, id: nat)
    requires |users| > 0
    ensures
      var last := users[|users| - 1];
      multiset(Recipients(Students(users), failing))[id]
        == multiset(Recipients(Students(users[..|users| - 1]), failing))[id]
           + (if last.fields.role == Student && last.id !in failing && last.id == id then 1 else 0)
  {
    StudentRecipientsStep(users, failing);
  }

  lemma IdsIncreasePrefix(users: seq<Doc<Account>>)
    requires IdsIncrease(users) && |users| > 0
    ensures IdsIncrease(users[..|users| - 1])
    ensures forall k :: 0 <= k < |users| - 1 ==> users[k].id < users[|users| - 1].id
  {
  }

  lemma {:induction false} OnePerStudent(users: seq<Doc<Account>>, failing: set<nat>, j: nat)
    requires IdsIncrease(users) && j < |users|
    ensures multiset(Recipients(Students(users), failing))[users[j].id]
      == if users[j].fields.role == Student && users[j].id !in failing then 1 else 0
  {
    var init := users[..|users| - 1];
    RecipientCountStep(users, failing, users[j].id);
    IdsIncreasePrefix(users);
    if j == |users| - 1 {
      RecipientsAbsent(init, failing, users[j].id);
    } else {
      assert init[j] == users[j];
      OnePerStudent(init, failing, j);
    }
  }

  /** A broadcast reaches every user at most once: a student whose dispatch
      succeeds receives exactly one of the new notifications, and every other
      user, a warden in particular, receives none. */
  lemma BroadcastOnePerStudent(users: seq<Doc<Account>>, failing: set<nat>, clock: nat, u: Doc<Account>)
    requires Chronological(users, clock) && u in users
    ensures multiset(Recipients(Students(users), failing))[u.id]
      == if u.fields.role == Student && u.id !in failing then 1 else 0
  {
    var j :| 0 <= j < |users| && users[j] == u;
    OnePerStudent(users, failing, j);
  }

  /** The notifications a broadcast appends: a student whose dispatch succeeds is
      the user of exactly one of them, and every other user, a warden in
      particular, of none. */
  lemma BroadcastNotifiesOnce(users: seq<Doc<Account>>, failing: set<nat>, title: string, message: string,
                              clock: nat, u: Doc<Account>)
    requires Chronological(users, clock) && u in users
    ensures
      var sent := Deliveries(Recipients(Students(users), failing), title, message, clock);
      multiset(UsersOf(sent))[u.id] == if u.fields.role == Student && u.id !in failing then 1 else 0
  {
    BroadcastOnePerStudent(users, failing, clock, u);
  }
}
