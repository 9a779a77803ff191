/** The notification dispatcher: one insert into the notification table whose
    failure is caught and dropped. */
module Notify {
  import opened Documents
  import opened Store

  /** The notification a successful dispatch inserts at store time `now`. */
  function Notification(user: nat, title: string, message: string, now: nat): Doc<NotificationFields> {
    Inserted(NotificationFields(user, title, message, false), now)
  }

  /** `sendNotification(user, title, message)`. `fails` stands for the insert
      throwing (the notification schema rejecting the document or the store being
      unavailable); the error is swallowed, so the call always returns normally. */
  method SendNotification(db: Database, user: nat, title: string, message: string, fails: bool)
    requires db.Valid()
    modifies db
    ensures db.Valid()
    ensures db.users == old(db.users) && db.complaints == old(db.complaints) && db.leaves == old(db.leaves)
    ensures fails ==> db.notifications == old(db.notifications) && db.clock == old(db.clock)
    ensures !fails ==>
      && db.notifications == old(db.notifications) + [Notification(user, title, message, old(db.clock))]
      && db.clock == old(db.clock) + 1
  {
    if !fails {
      ChronologicalInsert(db.notifications, NotificationFields(user, title, message, false), db.clock);
      ChronologicalLater(db.users, db.clock, db.clock + 1);
      ChronologicalLater(db.complaints, db.clock, db.clock + 1);
      ChronologicalLater(db.leaves, db.clock, db.clock + 1);
      db.notifications := db.notifications + [Notification(user, title, message, db.clock)];
      db.clock := db.clock + 1;
    }
  }
}
