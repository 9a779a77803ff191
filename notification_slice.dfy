/** The client's notification state: the feed, its unread count, and the flags
    of the broadcast form. */
module NotificationSlice {
  import opened Wrappers
  import opened Documents
  import opened Store

  /** The filter `(n) => !n.read`. */
  function IsUnread(f: NotificationFields): bool {
    !f.read
  }

  /** The number of unread notifications: `filter((n) => !n.read).length`. */
  function Unread(s: seq<Doc<NotificationFields>>): nat {
    Count(s, IsUnread)
  }

  /** `s` with the first notification of identifier `id` marked read; unchanged
      when there is none. */
  function MarkFirstRead(s: seq<Doc<NotificationFields>>, id: nat): (r: seq<Doc<NotificationFields>>)
    ensures |r| == |s|
    ensures forall k :: 0 <= k < |s| ==>
      r[k] == if s[k].id == id && (forall j :: 0 <= j < k ==> s[j].id != id)
              then s[k].(fields := s[k].fields.(read := true)) else s[k]
  {
    var i := FindById(s, id);
    if i == -1 then s else s[i := s[i].(fields := s[i].fields.(read := true))]
  }

  /** Marking read lowers the unread count by one exactly when the notification
      was unread, and never raises it. */
  lemma MarkFirstReadUnread(s: seq<Doc<NotificationFields>>, id: nat)
    ensures var i := FindById(s, id);
      Unread(MarkFirstRead(s, id)) == Unread(s) - (if i != -1 && !s[i].fields.read then 1 else 0)
    ensures Unread(MarkFirstRead(s, id)) <= Unread(s)
  {
    var i := FindById(s, id);
    if i != -1 {
      CountUpdate(s, i, s[i].(fields := s[i].fields.(read := true)), IsUnread);
    }
  }

  /** Marking the same notification read twice is marking it once. */
  lemma MarkFirstReadIdempotent(s: seq<Doc<NotificationFields>>, id: nat)
    ensures MarkFirstRead(MarkFirstRead(s, id), id) == MarkFirstRead(s, id)
  {
    FindByIdSameIds(s, MarkFirstRead(s, id), id);
  }

  class NotificationState {
    var notifications: seq<Doc<NotificationFields>>
    var unreadCount: nat
    var loading: bool
    var error: Option<string>
    var broadcastSuccess: bool

    /** The unread count agrees with the feed. */
    ghost predicate Valid()
      reads this
    {
      unreadCount == Unread(notifications)
    }

    /** The initial state: empty feed, no unread, no flags, no error. */
    constructor ()
      ensures Valid()
      ensures notifications == [] && unreadCount == 0 && !loading && error == None && !broadcastSuccess
    {
      notifications, unreadCount, loading, error, broadcastSuccess := [], 0, false, None, false;
    }

    /** resetBroadcastSuccess: only the success flag changes. */
    method ResetBroadcastSuccess()
      modifies this
      ensures !broadcastSuccess
      ensures notifications == old(notifications) && unreadCount == old(unreadCount)
      ensures loading == old(loading) && error == old(error)
    {
      broadcastSuccess := false;
    }

    /** fetch, pending. */
    method FetchPending()
      modifies this
      ensures loading
      ensures notifications == old(notifications) && unreadCount == old(unreadCount)
      ensures error == old(error) && broadcastSuccess == old(broadcastSuccess)
    {
      loading := true;
    }

    /** fetch, fulfilled: the feed becomes the payload and the count is its unread
        count, which establishes the invariant whatever came before. */
    method FetchFulfilled(payload: seq<Doc<NotificationFields>>)
      modifies this
      ensures Valid()
      ensures !loading && notifications == payload && unreadCount == Unread(payload)
      ensures error == old(error) && broadcastSuccess == old(broadcastSuccess)
    {
      loading := false;
      notifications := payload;
      unreadCount := Unread(payload);
    }

    /** fetch, rejected. */
    method FetchRejected(payload: string)
      modifies this
      ensures !loading && error == Some(payload)
      ensures notifications == old(notifications) && unreadCount == old(unreadCount)
      ensures broadcastSuccess == old(broadcastSuccess)
    {
      loading := false;
      error := Some(payload);
    }

    /** mark read, fulfilled: the first notification with the payload's identifier
        is marked read and the count recomputed; from a valid state the count
        never goes up. */
    method MarkReadFulfilled(payload: Doc<NotificationFields>)
      modifies this
      ensures Valid()
      ensures notifications == MarkFirstRead(old(notifications), payload.id)
      ensures old(Valid()) ==> unreadCount <= old(unreadCount)
      ensures loading == old(loading) && error == old(error) && broadcastSuccess == old(broadcastSuccess)
    {
      var index := FindById(notifications, payload.id);
      if index != -1 {
        notifications := notifications[index := notifications[index].(fields := notifications[index].fields.(read := true))];
      }
      unreadCount := Unread(notifications);
      MarkFirstReadUnread(old(notifications), payload.id);
    }

    /** broadcast, pending. */
    method BroadcastPending()
      modifies this
      ensures loading && !broadcastSuccess
      ensures notifications == old(notifications) && unreadCount == old(unreadCount) && error == old(error)
    {
      loading := true;
      broadcastSuccess := false;
    }

    /** broadcast, fulfilled. */
    method BroadcastFulfilled()
      modifies this
      ensures !loading && broadcastSuccess
      ensures notifications == old(notifications) && unreadCount == old(unreadCount) && error == old(error)
    {
      loading := false;
      broadcastSuccess := true;
    }

    /** broadcast, rejected. */
    method BroadcastRejected(payload: string)
      modifies this
      ensures !loading && !broadcastSuccess && error == Some(payload)
      ensures notifications == old(notifications) && unreadCount == old(unreadCount)
    {
      loading := false;
      error := Some(payload);
      broadcastSuccess := false;
    }
  }
}
