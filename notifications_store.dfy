/**
 * src/features/notifications/store.ts: the notification list, its unread
 * counter, the loading flag and the push token, with the handlers for the
 * realtime INSERT and UPDATE events. The counter is recomputed from the list
 * after a fetch, a mark-as-read and an UPDATE, but only incremented after an
 * INSERT or an explicit increment.
 */
module NotificationsStore {
  import opened Wrappers
  import opened JsArray
  import opened NotificationsApi

  /** The number of unread notifications in the list. */
  function CountUnread(ns: seq<Notification>): (c: nat)
    ensures c <= |ns|
  {
    if ns == [] then 0 else (if ns[0].isRead then 0 else 1) + CountUnread(ns[1..])
  }

  function IsUnread(): Notification -> bool {
    (n: Notification) => !n.isRead
  }

  /** `filter((n) => !n.is_read).length` counts exactly the unread notifications. */
  lemma {:induction false} FilterUnreadCount(ns: seq<Notification>)
    ensures |Filter(ns, IsUnread())| == CountUnread(ns)
  {
    if ns != [] {
      FilterUnreadCount(ns[1..]);
      assert ns == [ns[0]] + ns[1..];
    }
  }

  /** Every notification with this id marked read; the others, the length and the order unchanged. */
  function MarkRead(ns: seq<Notification>, id: string): (r: seq<Notification>)
    ensures |r| == |ns|
    ensures forall i :: 0 <= i < |ns| ==> r[i] == if ns[i].id == id then ns[i].(isRead := true) else ns[i]
  {
    seq(|ns|, i requires 0 <= i < |ns| => if ns[i].id == id then ns[i].(isRead := true) else ns[i])
  }

  /** Every notification with the update's id replaced by it; the others, the length and the order unchanged. */
  function ReplaceById(ns: seq<Notification>, u: Notification): (r: seq<Notification>)
    ensures |r| == |ns|
    ensures forall i :: 0 <= i < |ns| ==> r[i] == if ns[i].id == u.id then u else ns[i]
  {
    seq(|ns|, i requires 0 <= i < |ns| => if ns[i].id == u.id then u else ns[i])
  }

  /** The number of unread notifications with this id. */
  function CountUnreadWithId(ns: seq<Notification>, id: string): nat {
    if ns == [] then 0 else (if !ns[0].isRead && ns[0].id == id then 1 else 0) + CountUnreadWithId(ns[1..], id)
  }

  /**
   * Marking read removes exactly the unread notifications with that id from
   * the count, and leaves none of them unread; doing it twice changes nothing more.
   */
  lemma {:induction false} MarkReadCount(ns: seq<Notification>, id: string)
    ensures CountUnread(MarkRead(ns, id)) == CountUnread(ns) - CountUnreadWithId(ns, id)
    ensures forall i :: 0 <= i < |ns| && ns[i].id == id ==> MarkRead(ns, id)[i].isRead
    ensures MarkRead(MarkRead(ns, id), id) == MarkRead(ns, id)
  {
    if ns != [] {
      MarkReadCount(ns[1..], id);
      assert MarkRead(ns, id)[1..] == MarkRead(ns[1..], id);
    }
  }

  /** Applying the same realtime UPDATE twice is the same as applying it once. */
  lemma ReplaceByIdIdempotent(ns: seq<Notification>, u: Notification)
    ensures ReplaceById(ReplaceById(ns, u), u) == ReplaceById(ns, u)
  {
  }

  /**
   * The INSERT handler's `+ 1` agrees with a recount exactly when the inserted
   * notification is unread: an already-read insert leaves the counter one too high.
   */
  lemma InsertCount(n: Notification, ns: seq<Notification>)
    ensures CountUnread([n] + ns) == CountUnread(ns) + 1 <==> !n.isRead
  {
    assert ([n] + ns)[1..] == ns;
  }

  datatype RealtimeEvent = Insert(row: Notification) | Update(row: Notification) | Delete

  class NotificationsStore {
    var notifications: seq<Notification>
    var unreadCount: int
    var isLoading: bool
    var expoPushToken: Option<string>

    /** The counter agrees with the list. */
    predicate Consistent()
      reads this
    {
      unreadCount == CountUnread(notifications)
    }

    /** The initial state: no notifications, nothing unread, not loading, no push token. */
    constructor ()
      ensures notifications == [] && unreadCount == 0 && !isLoading && expoPushToken == None
      ensures Consistent()
    {
      notifications := [];
      unreadCount := 0;
      isLoading := false;
      expoPushToken := None;
    }

    /** `setExpoPushToken`: only the token changes. */
    method SetExpoPushToken(token: string)
      modifies this
      ensures expoPushToken == Some(token)
      ensures notifications == old(notifications) && unreadCount == old(unreadCount) && isLoading == old(isLoading)
    {
      expoPushToken := Some(token);
    }

    /** `incrementUnreadCount`: one more unread, the list untouched. */
    method IncrementUnreadCount()
      modifies this
      ensures unreadCount == old(unreadCount) + 1
      ensures notifications == old(notifications) && isLoading == old(isLoading) && expoPushToken == old(expoPushToken)
    {
      unreadCount := unreadCount + 1;
    }

    /**
     * `fetchNotifications`: on success the list is replaced and the counter
     * recounted from it; on failure both stay as they were. Loading is off
     * afterwards either way.
     */
    method FetchNotifications(userId: string, fetch: string -> Result<seq<Notification>, Thrown>)
      modifies this
      ensures fetch(userId).Ok? ==> notifications == fetch(userId).value && Consistent()
      ensures fetch(userId).Err? ==> notifications == old(notifications) && unreadCount == old(unreadCount)
      ensures !isLoading && expoPushToken == old(expoPushToken)
    {
      isLoading := true;
      var response := fetch(userId);
      if response.Ok? {
        var fetched := response.value;
        var count := |Filter(fetched, IsUnread())|;
        FilterUnreadCount(fetched);
        notifications, unreadCount := fetched, count;
      }
      isLoading := false;
    }

    /**
     * `markNotificationAsRead`: once the backend accepts, the notifications
     * with this id are marked read and the counter recounted; if it fails,
     * nothing changes and nothing is thrown.
     */
    method MarkNotificationAsRead(id: string, markAsRead: string -> Result<(), Thrown>)
      modifies this
      ensures markAsRead(id).Ok? ==> notifications == MarkRead(old(notifications), id) && Consistent()
      ensures markAsRead(id).Err? ==> notifications == old(notifications) && unreadCount == old(unreadCount)
      ensures isLoading == old(isLoading) && expoPushToken == old(expoPushToken)
    {
      var outcome := markAsRead(id);
      if outcome.Ok? {
        var updated := MarkRead(notifications, id);
        FilterUnreadCount(updated);
        notifications, unreadCount := updated, |Filter(updated, IsUnread())|;
      }
    }

    /**
     * The realtime handler: INSERT puts the row first and adds one to the
     * counter whatever the row says; UPDATE replaces the rows with its id and
     * recounts; any other event is ignored.
     */
    method OnRealtime(event: RealtimeEvent)
      modifies this
      ensures event.Insert? ==> notifications == [event.row] + old(notifications) && unreadCount == old(unreadCount) + 1
      ensures event.Insert? && old(Consistent()) ==> (Consistent() <==> !event.row.isRead)
      ensures event.Update? ==> notifications == ReplaceById(old(notifications), event.row) && Consistent()
      ensures event.Delete? ==> notifications == old(notifications) && unreadCount == old(unreadCount)
      ensures isLoading == old(isLoading) && expoPushToken == old(expoPushToken)
    {
      match event
      case Insert(n) =>
        InsertCount(n, notifications);
        notifications, unreadCount := [n] + notifications, unreadCount + 1;
      case Update(u) =>
        var updated := ReplaceById(notifications, u);
        FilterUnreadCount(updated);
        notifications, unreadCount := updated, |Filter(updated, IsUnread())|;
      case Delete =>
    }
  }
}
