/**
 * src/features/notifications/api.ts: turning notification rows into the
 * notifications the app shows. The row's `content` becomes the message and
 * its type picks the title. The query itself is left to the backend
 * parameter; only its answer is modelled.
 */
module NotificationsApi {
  import opened Wrappers

  /** A row of the notifications table. */
  datatype NotificationRow = NotificationRow(
    id: string, userId: string, kind: string, content: string, isRead: bool, createdAt: string)

  /** A notification as the app shows it. */
  datatype Notification = Notification(
    id: string, userId: string, kind: string, title: string, message: string, isRead: bool, createdAt: string)

  /**
   * The title for a notification type: the three known types have their own,
   * distinct titles; every other type, "system" included, gets the generic
   * title.
   */
  function TitleFor(kind: string): (r: string)
    ensures kind == "message" <==> r == "New Message"
    ensures kind == "price_drop" <==> r == "Price Drop"
    ensures kind == "sold" <==> r == "Item Sold"
    ensures r == "Notification" <==> kind != "message" && kind != "price_drop" && kind != "sold"
  {
    if kind == "message" then "New Message"
    else if kind == "price_drop" then "Price Drop"
    else if kind == "sold" then "Item Sold"
    else "Notification"
  }

  /** One row mapped: message from content, title from type, everything else copied. */
  function MapRow(n: NotificationRow): (m: Notification)
    ensures m.message == n.content && m.title == TitleFor(n.kind)
    ensures m.id == n.id && m.userId == n.userId && m.kind == n.kind && m.isRead == n.isRead && m.createdAt == n.createdAt
  {
    Notification(n.id, n.userId, n.kind, TitleFor(n.kind), n.content, n.isRead, n.createdAt)
  }

  /**
   * `fetchNotifications`: a query error is thrown as is; otherwise every row is
   * mapped, one notification per row, in the order the rows came (newest first).
   */
  function FetchNotifications(response: Result<seq<NotificationRow>, DbError>): (r: Result<seq<Notification>, Thrown>)
    ensures response.Err? ==> r == Err(DbThrown(response.error))
    ensures response.Ok? ==> r.Ok? && |r.value| == |response.value|
    ensures response.Ok? ==> forall i :: 0 <= i < |r.value| ==> r.value[i] == MapRow(response.value[i])
  {
    match response
    case Err(e) => Err(DbThrown(e))
    case Ok(rows) => Ok(seq(|rows|, i requires 0 <= i < |rows| => MapRow(rows[i])))
  }

  /** `markAsRead`: the update's error is thrown as is. */
  function MarkAsRead(updateError: Option<DbError>): (r: Result<(), Thrown>)
    ensures r.Ok? <==> updateError.None?
    ensures updateError.Some? ==> r == Err(DbThrown(updateError.value))
  {
    if updateError.Some? then Err(DbThrown(updateError.value)) else Ok(())
  }
}
