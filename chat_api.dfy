/**
 * src/features/chat/api.ts: the room list of the inbox, opening a room for an
 * item, and sending a message. Each room row comes with its item, both
 * participants' profiles and its messages; the mapping picks the other
 * participant and the latest message. Turning a `created_at` text into a
 * time is the parameter `epochMs` (`None` for a text `Date` cannot read);
 * the backend answers are parameters too.
 */
module ChatApi {
  import opened Wrappers
  import opened JsArray

  datatype Profile = Profile(id: string, fullName: string, avatarUrl: string)

  datatype Message = Message(content: string, createdAt: string, senderId: string, readAt: Option<string>)

  /** A row of the rooms query with its joins; `messages` is absent when the join gave nothing. */
  datatype RoomRow = RoomRow(
    id: string, updatedAt: string, itemId: string, buyerId: string, sellerId: string,
    buyer: Option<Profile>, seller: Option<Profile>, messages: Option<seq<Message>>)

  datatype LastMessage = LastMessage(message: Message, isRead: bool)

  /**
   * A room as the inbox shows it: the row (whose messages the sort has
   * reordered), the other participant and the latest message.
   */
  datatype ChatRoom = ChatRoom(row: RoomRow, otherUser: Option<Profile>, lastMessage: Option<LastMessage>)

  /** `Date.parse` of a `created_at` text, in milliseconds; `None` for an invalid date (NaN). */
  type EpochMs = string -> Option<int>

  /** A room record, as the rooms table stores it. */
  datatype Room = Room(id: string, updatedAt: string, itemId: string, buyerId: string, sellerId: string)

  /** A write the chat sends to the backend. */
  datatype Write =
    | InsertRoom(itemId: string, buyerId: string, sellerId: string)
    | InsertMessage(roomId: string, senderId: string, content: string)
    | TouchRoom(roomId: string, updatedAt: string)

  /** Minus the message's time: sorting by it ascending puts the latest first. */
  function Recency(epochMs: EpochMs): Message -> real {
    (m: Message) => if epochMs(m.createdAt).Some? then -(epochMs(m.createdAt).value as real) else 0.0
  }

  /** A message whose date is valid; the comparator yields NaN, read as "equal", for any other. */
  function Dated(epochMs: EpochMs): Message -> bool {
    (m: Message) => epochMs(m.createdAt).Some?
  }

  /** `(a, b) => time(b) - time(a)` is positive exactly when `b` is strictly later than `a`. */
  function LatestFirst(epochMs: EpochMs): (Message, Message) -> bool {
    ByKey(Recency(epochMs), Dated(epochMs))
  }

  /** JavaScript truthiness of an optional text: present and non-empty. */
  predicate Truthy(s: Option<string>) {
    s.Some? && s.value != ""
  }

  /**
   * One room mapped for `userId`: the other participant is the seller when
   * the user is the buyer and the buyer otherwise; the messages are sorted
   * latest first (a permutation of what came back); the last message is the
   * first of them, read exactly when its `read_at` is set, and absent when
   * there are no messages.
   */
  function MapRoom(room: RoomRow, userId: string, epochMs: EpochMs): (r: ChatRoom)
    ensures r.otherUser == if room.buyerId == userId then room.seller else room.buyer
    ensures r.row == room.(messages := r.row.messages)
    ensures r.row.messages.Some? <==> room.messages.Some?
    ensures room.messages.Some? ==> multiset(r.row.messages.value) == multiset(room.messages.value)
    ensures r.lastMessage.None? <==> room.messages.None? || room.messages.value == []
    ensures r.lastMessage.Some? ==> r.lastMessage.value.message in room.messages.value
                                    && (r.lastMessage.value.isRead <==> Truthy(r.lastMessage.value.message.readAt))
  {
    var isBuyer := room.buyerId == userId;
    var otherUser := if isBuyer then room.seller else room.buyer;
    var sorted := if room.messages.Some? then Some(Sort(room.messages.value, LatestFirst(epochMs))) else None;
    var last := if sorted.Some? && |sorted.value| > 0 then Some(sorted.value[0]) else None;
    assert last.Some? ==> last.value in multiset(room.messages.value);
    ChatRoom(room.(messages := sorted), otherUser,
             if last.Some? then Some(LastMessage(last.value, Truthy(last.value.readAt))) else None)
  }

  /**
   * When every message has a valid date, the last message is one with the
   * greatest time, and among several with that time the one that came first.
   */
  lemma LastMessageIsLatest(room: RoomRow, userId: string, epochMs: EpochMs)
    requires room.messages.Some? && room.messages.value != []
    requires forall i :: 0 <= i < |room.messages.value| ==> epochMs(room.messages.value[i].createdAt).Some?
    ensures var ms := room.messages.value;
            var last := MapRoom(room, userId, epochMs).lastMessage;
            && last.Some?
            && last.value.message == ms[FirstMin(ms, Recency(epochMs))]
            && (forall i :: 0 <= i < |ms| ==>
                  epochMs(ms[i].createdAt).value <= epochMs(last.value.message.createdAt).value)
  {
    var ms := room.messages.value;
    SortHead(ms, Recency(epochMs), Dated(epochMs));
    var k := FirstMin(ms, Recency(epochMs));
    forall i | 0 <= i < |ms| ensures epochMs(ms[i].createdAt).value <= epochMs(ms[k].createdAt).value {
      assert Recency(epochMs)(ms[k]) <= Recency(epochMs)(ms[i]);
    }
  }

  /**
   * `fetchRooms`: a query error is thrown as is; otherwise one mapped room per
   * row, in the order of the rows (most recently updated first).
   */
  function FetchRooms(userId: string, response: Result<seq<RoomRow>, DbError>, epochMs: EpochMs)
    : (r: Result<seq<ChatRoom>, Thrown>)
    ensures response.Err? ==> r == Err(DbThrown(response.error))
    ensures response.Ok? ==> r.Ok? && |r.value| == |response.value|
    ensures response.Ok? ==> forall i :: 0 <= i < |r.value| ==>
              r.value[i].row.id == response.value[i].id && r.value[i] == MapRoom(response.value[i], userId, epochMs)
  {
    match response
    case Err(e) => Err(DbThrown(e))
    case Ok(rows) => Ok(seq(|rows|, i requires 0 <= i < |rows| => MapRoom(rows[i], userId, epochMs)))
  }

  /**
   * `createRoom`: `existing` is the room the lookup found (`None` when it
   * found none, or on any lookup error). An existing room is returned with no
   * write; otherwise the room is inserted and the insert's answer returned,
   * its error thrown.
   */
  method CreateRoom(itemId: string, buyerId: string, sellerId: string, existing: Option<Room>,
                    insert: Write -> Result<Room, DbError>)
    returns (writes: seq<Write>, r: Result<Room, Thrown>)
    ensures existing.Some? ==> writes == [] && r == Ok(existing.value)
    ensures existing.None? ==> writes == [InsertRoom(itemId, buyerId, sellerId)]
    ensures existing.None? && insert(InsertRoom(itemId, buyerId, sellerId)).Err? ==>
              r == Err(DbThrown(insert(InsertRoom(itemId, buyerId, sellerId)).error))
    ensures existing.None? && insert(InsertRoom(itemId, buyerId, sellerId)).Ok? ==>
              r == Ok(insert(InsertRoom(itemId, buyerId, sellerId)).value)
  {
    if existing.Some? {
      return [], Ok(existing.value);
    }
    var w := InsertRoom(itemId, buyerId, sellerId);
    writes := [w];
    var answer := insert(w);
    if answer.Err? {
      return writes, Err(DbThrown(answer.error));
    }
    r := Ok(answer.value);
  }

  /**
   * `sendMessage`: inserts the message; if that fails the error is thrown
   * and the room is not touched; otherwise the room's `updated_at` is set to
   * `now` and the outcome of that update is ignored.
   */
  method SendMessage(roomId: string, senderId: string, content: string, now: string,
                     insertError: Option<DbError>, touchError: Option<DbError>)
    returns (writes: seq<Write>, r: Result<(), Thrown>)
    ensures insertError.Some? ==> writes == [InsertMessage(roomId, senderId, content)] && r == Err(DbThrown(insertError.value))
    ensures insertError.None? ==> writes == [InsertMessage(roomId, senderId, content), TouchRoom(roomId, now)] && r == Ok(())
  {
    writes := [InsertMessage(roomId, senderId, content)];
    if insertError.Some? {
      return writes, Err(DbThrown(insertError.value));
    }
    writes := writes + [TouchRoom(roomId, now)];
    r := Ok(());
  }
}
