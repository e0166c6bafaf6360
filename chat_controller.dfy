/**
 * The customer-to-admin chat of Controllers/ChatController.cs, and the room,
 * message and moderation rules the customer-to-staff chat shares with it:
 * per-side "deleted" flags and clearing times that hide old messages, the
 * read marks behind the "new message" flag, and the warning counter that
 * deactivates an account on its fifth flagged message.
 */
module ChatController {
  import opened Wrappers
  import opened Calendar
  import opened Tables
  import opened Sorting
  import opened Entities

  // ---------------------------------------------------------------------------
  // Sides of a room
  // ---------------------------------------------------------------------------

  /** Who looks at a room: its customer, the admins, or its staff member. */
  datatype Side = CustomerSide | AdminSide | StaffSide

  function DeletedBy(room: ChatRoom, side: Side): bool {
    match side
    case CustomerSide => room.deletedByCustomer
    case AdminSide => room.deletedByAdmin
    case StaffSide => room.deletedByStaff
  }

  function LastDeletedBy(room: ChatRoom, side: Side): Option<DateTime> {
    match side
    case CustomerSide => room.lastDeletedByCustomer
    case AdminSide => room.lastDeletedByAdmin
    case StaffSide => room.lastDeletedByStaff
  }

  /** "Delete the conversation" for one side: its flag set and its clearing time `now`. */
  function HideFor(room: ChatRoom, side: Side, now: DateTime): (r: ChatRoom)
    ensures DeletedBy(r, side) && LastDeletedBy(r, side) == Some(now)
    ensures forall other :: other != side ==>
              DeletedBy(r, other) == DeletedBy(room, other) && LastDeletedBy(r, other) == LastDeletedBy(room, other)
    ensures r.id == room.id && r.customerId == room.customerId && r.staffId == room.staffId
    ensures r.lastReadByAdmin == room.lastReadByAdmin && r.lastReadByStaff == room.lastReadByStaff
  {
    match side
    case CustomerSide => room.(deletedByCustomer := true, lastDeletedByCustomer := Some(now))
    case AdminSide => room.(deletedByAdmin := true, lastDeletedByAdmin := Some(now))
    case StaffSide => room.(deletedByStaff := true, lastDeletedByStaff := Some(now))
  }

  /** The room shown again to one side: its flag cleared, its clearing time kept. */
  function ShowFor(room: ChatRoom, side: Side): (r: ChatRoom)
    ensures !DeletedBy(r, side)
    ensures forall other :: other != side ==> DeletedBy(r, other) == DeletedBy(room, other)
    ensures forall s :: LastDeletedBy(r, s) == LastDeletedBy(room, s)
    ensures r.id == room.id && r.customerId == room.customerId && r.staffId == room.staffId
  {
    match side
    case CustomerSide => room.(deletedByCustomer := false)
    case AdminSide => room.(deletedByAdmin := false)
    case StaffSide => room.(deletedByStaff := false)
  }

  // ---------------------------------------------------------------------------
  // Visibility of messages
  // ---------------------------------------------------------------------------

  /** `bound == null || t > bound`. */
  predicate After(bound: Option<DateTime>, t: DateTime) {
    bound.None? || Before(bound.value, t)
  }

  function MessageTime(m: Message): DateTime { m.createdAt }

  function InRoom(roomId: int): Message -> bool {
    (m: Message) => m.roomId == roomId
  }

  function PostedAfter(bound: Option<DateTime>): Message -> bool {
    (m: Message) => After(bound, m.createdAt)
  }

  /**
   * What `Load` lists for a viewer whose last clearing of the room was at
   * `bound`: the room's messages posted after it, oldest first.
   */
  function Visible(messages: seq<Message>, roomId: int, bound: Option<DateTime>): (r: seq<Message>)
    ensures forall m :: m in r <==> m in messages && m.roomId == roomId && After(bound, m.createdAt)
    ensures multiset(r) == multiset(Where(Where(messages, InRoom(roomId)), PostedAfter(bound)))
    ensures SortedBy(r, MessageTime, false)
  {
    var kept := Where(Where(messages, InRoom(roomId)), PostedAfter(bound));
    var sorted := SortBy(kept, MessageTime, false);
    assert forall m :: m in sorted <==> m in kept by {
      forall m ensures m in sorted <==> m in kept {
        assert m in sorted <==> m in multiset(sorted);
        assert m in kept <==> m in multiset(kept);
      }
    }
    sorted
  }

  /** Clearing a room at `t` hides every message posted at or before `t` from that viewer. */
  lemma ClearingHidesEarlierMessages(messages: seq<Message>, roomId: int, t: DateTime, m: Message)
    requires m in messages && m.roomId == roomId
    ensures m in Visible(messages, roomId, Some(t)) <==> Before(t, m.createdAt)
  {
  }

  /** A customer message of the room newer than both bounds: what makes the "new message" flag. */
  function NewFromCustomer(room: ChatRoom, lastRead: Option<DateTime>, lastDeleted: Option<DateTime>): Message -> bool {
    (m: Message) => m.userId == room.customerId && After(lastRead, m.createdAt) && After(lastDeleted, m.createdAt)
  }

  /** The "new message" flag of a room for a reader with the given read mark and clearing time. */
  function HasNewMessage(room: ChatRoom, messages: seq<Message>, lastRead: Option<DateTime>, lastDeleted: Option<DateTime>)
    : (b: bool)
    ensures b <==> exists m :: m in messages && m.roomId == room.id && m.userId == room.customerId
                               && After(lastRead, m.createdAt) && After(lastDeleted, m.createdAt)
  {
    var own := Where(messages, InRoom(room.id));
    var b := Any(own, NewFromCustomer(room, lastRead, lastDeleted));
    assert b ==> exists m :: m in messages && m.roomId == room.id && m.userId == room.customerId
                             && After(lastRead, m.createdAt) && After(lastDeleted, m.createdAt) by {
      if b {
        var i :| 0 <= i < |own| && NewFromCustomer(room, lastRead, lastDeleted)(own[i]);
        assert own[i] in own;
      }
    }
    assert (exists m :: m in messages && m.roomId == room.id && m.userId == room.customerId
                        && After(lastRead, m.createdAt) && After(lastDeleted, m.createdAt)) ==> b by {
      if exists m :: m in messages && m.roomId == room.id && m.userId == room.customerId
                     && After(lastRead, m.createdAt) && After(lastDeleted, m.createdAt) {
        var m :| m in messages && m.roomId == room.id && m.userId == room.customerId
                 && After(lastRead, m.createdAt) && After(lastDeleted, m.createdAt);
        assert m in own;
        var i :| 0 <= i < |own| && own[i] == m;
        assert NewFromCustomer(room, lastRead, lastDeleted)(own[i]);
      }
    }
    b
  }

  /** Reading at `now` clears the flag as long as no message is dated after `now`. */
  lemma ReadingClearsNewFlag(room: ChatRoom, messages: seq<Message>, now: DateTime, lastDeleted: Option<DateTime>)
    requires forall i :: 0 <= i < |messages| ==> AtOrBefore(messages[i].createdAt, now)
    ensures !HasNewMessage(room, messages, Some(now), lastDeleted)
  {
    forall m | m in messages ensures !After(Some(now), m.createdAt) {
      var i :| 0 <= i < |messages| && messages[i] == m;
    }
  }

  // ---------------------------------------------------------------------------
  // Warnings
  // ---------------------------------------------------------------------------

  /** The threshold of flagged messages at which an account is deactivated. */
  const WarningLimit: int := 5

  /** The sender after one flagged message: one more warning, deactivated and stamped at the limit. */
  function Warned(u: User, now: DateTime): (v: User)
    ensures v.warningCount == u.warningCount + 1
    ensures v.warningCount >= WarningLimit ==> !v.isActive && v.lockedAt == Some(now)
    ensures v.warningCount < WarningLimit ==> v.isActive == u.isActive && v.lockedAt == u.lockedAt
    ensures v.(warningCount := u.warningCount, isActive := u.isActive, lockedAt := u.lockedAt) == u
  {
    var c := u.warningCount + 1;
    if c >= WarningLimit then u.(warningCount := c, isActive := false, lockedAt := Some(now))
    else u.(warningCount := c)
  }

  /** An account after `n` flagged messages in a row. */
  function WarnedTimes(u: User, n: nat, now: DateTime): User
    decreases n
  {
    if n == 0 then u else Warned(WarnedTimes(u, n - 1, now), now)
  }

  /**
   * A clean, active account stays active through four flagged messages and
   * is deactivated by the fifth.
   */
  lemma {:induction false} FifthWarningLocks(u: User, n: nat, now: DateTime)
    requires u.warningCount == 0 && u.isActive
    ensures WarnedTimes(u, n, now).warningCount == n
    ensures WarnedTimes(u, n, now).isActive <==> n < WarningLimit
    ensures n >= WarningLimit ==> WarnedTimes(u, n, now).lockedAt == Some(now)
    decreases n
  {
    if n > 0 {
      FifthWarningLocks(u, n - 1, now);
    }
  }

  // ---------------------------------------------------------------------------
  // Posting a message
  // ---------------------------------------------------------------------------

  /** The three tables a chat message touches. */
  datatype ChatTables = ChatTables(users: seq<User>, rooms: seq<ChatRoom>, messages: seq<Message>)

  /** What `Send` answers; `Blocked` is the `ok = false` reply to a stored, flagged message. */
  datatype SendResult = NotSignedIn | AccountLocked | NoRoom | SendForbidden | Blocked | Sent

  datatype SendOutcome = SendOutcome(result: SendResult, tables: ChatTables)

  /**
   * Stores a message of account `i` in room `k` (flagged or not), warns the
   * sender when `warn`, and replaces the room by `room`, all in one save.
   */
  function Post(t: ChatTables, i: nat, k: nat, roomId: int, msg: string, bad: bool, warn: bool, room: ChatRoom, now: DateTime)
    : (r: ChatTables)
    requires i < |t.users| && k < |t.rooms|
    ensures r.messages == t.messages + [Message(roomId, t.users[i].id, msg, bad, now)]
    ensures r.users == if warn then t.users[i := Warned(t.users[i], now)] else t.users
    ensures r.rooms == t.rooms[k := room]
  {
    ChatTables(if warn then t.users[i := Warned(t.users[i], now)] else t.users, t.rooms[k := room],
               t.messages + [Message(roomId, t.users[i].id, msg, bad, now)])
  }

  /** A message is stored exactly when `Send` answers `Sent` or `Blocked`. */
  predicate Stored(r: SendResult) { r.Sent? || r.Blocked? }

  /**
   * `Send` of the admin chat. An inactive sender is refused; a non-admin may
   * only post in their own room; the message is stored even when flagged;
   * a flagged customer message warns the sender; posting shows the room
   * again to the other party.
   */
  function AdminChatSend(t: ChatTables, meId: Option<string>, isAdmin: bool, roomId: int, msg: string, bad: bool,
                         now: DateTime): (out: SendOutcome)
    ensures !Stored(out.result) ==> out.tables == t
    ensures Stored(out.result) ==>
      && meId.Some? && FindUserById(t.users, meId.value).Some? && FindRoom(t.rooms, roomId).Some?
      && var i := FindUserById(t.users, meId.value).value;
         var k := FindRoom(t.rooms, roomId).value;
         && t.users[i].isActive
         && (isAdmin || t.rooms[k].customerId == meId.value)
         && out.tables.messages == t.messages + [Message(roomId, meId.value, msg, bad, now)]
         && (out.result.Blocked? <==> bad)
         && out.tables.users == (if !isAdmin && bad then t.users[i := Warned(t.users[i], now)] else t.users)
         && out.tables.rooms == t.rooms[k := ShowFor(t.rooms[k], if isAdmin then CustomerSide else AdminSide)]
    ensures meId.Some? && FindUserById(t.users, meId.value).Some? && !t.users[FindUserById(t.users, meId.value).value].isActive
            ==> out.result == AccountLocked
  {
    if meId.None? then SendOutcome(NotSignedIn, t)
    else
      match FindUserById(t.users, meId.value)
      case None => SendOutcome(NotSignedIn, t)
      case Some(i) =>
        if !t.users[i].isActive then SendOutcome(AccountLocked, t)
        else
          match FindRoom(t.rooms, roomId)
          case None => SendOutcome(NoRoom, t)
          case Some(k) =>
            if !isAdmin && t.rooms[k].customerId != meId.value then SendOutcome(SendForbidden, t)
            else
              var other := if isAdmin then CustomerSide else AdminSide;
              SendOutcome(if bad then Blocked else Sent,
                          Post(t, i, k, roomId, msg, bad, !isAdmin && bad, ShowFor(t.rooms[k], other), now))
  }

  /** `Send`: follows `AdminChatSend` on the database. */
  method Send(db: AppDbContext, meId: Option<string>, isAdmin: bool, roomId: int, msg: string, bad: bool, now: DateTime)
    returns (r: SendResult)
    modifies db`users, db`chatRooms, db`messages
    ensures SendOutcome(r, ChatTables(db.users, db.chatRooms, db.messages))
         == AdminChatSend(ChatTables(old(db.users), old(db.chatRooms), old(db.messages)), meId, isAdmin, roomId, msg, bad, now)
  {
    if meId.None? {
      return NotSignedIn;
    }
    var me := FindUserById(db.users, meId.value);
    if me.None? {
      return NotSignedIn;
    }
    var i := me.value;
    if !db.users[i].isActive {
      return AccountLocked;
    }
    var room := FindRoom(db.chatRooms, roomId);
    if room.None? {
      return NoRoom;
    }
    var k := room.value;
    if !isAdmin && db.chatRooms[k].customerId != meId.value {
      return SendForbidden;
    }
    db.messages := db.messages + [Message(roomId, db.users[i].id, msg, bad, now)];
    if !isAdmin && bad {
      db.users := db.users[i := Warned(db.users[i], now)];
    }
    var other := if isAdmin then CustomerSide else AdminSide;
    db.chatRooms := db.chatRooms[k := ShowFor(db.chatRooms[k], other)];
    r := if bad then Blocked else Sent;
  }

  /** Rooms in the admin list: those the admins have not deleted. */
  predicate ShownToAdmin(room: ChatRoom) { !room.deletedByAdmin }

  /**
   * A customer's message brings a room the admins deleted back into their
   * list, and the admins see it unless they cleared the room at or after it.
   */
  lemma CustomerMessageReopensRoom(t: ChatTables, meId: Option<string>, roomId: int, msg: string, bad: bool, now: DateTime)
    requires Stored(AdminChatSend(t, meId, false, roomId, msg, bad, now).result)
    ensures var out := AdminChatSend(t, meId, false, roomId, msg, bad, now).tables;
      var k := FindRoom(t.rooms, roomId).value;
      && FindRoom(out.rooms, roomId) == Some(k)
      && ShownToAdmin(out.rooms[k])
      && (After(t.rooms[k].lastDeletedByAdmin, now) ==>
            Message(roomId, meId.value, msg, bad, now) in Visible(out.messages, roomId, out.rooms[k].lastDeletedByAdmin))
  {
    var out := AdminChatSend(t, meId, false, roomId, msg, bad, now).tables;
    var k := FindRoom(t.rooms, roomId).value;
    FindRoomAfterUpdate(t.rooms, k, ShowFor(t.rooms[k], AdminSide), roomId);
  }

  /** Replacing a room by one with the same id leaves every lookup by id as it was. */
  lemma {:induction false} FindRoomAfterUpdate(rooms: seq<ChatRoom>, k: nat, room: ChatRoom, id: int)
    requires k < |rooms| && room.id == rooms[k].id
    ensures FindRoom(rooms[k := room], id) == FindRoom(rooms, id)
  {
    var after := rooms[k := room];
    assert forall j :: 0 <= j < |rooms| ==> after[j].id == rooms[j].id;
  }

  // ---------------------------------------------------------------------------
  // Opening, listing, loading and deleting
  // ---------------------------------------------------------------------------

  function RoomId(r: ChatRoom): int { r.id }

  /** A room lookup that may create the room: the room and the ChatRooms table afterwards. */
  datatype RoomOutcome = RoomOutcome(room: ChatRoom, rooms: seq<ChatRoom>)

  /** The first room satisfying `p`, or a new room for (customer, staff) appended to the table. */
  function GetOrCreate(rooms: seq<ChatRoom>, p: ChatRoom -> bool, customerId: string, staffId: Option<string>,
                       now: DateTime): (out: RoomOutcome)
    ensures FirstIndex(rooms, p).Some? ==> out == RoomOutcome(rooms[FirstIndex(rooms, p).value], rooms)
    ensures FirstIndex(rooms, p).None? ==>
      out.rooms == rooms + [out.room] && out.room == NewRoom(NextId(rooms, RoomId), customerId, staffId, now)
      && forall i :: 0 <= i < |rooms| ==> rooms[i].id != out.room.id
  {
    match FirstIndex(rooms, p)
    case Some(k) => RoomOutcome(rooms[k], rooms)
    case None =>
      var room := NewRoom(NextId(rooms, RoomId), customerId, staffId, now);
      RoomOutcome(room, rooms + [room])
  }

  /**
   * Get-or-create is idempotent when the new room matches the lookup:
   * afterwards exactly one room matches if none did, and a second lookup,
   * at any time, returns the same room and creates nothing.
   */
  lemma GetOrCreateOnce(rooms: seq<ChatRoom>, p: ChatRoom -> bool, customerId: string, staffId: Option<string>,
                        now: DateTime, later: DateTime)
    requires p(NewRoom(NextId(rooms, RoomId), customerId, staffId, now))
    ensures var first := GetOrCreate(rooms, p, customerId, staffId, now);
      && p(first.room)
      && (Count(rooms, p) == 0 ==> Count(first.rooms, p) == 1)
      && GetOrCreate(first.rooms, p, customerId, staffId, later) == first
  {
    var first := GetOrCreate(rooms, p, customerId, staffId, now);
    if FirstIndex(rooms, p).None? {
      CountAppend(rooms, [first.room], p);
      assert first.rooms[|rooms|] == first.room;
      var again := FirstIndex(first.rooms, p);
      assert again.Some?;
      assert again.value == |rooms|;
    }
  }

  /** The admin chat's lookup of the customer's room: any room of that customer. */
  function CustomerIs(customerId: string): ChatRoom -> bool {
    (r: ChatRoom) => r.customerId == customerId
  }

  /**
   * Whether `SaveChangesAsync` can store the room. The StaffId column is
   * NOT NULL with an empty-string default for older rows, so a room whose
   * staff id was never set is refused.
   */
  predicate Storable(room: ChatRoom) { room.staffId.Some? }

  /** What `Customer()` answers. */
  datatype CustomerChatResult = CustomerUnauthorized | CustomerCrashed | CustomerOpened(room: ChatRoom)

  /** `Customer()` on the ChatRooms table: the answer and the table afterwards. */
  datatype CustomerChat = CustomerChat(result: CustomerChatResult, rooms: seq<ChatRoom>)

  /**
   * `Customer()`: the customer's first room of any kind. Without one, the
   * room it adds leaves StaffId unset, so saving it throws and the table
   * stays as it was.
   */
  function OpenAdminChat(rooms: seq<ChatRoom>, meId: Option<string>, now: DateTime): (out: CustomerChat)
    ensures out.rooms == rooms
    ensures out.result.CustomerUnauthorized? <==> meId.None?
    ensures out.result.CustomerCrashed? <==> meId.Some? && FirstIndex(rooms, CustomerIs(meId.value)).None?
    ensures out.result.CustomerOpened? ==>
      out.result.room == rooms[FirstIndex(rooms, CustomerIs(meId.value)).value] && out.result.room.customerId == meId.value
  {
    if meId.None? then CustomerChat(CustomerUnauthorized, rooms)
    else
      match FirstIndex(rooms, CustomerIs(meId.value))
      case Some(k) => CustomerChat(CustomerOpened(rooms[k]), rooms)
      case None => CustomerChat(CustomerCrashed, rooms)
  }

  /**
   * The discrepancy: the first time a customer opens the admin chat, the
   * room get-or-create would add cannot be stored, so the request throws
   * and the customer never gets an admin room.
   */
  lemma FirstAdminChatThrows(rooms: seq<ChatRoom>, customerId: string, now: DateTime, later: DateTime)
    requires forall i :: 0 <= i < |rooms| ==> rooms[i].customerId != customerId
    ensures !Storable(GetOrCreate(rooms, CustomerIs(customerId), customerId, None, now).room)
    ensures OpenAdminChat(rooms, Some(customerId), now) == CustomerChat(CustomerCrashed, rooms)
    ensures OpenAdminChat(rooms, Some(customerId), later) == CustomerChat(CustomerCrashed, rooms)
  {
    assert FirstIndex(rooms, CustomerIs(customerId)).None?;
  }

  /** `Customer()` as a request: the ChatRooms table follows `OpenAdminChat`. */
  method Customer(db: AppDbContext, meId: Option<string>, now: DateTime) returns (r: CustomerChatResult)
    modifies db`chatRooms
    ensures CustomerChat(r, db.chatRooms) == OpenAdminChat(old(db.chatRooms), meId, now)
  {
    if meId.None? {
      return CustomerUnauthorized;
    }
    var found := FirstIndex(db.chatRooms, CustomerIs(meId.value));
    if found.None? {
      return CustomerCrashed;
    }
    r := CustomerOpened(db.chatRooms[found.value]);
  }

  /**
   * The other discrepancy: a customer who has a conversation with a
   * restaurant's staff member and none with the admins opens the staff
   * conversation as their admin chat.
   */
  lemma CustomerOpensStaffRoom(rooms: seq<ChatRoom>, customerId: string, now: DateTime, k: nat)
    requires k < |rooms| && rooms[k].customerId == customerId && !IsAdminRoom(rooms[k])
    requires forall j :: 0 <= j < k ==> rooms[j].customerId != customerId
    ensures OpenAdminChat(rooms, Some(customerId), now) == CustomerChat(CustomerOpened(rooms[k]), rooms)
    ensures !IsAdminRoom(OpenAdminChat(rooms, Some(customerId), now).result.room)
  {
    assert FirstIndex(rooms, CustomerIs(customerId)) == Some(k);
  }

  /**
   * A room with no staff member: a null staff id in memory, or the empty
   * string the NOT NULL column stores (and gave the rooms that existed
   * before it was added).
   */
  predicate IsAdminRoom(room: ChatRoom) { room.staffId.None? || room.staffId == Some("") }

  /** The lookup the admin chat evidently means: the customer's room with no staff member. */
  function AdminRoomOf(customerId: string): ChatRoom -> bool {
    (r: ChatRoom) => r.customerId == customerId && IsAdminRoom(r)
  }

  /**
   * With the corrected lookup, and the new room stored with the empty staff
   * id, the customer always lands in a storable admin room of their own: an
   * existing one, old rooms included, is reused, and a new one is created at
   * most once.
   */
  lemma CustomerGetsAdminRoom(rooms: seq<ChatRoom>, customerId: string, now: DateTime, later: DateTime)
    requires forall i :: 0 <= i < |rooms| ==> Storable(rooms[i])
    ensures var out := GetOrCreate(rooms, AdminRoomOf(customerId), customerId, Some(""), now);
      && out.room.customerId == customerId && IsAdminRoom(out.room) && Storable(out.room)
      && (forall i :: 0 <= i < |out.rooms| ==> Storable(out.rooms[i]))
      && (FirstIndex(rooms, AdminRoomOf(customerId)).Some? ==> out.rooms == rooms)
      && GetOrCreate(out.rooms, AdminRoomOf(customerId), customerId, Some(""), later) == out
  {
    var out := GetOrCreate(rooms, AdminRoomOf(customerId), customerId, Some(""), now);
    GetOrCreateOnce(rooms, AdminRoomOf(customerId), customerId, Some(""), now, later);
    if FirstIndex(rooms, AdminRoomOf(customerId)).None? {
      assert out.room.staffId == Some("");
      assert out.rooms == rooms + [out.room];
    }
  }

  /** What the room pages answer. */
  datatype OpenResult = OpenUnauthorized | OpenForbidden | OpenNotFound | Opened(room: ChatRoom)

  /** `Admin(id)`: opening a room marks it read by the admins at `now`. */
  method Admin(db: AppDbContext, meId: Option<string>, isAdmin: bool, id: int, now: DateTime) returns (r: OpenResult)
    modifies db`chatRooms
    ensures r.OpenUnauthorized? <==> meId.None?
    ensures r.OpenForbidden? <==> meId.Some? && !isAdmin
    ensures r.OpenNotFound? <==> meId.Some? && isAdmin && FindRoom(old(db.chatRooms), id).None?
    ensures r.Opened? ==>
      var k := FindRoom(old(db.chatRooms), id).value;
      r.room == old(db.chatRooms)[k] && db.chatRooms == old(db.chatRooms)[k := old(db.chatRooms)[k].(lastReadByAdmin := Some(now))]
    ensures !r.Opened? ==> db.chatRooms == old(db.chatRooms)
  {
    if meId.None? {
      return OpenUnauthorized;
    }
    if !isAdmin {
      return OpenForbidden;
    }
    var found := FindRoom(db.chatRooms, id);
    if found.None? {
      return OpenNotFound;
    }
    var k := found.value;
    r := Opened(db.chatRooms[k]);
    db.chatRooms := db.chatRooms[k := db.chatRooms[k].(lastReadByAdmin := Some(now))];
  }

  /** What `Load` answers. */
  datatype LoadResult = LoadUnauthorized | LoadForbidden | Messages(messages: seq<Message>)

  /**
   * `Load` of the admin chat: an unknown room gives an empty list; a
   * non-admin may only load their own room; each side sees the messages
   * after its own last clearing.
   */
  function Load(rooms: seq<ChatRoom>, messages: seq<Message>, meId: Option<string>, isAdmin: bool, roomId: int)
    : (r: LoadResult)
    ensures r.LoadUnauthorized? <==> meId.None?
    ensures meId.Some? && FindRoom(rooms, roomId).None? ==> r == Messages([])
    ensures r.LoadForbidden? <==> meId.Some? && FindRoom(rooms, roomId).Some? && !isAdmin
                                  && rooms[FindRoom(rooms, roomId).value].customerId != meId.value
    ensures r.Messages? && FindRoom(rooms, roomId).Some? ==>
      var room := rooms[FindRoom(rooms, roomId).value];
      r.messages == Visible(messages, roomId, LastDeletedBy(room, if isAdmin then AdminSide else CustomerSide))
  {
    if meId.None? then LoadUnauthorized
    else
      match FindRoom(rooms, roomId)
      case None => Messages([])
      case Some(k) =>
        if !isAdmin && rooms[k].customerId != meId.value then LoadForbidden
        else
          var bound := if isAdmin then rooms[k].lastDeletedByAdmin else rooms[k].lastDeletedByCustomer;
          Messages(Visible(messages, roomId, bound))
  }

  /** One line of a room list: the room and its "new message" flag. */
  datatype RoomRow = RoomRow(room: ChatRoom, hasNew: bool)

  function AdminRows(rooms: seq<ChatRoom>, messages: seq<Message>): (rows: seq<RoomRow>)
    ensures |rows| == |rooms|
    ensures forall i :: 0 <= i < |rows| ==>
              rows[i].room == rooms[i]
              && rows[i].hasNew == HasNewMessage(rooms[i], messages, rooms[i].lastReadByAdmin, rooms[i].lastDeletedByAdmin)
    decreases |rooms|
  {
    if |rooms| == 0 then []
    else [RoomRow(rooms[0], HasNewMessage(rooms[0], messages, rooms[0].lastReadByAdmin, rooms[0].lastDeletedByAdmin))]
         + AdminRows(rooms[1..], messages)
  }

  /** What `Rooms()` answers: a throw, Forbid, or the list. */
  datatype RoomsResult = RoomsCrashed | RoomsForbidden | RoomList(rows: seq<RoomRow>)

  /**
   * `Rooms()`: the rooms the admins have not deleted, in table order, each
   * flagged when a customer message is newer than both the admins' read
   * mark and their last clearing. The role check runs on the signed-in
   * account with no null check, so a signed-out request throws.
   */
  function Rooms(rooms: seq<ChatRoom>, messages: seq<Message>, meId: Option<string>, isAdmin: bool): (r: RoomsResult)
    ensures r.RoomsCrashed? <==> meId.None?
    ensures r.RoomsForbidden? <==> meId.Some? && !isAdmin
    ensures r.RoomList? ==>
      && |r.rows| == |Where(rooms, ShownToAdmin)| == Count(rooms, ShownToAdmin)
      && forall i :: 0 <= i < |r.rows| ==> r.rows[i].room == Where(rooms, ShownToAdmin)[i]
    ensures r.RoomList? ==> forall row :: row in r.rows ==> row.room in rooms && ShownToAdmin(row.room)
    ensures r.RoomList? ==> forall room :: room in rooms && ShownToAdmin(room) ==> exists row :: row in r.rows && row.room == room
    ensures r.RoomList? ==> forall row :: row in r.rows ==>
      (row.hasNew <==> exists m :: m in messages && m.roomId == row.room.id && m.userId == row.room.customerId
                                   && After(row.room.lastReadByAdmin, m.createdAt) && After(row.room.lastDeletedByAdmin, m.createdAt))
  {
    if meId.None? then RoomsCrashed
    else if !isAdmin then RoomsForbidden
    else
      var shown := Where(rooms, ShownToAdmin);
      var rows := AdminRows(shown, messages);
      WhereCount(rooms, ShownToAdmin);
      forall room | room in rooms && ShownToAdmin(room) ensures exists row :: row in rows && row.room == room {
        var i :| 0 <= i < |shown| && shown[i] == room;
        assert rows[i] in rows;
      }
      RoomList(rows)
  }

  datatype DeleteChatResult = DeleteUnauthorized | DeleteNotFound | Deleted

  /**
   * `DeleteChat(id)` of the admin chat: hides the room for the caller's side
   * only. A non-admin caller hides it for the room's customer: the room need
   * not be theirs.
   */
  method DeleteChat(db: AppDbContext, meId: Option<string>, isAdmin: bool, id: int, now: DateTime) returns (r: DeleteChatResult)
    modifies db`chatRooms
    ensures r.DeleteUnauthorized? <==> meId.None?
    ensures r.DeleteNotFound? <==> meId.Some? && FindRoom(old(db.chatRooms), id).None?
    ensures r.Deleted? ==>
      var k := FindRoom(old(db.chatRooms), id).value;
      db.chatRooms == old(db.chatRooms)[k := HideFor(old(db.chatRooms)[k], if isAdmin then AdminSide else CustomerSide, now)]
    ensures !r.Deleted? ==> db.chatRooms == old(db.chatRooms)
  {
    if meId.None? {
      return DeleteUnauthorized;
    }
    var found := FindRoom(db.chatRooms, id);
    if found.None? {
      return DeleteNotFound;
    }
    var k := found.value;
    var side := if isAdmin then AdminSide else CustomerSide;
    db.chatRooms := db.chatRooms[k := HideFor(db.chatRooms[k], side, now)];
    r := Deleted;
  }

  /** After the admins delete a room it leaves their list, and its earlier messages leave their view. */
  lemma AdminDeleteHidesRoom(rooms: seq<ChatRoom>, messages: seq<Message>, k: nat, now: DateTime, m: Message)
    requires k < |rooms| && m in messages && m.roomId == rooms[k].id && AtOrBefore(m.createdAt, now)
    ensures var after := rooms[k := HideFor(rooms[k], AdminSide, now)];
      !ShownToAdmin(after[k]) && m !in Visible(messages, rooms[k].id, LastDeletedBy(after[k], AdminSide))
  {
  }
}
