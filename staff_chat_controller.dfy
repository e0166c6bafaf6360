/**
 * The customer-to-staff chat of Controllers/StaffChatController.cs: a room
 * per (customer, staff member of the restaurant), opened by the customer;
 * the staff member's room list and read marks; and sending, loading and
 * one-sided deleting, where every signed-in account that is not in the
 * Staff role acts as a customer. Role membership is the input set
 * `staffAccounts`.
 */
module StaffChatController {
  import opened Wrappers
  import opened Calendar
  import opened Tables
  import opened Entities
  import opened ChatController

  /** The side an account speaks for in this chat. */
  function SideOf(meId: string, staffAccounts: set<string>): Side {
    if meId in staffAccounts then StaffSide else CustomerSide
  }

  /** Whether the account may post in and load the room: its staff member, or its customer. */
  predicate Participant(room: ChatRoom, meId: string, staffAccounts: set<string>) {
    if meId in staffAccounts then room.staffId == Some(meId) else room.customerId == meId
  }

  // ---------------------------------------------------------------------------
  // CustomerChat
  // ---------------------------------------------------------------------------

  function LinkFor(restaurantId: int): StaffRestaurant -> bool {
    (l: StaffRestaurant) => l.restaurantId == restaurantId
  }

  /** The room of one customer with one staff member. */
  function RoomOf(customerId: string, staffId: string): ChatRoom -> bool {
    (r: ChatRoom) => r.customerId == customerId && r.staffId == Some(staffId)
  }

  /** What `CustomerChat` answers; `ChatCrashed` is a link whose account is missing. */
  datatype CustomerChatResult = ChatUnauthorized | NoStaff | ChatCrashed | NotStaff | StaffRoom(room: ChatRoom)

  datatype CustomerChatOutcome = CustomerChatOutcome(result: CustomerChatResult, rooms: seq<ChatRoom>)

  /**
   * `CustomerChat(restaurantId)`: the restaurant's first staff link names
   * the staff member, who must hold the Staff role; the customer's room
   * with them is found or created.
   */
  function OpenStaffChat(users: seq<User>, links: seq<StaffRestaurant>, rooms: seq<ChatRoom>, meId: Option<string>,
                         staffAccounts: set<string>, restaurantId: int, now: DateTime): (out: CustomerChatOutcome)
    ensures !out.result.StaffRoom? ==> out.rooms == rooms
    ensures out.result.NoStaff? <==> meId.Some? && FirstIndex(links, LinkFor(restaurantId)).None?
    ensures out.result.StaffRoom? ==>
      && meId.Some? && FirstIndex(links, LinkFor(restaurantId)).Some?
      && var staffId := links[FirstIndex(links, LinkFor(restaurantId)).value].userId;
         && staffId in staffAccounts && FindUserById(users, staffId).Some?
         && out.result.room.customerId == meId.value && out.result.room.staffId == Some(staffId)
         && out.rooms == GetOrCreate(rooms, RoomOf(meId.value, staffId), meId.value, Some(staffId), now).rooms
  {
    if meId.None? then CustomerChatOutcome(ChatUnauthorized, rooms)
    else
      match FirstIndex(links, LinkFor(restaurantId))
      case None => CustomerChatOutcome(NoStaff, rooms)
      case Some(l) =>
        var staffId := links[l].userId;
        if FindUserById(users, staffId).None? then CustomerChatOutcome(ChatCrashed, rooms)
        else if staffId !in staffAccounts then CustomerChatOutcome(NotStaff, rooms)
        else
          var out := GetOrCreate(rooms, RoomOf(meId.value, staffId), meId.value, Some(staffId), now);
          GetOrCreateOnce(rooms, RoomOf(meId.value, staffId), meId.value, Some(staffId), now, now);
          CustomerChatOutcome(StaffRoom(out.room), out.rooms)
  }

  /** `CustomerChat`: follows `OpenStaffChat` on the ChatRooms table. */
  method CustomerChat(db: AppDbContext, meId: Option<string>, staffAccounts: set<string>, restaurantId: int, now: DateTime)
    returns (r: CustomerChatResult)
    modifies db`chatRooms
    ensures CustomerChatOutcome(r, db.chatRooms)
         == OpenStaffChat(db.users, db.staffRestaurants, old(db.chatRooms), meId, staffAccounts, restaurantId, now)
  {
    if meId.None? {
      return ChatUnauthorized;
    }
    var l := FirstIndex(db.staffRestaurants, LinkFor(restaurantId));
    if l.None? {
      return NoStaff;
    }
    var staffId := db.staffRestaurants[l.value].userId;
    if FindUserById(db.users, staffId).None? {
      return ChatCrashed;
    }
    if staffId !in staffAccounts {
      return NotStaff;
    }
    var out := GetOrCreate(db.chatRooms, RoomOf(meId.value, staffId), meId.value, Some(staffId), now);
    db.chatRooms := out.rooms;
    r := StaffRoom(out.room);
  }

  /**
   * Opening the chat twice with the same restaurant lands in the same room,
   * and the second visit creates nothing.
   */
  lemma CustomerChatTwice(users: seq<User>, links: seq<StaffRestaurant>, rooms: seq<ChatRoom>, meId: Option<string>,
                          staffAccounts: set<string>, restaurantId: int, now: DateTime, later: DateTime)
    requires OpenStaffChat(users, links, rooms, meId, staffAccounts, restaurantId, now).result.StaffRoom?
    ensures var first := OpenStaffChat(users, links, rooms, meId, staffAccounts, restaurantId, now);
      OpenStaffChat(users, links, first.rooms, meId, staffAccounts, restaurantId, later) == first
  {
    var staffId := links[FirstIndex(links, LinkFor(restaurantId)).value].userId;
    GetOrCreateOnce(rooms, RoomOf(meId.value, staffId), meId.value, Some(staffId), now, later);
  }

  // ---------------------------------------------------------------------------
  // Staff
  // ---------------------------------------------------------------------------

  function StaffRoomId(id: int, staffId: string): ChatRoom -> bool {
    (r: ChatRoom) => r.id == id && r.staffId == Some(staffId)
  }

  /** `Staff(id)`: a staff member opens one of their own rooms, which marks it read by them at `now`. */
  method Staff(db: AppDbContext, meId: Option<string>, staffAccounts: set<string>, id: int, now: DateTime)
    returns (r: OpenResult)
    modifies db`chatRooms
    ensures r.OpenUnauthorized? <==> meId.None?
    ensures r.OpenForbidden? <==> meId.Some? && meId.value !in staffAccounts
    ensures r.OpenNotFound? <==>
      meId.Some? && meId.value in staffAccounts && FirstIndex(old(db.chatRooms), StaffRoomId(id, meId.value)).None?
    ensures r.Opened? ==>
      var k := FirstIndex(old(db.chatRooms), StaffRoomId(id, meId.value)).value;
      && r.room == old(db.chatRooms)[k] && r.room.staffId == Some(meId.value)
      && db.chatRooms == old(db.chatRooms)[k := old(db.chatRooms)[k].(lastReadByStaff := Some(now))]
    ensures !r.Opened? ==> db.chatRooms == old(db.chatRooms)
  {
    if meId.None? {
      return OpenUnauthorized;
    }
    if meId.value !in staffAccounts {
      return OpenForbidden;
    }
    var found := FirstIndex(db.chatRooms, StaffRoomId(id, meId.value));
    if found.None? {
      return OpenNotFound;
    }
    var k := found.value;
    r := Opened(db.chatRooms[k]);
    db.chatRooms := db.chatRooms[k := db.chatRooms[k].(lastReadByStaff := Some(now))];
  }

  // ---------------------------------------------------------------------------
  // Send
  // ---------------------------------------------------------------------------

  /**
   * `Send` of the staff chat: only the room's staff member or its customer
   * may post; a flagged customer message warns the sender; posting shows
   * the room again to the sender's own side, not to the other party.
   */
  function StaffChatSend(t: ChatTables, meId: Option<string>, staffAccounts: set<string>, roomId: int, msg: string,
                         bad: bool, now: DateTime): (out: SendOutcome)
    ensures !Stored(out.result) ==> out.tables == t
    ensures Stored(out.result) ==>
      && meId.Some? && FindUserById(t.users, meId.value).Some? && FindRoom(t.rooms, roomId).Some?
      && var i := FindUserById(t.users, meId.value).value;
         var k := FindRoom(t.rooms, roomId).value;
         && t.users[i].isActive
         && Participant(t.rooms[k], meId.value, staffAccounts)
         && out.tables.messages == t.messages + [Message(roomId, meId.value, msg, bad, now)]
         && (out.result.Blocked? <==> bad)
         && out.tables.users == (if meId.value !in staffAccounts && bad then t.users[i := Warned(t.users[i], now)] else t.users)
         && out.tables.rooms == t.rooms[k := ShowFor(t.rooms[k], SideOf(meId.value, staffAccounts))]
    ensures meId.Some? && FindUserById(t.users, meId.value).Some? && !t.users[FindUserById(t.users, meId.value).value].isActive
            ==> out.result == AccountLocked
  {
    if meId.None? then SendOutcome(NotSignedIn, t)
    else
      match FindUserById(t.users, meId.value)
      case None => SendOutcome(NotSignedIn, t)
      case Some(i) =>
        if !t.users[i].isActive then SendOutcome(AccountLocked, t)
        else
          match FindRoom(t.rooms, roomId)
          case None => SendOutcome(NoRoom, t)
          case Some(k) =>
            var isStaff := meId.value in staffAccounts;
            if isStaff && t.rooms[k].staffId != Some(meId.value) then SendOutcome(SendForbidden, t)
            else if !isStaff && t.rooms[k].customerId != meId.value then SendOutcome(SendForbidden, t)
            else
              SendOutcome(if bad then Blocked else Sent,
                          Post(t, i, k, roomId, msg, bad, !isStaff && bad, ShowFor(t.rooms[k], SideOf(meId.value, staffAccounts)), now))
  }

  /** `Send`: follows `StaffChatSend` on the database. */
  method Send(db: AppDbContext, meId: Option<string>, staffAccounts: set<string>, roomId: int, msg: string, bad: bool,
              now: DateTime) returns (r: SendResult)
    modifies db`users, db`chatRooms, db`messages
    ensures SendOutcome(r, ChatTables(db.users, db.chatRooms, db.messages))
         == StaffChatSend(ChatTables(old(db.users), old(db.chatRooms), old(db.messages)), meId, staffAccounts, roomId, msg, bad, now)
  {
    if meId.None? {
      return NotSignedIn;
    }
    var me := FindUserById(db.users, meId.value);
    if me.None? {
      return NotSignedIn;
    }
    var i := me.value;
    if !db.users[i].isActive {
      return AccountLocked;
    }
    var room := FindRoom(db.chatRooms, roomId);
    if room.None? {
      return NoRoom;
    }
    var k := room.value;
    var isStaff := meId.value in staffAccounts;
    if isStaff && db.chatRooms[k].staffId != Some(meId.value) {
      return SendForbidden;
    }
    if !isStaff && db.chatRooms[k].customerId != meId.value {
      return SendForbidden;
    }
    db.messages := db.messages + [Message(roomId, db.users[i].id, msg, bad, now)];
    if !isStaff && bad {
      db.users := db.users[i := Warned(db.users[i], now)];
    }
    db.chatRooms := db.chatRooms[k := ShowFor(db.chatRooms[k], SideOf(meId.value, staffAccounts))];
    r := if bad then Blocked else Sent;
  }

  /**
   * Unlike the admin chat, a customer's message does not bring back a room
   * the staff member deleted: it stays out of the staff member's list.
   */
  lemma CustomerMessageKeepsStaffDeletion(t: ChatTables, meId: Option<string>, staffAccounts: set<string>, roomId: int,
                                          msg: string, bad: bool, now: DateTime)
    requires meId.Some? && meId.value !in staffAccounts
    requires FindRoom(t.rooms, roomId).Some? && t.rooms[FindRoom(t.rooms, roomId).value].deletedByStaff
    requires Stored(StaffChatSend(t, meId, staffAccounts, roomId, msg, bad, now).result)
    ensures var out := StaffChatSend(t, meId, staffAccounts, roomId, msg, bad, now).tables;
      var k := FindRoom(t.rooms, roomId).value;
      out.rooms[k].deletedByStaff && !out.rooms[k].deletedByCustomer
  {
  }

  // ---------------------------------------------------------------------------
  // Load, StaffRooms, DeleteChat
  // ---------------------------------------------------------------------------

  /**
   * `Load` of the staff chat: an unknown room gives an empty list; only the
   * room's staff member or customer may load it; each sees the messages
   * after their own last clearing.
   */
  function Load(rooms: seq<ChatRoom>, messages: seq<Message>, meId: Option<string>, staffAccounts: set<string>, roomId: int)
    : (r: LoadResult)
    ensures r.LoadUnauthorized? <==> meId.None?
    ensures meId.Some? && FindRoom(rooms, roomId).None? ==> r == Messages([])
    ensures r.LoadForbidden? <==> meId.Some? && FindRoom(rooms, roomId).Some?
                                  && !Participant(rooms[FindRoom(rooms, roomId).value], meId.value, staffAccounts)
    ensures r.Messages? && FindRoom(rooms, roomId).Some? ==>
      var room := rooms[FindRoom(rooms, roomId).value];
      r.messages == Visible(messages, roomId, LastDeletedBy(room, SideOf(meId.value, staffAccounts)))
  {
    if meId.None? then LoadUnauthorized
    else
      match FindRoom(rooms, roomId)
      case None => Messages([])
      case Some(k) =>
        var isStaff := meId.value in staffAccounts;
        assert Participant(rooms[k], meId.value, staffAccounts)
           <==> !(isStaff && rooms[k].staffId != Some(meId.value)) && !(!isStaff && rooms[k].customerId != meId.value);
        if isStaff && rooms[k].staffId != Some(meId.value) then LoadForbidden
        else if !isStaff && rooms[k].customerId != meId.value then LoadForbidden
        else
          var bound := if isStaff then rooms[k].lastDeletedByStaff else rooms[k].lastDeletedByCustomer;
          assert bound == LastDeletedBy(rooms[k], SideOf(meId.value, staffAccounts));
          Messages(Visible(messages, roomId, bound))
  }

  /** Rooms in a staff member's list: theirs and not deleted by them. */
  function ShownToStaff(staffId: string): ChatRoom -> bool {
    (r: ChatRoom) => r.staffId == Some(staffId) && !r.deletedByStaff
  }

  function StaffRows(rooms: seq<ChatRoom>, messages: seq<Message>): (rows: seq<RoomRow>)
    ensures |rows| == |rooms|
    ensures forall i :: 0 <= i < |rows| ==>
              rows[i].room == rooms[i]
              && rows[i].hasNew == HasNewMessage(rooms[i], messages, rooms[i].lastReadByStaff, rooms[i].lastDeletedByStaff)
    decreases |rooms|
  {
    if |rooms| == 0 then []
    else [RoomRow(rooms[0], HasNewMessage(rooms[0], messages, rooms[0].lastReadByStaff, rooms[0].lastDeletedByStaff))]
         + StaffRows(rooms[1..], messages)
  }

  /**
   * `StaffRooms()`: a staff member's rooms they have not deleted, each
   * flagged when a customer message is newer than both their read mark and
   * their last clearing. `None` is the Forbid answer.
   */
  function StaffRooms(rooms: seq<ChatRoom>, messages: seq<Message>, meId: Option<string>, staffAccounts: set<string>)
    : (r: Option<seq<RoomRow>>)
    ensures r.None? <==> meId.None? || meId.value !in staffAccounts
    ensures r.Some? ==> && |r.value| == |Where(rooms, ShownToStaff(meId.value))| == Count(rooms, ShownToStaff(meId.value))
                        && forall i :: 0 <= i < |r.value| ==> r.value[i].room == Where(rooms, ShownToStaff(meId.value))[i]
    ensures r.Some? ==> forall row :: row in r.value ==> row.room in rooms && ShownToStaff(meId.value)(row.room)
    ensures r.Some? ==> forall room :: room in rooms && ShownToStaff(meId.value)(room) ==>
                          exists row :: row in r.value && row.room == room
    ensures r.Some? ==> forall row :: row in r.value ==>
      (row.hasNew <==> exists m :: m in messages && m.roomId == row.room.id && m.userId == row.room.customerId
                                   && After(row.room.lastReadByStaff, m.createdAt) && After(row.room.lastDeletedByStaff, m.createdAt))
  {
    if meId.None? || meId.value !in staffAccounts then None
    else
      var shown := Where(rooms, ShownToStaff(meId.value));
      var rows := StaffRows(shown, messages);
      WhereCount(rooms, ShownToStaff(meId.value));
      forall room | room in rooms && ShownToStaff(meId.value)(room) ensures exists row :: row in rows && row.room == room {
        var i :| 0 <= i < |shown| && shown[i] == room;
        assert rows[i] in rows;
      }
      Some(rows)
  }

  /**
   * `DeleteChat(id)` of the staff chat: hides the room for the caller's
   * side only, whether or not the caller takes part in it.
   */
  method DeleteChat(db: AppDbContext, meId: Option<string>, staffAccounts: set<string>, id: int, now: DateTime)
    returns (r: DeleteChatResult)
    modifies db`chatRooms
    ensures r.DeleteUnauthorized? <==> meId.None?
    ensures r.DeleteNotFound? <==> meId.Some? && FindRoom(old(db.chatRooms), id).None?
    ensures r.Deleted? ==>
      var k := FindRoom(old(db.chatRooms), id).value;
      db.chatRooms == old(db.chatRooms)[k := HideFor(old(db.chatRooms)[k], SideOf(meId.value, staffAccounts), now)]
    ensures !r.Deleted? ==> db.chatRooms == old(db.chatRooms)
  {
    if meId.None? {
      return DeleteUnauthorized;
    }
    var found := FindRoom(db.chatRooms, id);
    if found.None? {
      return DeleteNotFound;
    }
    var k := found.value;
    db.chatRooms := db.chatRooms[k := HideFor(db.chatRooms[k], SideOf(meId.value, staffAccounts), now)];
    r := Deleted;
  }

  /**
   * A staff member deleting a room hides it from their list and hides its
   * earlier messages from them, while the customer's view is untouched.
   */
  lemma StaffDeleteIsOneSided(rooms: seq<ChatRoom>, messages: seq<Message>, k: nat, staffId: string, now: DateTime, m: Message)
    requires k < |rooms| && m in messages && m.roomId == rooms[k].id && AtOrBefore(m.createdAt, now)
    ensures var after := HideFor(rooms[k], StaffSide, now);
      && !ShownToStaff(staffId)(after)
      && m !in Visible(messages, rooms[k].id, LastDeletedBy(after, StaffSide))
      && Visible(messages, rooms[k].id, LastDeletedBy(after, CustomerSide))
         == Visible(messages, rooms[k].id, LastDeletedBy(rooms[k], CustomerSide))
  {
  }
}
