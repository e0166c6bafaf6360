/**
 * The marketplace's records (the entity classes under Models/) as values,
 * and the database context whose tables the request handlers update.
 * Navigation properties are left out; a row refers to another by its id.
 */
module Entities {
  import opened Wrappers
  import opened Calendar
  import opened Tables

  /** Life cycle of a staff bill. */
  datatype BillingStatus = Unpaid | Pending | Accepted | Rejected

  /**
   * A staff member's fee for one calendar month. `isPaid` is the older
   * flag the entity class still declares next to `status`.
   */
  datatype StaffBilling = StaffBilling(
    id: int,
    userId: string,
    month: DateTime,
    managedRestaurantCount: int,
    restaurantFee: real,
    reservationCount: int,
    reservationFee: real,
    totalFee: real,
    isPaid: bool,
    status: BillingStatus)

  /** One line of a food order; `price` is the menu price when ordered. */
  datatype OrderItem = OrderItem(menuItemId: int, quantity: int, price: real)

  datatype Order = Order(
    id: int,
    userId: string,
    restaurantId: int,
    totalAmount: real,
    adminCommission: real,
    status: string,
    paymentMethod: Option<string>,
    createdAt: DateTime,
    items: seq<OrderItem>)

  datatype MenuItem = MenuItem(
    id: int,
    restaurantId: int,
    name: string,
    description: string,
    price: real,
    imageUrl: Option<string>,
    category: string)

  datatype Restaurant = Restaurant(
    id: int,
    name: string,
    address: string,
    city: string,
    phone: string,
    description: string,
    openHours: string,
    imageUrl: string,
    cuisineType: string,
    averagePrice: real,
    isApproved: bool)

  datatype Reservation = Reservation(
    id: int,
    userId: Option<string>,
    restaurantId: int,
    reservationDate: DateTime,
    numberOfGuests: int,
    status: string,
    note: Option<string>,
    contactPhone: Option<string>)

  datatype Review = Review(id: int, userId: Option<string>, restaurantId: int, rating: int)

  /** A staff member manages a restaurant. */
  datatype StaffRestaurant = StaffRestaurant(userId: string, restaurantId: int)

  datatype FavoriteRestaurant = FavoriteRestaurant(userId: string, restaurantId: int)

  /** An account; the identity fields the handlers read or write. */
  datatype User = User(
    id: string,
    userName: string,
    email: Option<string>,
    fullName: Option<string>,
    isActive: bool,
    isPremium: bool,
    premiumExpireDate: Option<DateTime>,
    lockoutEnabled: bool,
    lockoutEnd: Option<DateTime>,
    lockedByAdminId: Option<string>,
    warningCount: int,
    lockedAt: Option<DateTime>)

  /**
   * A conversation of a customer with the admins (`staffId` absent in
   * memory; the NOT NULL column stores it as the empty string) or with
   * one staff member. Each side has its own "deleted" flag and the time it
   * last cleared the conversation; admins and staff also record when they
   * last read it.
   */
  datatype ChatRoom = ChatRoom(
    id: int,
    customerId: string,
    staffId: Option<string>,
    deletedByCustomer: bool,
    deletedByAdmin: bool,
    deletedByStaff: bool,
    lastDeletedByCustomer: Option<DateTime>,
    lastDeletedByAdmin: Option<DateTime>,
    lastDeletedByStaff: Option<DateTime>,
    lastReadByAdmin: Option<DateTime>,
    lastReadByStaff: Option<DateTime>,
    createdAt: DateTime)

  datatype Message = Message(roomId: int, userId: string, content: string, isBlocked: bool, createdAt: DateTime)

  /** A system notification; its text is not modelled. */
  datatype Notification = Notification(userId: string, createdAt: DateTime)

  datatype UserLog = UserLog(userId: Option<string>, action: string, description: string, timestamp: DateTime)

  datatype AIRecommendation = AIRecommendation(userId: Option<string>, restaurantId: int)

  /** An uploaded file: its length and the name it is stored under (a fresh GUID plus the file's extension). */
  datatype Upload = Upload(length: int, storedName: string)

  /** The premium package; every field has the default the entity class declares. */
  datatype PremiumPackage = PremiumPackage(name: string, description: string, amount: real, durationInDays: int, orderType: string)

  const DefaultPremiumPackage: PremiumPackage :=
    PremiumPackage("Gói Premium 30 ngày", "Trải nghiệm đầy đủ tính năng Premium.", 100000.0, 30, "premium")

  /** A new room as the chat handlers create it: nothing deleted or read yet. */
  function NewRoom(id: int, customerId: string, staffId: Option<string>, now: DateTime): (r: ChatRoom)
    ensures r.id == id && r.customerId == customerId && r.staffId == staffId && r.createdAt == now
    ensures !r.deletedByCustomer && !r.deletedByAdmin && !r.deletedByStaff
    ensures r.lastDeletedByCustomer.None? && r.lastDeletedByAdmin.None? && r.lastDeletedByStaff.None?
    ensures r.lastReadByAdmin.None? && r.lastReadByStaff.None?
  {
    ChatRoom(id, customerId, staffId, false, false, false, None, None, None, None, None, now)
  }

  /** The database context: one sequence per table, in enumeration order. */
  class AppDbContext {
    var users: seq<User>
    var restaurants: seq<Restaurant>
    var staffRestaurants: seq<StaffRestaurant>
    var reservations: seq<Reservation>
    var reviews: seq<Review>
    var menuItems: seq<MenuItem>
    var orders: seq<Order>
    var staffBillings: seq<StaffBilling>
    var notifications: seq<Notification>
    var userLogs: seq<UserLog>
    var aiRecommendations: seq<AIRecommendation>
    var favoriteRestaurants: seq<FavoriteRestaurant>
    var chatRooms: seq<ChatRoom>
    var messages: seq<Message>

    constructor()
      ensures users == [] && restaurants == [] && staffRestaurants == [] && reservations == []
      ensures reviews == [] && menuItems == [] && orders == [] && staffBillings == []
      ensures notifications == [] && userLogs == [] && aiRecommendations == []
      ensures favoriteRestaurants == [] && chatRooms == [] && messages == []
    {
      users := [];
      restaurants := [];
      staffRestaurants := [];
      reservations := [];
      reviews := [];
      menuItems := [];
      orders := [];
      staffBillings := [];
      notifications := [];
      userLogs := [];
      aiRecommendations := [];
      favoriteRestaurants := [];
      chatRooms := [];
      messages := [];
    }
  }

  /** The staff ids linked to a restaurant, in link order. */
  function StaffOf(links: seq<StaffRestaurant>, restaurantId: int): (ids: seq<string>)
    ensures |ids| <= |links|
    ensures forall u :: u in ids <==> StaffRestaurant(u, restaurantId) in links
    decreases |links|
  {
    if |links| == 0 then []
    else
      var rest := StaffOf(links[1..], restaurantId);
      assert forall u :: StaffRestaurant(u, restaurantId) in links <==>
        (links[0] == StaffRestaurant(u, restaurantId) || StaffRestaurant(u, restaurantId) in links[1..]);
      if links[0].restaurantId == restaurantId then [links[0].userId] + rest else rest
  }

  /** The restaurant ids a staff member manages, in link order. */
  function RestaurantsOf(links: seq<StaffRestaurant>, staffId: string): (ids: seq<int>)
    ensures |ids| <= |links|
    ensures forall r :: r in ids <==> StaffRestaurant(staffId, r) in links
    decreases |links|
  {
    if |links| == 0 then []
    else
      var rest := RestaurantsOf(links[1..], staffId);
      assert forall r :: StaffRestaurant(staffId, r) in links <==>
        (links[0] == StaffRestaurant(staffId, r) || StaffRestaurant(staffId, r) in links[1..]);
      if links[0].userId == staffId then [links[0].restaurantId] + rest else rest
  }

  /** One notification per recipient, in order, all stamped `now`. */
  function NotificationsFor(recipients: seq<string>, now: DateTime): (ns: seq<Notification>)
    ensures |ns| == |recipients|
    ensures forall i :: 0 <= i < |ns| ==> ns[i] == Notification(recipients[i], now)
    decreases |recipients|
  {
    if |recipients| == 0 then []
    else [Notification(recipients[0], now)] + NotificationsFor(recipients[1..], now)
  }

  lemma NotificationsForSnoc(recipients: seq<string>, u: string, now: DateTime)
    ensures NotificationsFor(recipients + [u], now) == NotificationsFor(recipients, now) + [Notification(u, now)]
  {
  }

  lemma {:induction false} NotificationsForAppend(a: seq<string>, b: seq<string>, now: DateTime)
    ensures NotificationsFor(a + b, now) == NotificationsFor(a, now) + NotificationsFor(b, now)
    decreases |a|
  {
    if |a| > 0 {
      assert (a + b)[1..] == a[1..] + b;
      NotificationsForAppend(a[1..], b, now);
    } else {
      assert a + b == b;
    }
  }

  /**
   * Appends one notification per recipient, persisting each in turn
   * (the `foreach ... SaveNotification` loop of the handlers).
   */
  method NotifyAll(db: AppDbContext, recipients: seq<string>, now: DateTime)
    modifies db`notifications
    ensures db.notifications == old(db.notifications) + NotificationsFor(recipients, now)
  {
    var i := 0;
    while i < |recipients|
      invariant 0 <= i <= |recipients|
      invariant db.notifications == old(db.notifications) + NotificationsFor(recipients[..i], now)
    {
      assert recipients[..i + 1] == recipients[..i] + [recipients[i]];
      NotificationsForSnoc(recipients[..i], recipients[i], now);
      db.notifications := db.notifications + [Notification(recipients[i], now)];
      i := i + 1;
    }
    assert recipients[..i] == recipients;
  }

  /** ASP.NET Identity's default lookup normalizer, `ToUpperInvariant`, on the letters a to z. */
  function UpperLetter(c: char): char {
    if 'a' <= c <= 'z' then (c as int - 'a' as int + 'A' as int) as char else c
  }

  /** The normalized form under which Identity stores and looks up user names. */
  function NormalizeName(name: string): (n: string)
    ensures |n| == |name|
    ensures forall i :: 0 <= i < |name| ==> n[i] == UpperLetter(name[i])
  {
    seq(|name|, i requires 0 <= i < |name| => UpperLetter(name[i]))
  }

  /** Normalizing twice is normalizing once. */
  lemma NormalizeNameIdempotent(name: string)
    ensures NormalizeName(NormalizeName(name)) == NormalizeName(name)
  {
    var n := NormalizeName(name);
    forall i | 0 <= i < |name| ensures UpperLetter(n[i]) == n[i] {
    }
  }

  /** `FindByNameAsync`: the first account whose normalized user name is the normalized `userName`. */
  function FindUserByName(users: seq<User>, userName: string): (r: Option<nat>)
    ensures r.Some? ==> r.value < |users| && NormalizeName(users[r.value].userName) == NormalizeName(userName)
    ensures r.Some? ==> forall j :: 0 <= j < r.value ==> NormalizeName(users[j].userName) != NormalizeName(userName)
    ensures r.None? <==> forall i :: 0 <= i < |users| ==> NormalizeName(users[i].userName) != NormalizeName(userName)
  {
    FirstIndex(users, (u: User) => NormalizeName(u.userName) == NormalizeName(userName))
  }

  /** A user name is found whatever the case of its letters a to z: the lookup sees only the normalized name. */
  lemma FindUserByNameIgnoresCase(users: seq<User>, userName: string)
    ensures FindUserByName(users, userName) == FindUserByName(users, NormalizeName(userName))
  {
    NormalizeNameIdempotent(userName);
    assert ((u: User) => NormalizeName(u.userName) == NormalizeName(userName))
        == ((u: User) => NormalizeName(u.userName) == NormalizeName(NormalizeName(userName)));
  }

  /** `FindByIdAsync`: the account with that id. */
  function FindUserById(users: seq<User>, id: string): (r: Option<nat>)
    ensures r.Some? ==> r.value < |users| && users[r.value].id == id
    ensures r.None? <==> forall i :: 0 <= i < |users| ==> users[i].id != id
  {
    FirstIndex(users, (u: User) => u.id == id)
  }

  /** `StaffBillings.FindAsync(id)`. */
  function FindBill(bills: seq<StaffBilling>, id: int): (r: Option<nat>)
    ensures r.Some? ==> r.value < |bills| && bills[r.value].id == id
    ensures r.None? <==> forall i :: 0 <= i < |bills| ==> bills[i].id != id
  {
    FirstIndex(bills, (b: StaffBilling) => b.id == id)
  }

  /** `Orders.FindAsync(id)` / `FirstOrDefaultAsync(o => o.Id == id)`. */
  function FindOrder(orders: seq<Order>, id: int): (r: Option<nat>)
    ensures r.Some? ==> r.value < |orders| && orders[r.value].id == id
    ensures r.None? <==> forall i :: 0 <= i < |orders| ==> orders[i].id != id
  {
    FirstIndex(orders, (o: Order) => o.id == id)
  }

  /** `MenuItems.FindAsync(id)`. */
  function FindMenuItem(items: seq<MenuItem>, id: int): (r: Option<nat>)
    ensures r.Some? ==> r.value < |items| && items[r.value].id == id
    ensures r.None? <==> forall i :: 0 <= i < |items| ==> items[i].id != id
  {
    FirstIndex(items, (m: MenuItem) => m.id == id)
  }

  /** `Restaurants.FindAsync(id)`. */
  function FindRestaurant(restaurants: seq<Restaurant>, id: int): (r: Option<nat>)
    ensures r.Some? ==> r.value < |restaurants| && restaurants[r.value].id == id
    ensures r.None? <==> forall i :: 0 <= i < |restaurants| ==> restaurants[i].id != id
  {
    FirstIndex(restaurants, (x: Restaurant) => x.id == id)
  }

  /** `Reservations.FirstOrDefaultAsync(r => r.Id == id)`. */
  function FindReservation(reservations: seq<Reservation>, id: int): (r: Option<nat>)
    ensures r.Some? ==> r.value < |reservations| && reservations[r.value].id == id
    ensures r.None? <==> forall i :: 0 <= i < |reservations| ==> reservations[i].id != id
  {
    FirstIndex(reservations, (x: Reservation) => x.id == id)
  }

  /** `ChatRooms.FirstOrDefaultAsync(r => r.Id == id)`. */
  function FindRoom(rooms: seq<ChatRoom>, id: int): (r: Option<nat>)
    ensures r.Some? ==> r.value < |rooms| && rooms[r.value].id == id
    ensures r.None? <==> forall i :: 0 <= i < |rooms| ==> rooms[i].id != id
  {
    FirstIndex(rooms, (x: ChatRoom) => x.id == id)
  }
}
