/**
 * The admin side of Controllers/AdminController.cs: account locks, the
 * cascades that delete an account or a restaurant, restaurant approval, and
 * the staff-billing ledger (bill generation and the accept / reject
 * decision on a staff member's latest bill).
 */
module AdminController {
  import opened Wrappers
  import opened Calendar
  import opened Tables
  import opened Entities
  import opened BillingService

  // ---------------------------------------------------------------------------
  // Account locks
  // ---------------------------------------------------------------------------

  /** Identity's lockout test: locked while the lockout end lies after `now`. */
  predicate IsLocked(u: User, now: DateTime) {
    u.lockoutEnd.Some? && Before(now, u.lockoutEnd.value)
  }

  /**
   * The account after `ToggleLock` by `adminId` (lines 125-138): an unlocked
   * account is locked for a hundred years and remembers its admin; a locked
   * one has both cleared.
   */
  function Toggled(u: User, adminId: string, now: DateTime): (v: User)
    requires Valid(now)
    ensures IsLocked(v, now) <==> !IsLocked(u, now)
    ensures !IsLocked(u, now) ==>
      v.lockoutEnabled && v.lockoutEnd == Some(AddYears(now, 100)) && v.lockedByAdminId == Some(adminId)
    ensures IsLocked(u, now) ==> v.lockoutEnd.None? && v.lockedByAdminId.None? && v.lockoutEnabled == u.lockoutEnabled
    ensures v.(lockoutEnabled := u.lockoutEnabled, lockoutEnd := u.lockoutEnd, lockedByAdminId := u.lockedByAdminId) == u
  {
    if u.lockoutEnd.None? || AtOrBefore(u.lockoutEnd.value, now) then
      u.(lockoutEnabled := true, lockoutEnd := Some(AddYears(now, 100)), lockedByAdminId := Some(adminId))
    else
      u.(lockoutEnd := None, lockedByAdminId := None)
  }

  /** Toggling an unlocked account twice leaves it unlocked, with no lockout end and no admin recorded. */
  lemma ToggleTwiceUnlocks(u: User, first: string, second: string, now: DateTime)
    requires Valid(now) && !IsLocked(u, now)
    ensures var v := Toggled(Toggled(u, first, now), second, now);
      !IsLocked(v, now) && v.lockoutEnd.None? && v.lockedByAdminId.None? && v.lockoutEnabled
  {
  }

  /** A lock set at `now` still holds one day later. */
  lemma LockOutlastsTheDay(u: User, adminId: string, now: DateTime)
    requires Valid(now) && !IsLocked(u, now)
    ensures IsLocked(Toggled(u, adminId, now), AddDays(now, 1))
  {
    var later := AddDays(now, 1);
    var end := AddYears(now, 100);
    assert later == NextDay(now);
    assert later.year <= now.year + 1;
  }

  datatype LockResult = LockNotFound | LockForbidden | Toggle

  /** `ToggleLock(id)`: `admin` is the signed-in admin's id, if the session resolves to one. */
  method ToggleLock(db: AppDbContext, id: string, admin: Option<string>, now: DateTime) returns (r: LockResult)
    requires Valid(now)
    modifies db`users
    ensures r == LockNotFound <==> |id| == 0 || FindUserById(old(db.users), id).None?
    ensures r == LockForbidden <==> r != LockNotFound && admin.None?
    ensures r != Toggle ==> db.users == old(db.users)
    ensures r == Toggle ==>
      var k := FindUserById(old(db.users), id).value;
      db.users == old(db.users)[k := Toggled(old(db.users)[k], admin.value, now)]
  {
    if |id| == 0 {
      return LockNotFound;
    }
    var found := FindUserById(db.users, id);
    if found.None? {
      return LockNotFound;
    }
    if admin.None? {
      return LockForbidden;
    }
    var k := found.value;
    var user := db.users[k];
    if user.lockoutEnd.None? || AtOrBefore(user.lockoutEnd.value, now) {
      user := user.(lockoutEnabled := true);
      user := user.(lockoutEnd := Some(AddYears(now, 100)));
      user := user.(lockedByAdminId := admin);
    } else {
      user := user.(lockoutEnd := None);
      user := user.(lockedByAdminId := None);
    }
    db.users := db.users[k := user];
    r := Toggle;
  }

  // ---------------------------------------------------------------------------
  // Cascading deletes
  // ---------------------------------------------------------------------------

  datatype DeleteResult = DeleteNotFound | DeleteFailed | Deleted

  /** The account list without position `k`. */
  function Without<T>(s: seq<T>, k: nat): (r: seq<T>)
    requires k < |s|
    ensures |r| == |s| - 1
    ensures forall i :: 0 <= i < k ==> r[i] == s[i]
    ensures forall i :: k <= i < |r| ==> r[i] == s[i + 1]
  {
    s[..k] + s[k + 1..]
  }

  /** The rows of the account `id` that `Delete` removes, table by table. */
  function ReservationBy(id: string): Reservation -> bool { (x: Reservation) => x.userId == Some(id) }
  function ReviewBy(id: string): Review -> bool { (x: Review) => x.userId == Some(id) }
  function NotificationTo(id: string): Notification -> bool { (x: Notification) => x.userId == id }
  function LogBy(id: string): UserLog -> bool { (x: UserLog) => x.userId == Some(id) }
  function RecommendationFor(id: string): AIRecommendation -> bool { (x: AIRecommendation) => x.userId == Some(id) }
  function LinkOf(id: string): StaffRestaurant -> bool { (l: StaffRestaurant) => l.userId == id }

  /**
   * `Delete(id)`: the user's reservations, reviews, notifications, logs and
   * AI recommendations are removed and saved first; then the identity store
   * deletes the account, which may fail (`deleteSucceeds`), leaving the
   * cascade in place. Deleting the account row also deletes its staff links,
   * whose foreign key to the account cascades in the database.
   */
  method Delete(db: AppDbContext, id: string, deleteSucceeds: bool) returns (r: DeleteResult)
    modifies db`users, db`reservations, db`reviews, db`notifications, db`userLogs, db`aiRecommendations, db`staffRestaurants
    ensures r == DeleteNotFound <==> |id| == 0 || FindUserById(old(db.users), id).None?
    ensures r == DeleteNotFound ==>
      db.users == old(db.users) && db.reservations == old(db.reservations) && db.reviews == old(db.reviews)
      && db.notifications == old(db.notifications) && db.userLogs == old(db.userLogs)
      && db.aiRecommendations == old(db.aiRecommendations)
    ensures r != DeleteNotFound ==>
      db.reservations == RemoveWhere(old(db.reservations), ReservationBy(id))
      && db.reviews == RemoveWhere(old(db.reviews), ReviewBy(id))
      && db.notifications == RemoveWhere(old(db.notifications), NotificationTo(id))
      && db.userLogs == RemoveWhere(old(db.userLogs), LogBy(id))
      && db.aiRecommendations == RemoveWhere(old(db.aiRecommendations), RecommendationFor(id))
    ensures r == DeleteFailed <==> r != DeleteNotFound && !deleteSucceeds
    ensures r == DeleteFailed ==> db.users == old(db.users)
    ensures r == Deleted ==> db.users == Without(old(db.users), FindUserById(old(db.users), id).value)
    ensures r != Deleted ==> db.staffRestaurants == old(db.staffRestaurants)
    ensures r == Deleted ==> db.staffRestaurants == RemoveWhere(old(db.staffRestaurants), LinkOf(id))
  {
    if |id| == 0 {
      return DeleteNotFound;
    }
    var found := FindUserById(db.users, id);
    if found.None? {
      return DeleteNotFound;
    }
    RemoveUserRows(db, id);
    if !deleteSucceeds {
      return DeleteFailed;
    }
    RemoveAccount(db, found.value, id);
    r := Deleted;
  }

  /** The first step of `Delete`: the user's reservations, reviews, notifications, logs and recommendations go. */
  method RemoveUserRows(db: AppDbContext, id: string)
    modifies db`reservations, db`reviews, db`notifications, db`userLogs, db`aiRecommendations
    ensures db.reservations == RemoveWhere(old(db.reservations), ReservationBy(id))
    ensures db.reviews == RemoveWhere(old(db.reviews), ReviewBy(id))
    ensures db.notifications == RemoveWhere(old(db.notifications), NotificationTo(id))
    ensures db.userLogs == RemoveWhere(old(db.userLogs), LogBy(id))
    ensures db.aiRecommendations == RemoveWhere(old(db.aiRecommendations), RecommendationFor(id))
  {
    db.reservations := RemoveWhere(db.reservations, ReservationBy(id));
    db.reviews := RemoveWhere(db.reviews, ReviewBy(id));
    db.notifications := RemoveWhere(db.notifications, NotificationTo(id));
    db.userLogs := RemoveWhere(db.userLogs, LogBy(id));
    db.aiRecommendations := RemoveWhere(db.aiRecommendations, RecommendationFor(id));
  }

  /** `UserManager.DeleteAsync`: the account row goes, and its staff links with it through the cascading foreign key. */
  method RemoveAccount(db: AppDbContext, k: nat, id: string)
    requires k < |db.users|
    modifies db`users, db`staffRestaurants
    ensures db.users == Without(old(db.users), k)
    ensures db.staffRestaurants == RemoveWhere(old(db.staffRestaurants), LinkOf(id))
  {
    db.users := Without(db.users, k);
    db.staffRestaurants := RemoveWhere(db.staffRestaurants, LinkOf(id));
  }

  /** After the cascade none of the user's rows is left in the five tables, and no other row is lost. */
  lemma DeleteLeavesNoTrace(reservations: seq<Reservation>, notifications: seq<Notification>, id: string)
    ensures forall x :: x in RemoveWhere(reservations, ReservationBy(id)) <==>
      x in reservations && x.userId != Some(id)
    ensures |RemoveWhere(notifications, NotificationTo(id))|
      == |notifications| - Count(notifications, NotificationTo(id))
  {
  }

  /**
   * Once the account is deleted no restaurant lists it as staff any more, so
   * no later notification goes to it; every other account keeps its links.
   */
  lemma DeletedAccountLeavesStaff(links: seq<StaffRestaurant>, id: string)
    ensures var after := RemoveWhere(links, LinkOf(id));
      && |RestaurantsOf(after, id)| == 0
      && (forall rid :: id !in StaffOf(after, rid))
      && (forall u, rid :: u != id ==> (StaffRestaurant(u, rid) in after <==> StaffRestaurant(u, rid) in links))
  {
    var after := RemoveWhere(links, LinkOf(id));
    if |RestaurantsOf(after, id)| > 0 {
      assert RestaurantsOf(after, id)[0] in RestaurantsOf(after, id);
    }
  }

  datatype RestaurantResult = RestaurantNotFound | RestaurantDone

  /**
   * `DeleteRestaurant(id)`: removes the restaurant's staff links, menu,
   * reviews, reservations and orders, every notification of a staff member
   * linked to it (about this restaurant or not), and the restaurant; then
   * tells each previously linked staff member.
   */
  method DeleteRestaurant(db: AppDbContext, id: int, now: DateTime) returns (r: RestaurantResult)
    modifies db`restaurants, db`staffRestaurants, db`menuItems, db`reviews, db`reservations, db`orders, db`notifications
    ensures r == RestaurantNotFound <==> FindRestaurant(old(db.restaurants), id).None?
    ensures r == RestaurantNotFound ==>
      db.restaurants == old(db.restaurants) && db.staffRestaurants == old(db.staffRestaurants)
      && db.menuItems == old(db.menuItems) && db.reviews == old(db.reviews)
      && db.reservations == old(db.reservations) && db.orders == old(db.orders)
      && db.notifications == old(db.notifications)
    ensures r == RestaurantDone ==>
      var staffList := StaffOf(old(db.staffRestaurants), id);
      db.restaurants == Without(old(db.restaurants), FindRestaurant(old(db.restaurants), id).value)
      && db.staffRestaurants == RemoveWhere(old(db.staffRestaurants), (x: StaffRestaurant) => x.restaurantId == id)
      && db.menuItems == RemoveWhere(old(db.menuItems), (x: MenuItem) => x.restaurantId == id)
      && db.reviews == RemoveWhere(old(db.reviews), (x: Review) => x.restaurantId == id)
      && db.reservations == RemoveWhere(old(db.reservations), (x: Reservation) => x.restaurantId == id)
      && db.orders == RemoveWhere(old(db.orders), (x: Order) => x.restaurantId == id)
      && db.notifications == RemoveWhere(old(db.notifications), (x: Notification) => x.userId in staffList)
                             + NotificationsFor(staffList, now)
  {
    var found := FindRestaurant(db.restaurants, id);
    if found.None? {
      return RestaurantNotFound;
    }
    var staffList := StaffOf(db.staffRestaurants, id);
    db.staffRestaurants := RemoveWhere(db.staffRestaurants, (x: StaffRestaurant) => x.restaurantId == id);
    db.menuItems := RemoveWhere(db.menuItems, (x: MenuItem) => x.restaurantId == id);
    db.reviews := RemoveWhere(db.reviews, (x: Review) => x.restaurantId == id);
    db.reservations := RemoveWhere(db.reservations, (x: Reservation) => x.restaurantId == id);
    db.orders := RemoveWhere(db.orders, (x: Order) => x.restaurantId == id);
    db.notifications := RemoveWhere(db.notifications, (x: Notification) => x.userId in staffList);
    db.restaurants := Without(db.restaurants, found.value);
    NotifyAll(db, staffList, now);
    r := RestaurantDone;
  }

  /** A linked staff member keeps only the deletion notice: earlier notes about other restaurants go too. */
  lemma DeleteRestaurantClearsStaffInbox(notifications: seq<Notification>, links: seq<StaffRestaurant>, id: int, u: string, now: DateTime)
    requires StaffRestaurant(u, id) in links
    ensures var staffList := StaffOf(links, id);
      var after := RemoveWhere(notifications, (x: Notification) => x.userId in staffList) + NotificationsFor(staffList, now);
      forall n :: n in after && n.userId == u ==> n.createdAt == now
  {
  }

  /** `ApproveRestaurant(id)`: sets the approval flag and notifies the restaurant's staff. */
  method ApproveRestaurant(db: AppDbContext, id: int, now: DateTime) returns (r: RestaurantResult)
    modifies db`restaurants, db`notifications
    ensures r == RestaurantNotFound <==> FindRestaurant(old(db.restaurants), id).None?
    ensures r == RestaurantNotFound ==> db.restaurants == old(db.restaurants) && db.notifications == old(db.notifications)
    ensures r == RestaurantDone ==>
      var k := FindRestaurant(old(db.restaurants), id).value;
      db.restaurants == old(db.restaurants)[k := old(db.restaurants)[k].(isApproved := true)]
      && db.notifications == old(db.notifications) + NotificationsFor(StaffOf(db.staffRestaurants, id), now)
  {
    var found := FindRestaurant(db.restaurants, id);
    if found.None? {
      return RestaurantNotFound;
    }
    var k := found.value;
    db.restaurants := db.restaurants[k := db.restaurants[k].(isApproved := true)];
    NotifyAll(db, StaffOf(db.staffRestaurants, db.restaurants[k].id), now);
    r := RestaurantDone;
  }

  // ---------------------------------------------------------------------------
  // Generating bills
  // ---------------------------------------------------------------------------

  /**
   * The bill `GenerateMonthlyBill(staffId, y, m)` hands back and the table
   * after it: none for an empty or unknown staff id, the existing bill for
   * (y, m), otherwise the fee calculation's result, with a non-positive fee
   * read as none.
   */
  function AdminBill(users: seq<User>, bills: seq<StaffBilling>, links: seq<StaffRestaurant>, reservations: seq<Reservation>,
                     staffId: string, y: int, m: int): (out: FeeOutcome)
    ensures |staffId| == 0 || FindUserById(users, staffId).None? ==> out == FeeOutcome(NoBill, bills)
    ensures |staffId| > 0 && FindUserById(users, staffId).Some? && ExistingBill(bills, staffId, y, m).Some? ==>
      out == FeeOutcome(Bill(bills[ExistingBill(bills, staffId, y, m).value]), bills)
    ensures |staffId| > 0 && FindUserById(users, staffId).Some? ==>
      out.bills == MonthlyFee(bills, links, reservations, staffId, y, m).bills
  {
    if |staffId| == 0 || FindUserById(users, staffId).None? then FeeOutcome(NoBill, bills)
    else
      var existing := ExistingBill(bills, staffId, y, m);
      if existing.Some? then FeeOutcome(Bill(bills[existing.value]), bills)
      else
        var computed := MonthlyFee(bills, links, reservations, staffId, y, m);
        if computed.result.Bill? && computed.result.bill.totalFee <= 0.0 then FeeOutcome(NoBill, computed.bills)
        else computed
  }

  /**
   * A known staff member gets no bill only when they manage no restaurant:
   * for a valid month the non-positive-fee guard never fires.
   */
  lemma AdminBillExactlyWhenManaging(users: seq<User>, bills: seq<StaffBilling>, links: seq<StaffRestaurant>,
                                     reservations: seq<Reservation>, staffId: string, y: int, m: int)
    requires |staffId| > 0 && FindUserById(users, staffId).Some? && ValidMonth(y, m)
    ensures var out := AdminBill(users, bills, links, reservations, staffId, y, m);
      out.result.NoBill? <==> ExistingBill(bills, staffId, y, m).None? && |RestaurantsOf(links, staffId)| == 0
    ensures var out := AdminBill(users, bills, links, reservations, staffId, y, m);
      out.result.Bill? && ExistingBill(bills, staffId, y, m).None? ==>
        out.bills == bills + [out.result.bill] && out.result.bill.totalFee > 0.0 && out.result.bill.status == Unpaid
  {
    var computed := MonthlyFee(bills, links, reservations, staffId, y, m);
    if ExistingBill(bills, staffId, y, m).None? && |RestaurantsOf(links, staffId)| > 0 {
      var b := NewBill(NextId(bills, (b: StaffBilling) => b.id), staffId, y, m, RestaurantsOf(links, staffId), reservations);
      NewBillFeePositive(b.id, staffId, y, m, RestaurantsOf(links, staffId), reservations);
      assert computed.result == Bill(b);
    }
  }

  /**
   * `GenerateMonthlyBill`: as `AdminBill`, with the notification to the
   * staff member when a bill comes from the fee calculation.
   */
  method GenerateMonthlyBill(db: AppDbContext, staffId: string, year: Option<int>, month: Option<int>, now: DateTime)
    returns (r: FeeResult)
    modifies db`staffBillings, db`notifications
    ensures var y := year.GetOr(now.year);
      var m := month.GetOr(now.month);
      FeeOutcome(r, db.staffBillings) == AdminBill(db.users, old(db.staffBillings), db.staffRestaurants, db.reservations, staffId, y, m)
      && db.notifications == old(db.notifications) +
           (if r.Bill? && (|staffId| > 0 && ExistingBill(old(db.staffBillings), staffId, y, m).None?)
            then NotificationsFor([staffId], now) else [])
  {
    if |staffId| == 0 {
      return NoBill;
    }
    if FindUserById(db.users, staffId).None? {
      return NoBill;
    }
    var y := year.GetOr(now.year);
    var m := month.GetOr(now.month);
    var existing := ExistingBill(db.staffBillings, staffId, y, m);
    if existing.Some? {
      return Bill(db.staffBillings[existing.value]);
    }
    r := CalculateMonthlyFee(db, staffId, Some(y), Some(m), now);
    if r.NoBill? || r.Crash? {
      return;
    }
    if r.bill.totalFee <= 0.0 {
      return NoBill;
    }
    NotifyAll(db, [staffId], now);
  }

  datatype CreateBillResult = InvalidStaff | StaffNotFound | NotCreated | CreateCrashed | Created(billId: int)

  /** `CreateBillForStaff(staffId)`: a bill for the current month, answered by its id. */
  method CreateBillForStaff(db: AppDbContext, staffId: string, now: DateTime) returns (r: CreateBillResult)
    modifies db`staffBillings, db`notifications
    ensures r == InvalidStaff <==> |staffId| == 0
    ensures r == StaffNotFound <==> |staffId| > 0 && FindUserById(db.users, staffId).None?
    ensures var out := AdminBill(db.users, old(db.staffBillings), db.staffRestaurants, db.reservations, staffId, now.year, now.month);
      && (r.NotCreated? ==> out.result.NoBill? && |staffId| > 0)
      && (r.Created? <==> out.result.Bill?)
      && (r.Created? ==> r.billId == out.result.bill.id)
      && (out.result.Crash? <==> r.CreateCrashed?)
      && db.staffBillings == out.bills
    ensures Valid(now) ==> !r.CreateCrashed?
  {
    if |staffId| == 0 {
      return InvalidStaff;
    }
    if FindUserById(db.users, staffId).None? {
      return StaffNotFound;
    }
    var bill := GenerateMonthlyBill(db, staffId, None, None, now);
    match bill
    case NoBill => r := NotCreated;
    case Crash => r := CreateCrashed;
    case Bill(b) => r := Created(b.id);
  }

  // ---------------------------------------------------------------------------
  // The latest bill: ManagePayment, AcceptPayment, RejectPayment
  // ---------------------------------------------------------------------------

  /**
   * `Where(b => b.UserId == staffId).OrderByDescending(b => b.Month).FirstOrDefault()`:
   * the staff member's bill with the latest month, the first in table order
   * among bills of that month (the sort is stable).
   */
  function LatestBillIndex(bills: seq<StaffBilling>, staffId: string): (r: Option<nat>)
    ensures r.None? <==> forall j :: 0 <= j < |bills| ==> bills[j].userId != staffId
    ensures r.Some? ==> r.value < |bills| && bills[r.value].userId == staffId
    ensures r.Some? ==> forall j :: 0 <= j < |bills| && bills[j].userId == staffId ==> AtOrBefore(bills[j].month, bills[r.value].month)
    ensures r.Some? ==> forall j :: 0 <= j < r.value && bills[j].userId == staffId ==> Before(bills[j].month, bills[r.value].month)
    decreases |bills|
  {
    if |bills| == 0 then None
    else
      var n := |bills| - 1;
      var front := LatestBillIndex(bills[..n], staffId);
      if bills[n].userId != staffId then front
      else if front.None? then Some(n)
      else if Before(bills[front.value].month, bills[n].month) then
        LatestAfter(bills[..n], staffId, front.value, bills[n].month);
        Some(n)
      else
        AtOrBeforeTotal(bills[front.value].month, bills[n].month);
        front
  }

  /** Everything at or before the latest front bill is before a later month. */
  lemma LatestAfter(front: seq<StaffBilling>, staffId: string, k: nat, month: DateTime)
    requires k < |front| && Before(front[k].month, month)
    requires forall j :: 0 <= j < |front| && front[j].userId == staffId ==> AtOrBefore(front[j].month, front[k].month)
    ensures forall j :: 0 <= j < |front| && front[j].userId == staffId ==> Before(front[j].month, month)
  {
    forall j | 0 <= j < |front| && front[j].userId == staffId
      ensures Before(front[j].month, month)
    {
      if Before(front[j].month, front[k].month) {
        BeforeTransitive(front[j].month, front[k].month, month);
      } else {
        AtOrBeforeTotal(front[j].month, front[k].month);
        assert front[j].month == front[k].month;
      }
    }
  }

  /** `lastBill?.Status ?? BillingStatus.Unpaid`. */
  function ManageStatus(bills: seq<StaffBilling>, staffId: string): (s: BillingStatus)
    ensures (forall j :: 0 <= j < |bills| ==> bills[j].userId != staffId) ==> s == Unpaid
    ensures (exists j :: 0 <= j < |bills| && bills[j].userId == staffId) ==>
      s == bills[LatestBillIndex(bills, staffId).value].status
  {
    match LatestBillIndex(bills, staffId)
    case None => Unpaid
    case Some(k) => bills[k].status
  }

  /** One row of the ManagePayment page. */
  datatype PaymentRow = PaymentRow(staffId: string, staffName: Option<string>, lastBillMonth: Option<DateTime>,
                                   status: BillingStatus, hasManagedRestaurants: bool)

  function PaymentRowFor(bills: seq<StaffBilling>, links: seq<StaffRestaurant>, staff: User): (row: PaymentRow)
    ensures row.staffId == staff.id && row.status == ManageStatus(bills, staff.id)
    ensures row.lastBillMonth.Some? <==> exists j :: 0 <= j < |bills| && bills[j].userId == staff.id
    ensures row.hasManagedRestaurants <==> exists j :: 0 <= j < |links| && links[j].userId == staff.id
  {
    var last := LatestBillIndex(bills, staff.id);
    PaymentRow(staff.id, staff.fullName, if last.Some? then Some(bills[last.value].month) else None,
               ManageStatus(bills, staff.id), Any(links, (l: StaffRestaurant) => l.userId == staff.id))
  }

  /** `ManagePayment`: one row per staff account, in the order the role query lists them. */
  function ManagePayment(staffUsers: seq<User>, bills: seq<StaffBilling>, links: seq<StaffRestaurant>): (rows: seq<PaymentRow>)
    ensures |rows| == |staffUsers|
    ensures forall i :: 0 <= i < |rows| ==> rows[i] == PaymentRowFor(bills, links, staffUsers[i])
  {
    Select(staffUsers, (u: User) => PaymentRowFor(bills, links, u))
  }

  /** The admin's decision on the latest bill; `None` is the failure answer, with nothing changed. */
  function Decide(bills: seq<StaffBilling>, staffId: string, s: BillingStatus): (r: Option<seq<StaffBilling>>)
    ensures r.None? <==> |staffId| == 0 || LatestBillIndex(bills, staffId).None?
    ensures r.Some? ==> var k := LatestBillIndex(bills, staffId).value;
      r.value == bills[k := bills[k].(status := s)]
  {
    if |staffId| == 0 then None
    else
      match LatestBillIndex(bills, staffId)
      case None => None
      case Some(k) => Some(bills[k := bills[k].(status := s)])
  }

  /** Which bill is the latest depends only on the owners and months of the bills. */
  lemma {:induction false} LatestBillDependsOnMonths(a: seq<StaffBilling>, b: seq<StaffBilling>, staffId: string)
    requires |a| == |b|
    requires forall i :: 0 <= i < |a| ==> a[i].userId == b[i].userId && a[i].month == b[i].month
    ensures LatestBillIndex(a, staffId) == LatestBillIndex(b, staffId)
    decreases |a|
  {
    if |a| > 0 {
      var n := |a| - 1;
      LatestBillDependsOnMonths(a[..n], b[..n], staffId);
    }
  }

  /** Changing a bill's status does not change which bill is the latest. */
  lemma LatestBillIgnoresStatus(bills: seq<StaffBilling>, staffId: string, k: nat, s: BillingStatus)
    requires k < |bills|
    ensures LatestBillIndex(bills[k := bills[k].(status := s)], staffId) == LatestBillIndex(bills, staffId)
  {
    LatestBillDependsOnMonths(bills[k := bills[k].(status := s)], bills, staffId);
  }

  /**
   * The decision is unconditional and final for the page: whatever the bill's
   * status was (even Unpaid, never paid), ManagePayment then shows `s`.
   */
  lemma DecideShows(bills: seq<StaffBilling>, staffId: string, s: BillingStatus)
    requires Decide(bills, staffId, s).Some?
    ensures ManageStatus(Decide(bills, staffId, s).value, staffId) == s
  {
    var k := LatestBillIndex(bills, staffId).value;
    LatestBillIgnoresStatus(bills, staffId, k, s);
  }

  /** A later decision overrides an earlier one: rejecting an accepted bill leaves it rejected. */
  lemma LaterDecisionWins(bills: seq<StaffBilling>, staffId: string, s: BillingStatus, t: BillingStatus)
    requires Decide(bills, staffId, s).Some?
    ensures Decide(Decide(bills, staffId, s).value, staffId, t) == Decide(bills, staffId, t)
  {
    var k := LatestBillIndex(bills, staffId).value;
    LatestBillIgnoresStatus(bills, staffId, k, s);
    assert bills[k := bills[k].(status := s)][k := bills[k].(status := t)] == bills[k := bills[k].(status := t)];
  }

  /** `AcceptPayment(staffId)`. */
  method AcceptPayment(db: AppDbContext, staffId: string) returns (success: bool)
    modifies db`staffBillings
    ensures success <==> Decide(old(db.staffBillings), staffId, Accepted).Some?
    ensures db.staffBillings == Decide(old(db.staffBillings), staffId, Accepted).GetOr(old(db.staffBillings))
  {
    success := SetLatestStatus(db, staffId, Accepted);
  }

  /** `RejectPayment(staffId)`. */
  method RejectPayment(db: AppDbContext, staffId: string) returns (success: bool)
    modifies db`staffBillings
    ensures success <==> Decide(old(db.staffBillings), staffId, Rejected).Some?
    ensures db.staffBillings == Decide(old(db.staffBillings), staffId, Rejected).GetOr(old(db.staffBillings))
  {
    success := SetLatestStatus(db, staffId, Rejected);
  }

  /** The body the two decisions share: find the latest bill, assign its status. */
  method SetLatestStatus(db: AppDbContext, staffId: string, s: BillingStatus) returns (success: bool)
    modifies db`staffBillings
    ensures success <==> Decide(old(db.staffBillings), staffId, s).Some?
    ensures db.staffBillings == Decide(old(db.staffBillings), staffId, s).GetOr(old(db.staffBillings))
  {
    if |staffId| == 0 {
      return false;
    }
    var last := LatestBillIndex(db.staffBillings, staffId);
    if last.None? {
      return false;
    }
    var k := last.value;
    db.staffBillings := db.staffBillings[k := db.staffBillings[k].(status := s)];
    success := true;
  }
}
