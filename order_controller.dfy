/**
 * The food-order life cycle of Controllers/OrderController.cs: a draft is
 * priced from the menu, stored when the customer pays cash or VNPAY, may be
 * canceled by its owner until the restaurant confirms it, and is confirmed
 * by staff once paid.
 */
module OrderController {
  import opened Wrappers
  import opened Calendar
  import opened Tables
  import opened Entities
  import opened BillingService
  import opened VnPay
  import opened Text

  // ---------------------------------------------------------------------------
  // Pricing a draft
  // ---------------------------------------------------------------------------

  /** The line posted item `menuItemId` with `quantity` contributes: none for an unknown item or a quantity <= 0. */
  function LineFor(menu: seq<MenuItem>, menuItemId: int, quantity: int): (r: Option<OrderItem>)
    ensures r.Some? <==> FindMenuItem(menu, menuItemId).Some? && quantity > 0
    ensures r.Some? ==> var k := FindMenuItem(menu, menuItemId).value;
      r.value == OrderItem(menu[k].id, quantity, menu[k].price)
  {
    match FindMenuItem(menu, menuItemId)
    case None => None
    case Some(k) => if quantity <= 0 then None else Some(OrderItem(menu[k].id, quantity, menu[k].price))
  }

  /** The kept lines of the posted lists, in posted order. */
  function KeptLines(menu: seq<MenuItem>, ids: seq<int>, quantities: seq<int>): (items: seq<OrderItem>)
    requires |ids| == |quantities|
    ensures |items| <= |ids|
    decreases |ids|
  {
    if |ids| == 0 then []
    else
      var n := |ids| - 1;
      var front := KeptLines(menu, ids[..n], quantities[..n]);
      match LineFor(menu, ids[n], quantities[n])
      case None => front
      case Some(line) => front + [line]
  }

  /** One more posted line adds its kept line, if any, at the end. */
  lemma KeptLinesStep(menu: seq<MenuItem>, ids: seq<int>, quantities: seq<int>, i: nat)
    requires |ids| == |quantities| && i < |ids|
    ensures var line := LineFor(menu, ids[i], quantities[i]);
      KeptLines(menu, ids[..i + 1], quantities[..i + 1])
        == KeptLines(menu, ids[..i], quantities[..i]) + (if line.Some? then [line.value] else [])
  {
    assert ids[..i + 1][..i] == ids[..i] && quantities[..i + 1][..i] == quantities[..i];
    assert ids[..i + 1][i] == ids[i] && quantities[..i + 1][i] == quantities[i];
  }

  /** Every kept line orders a positive quantity of an item on the menu, at its menu price. */
  lemma {:induction false} KeptLinesFromMenu(menu: seq<MenuItem>, ids: seq<int>, quantities: seq<int>, k: nat)
    requires |ids| == |quantities| && k < |KeptLines(menu, ids, quantities)|
    ensures var line := KeptLines(menu, ids, quantities)[k];
      line.quantity > 0 && exists j :: 0 <= j < |menu| && menu[j].id == line.menuItemId && menu[j].price == line.price
    decreases |ids|
  {
    var n := |ids| - 1;
    var front := KeptLines(menu, ids[..n], quantities[..n]);
    if k < |front| {
      KeptLinesFromMenu(menu, ids[..n], quantities[..n], k);
    } else {
      var j := FindMenuItem(menu, ids[n]).value;
      assert menu[j].id == KeptLines(menu, ids, quantities)[k].menuItemId;
    }
  }

  /** No line is kept exactly when no posted index names a menu item with a positive quantity. */
  lemma {:induction false} KeptLinesEmpty(menu: seq<MenuItem>, ids: seq<int>, quantities: seq<int>)
    requires |ids| == |quantities|
    ensures KeptLines(menu, ids, quantities) == [] <==>
      forall i :: 0 <= i < |ids| ==> LineFor(menu, ids[i], quantities[i]).None?
    decreases |ids|
  {
    if |ids| > 0 {
      var n := |ids| - 1;
      KeptLinesEmpty(menu, ids[..n], quantities[..n]);
      assert forall i :: 0 <= i < n ==> ids[..n][i] == ids[i] && quantities[..n][i] == quantities[i];
    }
  }

  function LineAmount(line: OrderItem): real {
    line.price * line.quantity as real
  }

  /** The order total: price times quantity, summed over the lines. */
  function LinesTotal(items: seq<OrderItem>): real {
    Sum(items, LineAmount)
  }

  /** With no negative menu price the total is never negative. */
  lemma {:induction false} LinesTotalNonNegative(items: seq<OrderItem>)
    requires forall k :: 0 <= k < |items| ==> items[k].price >= 0.0 && items[k].quantity > 0
    ensures LinesTotal(items) >= 0.0
    decreases |items|
  {
    if |items| > 0 {
      LinesTotalNonNegative(items[1..]);
      assert LineAmount(items[0]) >= 0.0;
    }
  }

  /** The 8% commission the handlers write as a literal. */
  function Commission(total: real): real {
    total * AdminCommissionRate
  }

  /** A stored order keeps its total equal to its lines and its commission at 8% of the total. */
  predicate WellPriced(o: Order) {
    o.totalAmount == LinesTotal(o.items) && o.adminCommission == Commission(o.totalAmount)
  }

  /** The order the draft is built as (lines 81-101): Pending, not yet paid and without an id. */
  function DraftOrder(userId: string, restaurantId: int, items: seq<OrderItem>, now: DateTime): (o: Order)
    ensures WellPriced(o) && o.status == "Pending" && o.paymentMethod.None?
    ensures o.userId == userId && o.restaurantId == restaurantId && o.items == items && o.createdAt == now
  {
    var total := LinesTotal(items);
    Order(0, userId, restaurantId, total, Commission(total), "Pending", None, now, items)
  }

  datatype CreateOrderResult = LoginRequired | InvalidPost | NoValidItems | Draft(order: Order)

  /**
   * `CreateOrder` (POST): prices the posted lines and returns the session
   * draft; it writes no table.
   */
  method CreateOrder(db: AppDbContext, user: Option<User>, restaurantId: int, ids: seq<int>, quantities: seq<int>, now: DateTime)
    returns (r: CreateOrderResult)
    ensures user.None? <==> r == LoginRequired
    ensures user.Some? ==> (r == InvalidPost <==> |ids| == 0 || |ids| != |quantities|)
    ensures r == NoValidItems <==>
      user.Some? && 0 < |ids| == |quantities| && KeptLines(db.menuItems, ids, quantities) == []
    ensures r.Draft? ==>
      user.Some? && 0 < |ids| == |quantities|
      && r.order == DraftOrder(user.value.id, restaurantId, KeptLines(db.menuItems, ids, quantities), now)
  {
    if user.None? {
      return LoginRequired;
    }
    if |ids| == 0 || |ids| != |quantities| {
      return InvalidPost;
    }
    var items: seq<OrderItem> := [];
    var totalAmount: real := 0.0;
    for i := 0 to |ids|
      invariant items == KeptLines(db.menuItems, ids[..i], quantities[..i])
      invariant totalAmount == LinesTotal(items)
    {
      KeptLinesStep(db.menuItems, ids, quantities, i);
      var menu := FindMenuItem(db.menuItems, ids[i]);
      if menu.None? {
        assert LineFor(db.menuItems, ids[i], quantities[i]).None?;
        assert KeptLines(db.menuItems, ids[..i + 1], quantities[..i + 1]) == items;
        continue;
      }
      var quantity := quantities[i];
      if quantity <= 0 {
        assert LineFor(db.menuItems, ids[i], quantities[i]).None?;
        assert KeptLines(db.menuItems, ids[..i + 1], quantities[..i + 1]) == items;
        continue;
      }
      var m := db.menuItems[menu.value];
      var line := OrderItem(m.id, quantity, m.price);
      assert LineFor(db.menuItems, ids[i], quantities[i]) == Some(line);
      assert KeptLines(db.menuItems, ids[..i + 1], quantities[..i + 1]) == items + [line];
      SumAppend(items, [line], LineAmount);
      items := items + [line];
      totalAmount := totalAmount + LineAmount(line);
    }
    assert ids[..|ids|] == ids && quantities[..|quantities|] == quantities;
    if |items| == 0 {
      return NoValidItems;
    }
    r := Draft(Order(0, user.value.id, restaurantId, totalAmount, totalAmount * AdminCommissionRate, "Pending", None, now, items));
  }

  // ---------------------------------------------------------------------------
  // Storing a paid draft
  // ---------------------------------------------------------------------------

  const CashMethod: string := "Tiền mặt"
  const VnPayMethod: string := "VNPAY"

  /** The draft as `PayCash` stores it: paid in cash, everything else as drafted. */
  function CashPaid(draft: Order, id: int): (o: Order)
    ensures o.status == "Paid" && o.paymentMethod == Some(CashMethod) && o.id == id
    ensures o.(id := draft.id, status := draft.status, paymentMethod := draft.paymentMethod) == draft
    ensures WellPriced(draft) ==> WellPriced(o)
  {
    draft.(id := id, paymentMethod := Some(CashMethod), status := "Paid")
  }

  /** The draft as `PayVnPay` stores it: VNPAY as method, status still as drafted until the callback. */
  function VnPayPlaced(draft: Order, id: int): (o: Order)
    ensures o.status == draft.status && o.paymentMethod == Some(VnPayMethod) && o.id == id
    ensures o.(id := draft.id, paymentMethod := draft.paymentMethod) == draft
    ensures WellPriced(draft) ==> WellPriced(o)
  {
    draft.(id := id, paymentMethod := Some(VnPayMethod))
  }

  /** Who hears of a new order: its customer, then each staff member of its restaurant. */
  function NewOrderRecipients(links: seq<StaffRestaurant>, o: Order): (ids: seq<string>)
    ensures |ids| >= 1 && ids[0] == o.userId
    ensures forall u :: u in ids[1..] <==> StaffRestaurant(u, o.restaurantId) in links
  {
    [o.userId] + StaffOf(links, o.restaurantId)
  }

  /** The two notification loops after an order is stored (the customer's, then its staff's). */
  method NotifyNewOrder(db: AppDbContext, o: Order, now: DateTime)
    modifies db`notifications
    ensures db.notifications == old(db.notifications) + NotificationsFor(NewOrderRecipients(db.staffRestaurants, o), now)
  {
    NotifyAll(db, [o.userId], now);
    NotifyAll(db, StaffOf(db.staffRestaurants, o.restaurantId), now);
    NotificationsForAppend([o.userId], StaffOf(db.staffRestaurants, o.restaurantId), now);
  }

  /** `PayCash`: stores the session draft as a paid cash order and notifies its customer and staff. */
  method PayCash(db: AppDbContext, draft: Option<Order>, now: DateTime) returns (stored: Option<Order>)
    modifies db`orders, db`notifications
    ensures draft.None? ==> stored.None? && db.orders == old(db.orders) && db.notifications == old(db.notifications)
    ensures draft.Some? ==>
      var o := CashPaid(draft.value, NextId(old(db.orders), (x: Order) => x.id));
      stored == Some(o) && db.orders == old(db.orders) + [o]
      && db.notifications == old(db.notifications) + NotificationsFor(NewOrderRecipients(db.staffRestaurants, o), now)
  {
    if draft.None? {
      return None;
    }
    var o := draft.value.(paymentMethod := Some(CashMethod), status := "Paid");
    o := o.(id := NextId(db.orders, (x: Order) => x.id));
    db.orders := db.orders + [o];
    NotifyNewOrder(db, o, now);
    stored := Some(o);
  }

  /**
   * `PayVnPay`: stores the draft with VNPAY as method, notifies as `PayCash`
   * does, then builds the gateway parameters of the stored order (`None` for
   * the exception the amount conversion throws, after the order is stored).
   */
  method PayVnPay(db: AppDbContext, user: User, draft: Option<Order>, now: DateTime, scheme: string, host: string,
                  createDate: string, ipAddress: string, txnRef: string)
    returns (stored: Option<Order>, payment: Option<map<string, string>>)
    modifies db`orders, db`notifications
    ensures draft.None? ==> stored.None? && payment.None?
                            && db.orders == old(db.orders) && db.notifications == old(db.notifications)
    ensures draft.Some? ==>
      var o := VnPayPlaced(draft.value, NextId(old(db.orders), (x: Order) => x.id));
      stored == Some(o) && db.orders == old(db.orders) + [o]
      && db.notifications == old(db.notifications) + NotificationsFor(NewOrderRecipients(db.staffRestaurants, o), now)
      && (payment.None? <==> ToMinorUnits(o.totalAmount).None?)
      && (payment.Some? ==> FixedParams(payment.value, createDate, ipAddress, txnRef))
      && (payment.Some? ==> payment.value["vnp_OrderInfo"] == OrderInfo(user.userName, "Order", o.id))
  {
    if draft.None? {
      return None, None;
    }
    var o := draft.value.(paymentMethod := Some(VnPayMethod));
    o := o.(id := NextId(db.orders, (x: Order) => x.id));
    db.orders := db.orders + [o];
    NotifyNewOrder(db, o, now);
    stored := Some(o);
    payment := CreateOrderPaymentUrl(user, o, scheme, host, createDate, ipAddress, txnRef);
  }

  // ---------------------------------------------------------------------------
  // Canceling and confirming
  // ---------------------------------------------------------------------------

  datatype CancelResult = CancelNotFound | AlreadyConfirmed | AlreadyCanceled | Canceled

  /** How `CancelOrder` answers a customer for the order found (lines 255-270). */
  function CancelDecision(order: Option<Order>, userId: string): (r: CancelResult)
    ensures r == CancelNotFound <==> order.None? || order.value.userId != userId
    ensures r == Canceled ==> order.Some? && order.value.status !in {"Confirmed", "Canceled"}
    ensures order.Some? && order.value.userId == userId ==>
      (r == AlreadyConfirmed <==> order.value.status == "Confirmed")
      && (r == AlreadyCanceled <==> order.value.status == "Canceled")
  {
    if order.None? || order.value.userId != userId then CancelNotFound
    else if order.value.status == "Confirmed" then AlreadyConfirmed
    else if order.value.status == "Canceled" then AlreadyCanceled
    else Canceled
  }

  /** The first order with that id, as `FirstOrDefaultAsync` finds it. */
  function OrderById(orders: seq<Order>, id: int): Option<Order> {
    match FindOrder(orders, id)
    case None => None
    case Some(k) => Some(orders[k])
  }

  /** `CancelOrder`: cancels the customer's own order unless it is confirmed or canceled already. */
  method CancelOrder(db: AppDbContext, userId: string, orderId: int, now: DateTime) returns (r: CancelResult)
    modifies db`orders, db`notifications
    ensures r == CancelDecision(OrderById(old(db.orders), orderId), userId)
    ensures r != Canceled ==> db.orders == old(db.orders) && db.notifications == old(db.notifications)
    ensures r == Canceled ==>
      var k := FindOrder(old(db.orders), orderId).value;
      db.orders == old(db.orders)[k := old(db.orders)[k].(status := "Canceled")]
      && db.notifications == old(db.notifications) + NotificationsFor(StaffOf(db.staffRestaurants, old(db.orders)[k].restaurantId), now)
  {
    var found := FindOrder(db.orders, orderId);
    r := CancelDecision(OrderById(db.orders, orderId), userId);
    if r != Canceled {
      return;
    }
    var k := found.value;
    db.orders := db.orders[k := db.orders[k].(status := "Canceled")];
    NotifyAll(db, StaffOf(db.staffRestaurants, db.orders[k].restaurantId), now);
  }

  datatype UpdateResult = UpdateNotFound | Refused | ConfirmedOrder

  /** The order a staff confirmation leaves: Confirmed, with the commission recomputed from the total. */
  function ConfirmOrder(o: Order): (c: Order)
    ensures c.status == "Confirmed" && c.adminCommission == Commission(o.totalAmount)
    ensures c.(status := o.status, adminCommission := o.adminCommission) == o
    ensures o.totalAmount == LinesTotal(o.items) ==> WellPriced(c)
  {
    o.(status := "Confirmed", adminCommission := o.totalAmount * AdminCommissionRate)
  }

  /** The gate of `UpdateStatus`: staff may confirm only an order whose payment went through. */
  predicate Confirmable(o: Order) {
    o.status == "Paid"
  }

  /** `UpdateStatus`: only a Paid order, and only towards "Confirmed", changes. */
  method UpdateStatus(db: AppDbContext, orderId: int, status: string) returns (r: UpdateResult)
    modifies db`orders
    ensures FindOrder(old(db.orders), orderId).None? <==> r == UpdateNotFound
    ensures r == ConfirmedOrder <==>
      FindOrder(old(db.orders), orderId).Some? && Confirmable(old(db.orders)[FindOrder(old(db.orders), orderId).value])
      && status == "Confirmed"
    ensures r != ConfirmedOrder ==> db.orders == old(db.orders)
    ensures r == ConfirmedOrder ==>
      var k := FindOrder(old(db.orders), orderId).value;
      db.orders == old(db.orders)[k := ConfirmOrder(old(db.orders)[k])]
  {
    var found := FindOrder(db.orders, orderId);
    if found.None? {
      return UpdateNotFound;
    }
    var k := found.value;
    if !Confirmable(db.orders[k]) || status != "Confirmed" {
      return Refused;
    }
    db.orders := db.orders[k := db.orders[k].(status := "Confirmed", adminCommission := db.orders[k].totalAmount * AdminCommissionRate)];
    r := ConfirmedOrder;
  }

  // ---------------------------------------------------------------------------
  // The life cycle as a whole
  // ---------------------------------------------------------------------------

  /** A confirmed order stays confirmed through any cancellation attempt. */
  lemma ConfirmedIsFinalForCustomer(order: Order, userId: string)
    requires order.status == "Confirmed"
    ensures CancelDecision(Some(order), userId) != Canceled
  {
  }

  /** Every step of the life cycle keeps the order's pricing consistent. */
  lemma LifeCycleKeepsPricing(draft: Order, id: int)
    requires WellPriced(draft)
    ensures WellPriced(CashPaid(draft, id)) && WellPriced(VnPayPlaced(draft, id))
    ensures WellPriced(draft.(status := "Canceled")) && WellPriced(draft.(status := "Paid"))
    ensures WellPriced(ConfirmOrder(draft))
  {
  }

  /**
   * A cash order can be confirmed at once; a VNPAY order, still Pending
   * after it is placed, cannot.
   */
  lemma ConfirmationNeedsPayment(draft: Order, id: int)
    requires draft.status == "Pending"
    ensures Confirmable(CashPaid(draft, id))
    ensures !Confirmable(VnPayPlaced(draft, id))
    ensures !Confirmable(VnPayPlaced(draft, id).(status := "Canceled"))
  {
  }

  /**
   * The successful callback for a placed VNPAY order, or for one the
   * customer has canceled meanwhile, makes it confirmable by staff.
   */
  lemma CallbackMakesConfirmable(users: seq<User>, orders: seq<Order>, draft: Order, userName: string, i: nat)
    requires draft.status == "Pending"
    requires i < |orders| && '|' !in userName && Int32Min <= orders[i].id <= Int32Max
    requires orders[i] == VnPayPlaced(draft, orders[i].id) || orders[i] == VnPayPlaced(draft, orders[i].id).(status := "Canceled")
    requires FindUserByName(users, userName).Some? && FindOrder(orders, orders[i].id) == Some(i)
    ensures !Confirmable(orders[i])
    ensures var after := OrderCallback(users, orders, PaymentResponse(true, SuccessCode, OrderInfo(userName, "Order", orders[i].id)));
      Confirmable(after.table[i]) && after.table == orders[i := orders[i].(status := "Paid")]
  {
    OrderInfoRoundTrip(userName, "Order", orders[i].id, SuccessCode);
  }
}
