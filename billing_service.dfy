/**
 * The staff billing ledger and the VNPAY reconciliation of Services/BillingService.cs:
 * the monthly fee of a staff member, the payment parameters of a bill or a food
 * order, and the two gateway callbacks that mark them paid.
 */
module BillingService {
  import opened Wrappers
  import opened Calendar
  import opened Text
  import opened Tables
  import opened Entities
  import opened VnPay

  const FeePerRestaurant: real := 300000.0
  const FeePerReservation: real := 5000.0
  const AdminCommissionRate: real := 0.08

  // ---------------------------------------------------------------------------
  // Monthly fee
  // ---------------------------------------------------------------------------

  /** A reservation the monthly fee charges for: confirmed, at a managed restaurant, dated in [start, end). */
  predicate Chargeable(r: Reservation, restaurantIds: seq<int>, start: DateTime, end: DateTime) {
    r.restaurantId in restaurantIds && r.status == "Confirmed"
    && AtOrBefore(start, r.reservationDate) && Before(r.reservationDate, end)
  }

  /** The number of chargeable reservations in the window of month (y, m). */
  function ChargeableCount(reservations: seq<Reservation>, restaurantIds: seq<int>, y: int, m: int): nat
    requires ValidMonth(y, m)
  {
    var start := StartOfMonth(y, m);
    var end := StartOfNextMonth(y, m);
    Count(reservations, (r: Reservation) => Chargeable(r, restaurantIds, start, end))
  }

  /** The same reservation selected by its calendar month rather than a window of instants. */
  predicate ConfirmedInMonth(r: Reservation, restaurantIds: seq<int>, y: int, m: int) {
    r.restaurantId in restaurantIds && r.status == "Confirmed"
    && r.reservationDate.year == y && r.reservationDate.month == m
  }

  /**
   * For well-formed dates the window [first of month, first of next month)
   * counts exactly the confirmed reservations of that calendar month.
   */
  lemma {:induction false} ChargeableCountIsCalendarMonth(reservations: seq<Reservation>, restaurantIds: seq<int>, y: int, m: int)
    requires ValidMonth(y, m)
    requires forall i :: 0 <= i < |reservations| ==> Valid(reservations[i].reservationDate)
    ensures ChargeableCount(reservations, restaurantIds, y, m)
         == Count(reservations, (r: Reservation) => ConfirmedInMonth(r, restaurantIds, y, m))
    decreases |reservations|
  {
    if |reservations| > 0 {
      InMonthWindow(reservations[0].reservationDate, y, m);
      ChargeableCountIsCalendarMonth(reservations[1..], restaurantIds, y, m);
    }
  }

  /** A new, unpaid bill for month (y, m) of a staff member managing `restaurantIds`. */
  function NewBill(id: int, staffId: string, y: int, m: int, restaurantIds: seq<int>, reservations: seq<Reservation>): StaffBilling
    requires ValidMonth(y, m)
  {
    var reservationCount := ChargeableCount(reservations, restaurantIds, y, m);
    var restaurantFee := |restaurantIds| as real * FeePerRestaurant;
    var reservationFee := reservationCount as real * FeePerReservation;
    StaffBilling(id, staffId, StartOfMonth(y, m), |restaurantIds|, restaurantFee,
                 reservationCount, reservationFee, restaurantFee + reservationFee, false, Unpaid)
  }

  /** A staff member managing at least one restaurant always owes at least one restaurant fee. */
  lemma NewBillFeePositive(id: int, staffId: string, y: int, m: int, restaurantIds: seq<int>, reservations: seq<Reservation>)
    requires ValidMonth(y, m) && |restaurantIds| >= 1
    ensures NewBill(id, staffId, y, m, restaurantIds, reservations).totalFee >= FeePerRestaurant > 0.0
  {
  }

  /** Two restaurants and ten chargeable reservations cost 2 * 300000 + 10 * 5000. */
  lemma NewBillExample(id: int, staffId: string, y: int, m: int, restaurantIds: seq<int>, reservations: seq<Reservation>)
    requires ValidMonth(y, m) && |restaurantIds| == 2
    requires ChargeableCount(reservations, restaurantIds, y, m) == 10
    ensures NewBill(id, staffId, y, m, restaurantIds, reservations).totalFee == 650000.0
  {
  }

  /** The first bill of a staff member whose Month falls in calendar month (y, m). */
  function ExistingBill(bills: seq<StaffBilling>, staffId: string, y: int, m: int): (r: Option<nat>)
    ensures r.Some? ==> r.value < |bills| && bills[r.value].userId == staffId
                        && bills[r.value].month.year == y && bills[r.value].month.month == m
    ensures r.None? <==> forall i :: 0 <= i < |bills| ==>
      !(bills[i].userId == staffId && bills[i].month.year == y && bills[i].month.month == m)
  {
    FirstIndex(bills, (b: StaffBilling) => b.userId == staffId && b.month.year == y && b.month.month == m)
  }

  /** What `CalculateMonthlyFee` hands back: no bill (null), a bill, or an escaping exception. */
  datatype FeeResult = NoBill | Bill(bill: StaffBilling) | Crash

  /** A fee calculation: its result and the StaffBillings table afterwards. */
  datatype FeeOutcome = FeeOutcome(result: FeeResult, bills: seq<StaffBilling>)

  /**
   * `CalculateMonthlyFee(staffId, y, m)` on the current tables. A null id
   * behaves as the empty one. `new DateTime(y, m, 1)` throws for a month
   * outside 1..12 or a year below 1.
   */
  function MonthlyFee(bills: seq<StaffBilling>, links: seq<StaffRestaurant>, reservations: seq<Reservation>,
                      staffId: string, y: int, m: int): (out: FeeOutcome)
    ensures |staffId| == 0 ==> out == FeeOutcome(NoBill, bills)
    ensures |staffId| > 0 && ExistingBill(bills, staffId, y, m).Some? ==>
      out == FeeOutcome(Bill(bills[ExistingBill(bills, staffId, y, m).value]), bills)
    ensures |staffId| > 0 && ExistingBill(bills, staffId, y, m).None? && |RestaurantsOf(links, staffId)| == 0 ==>
      out == FeeOutcome(NoBill, bills)
    ensures out.result.Crash? <==>
      |staffId| > 0 && ExistingBill(bills, staffId, y, m).None? && |RestaurantsOf(links, staffId)| > 0 && !ValidMonth(y, m)
    ensures !out.result.Bill? ==> out.bills == bills
    ensures out.result.Bill? && out.bills != bills ==>
      ValidMonth(y, m) && out.bills == bills + [out.result.bill]
      && out.result.bill == NewBill(NextId(bills, (b: StaffBilling) => b.id), staffId, y, m, RestaurantsOf(links, staffId), reservations)
    // a staff member with a restaurant and a valid month always ends up with a bill: the zero-fee branch never fires
    ensures |staffId| > 0 && |RestaurantsOf(links, staffId)| > 0 && ValidMonth(y, m) ==> out.result.Bill?
    ensures |staffId| > 0 && ExistingBill(bills, staffId, y, m).None? && |RestaurantsOf(links, staffId)| > 0 && ValidMonth(y, m) ==>
      out.bills == bills + [out.result.bill] && out.result.bill.status == Unpaid && !out.result.bill.isPaid
    ensures out.result.Bill? ==> out.result.bill.userId == staffId && out.result.bill.month.year == y && out.result.bill.month.month == m
  {
    if |staffId| == 0 then FeeOutcome(NoBill, bills)
    else
      match ExistingBill(bills, staffId, y, m)
      case Some(i) => FeeOutcome(Bill(bills[i]), bills)
      case None =>
        var restaurantIds := RestaurantsOf(links, staffId);
        if |restaurantIds| == 0 then FeeOutcome(NoBill, bills)
        else if !ValidMonth(y, m) then FeeOutcome(Crash, bills)
        else
          var bill := NewBill(NextId(bills, (b: StaffBilling) => b.id), staffId, y, m, restaurantIds, reservations);
          NewBillFeePositive(bill.id, staffId, y, m, restaurantIds, reservations);
          if bill.totalFee <= 0.0 then FeeOutcome(NoBill, bills)
          else FeeOutcome(Bill(bill), bills + [bill])
  }

  /** A second calculation for the same month returns the bill the first one created, adding nothing. */
  lemma MonthlyFeeRepeat(bills: seq<StaffBilling>, links: seq<StaffRestaurant>, reservations: seq<Reservation>,
                         staffId: string, y: int, m: int)
    requires ExistingBill(bills, staffId, y, m).None?
    requires MonthlyFee(bills, links, reservations, staffId, y, m).result.Bill?
    ensures var first := MonthlyFee(bills, links, reservations, staffId, y, m);
            MonthlyFee(first.bills, links, reservations, staffId, y, m) == first
  {
    var first := MonthlyFee(bills, links, reservations, staffId, y, m);
    var b := first.result.bill;
    assert first.bills == bills + [b];
    var p := (x: StaffBilling) => x.userId == staffId && x.month.year == y && x.month.month == m;
    assert p(b);
    var e := ExistingBill(first.bills, staffId, y, m);
    assert e.Some? by {
      assert first.bills[|bills|] == b;
    }
    assert e.value == |bills|;
  }

  /** `CalculateMonthlyFee`: answers `MonthlyFee` and inserts the bill it creates. */
  method CalculateMonthlyFee(db: AppDbContext, staffId: string, year: Option<int>, month: Option<int>, now: DateTime)
    returns (r: FeeResult)
    modifies db`staffBillings
    ensures FeeOutcome(r, db.staffBillings)
         == MonthlyFee(old(db.staffBillings), db.staffRestaurants, db.reservations, staffId, year.GetOr(now.year), month.GetOr(now.month))
  {
    if |staffId| == 0 {
      return NoBill;
    }
    var y := year.GetOr(now.year);
    var m := month.GetOr(now.month);
    var existing := ExistingBill(db.staffBillings, staffId, y, m);
    if existing.Some? {
      return Bill(db.staffBillings[existing.value]);
    }
    var restaurantIds := RestaurantsOf(db.staffRestaurants, staffId);
    if |restaurantIds| == 0 {
      return NoBill;
    }
    if !ValidMonth(y, m) {
      return Crash;
    }
    var bill := NewBill(NextId(db.staffBillings, (b: StaffBilling) => b.id), staffId, y, m, restaurantIds, db.reservations);
    if bill.totalFee <= 0.0 {
      return NoBill;
    }
    db.staffBillings := db.staffBillings + [bill];
    r := Bill(bill);
  }

  // ---------------------------------------------------------------------------
  // Order information and payment parameters
  // ---------------------------------------------------------------------------

  /** The `vnp_OrderInfo` of a payment: `userName|kind|id`. */
  function OrderInfo(userName: string, kind: string, id: int): string {
    userName + "|" + kind + "|" + IntToString(id)
  }

  /** What a callback reads from the order information of a verified response. */
  datatype CallbackTarget = Ignored | Unparsable | Target(userName: string, id: int)

  /**
   * Lines 140-149 and 192-198: an unverified response, or order information
   * that does not split into exactly three fields, is ignored; otherwise the
   * first field names the user and the third must parse as an int
   * (`int.Parse` throws otherwise). The middle field is never looked at.
   */
  function ParseCallback(resp: PaymentResponse): (t: CallbackTarget)
    ensures !resp.success ==> t == Ignored
    ensures resp.success && |Split(resp.orderDescription, '|')| != 3 ==> t == Ignored
    ensures t.Unparsable? <==> resp.success && |Split(resp.orderDescription, '|')| == 3
                               && ParseInt(Split(resp.orderDescription, '|')[2]).None?
    ensures t.Target? ==> resp.success && |Split(resp.orderDescription, '|')| == 3
                          && t.userName == Split(resp.orderDescription, '|')[0]
                          && ParseInt(Split(resp.orderDescription, '|')[2]) == Some(t.id)
  {
    if !resp.success then Ignored
    else
      var parts := Split(resp.orderDescription, '|');
      if |parts| != 3 then Ignored
      else
        match ParseInt(parts[2])
        case None => Unparsable
        case Some(id) => Target(parts[0], id)
  }

  /**
   * The order information a payment URL carries comes back, through the
   * callback's split, as the same user name and id, provided the user name
   * has no '|'.
   */
  lemma {:induction false} OrderInfoRoundTrip(userName: string, kind: string, id: int, code: string)
    requires '|' !in userName && '|' !in kind && Int32Min <= id <= Int32Max
    ensures ParseCallback(PaymentResponse(true, code, OrderInfo(userName, kind, id))) == Target(userName, id)
  {
    var s := IntToString(id);
    assert OrderInfo(userName, kind, id) == userName + ['|'] + kind + ['|'] + s;
    SplitThree(userName, kind, s, '|');
    ParseIntToString(id);
  }

  /** `int.Parse` skips white space around the id field, so a padded id still names the same bill or order. */
  lemma {:induction false} OrderInfoPaddedId(userName: string, kind: string, id: int, code: string)
    requires '|' !in userName && '|' !in kind && Int32Min <= id <= Int32Max
    ensures ParseCallback(PaymentResponse(true, code, userName + "|" + kind + "| " + IntToString(id) + " "))
         == Target(userName, id)
  {
    var c := " " + IntToString(id) + " ";
    assert userName + "|" + kind + "| " + IntToString(id) + " " == userName + ['|'] + kind + ['|'] + c;
    SplitThree(userName, kind, c, '|');
    ParseIntSpaced(id);
  }

  /** A user name containing '|' breaks the split: the callback ignores the payment. */
  lemma {:induction false} OrderInfoUserNameWithBar(a: string, b: string, kind: string, id: int, code: string)
    requires '|' !in a && '|' !in b && '|' !in kind
    ensures ParseCallback(PaymentResponse(true, code, OrderInfo(a + "|" + b, kind, id))) == Ignored
  {
    var s := IntToString(id);
    var info := OrderInfo(a + "|" + b, kind, id);
    assert info == a + ['|'] + (b + ['|'] + kind + ['|'] + s);
    SplitAfterPiece(a, '|', b + ['|'] + kind + ['|'] + s);
    SplitThree(b, kind, s, '|');
  }

  /** Both callbacks read a bill reference and an order reference alike: the kind field is not checked. */
  lemma OrderInfoKindNotChecked(userName: string, id: int, code: string)
    requires '|' !in userName && Int32Min <= id <= Int32Max
    ensures ParseCallback(PaymentResponse(true, code, OrderInfo(userName, "Order", id)))
         == ParseCallback(PaymentResponse(true, code, OrderInfo(userName, "StaffBilling", id)))
  {
    OrderInfoRoundTrip(userName, "Order", id, code);
    OrderInfoRoundTrip(userName, "StaffBilling", id, code);
  }

  /** The keys every payment URL of the marketplace carries. */
  const PaymentKeys: set<string> := {
    "vnp_Version", "vnp_Command", "vnp_TmnCode", "vnp_Amount", "vnp_CreateDate", "vnp_CurrCode",
    "vnp_IpAddr", "vnp_Locale", "vnp_OrderInfo", "vnp_OrderType", "vnp_ReturnUrl", "vnp_TxnRef" }

  /** The parameters that do not depend on what is paid for. */
  predicate FixedParams(data: map<string, string>, createDate: string, ipAddress: string, txnRef: string) {
    data.Keys == PaymentKeys
    && data["vnp_Version"] == "2.1.0" && data["vnp_Command"] == "pay" && data["vnp_TmnCode"] == "J6ESPHTB"
    && data["vnp_CreateDate"] == createDate && data["vnp_CurrCode"] == "VND"
    && data["vnp_IpAddr"] == ipAddress && data["vnp_Locale"] == "vn" && data["vnp_TxnRef"] == txnRef
  }

  /** The request data of one payment, as `AddRequestData` fills it. */
  function PaymentData(amountText: string, orderInfo: string, orderType: string, returnUrl: string,
                       createDate: string, ipAddress: string, txnRef: string): map<string, string>
  {
    map[][
      "vnp_Version" := "2.1.0"][
      "vnp_Command" := "pay"][
      "vnp_TmnCode" := "J6ESPHTB"][
      "vnp_Amount" := amountText][
      "vnp_CreateDate" := createDate][
      "vnp_CurrCode" := "VND"][
      "vnp_IpAddr" := ipAddress][
      "vnp_Locale" := "vn"][
      "vnp_OrderInfo" := orderInfo][
      "vnp_OrderType" := orderType][
      "vnp_ReturnUrl" := returnUrl][
      "vnp_TxnRef" := txnRef]
  }

  /** Every parameter is present once, with the value added for it. */
  lemma PaymentDataFields(amountText: string, orderInfo: string, orderType: string, returnUrl: string,
                          createDate: string, ipAddress: string, txnRef: string)
    ensures var data := PaymentData(amountText, orderInfo, orderType, returnUrl, createDate, ipAddress, txnRef);
      FixedParams(data, createDate, ipAddress, txnRef)
      && data["vnp_Amount"] == amountText && data["vnp_OrderInfo"] == orderInfo
      && data["vnp_OrderType"] == orderType && data["vnp_ReturnUrl"] == returnUrl
  {
  }

  /**
   * Adds the parameters of one payment in the order the handlers add them.
   * `None` when the amount conversion throws, before anything after it is added.
   */
  method BuildPayment(amount: real, orderInfo: string, orderType: string, returnUrl: string,
                      createDate: string, ipAddress: string, txnRef: string)
    returns (r: Option<map<string, string>>)
    ensures r.None? <==> ToMinorUnits(amount).None?
    ensures r.Some? ==> r.value == PaymentData(IntToString(ToMinorUnits(amount).value), orderInfo, orderType, returnUrl,
                                               createDate, ipAddress, txnRef)
  {
    var pay := new VnPayLibrary();
    pay.AddRequestData("vnp_Version", "2.1.0");
    pay.AddRequestData("vnp_Command", "pay");
    pay.AddRequestData("vnp_TmnCode", "J6ESPHTB");
    var minor := ToMinorUnits(amount);
    if minor.None? {
      return None;
    }
    pay.AddRequestData("vnp_Amount", IntToString(minor.value));
    pay.AddRequestData("vnp_CreateDate", createDate);
    pay.AddRequestData("vnp_CurrCode", "VND");
    pay.AddRequestData("vnp_IpAddr", ipAddress);
    pay.AddRequestData("vnp_Locale", "vn");
    pay.AddRequestData("vnp_OrderInfo", orderInfo);
    pay.AddRequestData("vnp_OrderType", orderType);
    pay.AddRequestData("vnp_ReturnUrl", returnUrl);
    pay.AddRequestData("vnp_TxnRef", txnRef);
    r := Some(pay.requestData);
  }

  /** `CreateBillingPaymentUrl`: the parameters of the payment of a staff bill. */
  method CreateBillingPaymentUrl(user: User, bill: StaffBilling, scheme: string, host: string,
                                 createDate: string, ipAddress: string, txnRef: string)
    returns (r: Option<map<string, string>>)
    ensures r.None? <==> ToMinorUnits(bill.totalFee).None?
    ensures r.Some? ==> FixedParams(r.value, createDate, ipAddress, txnRef)
    ensures r.Some? ==> r.value["vnp_Amount"] == IntToString(ToMinorUnits(bill.totalFee).value)
    ensures r.Some? ==> r.value["vnp_OrderInfo"] == OrderInfo(user.userName, "StaffBilling", bill.id)
    ensures r.Some? ==> r.value["vnp_OrderType"] == "billpayment"
    ensures r.Some? ==> r.value["vnp_ReturnUrl"] == scheme + "://" + host + "/StaffBilling/PaymentCallback"
  {
    var returnUrl := scheme + "://" + host + "/StaffBilling/PaymentCallback";
    r := BuildPayment(bill.totalFee, OrderInfo(user.userName, "StaffBilling", bill.id), "billpayment",
                      returnUrl, createDate, ipAddress, txnRef);
    if r.Some? {
      PaymentDataFields(IntToString(ToMinorUnits(bill.totalFee).value), OrderInfo(user.userName, "StaffBilling", bill.id),
                        "billpayment", returnUrl, createDate, ipAddress, txnRef);
    }
  }

  /** `CreateOrderPaymentUrl`: the parameters of the payment of a food order. */
  method CreateOrderPaymentUrl(user: User, order: Order, scheme: string, host: string,
                               createDate: string, ipAddress: string, txnRef: string)
    returns (r: Option<map<string, string>>)
    ensures r.None? <==> ToMinorUnits(order.totalAmount).None?
    ensures r.Some? ==> FixedParams(r.value, createDate, ipAddress, txnRef)
    ensures r.Some? ==> r.value["vnp_Amount"] == IntToString(ToMinorUnits(order.totalAmount).value)
    ensures r.Some? ==> r.value["vnp_OrderInfo"] == OrderInfo(user.userName, "Order", order.id)
    ensures r.Some? ==> r.value["vnp_OrderType"] == "billpayment"
    ensures r.Some? ==> r.value["vnp_ReturnUrl"] == scheme + "://" + host + "/Order/PaymentCallback"
  {
    var returnUrl := scheme + "://" + host + "/Order/PaymentCallback";
    r := BuildPayment(order.totalAmount, OrderInfo(user.userName, "Order", order.id), "billpayment",
                      returnUrl, createDate, ipAddress, txnRef);
    if r.Some? {
      PaymentDataFields(IntToString(ToMinorUnits(order.totalAmount).value), OrderInfo(user.userName, "Order", order.id),
                        "billpayment", returnUrl, createDate, ipAddress, txnRef);
    }
  }

  // ---------------------------------------------------------------------------
  // Gateway callbacks
  // ---------------------------------------------------------------------------

  /** A callback's effect on one table: the table afterwards, and whether an exception escaped. */
  datatype Applied<T> = Applied(crashed: bool, table: seq<T>)

  /**
   * `ExecuteVnPayCallback` on the StaffBillings table: a completed payment
   * of an existing user's existing bill sets the bill Pending, whatever its
   * status was before; every other response leaves the table as it is.
   */
  function BillCallback(users: seq<User>, bills: seq<StaffBilling>, resp: PaymentResponse): (r: Applied<StaffBilling>)
    ensures r.crashed <==> ParseCallback(resp).Unparsable?
    ensures r.table != bills ==> ParseCallback(resp).Target? && resp.vnPayResponseCode == SuccessCode
    ensures |r.table| == |bills|
    ensures ParseCallback(resp).Target? && resp.vnPayResponseCode == SuccessCode
            && FindUserByName(users, ParseCallback(resp).userName).Some?
            && FindBill(bills, ParseCallback(resp).id).Some? ==>
      var i := FindBill(bills, ParseCallback(resp).id).value;
      r.table == bills[i := bills[i].(status := Pending)]
    ensures forall i :: 0 <= i < |bills| && r.table[i] != bills[i] ==>
      r.table[i] == bills[i].(status := Pending) && bills[i].id == ParseCallback(resp).id
  {
    match ParseCallback(resp)
    case Ignored => Applied(false, bills)
    case Unparsable => Applied(true, bills)
    case Target(userName, billId) =>
      var user := FindUserByName(users, userName);
      var bill := FindBill(bills, billId);
      if user.None? || bill.None? then Applied(false, bills)
      else if resp.vnPayResponseCode == SuccessCode then
        Applied(false, bills[bill.value := bills[bill.value].(status := Pending)])
      else Applied(false, bills)
  }

  /** Only a bill's status may change: its id, owner, month and fees stay. */
  lemma {:induction false} FindBillAfterStatusChange(bills: seq<StaffBilling>, i: nat, s: BillingStatus, id: int)
    requires i < |bills|
    ensures FindBill(bills[i := bills[i].(status := s)], id) == FindBill(bills, id)
  {
    var after := bills[i := bills[i].(status := s)];
    var a := FindBill(after, id);
    var b := FindBill(bills, id);
    assert forall j :: 0 <= j < |bills| ==> after[j].id == bills[j].id;
  }

  /** The callback has no once-only guard, but replaying a completed payment changes nothing more. */
  lemma BillCallbackReplay(users: seq<User>, bills: seq<StaffBilling>, resp: PaymentResponse)
    ensures var once := BillCallback(users, bills, resp).table;
            BillCallback(users, once, resp).table == once
  {
    match ParseCallback(resp)
    case Ignored =>
    case Unparsable =>
    case Target(userName, billId) =>
      var bill := FindBill(bills, billId);
      if bill.Some? {
        FindBillAfterStatusChange(bills, bill.value, Pending, billId);
      }
  }

  /** An admin's decision is overwritten: an Accepted or Rejected bill paid again goes back to Pending. */
  lemma BillCallbackOverridesDecision(users: seq<User>, bills: seq<StaffBilling>, resp: PaymentResponse, i: nat)
    requires i < |bills| && bills[i].status in {Accepted, Rejected}
    requires ParseCallback(resp).Target? && resp.vnPayResponseCode == SuccessCode
    requires FindUserByName(users, ParseCallback(resp).userName).Some?
    requires FindBill(bills, ParseCallback(resp).id) == Some(i)
    ensures BillCallback(users, bills, resp).table[i].status == Pending
  {
  }

  /** `ExecuteVnPayCallback`: hands the response back and applies `BillCallback`. */
  method ExecuteVnPayCallback(db: AppDbContext, resp: PaymentResponse) returns (r: PaymentResponse, crashed: bool)
    modifies db`staffBillings
    ensures r == resp
    ensures Applied(crashed, db.staffBillings) == BillCallback(db.users, old(db.staffBillings), resp)
  {
    r := resp;
    crashed := false;
    var target := ParseCallback(resp);
    if target.Ignored? {
      return;
    }
    if target.Unparsable? {
      crashed := true;
      return;
    }
    var user := FindUserByName(db.users, target.userName);
    var bill := FindBill(db.staffBillings, target.id);
    if user.None? || bill.None? {
      return;
    }
    if resp.vnPayResponseCode == SuccessCode {
      var i := bill.value;
      db.staffBillings := db.staffBillings[i := db.staffBillings[i].(status := Pending)];
    }
  }

  /**
   * `ExecuteOrderVnPayCallback` on the Orders table: a completed payment of
   * an existing user's existing order sets its status "Paid", whatever
   * the status was, Canceled and Confirmed included.
   */
  function OrderCallback(users: seq<User>, orders: seq<Order>, resp: PaymentResponse): (r: Applied<Order>)
    ensures r.crashed <==> ParseCallback(resp).Unparsable?
    ensures r.table != orders ==> ParseCallback(resp).Target? && resp.vnPayResponseCode == SuccessCode
    ensures |r.table| == |orders|
    ensures ParseCallback(resp).Target? && resp.vnPayResponseCode == SuccessCode
            && FindUserByName(users, ParseCallback(resp).userName).Some?
            && FindOrder(orders, ParseCallback(resp).id).Some? ==>
      var i := FindOrder(orders, ParseCallback(resp).id).value;
      r.table == orders[i := orders[i].(status := "Paid")]
    ensures forall i :: 0 <= i < |orders| && r.table[i] != orders[i] ==>
      r.table[i] == orders[i].(status := "Paid") && orders[i].id == ParseCallback(resp).id
  {
    match ParseCallback(resp)
    case Ignored => Applied(false, orders)
    case Unparsable => Applied(true, orders)
    case Target(userName, orderId) =>
      var user := FindUserByName(users, userName);
      var order := FindOrder(orders, orderId);
      if user.None? || order.None? then Applied(false, orders)
      else if resp.vnPayResponseCode == SuccessCode then
        Applied(false, orders[order.value := orders[order.value].(status := "Paid")])
      else Applied(false, orders)
  }

  /** A canceled order whose payment completes afterwards is revived as Paid. */
  lemma OrderCallbackRevivesCanceled(users: seq<User>, orders: seq<Order>, userName: string, i: nat)
    requires i < |orders| && orders[i].status == "Canceled"
    requires '|' !in userName && Int32Min <= orders[i].id <= Int32Max
    requires FindUserByName(users, userName).Some? && FindOrder(orders, orders[i].id) == Some(i)
    ensures OrderCallback(users, orders, PaymentResponse(true, SuccessCode, OrderInfo(userName, "Order", orders[i].id))).table[i].status == "Paid"
  {
    OrderInfoRoundTrip(userName, "Order", orders[i].id, SuccessCode);
  }

  /** `ExecuteOrderVnPayCallback`: hands the response back and applies `OrderCallback`. */
  method ExecuteOrderVnPayCallback(db: AppDbContext, resp: PaymentResponse) returns (r: PaymentResponse, crashed: bool)
    modifies db`orders
    ensures r == resp
    ensures Applied(crashed, db.orders) == OrderCallback(db.users, old(db.orders), resp)
  {
    r := resp;
    crashed := false;
    var target := ParseCallback(resp);
    if target.Ignored? {
      return;
    }
    if target.Unparsable? {
      crashed := true;
      return;
    }
    var user := FindUserByName(db.users, target.userName);
    var order := FindOrder(db.orders, target.id);
    if user.None? || order.None? {
      return;
    }
    if resp.vnPayResponseCode == SuccessCode {
      var i := order.value;
      db.orders := db.orders[i := db.orders[i].(status := "Paid")];
    }
  }
}
