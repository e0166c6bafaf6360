/**
 * The staff member's side of the billing ledger, Controllers/StaffBillingController.cs:
 * the list of their bills, paying a bill through the gateway, the
 * gateway's return to the site, and generating this month's bill.
 */
module StaffBillingController {
  import opened Wrappers
  import opened Calendar
  import opened Text
  import opened Tables
  import opened Sorting
  import opened Entities
  import opened VnPay
  import opened BillingService
  import opened AdminController

  // ---------------------------------------------------------------------------
  // Index
  // ---------------------------------------------------------------------------

  function BillMonth(b: StaffBilling): DateTime { b.month }

  function OwnedBy(userId: string): StaffBilling -> bool {
    (b: StaffBilling) => b.userId == userId
  }

  /** `Index`: the signed-in user's bills, latest month first; `None` redirects to the login page. */
  function Index(bills: seq<StaffBilling>, user: Option<User>): (r: Option<seq<StaffBilling>>)
    ensures r.None? <==> user.None?
    ensures r.Some? ==> forall b :: b in r.value <==> b in bills && b.userId == user.value.id
    ensures r.Some? ==> multiset(r.value) == multiset(Where(bills, OwnedBy(user.value.id)))
    ensures r.Some? ==> SortedBy(r.value, BillMonth, true)
  {
    if user.None? then None
    else
      var own := Where(bills, OwnedBy(user.value.id));
      var sorted := SortBy(own, BillMonth, true);
      assert forall b :: b in sorted <==> b in own by {
        forall b ensures b in sorted <==> b in own {
          assert b in sorted <==> b in multiset(sorted);
          assert b in own <==> b in multiset(own);
        }
      }
      Some(sorted)
  }

  // ---------------------------------------------------------------------------
  // Pay
  // ---------------------------------------------------------------------------

  /** What `Pay` answers: not found, "already paid", an exception from the amount conversion, or the gateway redirect. */
  datatype PayResult = PayNotFound | AlreadyPaid | PayCrashed | Redirect(params: map<string, string>)

  /** The gate `Pay` applies as written: the bill's `IsPaid` flag. */
  predicate PayableAsWritten(bill: StaffBilling) {
    !bill.isPaid
  }

  /** `Pay(id)`: changes nothing; sends the user to the gateway unless the bill is flagged paid. */
  method Pay(db: AppDbContext, user: Option<User>, id: int, scheme: string, host: string,
             createDate: string, ipAddress: string, txnRef: string) returns (r: PayResult)
    ensures r.PayNotFound? <==> user.None? || FindBill(db.staffBillings, id).None?
    ensures r.AlreadyPaid? <==> user.Some? && FindBill(db.staffBillings, id).Some?
                                && !PayableAsWritten(db.staffBillings[FindBill(db.staffBillings, id).value])
    ensures r.PayCrashed? ==> ToMinorUnits(db.staffBillings[FindBill(db.staffBillings, id).value].totalFee).None?
    ensures r.Redirect? ==>
      && user.Some? && FindBill(db.staffBillings, id).Some?
      && var bill := db.staffBillings[FindBill(db.staffBillings, id).value];
         && PayableAsWritten(bill)
         && ToMinorUnits(bill.totalFee).Some?
         && FixedParams(r.params, createDate, ipAddress, txnRef)
         && r.params["vnp_Amount"] == IntToString(ToMinorUnits(bill.totalFee).value)
         && r.params["vnp_OrderInfo"] == OrderInfo(user.value.userName, "StaffBilling", bill.id)
         && r.params["vnp_ReturnUrl"] == scheme + "://" + host + "/StaffBilling/PaymentCallback"
  {
    var found := FindBill(db.staffBillings, id);
    if found.None? || user.None? {
      return PayNotFound;
    }
    var bill := db.staffBillings[found.value];
    if bill.isPaid {
      return AlreadyPaid;
    }
    var url := CreateBillingPaymentUrl(user.value, bill, scheme, host, createDate, ipAddress, txnRef);
    if url.None? {
      return PayCrashed;
    }
    r := Redirect(url.value);
  }

  /** No bill of the ledger is flagged paid. */
  ghost predicate NoneMarkedPaid(bills: seq<StaffBilling>) {
    forall i :: 0 <= i < |bills| ==> !bills[i].isPaid
  }

  /** Creating a bill never flags one paid. */
  lemma MonthlyFeeKeepsIsPaid(bills: seq<StaffBilling>, links: seq<StaffRestaurant>, reservations: seq<Reservation>,
                              staffId: string, y: int, m: int)
    requires NoneMarkedPaid(bills)
    ensures NoneMarkedPaid(MonthlyFee(bills, links, reservations, staffId, y, m).bills)
  {
    var out := MonthlyFee(bills, links, reservations, staffId, y, m);
    if out.bills != bills {
      assert out.bills == bills + [out.result.bill];
      assert !out.result.bill.isPaid;
    }
  }

  /** The gateway callback only ever sets a bill's status. */
  lemma CallbackKeepsIsPaid(users: seq<User>, bills: seq<StaffBilling>, resp: PaymentResponse)
    requires NoneMarkedPaid(bills)
    ensures NoneMarkedPaid(BillCallback(users, bills, resp).table)
  {
    var after := BillCallback(users, bills, resp).table;
    forall i | 0 <= i < |after| ensures !after[i].isPaid {
      if after[i] != bills[i] {
        assert after[i] == bills[i].(status := Pending);
      }
    }
  }

  /**
   * Nothing sets `IsPaid`: bill creation (by the staff member or an admin),
   * the gateway callback and the admin's decision all keep every bill's flag false.
   */
  lemma NothingSetsIsPaid(users: seq<User>, bills: seq<StaffBilling>, links: seq<StaffRestaurant>,
                          reservations: seq<Reservation>, staffId: string, y: int, m: int,
                          resp: PaymentResponse, s: BillingStatus)
    requires NoneMarkedPaid(bills)
    ensures NoneMarkedPaid(MonthlyFee(bills, links, reservations, staffId, y, m).bills)
    ensures NoneMarkedPaid(AdminBill(users, bills, links, reservations, staffId, y, m).bills)
    ensures NoneMarkedPaid(BillCallback(users, bills, resp).table)
    ensures Decide(bills, staffId, s).Some? ==> NoneMarkedPaid(Decide(bills, staffId, s).value)
  {
    MonthlyFeeKeepsIsPaid(bills, links, reservations, staffId, y, m);
    CallbackKeepsIsPaid(users, bills, resp);
  }

  /**
   * The discrepancy: once the gateway has reported a bill paid (Pending) or
   * the admin has accepted it, `Pay` still sends the staff member to the
   * gateway to pay it again.
   */
  lemma PaidBillCanBePaidAgain(users: seq<User>, bills: seq<StaffBilling>, resp: PaymentResponse, staffId: string, i: nat)
    requires NoneMarkedPaid(bills) && i < |bills|
    ensures BillCallback(users, bills, resp).table[i].status == Pending ==> PayableAsWritten(BillCallback(users, bills, resp).table[i])
    ensures Decide(bills, staffId, Accepted).Some? ==> PayableAsWritten(Decide(bills, staffId, Accepted).value[i])
  {
    CallbackKeepsIsPaid(users, bills, resp);
  }

  /** The gate the status column was introduced for: only a bill not yet paid (or whose payment was rejected) may be paid. */
  predicate Payable(bill: StaffBilling) {
    bill.status == Unpaid || bill.status == Rejected
  }

  /**
   * The corrected gate refuses a bill once the callback has set it Pending
   * and once an admin has accepted it, and a freshly generated bill can be paid.
   */
  lemma PayableRefusesSettledBills(users: seq<User>, bills: seq<StaffBilling>, resp: PaymentResponse,
                                   staffId: string, i: nat)
    requires i < |bills|
    ensures BillCallback(users, bills, resp).table[i] != bills[i] ==> !Payable(BillCallback(users, bills, resp).table[i])
    ensures Decide(bills, staffId, Accepted).Some? && Decide(bills, staffId, Accepted).value[i] != bills[i]
            ==> !Payable(Decide(bills, staffId, Accepted).value[i])
    ensures bills[i].status == Unpaid ==> Payable(bills[i])
  {
    var after := BillCallback(users, bills, resp).table;
    if after[i] != bills[i] {
      assert after[i] == bills[i].(status := Pending);
    }
  }

  // ---------------------------------------------------------------------------
  // PaymentCallback
  // ---------------------------------------------------------------------------

  datatype CallbackResult = CallbackCrashed | PaymentSucceeded | PaymentFailed

  function UserId(u: User): string { u.id }

  /**
   * `PaymentCallback`: applies the ledger callback, then on a completed
   * payment notifies every admin. The message names the signed-in user, so
   * with no signed-in user and at least one admin the loop throws before
   * the first notification.
   */
  method PaymentCallback(db: AppDbContext, user: Option<User>, admins: seq<User>, resp: PaymentResponse, now: DateTime)
    returns (r: CallbackResult)
    modifies db`staffBillings, db`notifications
    ensures var applied := BillCallback(db.users, old(db.staffBillings), resp);
      db.staffBillings == applied.table
      && (applied.crashed ==> r == CallbackCrashed && db.notifications == old(db.notifications))
      && (!applied.crashed && !Paid(resp) ==> r == PaymentFailed && db.notifications == old(db.notifications))
      && (!applied.crashed && Paid(resp) && user.None? && |admins| > 0 ==>
            r == CallbackCrashed && db.notifications == old(db.notifications))
      && (!applied.crashed && Paid(resp) && (user.Some? || |admins| == 0) ==>
            r == PaymentSucceeded && db.notifications == old(db.notifications) + NotificationsFor(Select(admins, UserId), now))
  {
    var response, crashed := ExecuteVnPayCallback(db, resp);
    if crashed {
      return CallbackCrashed;
    }
    if !(response.success && response.vnPayResponseCode == SuccessCode) {
      return PaymentFailed;
    }
    if user.None? && |admins| > 0 {
      return CallbackCrashed;
    }
    NotifyAll(db, Select(admins, UserId), now);
    r := PaymentSucceeded;
  }

  /** Admins hear of a completed payment even when its order information names no known bill. */
  lemma AdminsNotifiedWithoutBill(users: seq<User>, bills: seq<StaffBilling>, resp: PaymentResponse)
    requires Paid(resp) && ParseCallback(resp).Target? && FindBill(bills, ParseCallback(resp).id).None?
    ensures BillCallback(users, bills, resp) == Applied(false, bills)
  {
  }

  // ---------------------------------------------------------------------------
  // GenerateBill
  // ---------------------------------------------------------------------------

  /** What `GenerateBill` answers; `NothingToBill` only in the corrected version. */
  datatype GenerateResult = LoginRequired | AlreadyCreated | Generated(bill: StaffBilling) | NothingToBill | GenerateCrashed

  /** A generation: its result and the two tables it writes. */
  datatype GenerateOutcome = GenerateOutcome(result: GenerateResult, bills: seq<StaffBilling>, notifications: seq<Notification>)

  /**
   * `GenerateBill` as written: after the existence check it computes the
   * fee, saves the "bill created" notification, then reads the fee of the
   * result, which throws when the calculation created no bill.
   */
  function GenerateBillAsWritten(bills: seq<StaffBilling>, links: seq<StaffRestaurant>, reservations: seq<Reservation>,
                                 notifications: seq<Notification>, user: Option<User>, now: DateTime): (out: GenerateOutcome)
    ensures user.None? ==> out == GenerateOutcome(LoginRequired, bills, notifications)
    ensures user.Some? && ExistingBill(bills, user.value.id, now.year, now.month).Some? ==>
      out == GenerateOutcome(AlreadyCreated, bills, notifications)
    ensures out.result.Generated? ==>
      user.Some? && out.result.bill.userId == user.value.id && out.bills == bills + [out.result.bill]
      && out.notifications == notifications + [Notification(user.value.id, now)]
  {
    if user.None? then GenerateOutcome(LoginRequired, bills, notifications)
    else
      var id := user.value.id;
      if ExistingBill(bills, id, now.year, now.month).Some? then GenerateOutcome(AlreadyCreated, bills, notifications)
      else
        var fee := MonthlyFee(bills, links, reservations, id, now.year, now.month);
        match fee.result
        case Crash => GenerateOutcome(GenerateCrashed, fee.bills, notifications)
        case NoBill => GenerateOutcome(GenerateCrashed, fee.bills, notifications + [Notification(id, now)])
        case Bill(b) => GenerateOutcome(Generated(b), fee.bills, notifications + [Notification(id, now)])
  }

  /**
   * The discrepancy: a signed-in staff member who manages no restaurant is
   * told a bill was created (the notification is saved) and then gets an
   * error page.
   */
  lemma GenerateBillCrashesWithoutRestaurants(bills: seq<StaffBilling>, links: seq<StaffRestaurant>,
                                              reservations: seq<Reservation>, notifications: seq<Notification>,
                                              user: User, now: DateTime)
    requires ExistingBill(bills, user.id, now.year, now.month).None?
    requires |RestaurantsOf(links, user.id)| == 0
    ensures GenerateBillAsWritten(bills, links, reservations, notifications, Some(user), now)
         == GenerateOutcome(GenerateCrashed, bills, notifications + [Notification(user.id, now)])
  {
    assert MonthlyFee(bills, links, reservations, user.id, now.year, now.month) == FeeOutcome(NoBill, bills);
  }

  /** `GenerateBill` as intended: no bill to create is answered as such, and nobody is notified of it. */
  function GenerateBillCorrected(bills: seq<StaffBilling>, links: seq<StaffRestaurant>, reservations: seq<Reservation>,
                                 notifications: seq<Notification>, user: Option<User>, now: DateTime): GenerateOutcome
  {
    if user.None? then GenerateOutcome(LoginRequired, bills, notifications)
    else
      var id := user.value.id;
      if ExistingBill(bills, id, now.year, now.month).Some? then GenerateOutcome(AlreadyCreated, bills, notifications)
      else
        var fee := MonthlyFee(bills, links, reservations, id, now.year, now.month);
        match fee.result
        case Crash => GenerateOutcome(GenerateCrashed, fee.bills, notifications)
        case NoBill => GenerateOutcome(NothingToBill, fee.bills, notifications)
        case Bill(b) => GenerateOutcome(Generated(b), fee.bills, notifications + [Notification(id, now)])
  }

  /**
   * The corrected generation never fails on a well-formed clock, notifies
   * exactly when it creates this month's bill, and creates one exactly for a
   * staff member who manages a restaurant and has no bill yet.
   */
  lemma GenerateBillCorrectedNeverCrashes(bills: seq<StaffBilling>, links: seq<StaffRestaurant>,
                                          reservations: seq<Reservation>, notifications: seq<Notification>,
                                          user: Option<User>, now: DateTime)
    requires Valid(now)
    ensures var out := GenerateBillCorrected(bills, links, reservations, notifications, user, now);
      !out.result.GenerateCrashed?
      && (out.notifications != notifications <==> out.result.Generated?)
      && (out.result.Generated? <==>
            user.Some? && |user.value.id| > 0 && ExistingBill(bills, user.value.id, now.year, now.month).None?
            && |RestaurantsOf(links, user.value.id)| > 0)
      && (out.result.Generated? ==>
            out.bills == bills + [out.result.bill]
            && out.result.bill.month.year == now.year && out.result.bill.month.month == now.month)
      && (!out.result.Generated? ==> out.bills == bills)
  {
  }

  /** `GenerateBill`: follows `GenerateBillAsWritten`, writing the bill and the notification to the database. */
  method GenerateBill(db: AppDbContext, user: Option<User>, now: DateTime) returns (r: GenerateResult)
    modifies db`staffBillings, db`notifications
    ensures GenerateOutcome(r, db.staffBillings, db.notifications)
         == GenerateBillAsWritten(old(db.staffBillings), db.staffRestaurants, db.reservations, old(db.notifications), user, now)
  {
    if user.None? {
      return LoginRequired;
    }
    var id := user.value.id;
    if ExistingBill(db.staffBillings, id, now.year, now.month).Some? {
      return AlreadyCreated;
    }
    var fee := CalculateMonthlyFee(db, id, Some(now.year), Some(now.month), now);
    if fee.Crash? {
      return GenerateCrashed;
    }
    db.notifications := db.notifications + [Notification(id, now)];
    if fee.NoBill? {
      return GenerateCrashed;
    }
    r := Generated(fee.bill);
  }
}
