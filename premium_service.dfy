/**
 * Premium entitlement, Services/PremiumService.cs: the payment parameters
 * of a premium package, the upgrade of an account, and the gateway callback
 * that upgrades the account named in the order information.
 */
module PremiumService {
  import opened Wrappers
  import opened Calendar
  import opened Text
  import opened Entities
  import opened VnPay
  import opened BillingService

  /** The `vnp_OrderInfo` of a premium payment: `userName|description`. */
  function PremiumOrderInfo(userName: string, description: string): string {
    userName + "|" + description
  }

  /** The account the callback upgrades: the first '|' field of the order information. */
  function PremiumTarget(orderInfo: string): string {
    Split(orderInfo, '|')[0]
  }

  /** The order information of a premium payment names its buyer, whatever the description holds. */
  lemma PremiumTargetRoundTrip(userName: string, description: string)
    requires '|' !in userName
    ensures PremiumTarget(PremiumOrderInfo(userName, description)) == userName
  {
    assert PremiumOrderInfo(userName, description) == userName + ['|'] + description;
    SplitAfterPiece(userName, '|', description);
  }

  /** A user name holding '|' names another account: the part before the '|'. */
  lemma PremiumTargetWithBar(a: string, b: string, description: string)
    requires '|' !in a
    ensures PremiumTarget(PremiumOrderInfo(a + "|" + b, description)) == a
  {
    assert PremiumOrderInfo(a + "|" + b, description) == a + ['|'] + (b + "|" + description);
    SplitAfterPiece(a, '|', b + "|" + description);
  }

  /** `CreatePremiumPaymentUrl`: the parameters of the payment of a premium package. */
  method CreatePremiumPaymentUrl(user: User, package: PremiumPackage, scheme: string, host: string,
                                 createDate: string, ipAddress: string, txnRef: string)
    returns (r: Option<map<string, string>>)
    ensures r.None? <==> ToMinorUnits(package.amount).None?
    ensures r.Some? ==> FixedParams(r.value, createDate, ipAddress, txnRef)
    ensures r.Some? ==> r.value["vnp_Amount"] == IntToString(ToMinorUnits(package.amount).value)
    ensures r.Some? ==> r.value["vnp_OrderInfo"] == PremiumOrderInfo(user.userName, package.description)
    ensures r.Some? ==> r.value["vnp_OrderType"] == package.orderType
    ensures r.Some? ==> r.value["vnp_ReturnUrl"] == scheme + "://" + host + "/Premium/PaymentCallback"
  {
    var returnUrl := scheme + "://" + host + "/Premium/PaymentCallback";
    var info := PremiumOrderInfo(user.userName, package.description);
    r := BuildPayment(package.amount, info, package.orderType, returnUrl, createDate, ipAddress, txnRef);
    if r.Some? {
      PaymentDataFields(IntToString(ToMinorUnits(package.amount).value), info, package.orderType, returnUrl,
                        createDate, ipAddress, txnRef);
    }
  }

  /** The account after an upgrade for `days` days at `now`: premium until `now + days`. */
  function Upgraded(u: User, days: nat, now: DateTime): (v: User)
    requires Valid(now)
    ensures v.isPremium && v.premiumExpireDate == Some(AddDays(now, days))
    ensures days > 0 ==> Before(now, v.premiumExpireDate.value)
    ensures v.(isPremium := u.isPremium, premiumExpireDate := u.premiumExpireDate) == u
  {
    u.(isPremium := true, premiumExpireDate := Some(AddDays(now, days)))
  }

  /**
   * `UpgradeToPremiumAsync` on the account at position `i`: the store keeps
   * the upgrade only when the identity update succeeds, which is an input.
   */
  method UpgradeToPremiumAsync(db: AppDbContext, i: nat, package: PremiumPackage, now: DateTime, updateSucceeds: bool)
    returns (ok: bool)
    requires i < |db.users| && Valid(now) && package.durationInDays >= 0
    modifies db`users
    ensures ok == updateSucceeds
    ensures db.users == if updateSucceeds then old(db.users)[i := Upgraded(old(db.users)[i], package.durationInDays, now)]
                        else old(db.users)
  {
    if updateSucceeds {
      db.users := db.users[i := Upgraded(db.users[i], package.durationInDays, now)];
    }
    ok := updateSucceeds;
  }

  /**
   * The callback on the Users table: a verified response whose first
   * order-information field names an existing account upgrades it by the
   * default package when the code is "00". The code is checked last.
   */
  function PremiumCallback(users: seq<User>, resp: PaymentResponse, now: DateTime, updateSucceeds: bool): (r: seq<User>)
    requires Valid(now)
    ensures |r| == |users|
    ensures r != users ==> Paid(resp) && updateSucceeds && FindUserByName(users, PremiumTarget(resp.orderDescription)).Some?
    ensures Paid(resp) && updateSucceeds && FindUserByName(users, PremiumTarget(resp.orderDescription)).Some? ==>
      var i := FindUserByName(users, PremiumTarget(resp.orderDescription)).value;
      r == users[i := Upgraded(users[i], DefaultPremiumPackage.durationInDays, now)]
  {
    if !resp.success then users
    else
      match FindUserByName(users, PremiumTarget(resp.orderDescription))
      case None => users
      case Some(i) =>
        if resp.vnPayResponseCode == SuccessCode && updateSucceeds then
          users[i := Upgraded(users[i], DefaultPremiumPackage.durationInDays, now)]
        else users
  }

  /** `ExecuteVnPayCallback` of the premium service: hands the response back and applies `PremiumCallback`. */
  method ExecuteVnPayCallback(db: AppDbContext, resp: PaymentResponse, now: DateTime, updateSucceeds: bool)
    returns (r: PaymentResponse)
    requires Valid(now)
    modifies db`users
    ensures r == resp
    ensures db.users == PremiumCallback(old(db.users), resp, now, updateSucceeds)
  {
    r := resp;
    if !resp.success {
      return;
    }
    var user := FindUserByName(db.users, PremiumTarget(resp.orderDescription));
    if user.None? {
      return;
    }
    if resp.vnPayResponseCode == SuccessCode {
      var package := DefaultPremiumPackage;
      var _ := UpgradeToPremiumAsync(db, user.value, package, now, updateSucceeds);
    }
  }

  /** Upgrading only touches the two premium fields, so the account is still found under its name. */
  lemma {:induction false} FindUserByNameAfterUpgrade(users: seq<User>, i: nat, days: nat, now: DateTime, name: string)
    requires i < |users| && Valid(now)
    ensures FindUserByName(users[i := Upgraded(users[i], days, now)], name) == FindUserByName(users, name)
  {
    var after := users[i := Upgraded(users[i], days, now)];
    assert forall j :: 0 <= j < |users| ==> after[j].userName == users[j].userName;
  }

  /**
   * The buyer's own payment upgrades them for 30 days from the callback;
   * a replay of the same response at a later time does not add 30 more days
   * but restarts the 30 days from the replay.
   */
  lemma PremiumReplayRestartsPeriod(users: seq<User>, userName: string, description: string, first: DateTime, second: DateTime)
    requires Valid(first) && Valid(second) && '|' !in userName
    requires FindUserByName(users, userName).Some?
    ensures var resp := PaymentResponse(true, SuccessCode, PremiumOrderInfo(userName, description));
      var i := FindUserByName(users, userName).value;
      var once := PremiumCallback(users, resp, first, true);
      var twice := PremiumCallback(once, resp, second, true);
      once[i].isPremium && once[i].premiumExpireDate == Some(AddDays(first, 30))
      && twice[i].premiumExpireDate == Some(AddDays(second, 30))
  {
    PremiumTargetRoundTrip(userName, description);
    var i := FindUserByName(users, userName).value;
    FindUserByNameAfterUpgrade(users, i, 30, first, userName);
  }
}
