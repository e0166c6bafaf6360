/**
 * The staff reports of Controllers/StaffReportController.cs: the admin
 * reservation chart restricted to the restaurants the staff member manages,
 * and the staff member's food revenue (order total less the platform's
 * commission) per month.
 */
module StaffReportController {
  import opened Wrappers
  import opened Calendar
  import opened Tables
  import opened Grouping
  import opened Entities
  import opened ReportController

  /** A confirmed reservation at one of the restaurants `ids`. */
  function ConfirmedAtAny(ids: seq<int>): Reservation -> bool {
    (r: Reservation) => r.status == "Confirmed" && r.restaurantId in ids
  }

  /** What the staff report counts: confirmed, managed, and at the chosen restaurant when one is chosen. */
  function StaffCounted(ids: seq<int>, restaurantId: Option<int>): Reservation -> bool {
    (r: Reservation) => r.status == "Confirmed" && r.restaurantId in ids
                        && (restaurantId.Some? ==> r.restaurantId == restaurantId.value)
  }

  /** The query of the staff report for staff member `userId`. */
  function StaffQuery(reservations: seq<Reservation>, links: seq<StaffRestaurant>, userId: string,
                      restaurantId: Option<int>): seq<Reservation>
  {
    var q := Where(reservations, ConfirmedAtAny(RestaurantsOf(links, userId)));
    if restaurantId.Some? then Where(q, AtRestaurant(restaurantId.value)) else q
  }

  /** Counting within the staff query counts the confirmed reservations of managed (and chosen) restaurants. */
  lemma {:induction false} StaffQueryCount(reservations: seq<Reservation>, links: seq<StaffRestaurant>, userId: string,
                                           restaurantId: Option<int>, p: Reservation -> bool)
    ensures Count(StaffQuery(reservations, links, userId, restaurantId), p)
         == Count(reservations, Both(StaffCounted(RestaurantsOf(links, userId), restaurantId), p))
  {
    var ids := RestaurantsOf(links, userId);
    var c := ConfirmedAtAny(ids);
    if restaurantId.Some? {
      var a := AtRestaurant(restaurantId.value);
      WhereWhere(reservations, c, a);
      CountWhere(reservations, Both(c, a), p);
      CountSame(reservations, Both(Both(c, a), p), Both(StaffCounted(ids, restaurantId), p));
    } else {
      CountWhere(reservations, c, p);
      CountSame(reservations, Both(c, p), Both(StaffCounted(ids, restaurantId), p));
    }
  }

  /** Choosing a restaurant the staff member does not manage selects nothing at all. */
  lemma {:induction false} UnmanagedRestaurantSelectsNothing(reservations: seq<Reservation>, links: seq<StaffRestaurant>,
                                                             userId: string, restaurantId: int)
    requires StaffRestaurant(userId, restaurantId) !in links
    ensures StaffQuery(reservations, links, userId, Some(restaurantId)) == []
  {
    var q := Where(reservations, ConfirmedAtAny(RestaurantsOf(links, userId)));
    forall i | 0 <= i < |q| ensures !AtRestaurant(restaurantId)(q[i]) {
      assert q[i] in q;
    }
    WhereNone(q, AtRestaurant(restaurantId));
  }

  /** `GetConfirmedReservationData` of the staff report; the year defaults to the current one. */
  function GetConfirmedReservationData(reservations: seq<Reservation>, links: seq<StaffRestaurant>, userId: string,
                                       restaurantId: Option<int>, groupBy: string, month: Option<int>,
                                       year: Option<int>, now: DateTime): (r: Chart<Point>)
    ensures groupBy == "Day" && month.None? ==> r.BadRequest?
    ensures r.Crash? <==> groupBy == "Day" && month.Some? && !DaysInMonthDefined(year.GetOr(now.year), month.value)
    ensures groupBy == "Month" ==> r.Json? && |r.points| == 12
  {
    ReservationChart(StaffQuery(reservations, links, userId, restaurantId), groupBy, month, year.GetOr(now.year))
  }

  /** Bar `d` of the staff day chart: the confirmed reservations of managed (and chosen) restaurants on that day. */
  lemma StaffConfirmedPerDay(reservations: seq<Reservation>, links: seq<StaffRestaurant>, userId: string,
                             restaurantId: Option<int>, m: int, y: int, d: int, now: DateTime)
    requires DaysInMonthDefined(y, m) && 1 <= d <= DaysInMonth(y, m)
    ensures var r := GetConfirmedReservationData(reservations, links, userId, restaurantId, "Day", Some(m), Some(y), now);
      r.Json? && |r.points| == DaysInMonth(y, m)
      && r.points[d - 1].count == Count(reservations, Both(StaffCounted(RestaurantsOf(links, userId), restaurantId), OnDay(y, m, d)))
  {
    DayChartCounts(StaffQuery(reservations, links, userId, restaurantId), m, y, d);
    StaffQueryCount(reservations, links, userId, restaurantId, OnDay(y, m, d));
  }

  /** Bar `m` of the staff month chart: the confirmed reservations of managed (and chosen) restaurants that month. */
  lemma StaffConfirmedPerMonth(reservations: seq<Reservation>, links: seq<StaffRestaurant>, userId: string,
                               restaurantId: Option<int>, y: int, m: int, now: DateTime)
    requires 1 <= m <= 12
    ensures var r := GetConfirmedReservationData(reservations, links, userId, restaurantId, "Month", None, Some(y), now);
      r.Json? && r.points[m - 1].count
        == Count(reservations, Both(StaffCounted(RestaurantsOf(links, userId), restaurantId), InMonth(y, m)))
  {
    MonthChartCounts(StaffQuery(reservations, links, userId, restaurantId), y, m);
    StaffQueryCount(reservations, links, userId, restaurantId, InMonth(y, m));
  }

  // ---------------------------------------------------------------------------
  // GetFoodOrderRevenue
  // ---------------------------------------------------------------------------

  /** What the staff member keeps of an order: its total less the platform's commission. */
  function NetAmount(o: Order): real { o.totalAmount - o.adminCommission }

  function ConfirmedOrderAtAny(ids: seq<int>): Order -> bool {
    (o: Order) => o.status == "Confirmed" && o.restaurantId in ids
  }

  function OrderAt(id: int): Order -> bool {
    (o: Order) => o.restaurantId == id
  }

  /** A confirmed order of a managed (and chosen) restaurant created in month `m` of year `y`. */
  function StaffOrderIn(ids: seq<int>, restaurantId: Option<int>, y: int, m: int): Order -> bool {
    (o: Order) => o.status == "Confirmed" && o.restaurantId in ids
                  && (restaurantId.Some? ==> o.restaurantId == restaurantId.value)
                  && o.createdAt.year == y && o.createdAt.month == m
  }

  /** The order query of the revenue report for staff member `userId`. */
  function OrderQuery(orders: seq<Order>, links: seq<StaffRestaurant>, userId: string, restaurantId: Option<int>): seq<Order> {
    var q := Where(orders, ConfirmedOrderAtAny(RestaurantsOf(links, userId)));
    if restaurantId.Some? then Where(q, OrderAt(restaurantId.value)) else q
  }

  /** Month `m` of year `y` within the order query: the net revenue of the orders `StaffOrderIn` selects. */
  lemma {:induction false} OrderQueryMonthSum(orders: seq<Order>, links: seq<StaffRestaurant>, userId: string,
                                              restaurantId: Option<int>, y: int, m: int)
    ensures var data := Where(OrderQuery(orders, links, userId, restaurantId), CreatedIn(y));
      Lookup(SumGroups(data, CreatedMonth, NetAmount, Keys(data, CreatedMonth)), m, 0.0)
        == SumIf(orders, StaffOrderIn(RestaurantsOf(links, userId), restaurantId, y, m), NetAmount)
  {
    var ids := RestaurantsOf(links, userId);
    var c := ConfirmedOrderAtAny(ids);
    var all := StaffOrderIn(ids, restaurantId, y, m);
    if restaurantId.Some? {
      var a := OrderAt(restaurantId.value);
      WhereWhere(orders, c, a);
      forall o: Order ensures all(o) == (Both(c, a)(o) && CreatedIn(y)(o) && CreatedMonth(o) == m) {
      }
      SumTwoFilters(orders, Both(c, a), CreatedIn(y), CreatedMonth, m, NetAmount, all);
    } else {
      forall o: Order ensures all(o) == (c(o) && CreatedIn(y)(o) && CreatedMonth(o) == m) {
      }
      SumTwoFilters(orders, c, CreatedIn(y), CreatedMonth, m, NetAmount, all);
    }
  }

  /** Twelve bars for the months of year `y`: bar `k` is the sum grouped under month `k`, 0 when absent. */
  function NetRevenueBars(y: int, groups: seq<Group<real>>): (ps: seq<RevenuePoint>)
    ensures |ps| == 12
    ensures forall i :: 0 <= i < 12 ==> ps[i] == RevenuePoint(MonthLabel(i + 1, y), Lookup(groups, i + 1, 0.0))
  {
    seq(12, i => RevenuePoint(MonthLabel(i + 1, y), Lookup(groups, i + 1, 0.0)))
  }

  /** `GetFoodOrderRevenue`: monthly only; twelve zero-filled bars of net order revenue. */
  function GetFoodOrderRevenue(orders: seq<Order>, links: seq<StaffRestaurant>, userId: string, restaurantId: Option<int>,
                               groupBy: string, year: Option<int>, now: DateTime): (r: Chart<RevenuePoint>)
    ensures r.BadRequest? <==> groupBy != "Month"
    ensures !r.BadRequest? ==> r.Json? && |r.points| == 12
  {
    if groupBy != "Month" then BadRequest
    else
      var y := year.GetOr(now.year);
      var data := Where(OrderQuery(orders, links, userId, restaurantId), CreatedIn(y));
      var groups := SumGroups(data, CreatedMonth, NetAmount, Keys(data, CreatedMonth));
      Json(NetRevenueBars(y, groups))
  }

  /** Bar `m`: the net revenue of the confirmed orders of managed (and chosen) restaurants created that month. */
  lemma StaffMonthlyRevenue(orders: seq<Order>, links: seq<StaffRestaurant>, userId: string, restaurantId: Option<int>,
                            y: int, m: int, now: DateTime)
    requires 1 <= m <= 12
    ensures GetFoodOrderRevenue(orders, links, userId, restaurantId, "Month", Some(y), now).points[m - 1]
         == RevenuePoint(MonthLabel(m, y), SumIf(orders, StaffOrderIn(RestaurantsOf(links, userId), restaurantId, y, m), NetAmount))
  {
    var data := Where(OrderQuery(orders, links, userId, restaurantId), CreatedIn(y));
    var groups := SumGroups(data, CreatedMonth, NetAmount, Keys(data, CreatedMonth));
    assert GetFoodOrderRevenue(orders, links, userId, restaurantId, "Month", Some(y), now) == Json(NetRevenueBars(y, groups));
    OrderQueryMonthSum(orders, links, userId, restaurantId, y, m);
  }
}
