/**
 * The admin reports of Controllers/ReportController.cs: confirmed
 * reservations per day, month or year, and the platform's revenue (order
 * commissions plus accepted staff fees) per month or year. Both are pure
 * queries: group, aggregate, then zero-fill the calendar.
 */
module ReportController {
  import opened Wrappers
  import opened Calendar
  import opened Text
  import opened Tables
  import opened Sorting
  import opened Grouping
  import opened Entities

  /** One bar of the reservation chart. */
  datatype Point = Point(caption: string, count: nat)

  /** One bar of a revenue chart. */
  datatype RevenuePoint = RevenuePoint(caption: string, value: real)

  /** A chart endpoint's answer: `BadRequest`, an escaping exception, or the JSON series. */
  datatype Chart<P> = BadRequest | Crash | Json(points: seq<P>)

  // ---------------------------------------------------------------------------
  // Keys and filters
  // ---------------------------------------------------------------------------

  function DayOf(r: Reservation): int { r.reservationDate.day }
  function MonthOf(r: Reservation): int { r.reservationDate.month }
  function YearOf(r: Reservation): int { r.reservationDate.year }

  predicate IsConfirmed(r: Reservation) { r.status == "Confirmed" }

  function AtRestaurant(id: int): Reservation -> bool {
    (r: Reservation) => r.restaurantId == id
  }

  function InYear(y: int): Reservation -> bool {
    (r: Reservation) => r.reservationDate.year == y
  }

  function InMonth(y: int, m: int): Reservation -> bool {
    (r: Reservation) => r.reservationDate.year == y && r.reservationDate.month == m
  }

  /** The reservations dated on day `d` of month `m` of year `y`. */
  function OnDay(y: int, m: int, d: int): Reservation -> bool {
    (r: Reservation) => r.reservationDate.year == y && r.reservationDate.month == m && r.reservationDate.day == d
  }

  /** The reservations the admin report counts: confirmed, and at the chosen restaurant when one is chosen. */
  function ConfirmedFor(restaurantId: Option<int>): Reservation -> bool {
    (r: Reservation) => r.status == "Confirmed" && (restaurantId.Some? ==> r.restaurantId == restaurantId.value)
  }

  // ---------------------------------------------------------------------------
  // Labels
  // ---------------------------------------------------------------------------

  /** `$"{d}/{month}/{year}"`. */
  function DayLabel(d: int, m: int, y: int): string {
    IntToString(d) + "/" + IntToString(m) + "/" + IntToString(y)
  }

  /** `$"Tháng {m}/{year}"`. */
  function MonthLabel(m: int, y: int): string {
    "Tháng " + IntToString(m) + "/" + IntToString(y)
  }

  // ---------------------------------------------------------------------------
  // Reservation chart
  // ---------------------------------------------------------------------------

  /** The years that have at least one reservation in `q`, ascending. */
  function ChartYears(q: seq<Reservation>): (ys: seq<int>)
    ensures StrictlyIncreasing(ys)
    ensures forall y :: y in ys ==> Count(q, InYear(y)) > 0
    ensures forall i :: 0 <= i < |q| ==> q[i].reservationDate.year in ys
  {
    var ys := SortedDistinct(Keys(q, YearOf));
    forall y | y in ys ensures Count(q, InYear(y)) > 0 {
      var i :| 0 <= i < |q| && YearOf(q[i]) == y;
      assert InYear(y)(q[i]);
    }
    ys
  }

  /** Bars for the keys `1..n`: bar `k` is captioned `title(k)` and counts the group of key `k`, 0 when there is none. */
  function CountBars(n: nat, title: int -> string, groups: seq<Group<nat>>): (ps: seq<Point>)
    ensures |ps| == n
    ensures forall i :: 0 <= i < n ==> ps[i] == Point(title(i + 1), Lookup(groups, i + 1, 0))
  {
    seq(n, i => Point(title(i + 1), Lookup(groups, i + 1, 0)))
  }

  /** Per day of month `m` of year `y`: `DaysInMonth` bars, zero-filled. */
  function DayChart(q: seq<Reservation>, m: int, y: int): (ps: seq<Point>)
    requires DaysInMonthDefined(y, m)
    ensures |ps| == DaysInMonth(y, m)
  {
    var data := Where(q, InMonth(y, m));
    var groups := CountGroups(data, DayOf, Keys(data, DayOf));
    CountBars(DaysInMonth(y, m), d => DayLabel(d, m, y), groups)
  }

  /** Per month of year `y`: twelve bars, zero-filled. */
  function MonthChart(q: seq<Reservation>, y: int): (ps: seq<Point>)
    ensures |ps| == 12
  {
    var data := Where(q, InYear(y));
    var groups := CountGroups(data, MonthOf, Keys(data, MonthOf));
    CountBars(12, k => MonthLabel(k, y), groups)
  }

  /** Per year: one bar per year that has reservations, ascending. */
  function YearChart(q: seq<Reservation>): (ps: seq<Point>)
    ensures |ps| == |ChartYears(q)|
  {
    var groups := CountGroups(q, YearOf, Keys(q, YearOf));
    var ys := ChartYears(q);
    seq(|ys|, i requires 0 <= i < |ys| => Point(IntToString(ys[i]), Lookup(groups, ys[i], 0)))
  }

  /**
   * The three groupings of a reservation query, as the handlers choose them:
   * per day of month (`month` required), per month of year `y`, otherwise per year.
   * `DateTime.DaysInMonth` throws outside years 1..9999 and months 1..12.
   */
  function ReservationChart(q: seq<Reservation>, groupBy: string, month: Option<int>, y: int): (r: Chart<Point>)
    ensures groupBy == "Day" && month.None? ==> r.BadRequest?
    ensures groupBy == "Day" && month.Some? ==> (r.Crash? <==> !DaysInMonthDefined(y, month.value))
    ensures groupBy == "Day" && month.Some? && DaysInMonthDefined(y, month.value) ==>
      r == Json(DayChart(q, month.value, y))
    ensures groupBy == "Month" ==> r == Json(MonthChart(q, y))
    ensures groupBy != "Day" && groupBy != "Month" ==> r == Json(YearChart(q))
  {
    if groupBy == "Day" then
      if month.None? then BadRequest
      else if !DaysInMonthDefined(y, month.value) then Crash
      else Json(DayChart(q, month.value, y))
    else if groupBy == "Month" then Json(MonthChart(q, y))
    else Json(YearChart(q))
  }

  /** Day `d` of the day chart counts exactly the reservations of `q` dated that day; 0 if there are none. */
  lemma DayChartCounts(q: seq<Reservation>, m: int, y: int, d: int)
    requires DaysInMonthDefined(y, m) && 1 <= d <= DaysInMonth(y, m)
    ensures DayChart(q, m, y)[d - 1] == Point(DayLabel(d, m, y), Count(q, OnDay(y, m, d)))
  {
    CountOneFilter(q, InMonth(y, m), DayOf, d, OnDay(y, m, d));
  }

  /** Month `m` of the month chart counts exactly the reservations of `q` in that month of year `y`. */
  lemma MonthChartCounts(q: seq<Reservation>, y: int, m: int)
    requires 1 <= m <= 12
    ensures MonthChart(q, y)[m - 1] == Point(MonthLabel(m, y), Count(q, InMonth(y, m)))
  {
    CountOneFilter(q, InYear(y), MonthOf, m, InMonth(y, m));
  }

  /** The year chart lists each year with reservations once, ascending, with that year's (non-zero) count. */
  lemma YearChartCounts(q: seq<Reservation>, i: nat)
    requires i < |ChartYears(q)|
    ensures var y := ChartYears(q)[i];
      YearChart(q)[i] == Point(IntToString(y), Count(q, InYear(y))) && Count(q, InYear(y)) > 0
  {
    var y := ChartYears(q)[i];
    CountOfGroup(q, YearOf, y);
    CountSame(q, KeyIs(YearOf, y), InYear(y));
  }

  // ---------------------------------------------------------------------------
  // GetConfirmedReservationData
  // ---------------------------------------------------------------------------

  /** The query of the admin report: confirmed reservations, narrowed to one restaurant when asked. */
  function AdminQuery(reservations: seq<Reservation>, restaurantId: Option<int>): seq<Reservation> {
    var q := Where(reservations, IsConfirmed);
    if restaurantId.Some? then Where(q, AtRestaurant(restaurantId.value)) else q
  }

  /** Counting within the admin query is counting the confirmed reservations of the chosen restaurant. */
  lemma {:induction false} AdminQueryCount(reservations: seq<Reservation>, restaurantId: Option<int>, p: Reservation -> bool)
    ensures Count(AdminQuery(reservations, restaurantId), p) == Count(reservations, Both(ConfirmedFor(restaurantId), p))
  {
    var q := Where(reservations, IsConfirmed);
    if restaurantId.Some? {
      var a := AtRestaurant(restaurantId.value);
      WhereWhere(reservations, IsConfirmed, a);
      CountWhere(reservations, Both(IsConfirmed, a), p);
      CountSame(reservations, Both(Both(IsConfirmed, a), p), Both(ConfirmedFor(restaurantId), p));
    } else {
      CountWhere(reservations, IsConfirmed, p);
      CountSame(reservations, Both(IsConfirmed, p), Both(ConfirmedFor(restaurantId), p));
    }
  }

  /** `GetConfirmedReservationData`; the year defaults to the current one. */
  function GetConfirmedReservationData(reservations: seq<Reservation>, restaurantId: Option<int>, groupBy: string,
                                       month: Option<int>, year: Option<int>, now: DateTime): (r: Chart<Point>)
    ensures groupBy == "Day" && month.None? ==> r.BadRequest?
    ensures r.Crash? <==> groupBy == "Day" && month.Some? && !DaysInMonthDefined(year.GetOr(now.year), month.value)
    ensures groupBy == "Month" ==> r.Json? && |r.points| == 12
  {
    ReservationChart(AdminQuery(reservations, restaurantId), groupBy, month, year.GetOr(now.year))
  }

  /**
   * End to end: bar `d` of the admin day chart is the number of confirmed
   * reservations (at the chosen restaurant, if any) dated on that day.
   */
  lemma ConfirmedPerDay(reservations: seq<Reservation>, restaurantId: Option<int>, m: int, y: int, d: int, now: DateTime)
    requires DaysInMonthDefined(y, m) && 1 <= d <= DaysInMonth(y, m)
    ensures var r := GetConfirmedReservationData(reservations, restaurantId, "Day", Some(m), Some(y), now);
      r.Json? && r.points[d - 1].count == Count(reservations, Both(ConfirmedFor(restaurantId), OnDay(y, m, d)))
  {
    DayChartCounts(AdminQuery(reservations, restaurantId), m, y, d);
    AdminQueryCount(reservations, restaurantId, OnDay(y, m, d));
  }

  /** End to end: bar `m` of the admin month chart is the number of confirmed reservations in that month. */
  lemma ConfirmedPerMonth(reservations: seq<Reservation>, restaurantId: Option<int>, y: int, m: int, now: DateTime)
    requires 1 <= m <= 12
    ensures var r := GetConfirmedReservationData(reservations, restaurantId, "Month", None, Some(y), now);
      r.Json? && r.points[m - 1].count == Count(reservations, Both(ConfirmedFor(restaurantId), InMonth(y, m)))
  {
    MonthChartCounts(AdminQuery(reservations, restaurantId), y, m);
    AdminQueryCount(reservations, restaurantId, InMonth(y, m));
  }

  // ---------------------------------------------------------------------------
  // GetRevenueData
  // ---------------------------------------------------------------------------

  predicate IsConfirmedOrder(o: Order) { o.status == "Confirmed" }
  predicate IsAccepted(b: StaffBilling) { b.status == Accepted }

  function CreatedMonth(o: Order): int { o.createdAt.month }
  function CreatedYear(o: Order): int { o.createdAt.year }
  function BilledMonth(b: StaffBilling): int { b.month.month }
  function BilledYear(b: StaffBilling): int { b.month.year }

  function Commission(o: Order): real { o.adminCommission }
  function TotalFee(b: StaffBilling): real { b.totalFee }

  function CreatedIn(y: int): Order -> bool {
    (o: Order) => o.createdAt.year == y
  }

  function BilledIn(y: int): StaffBilling -> bool {
    (b: StaffBilling) => b.month.year == y
  }

  /** A confirmed order created in month `m` of year `y`. */
  function ConfirmedOrderIn(y: int, m: int): Order -> bool {
    (o: Order) => o.status == "Confirmed" && o.createdAt.year == y && o.createdAt.month == m
  }

  /** An accepted staff bill for month `m` of year `y`. */
  function AcceptedBillIn(y: int, m: int): StaffBilling -> bool {
    (b: StaffBilling) => b.status == Accepted && b.month.year == y && b.month.month == m
  }

  function ConfirmedOrderInYear(y: int): Order -> bool {
    (o: Order) => o.status == "Confirmed" && o.createdAt.year == y
  }

  function AcceptedBillInYear(y: int): StaffBilling -> bool {
    (b: StaffBilling) => b.status == Accepted && b.month.year == y
  }

  /** The years with a confirmed order or an accepted bill: the `Union` of both year lists, ascending. */
  function RevenueYears(orders: seq<Order>, bills: seq<StaffBilling>): (ys: seq<int>)
    ensures StrictlyIncreasing(ys)
    ensures forall i :: 0 <= i < |orders| && IsConfirmedOrder(orders[i]) ==> orders[i].createdAt.year in ys
    ensures forall i :: 0 <= i < |bills| && IsAccepted(bills[i]) ==> bills[i].month.year in ys
    ensures forall y :: y in ys ==> Count(orders, ConfirmedOrderInYear(y)) > 0 || Count(bills, AcceptedBillInYear(y)) > 0
  {
    var food := Where(orders, IsConfirmedOrder);
    var staff := Where(bills, IsAccepted);
    var ys := SortedDistinct(Keys(food, CreatedYear) + Keys(staff, BilledYear));
    forall i | 0 <= i < |orders| && IsConfirmedOrder(orders[i]) ensures orders[i].createdAt.year in ys {
      FilteredKey(orders, IsConfirmedOrder, CreatedYear, i);
    }
    forall i | 0 <= i < |bills| && IsAccepted(bills[i]) ensures bills[i].month.year in ys {
      FilteredKey(bills, IsAccepted, BilledYear, i);
    }
    forall y | y in ys ensures Count(orders, ConfirmedOrderInYear(y)) > 0 || Count(bills, AcceptedBillInYear(y)) > 0 {
      if y in Keys(food, CreatedYear) {
        FilteredKeyCounted(orders, IsConfirmedOrder, CreatedYear, y, ConfirmedOrderInYear(y));
      } else {
        FilteredKeyCounted(bills, IsAccepted, BilledYear, y, AcceptedBillInYear(y));
      }
    }
    ys
  }

  /** Twelve bars for the months of year `y`: bar `k` adds the sums of month `k` from both groupings, 0 when absent. */
  function MonthRevenueBars(y: int, food: seq<Group<real>>, staff: seq<Group<real>>): (ps: seq<RevenuePoint>)
    ensures |ps| == 12
    ensures forall i :: 0 <= i < 12 ==> ps[i] == RevenuePoint(MonthLabel(i + 1, y), Lookup(food, i + 1, 0.0) + Lookup(staff, i + 1, 0.0))
  {
    seq(12, i => RevenuePoint(MonthLabel(i + 1, y), Lookup(food, i + 1, 0.0) + Lookup(staff, i + 1, 0.0)))
  }

  /** `GetRevenueData`: per month of the year (default: the current one) or per year. */
  function GetRevenueData(orders: seq<Order>, bills: seq<StaffBilling>, groupBy: string, year: Option<int>, now: DateTime)
    : (r: Chart<RevenuePoint>)
    ensures r.Json?
    ensures groupBy == "Month" ==> |r.points| == 12
    ensures groupBy != "Month" ==> |r.points| == |RevenueYears(orders, bills)|
  {
    var y := year.GetOr(now.year);
    var food := Where(orders, IsConfirmedOrder);
    var staff := Where(bills, IsAccepted);
    if groupBy == "Month" then
      var foodData := Where(food, CreatedIn(y));
      var staffData := Where(staff, BilledIn(y));
      var foodGroups := SumGroups(foodData, CreatedMonth, Commission, Keys(foodData, CreatedMonth));
      var staffGroups := SumGroups(staffData, BilledMonth, TotalFee, Keys(staffData, BilledMonth));
      Json(MonthRevenueBars(y, foodGroups, staffGroups))
    else
      var foodYears := SumGroups(food, CreatedYear, Commission, Keys(food, CreatedYear));
      var staffYears := SumGroups(staff, BilledYear, TotalFee, Keys(staff, BilledYear));
      var ys := RevenueYears(orders, bills);
      Json(seq(|ys|, i requires 0 <= i < |ys| =>
        RevenuePoint(IntToString(ys[i]), Lookup(foodYears, ys[i], 0.0) + Lookup(staffYears, ys[i], 0.0))))
  }

  /** Two chained filters then a key: the sum over the rows passing all three. */
  lemma {:induction false} SumTwoFilters<T(!new)>(s: seq<T>, p: T -> bool, q: T -> bool, key: T -> int, k: int,
                                               f: T -> real, all: T -> bool)
    requires forall x :: all(x) == (p(x) && q(x) && key(x) == k)
    ensures Lookup(SumGroups(Where(Where(s, p), q), key, f, Keys(Where(Where(s, p), q), key)), k, 0.0) == SumIf(s, all, f)
  {
    WhereWhere(s, p, q);
    SumOneFilter(s, Both(p, q), key, f, k, all);
  }

  /**
   * Month `m` of the monthly revenue is the commission of the confirmed
   * orders created that month plus the fees of the accepted bills of that month.
   */
  lemma MonthlyRevenue(orders: seq<Order>, bills: seq<StaffBilling>, y: int, m: int, now: DateTime)
    requires 1 <= m <= 12
    ensures GetRevenueData(orders, bills, "Month", Some(y), now).points[m - 1]
         == RevenuePoint(MonthLabel(m, y), SumIf(orders, ConfirmedOrderIn(y, m), Commission) + SumIf(bills, AcceptedBillIn(y, m), TotalFee))
  {
    SumTwoFilters(orders, IsConfirmedOrder, CreatedIn(y), CreatedMonth, m, Commission, ConfirmedOrderIn(y, m));
    SumTwoFilters(bills, IsAccepted, BilledIn(y), BilledMonth, m, TotalFee, AcceptedBillIn(y, m));
  }

  /** Year `ys[i]` of the yearly revenue sums both sources over that whole year; the requested year plays no part. */
  lemma YearlyRevenue(orders: seq<Order>, bills: seq<StaffBilling>, groupBy: string, year: Option<int>, now: DateTime, i: nat)
    requires groupBy != "Month" && i < |RevenueYears(orders, bills)|
    ensures var y := RevenueYears(orders, bills)[i];
      GetRevenueData(orders, bills, groupBy, year, now).points[i]
        == RevenuePoint(IntToString(y), SumIf(orders, ConfirmedOrderInYear(y), Commission) + SumIf(bills, AcceptedBillInYear(y), TotalFee))
  {
    var y := RevenueYears(orders, bills)[i];
    SumOneFilter(orders, IsConfirmedOrder, CreatedYear, Commission, y, ConfirmedOrderInYear(y));
    SumOneFilter(bills, IsAccepted, BilledYear, TotalFee, y, AcceptedBillInYear(y));
  }
}
