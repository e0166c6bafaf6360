/**
 * The part of .NET's `DateTime` that the marketplace relies on: Gregorian
 * calendar months, day arithmetic, and the ordering of instants.
 * An instant is a calendar date plus a tick count within that day; the
 * ordering is lexicographic, which is the ordering of .NET ticks.
 */
module Calendar {

  /** 100-nanosecond ticks in one day. */
  const TicksPerDay: int := 864_000_000_000

  datatype DateTime = DateTime(year: int, month: int, day: int, tick: int)

  predicate IsLeapYear(y: int) {
    y % 4 == 0 && (y % 100 != 0 || y % 400 == 0)
  }

  /** `DateTime.DaysInMonth` for a month 1..12 of the Gregorian calendar. */
  function DaysInMonth(y: int, m: int): (d: int)
    requires 1 <= m <= 12
    ensures 28 <= d <= 31
    ensures m == 2 ==> (d == 29 <==> IsLeapYear(y))
    ensures m != 2 ==> (d == 30 <==> m in {4, 6, 9, 11})
  {
    if m == 2 then (if IsLeapYear(y) then 29 else 28)
    else if m in {4, 6, 9, 11} then 30
    else 31
  }

  /** The arguments `DateTime(y, m, 1)` and `DateTime.DaysInMonth(y, m)` accept without throwing. */
  predicate ValidMonth(y: int, m: int) {
    1 <= y && 1 <= m <= 12
  }

  /** The arguments `DateTime.DaysInMonth(y, m)` accepts: a year of 1..9999 and a month of 1..12. */
  predicate DaysInMonthDefined(y: int, m: int) {
    1 <= y <= 9999 && 1 <= m <= 12
  }

  predicate Valid(d: DateTime) {
    ValidMonth(d.year, d.month) && 1 <= d.day <= DaysInMonth(d.year, d.month)
    && 0 <= d.tick < TicksPerDay
  }

  /** Strictly earlier. */
  predicate Before(a: DateTime, b: DateTime) {
    a.year < b.year
    || (a.year == b.year && a.month < b.month)
    || (a.year == b.year && a.month == b.month && a.day < b.day)
    || (a.year == b.year && a.month == b.month && a.day == b.day && a.tick < b.tick)
  }

  predicate AtOrBefore(a: DateTime, b: DateTime) {
    !Before(b, a)
  }

  lemma BeforeTransitive(a: DateTime, b: DateTime, c: DateTime)
    requires Before(a, b) && Before(b, c)
    ensures Before(a, c)
  {
  }

  lemma AtOrBeforeTotal(a: DateTime, b: DateTime)
    ensures AtOrBefore(a, b) || AtOrBefore(b, a)
    ensures AtOrBefore(a, b) && AtOrBefore(b, a) ==> a == b
  {
  }

  /** `new DateTime(y, m, 1)`: midnight of the first day of the month. */
  function StartOfMonth(y: int, m: int): (r: DateTime)
    requires ValidMonth(y, m)
    ensures Valid(r) && r.year == y && r.month == m
    ensures forall d :: Valid(d) && d.year == y && d.month == m ==> AtOrBefore(r, d)
  {
    DateTime(y, m, 1, 0)
  }

  /** `new DateTime(y, m, 1).AddMonths(1)`. */
  function StartOfNextMonth(y: int, m: int): (r: DateTime)
    requires ValidMonth(y, m)
    ensures Valid(r) && Before(StartOfMonth(y, m), r)
  {
    if m == 12 then DateTime(y + 1, 1, 1, 0) else DateTime(y, m + 1, 1, 0)
  }

  /**
   * The half-open window [first of month, first of next month) used to
   * select a month's activity holds exactly the instants of that calendar month.
   */
  lemma InMonthWindow(d: DateTime, y: int, m: int)
    requires Valid(d) && ValidMonth(y, m)
    ensures (AtOrBefore(StartOfMonth(y, m), d) && Before(d, StartOfNextMonth(y, m)))
            <==> (d.year == y && d.month == m)
  {
  }

  /** The same time of day on the following calendar day. */
  function NextDay(d: DateTime): (r: DateTime)
    requires Valid(d)
    ensures Valid(r) && Before(d, r) && r.tick == d.tick
  {
    if d.day < DaysInMonth(d.year, d.month) then d.(day := d.day + 1)
    else if d.month < 12 then d.(month := d.month + 1, day := 1)
    else d.(year := d.year + 1, month := 1, day := 1)
  }

  /** `DateTime.AddDays(n)` for a whole number of days. */
  function AddDays(d: DateTime, n: nat): (r: DateTime)
    requires Valid(d)
    ensures Valid(r) && r.tick == d.tick
    ensures n > 0 ==> Before(d, r)
    decreases n
  {
    if n == 0 then d
    else
      AddDays(NextDay(d), n - 1)
  }

  /** `DateTime.AddYears(n)`: 29 February becomes 28 February in a common year. */
  function AddYears(d: DateTime, n: nat): (r: DateTime)
    requires Valid(d)
    ensures Valid(r) && r.year == d.year + n && r.month == d.month && r.tick == d.tick
    ensures n > 0 ==> Before(d, r)
  {
    var y := d.year + n;
    if d.month == 2 && d.day == 29 && !IsLeapYear(y) then d.(year := y, day := 28)
    else d.(year := y)
  }
}
