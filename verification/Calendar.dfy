/** The UTC calendar: instants are milliseconds since 1 January 1970, days have 24 hours, months
    follow the Gregorian rule and are numbered from January 1970. */
module Calendar {
  const HOUR := 3600000
  const DAY := 86400000

  function DayOf(t: int): int {
    t / DAY
  }

  /** 0 is Sunday, 6 is Saturday. */
  function Weekday(d: int): int {
    (d + 4) % 7
  }

  predicate Leap(year: int) {
    year % 4 == 0 && (year % 100 != 0 || year % 400 == 0)
  }

  function MonthLength(k: int): (n: int)
    ensures 28 <= n <= 31
  {
    var month := k % 12;
    if month == 1 then (if Leap(1970 + k / 12) then 29 else 28)
    else if month in {3, 5, 8, 10} then 30
    else 31
  }

  /** The first day of a month. */
  function MonthStart(k: int): int
    decreases if k < 0 then -k else k
  {
    if k == 0 then 0
    else if k > 0 then MonthStart(k - 1) + MonthLength(k - 1)
    else MonthStart(k + 1) - MonthLength(k)
  }

  function MonthBegin(k: int): int {
    MonthStart(k) * DAY
  }

  lemma {:induction false} MonthsAdvance(j: int, k: int)
    requires j <= k
    ensures MonthStart(j) + 28 * (k - j) <= MonthStart(k)
    decreases k - j
  {
    if j < k { MonthsAdvance(j, k - 1); }
  }

  function MonthFrom(d: int, k: int): (m: int)
    requires MonthStart(k) <= d
    ensures MonthStart(m) <= d < MonthStart(m + 1)
    decreases d - MonthStart(k)
  {
    if d < MonthStart(k + 1) then k else MonthFrom(d, k + 1)
  }

  function MonthBefore(d: int, k: int): (m: int)
    requires d < MonthStart(k)
    ensures MonthStart(m) <= d < MonthStart(m + 1)
    decreases MonthStart(k) - d
  {
    if MonthStart(k - 1) <= d then k - 1 else MonthBefore(d, k - 1)
  }

  function MonthOfDay(d: int): (m: int)
    ensures MonthStart(m) <= d < MonthStart(m + 1)
  {
    if 0 <= d then MonthFrom(d, 0) else MonthBefore(d, 0)
  }

  function MonthOf(t: int): int {
    MonthOfDay(DayOf(t))
  }

  /** `setMonth(getMonth() + n)`: the day of the month is kept and overflows into the next month. */
  function AddMonths(t: int, n: int): int {
    MonthBegin(MonthOf(t) + n) + (t - MonthBegin(MonthOf(t)))
  }

  /** An instant lies in or after a month exactly when it lies at or after the month's first instant. */
  lemma MonthOfAtLeast(t: int, k: int)
    ensures k <= MonthOf(t) <==> MonthBegin(k) <= t
  {
    var m := MonthOf(t);
    assert MonthStart(m) <= DayOf(t) < MonthStart(m + 1);
    if k <= m { MonthsAdvance(k, m); } else { MonthsAdvance(m + 1, k); }
    assert MonthStart(k) <= DayOf(t) <==> MonthStart(k) * DAY <= t by { DayBound(t, MonthStart(k)); }
  }

  lemma DayBound(t: int, d: int)
    ensures d <= DayOf(t) <==> d * DAY <= t
  {
    assert t == DayOf(t) * DAY + t % DAY && 0 <= t % DAY < DAY;
  }

  // ----- Dates --------------------------------------------------------------------------------

  function YearOf(d: int): int {
    1970 + MonthOfDay(d) / 12
  }

  /** 1 is January. */
  function MonthInYear(d: int): (m: int)
    ensures 1 <= m <= 12
  {
    MonthOfDay(d) % 12 + 1
  }

  function DayInMonthOf(d: int): int {
    d - MonthStart(MonthOfDay(d)) + 1
  }

  /** The usual rule for the day of the week of a Gregorian date: years count from March, every fourth
      year adds a day, centuries do not, fourth centuries do. */
  function DayOfWeek(year: int, month: int, day: int): int
    requires 1 <= month <= 12
  {
    RuleSum(year, month, day) % 7
  }

  function RuleSum(year: int, month: int, day: int): int
    requires 1 <= month <= 12
  {
    var y := if month < 3 then year - 1 else year;
    y + y / 4 - y / 100 + y / 400 + Offset(month) + day
  }

  function Offset(month: int): int
    requires 1 <= month <= 12
  {
    match month
    case 1 => 0
    case 2 => 3
    case 3 => 2
    case 4 => 5
    case 5 => 0
    case 6 => 3
    case 7 => 5
    case 8 => 1
    case 9 => 4
    case 10 => 6
    case 11 => 2
    case _ => 4
  }

  function FirstDaySum(k: int): int {
    RuleSum(1970 + k / 12, k % 12 + 1, 1)
  }

  lemma LeapDays(y: int)
    ensures y / 4 - (y - 1) / 4 == if y % 4 == 0 then 1 else 0
    ensures y / 100 - (y - 1) / 100 == if y % 100 == 0 then 1 else 0
    ensures y / 400 - (y - 1) / 400 == if y % 400 == 0 then 1 else 0
    ensures y % 400 == 0 ==> y % 100 == 0
    ensures y % 100 == 0 ==> y % 4 == 0
  {
  }

  /** From one month to the next the rule advances by the length of the month, up to whole weeks. */
  lemma RuleFollowsMonths(k: int) returns (weeks: int)
    ensures FirstDaySum(k + 1) + 7 * weeks == FirstDaySum(k) + MonthLength(k)
  {
    var year, month := 1970 + k / 12, k % 12;
    if month == 11 {
      assert (k + 1) % 12 == 0 && (k + 1) / 12 == k / 12 + 1;
      assert FirstDaySum(k + 1) == RuleSum(year + 1, 1, 1);
      weeks := 5;
    } else {
      assert (k + 1) % 12 == month + 1 && (k + 1) / 12 == k / 12;
      weeks := NextMonthInYear(year, month);
    }
  }

  lemma NextMonthInYear(year: int, month: int) returns (weeks: int)
    requires 0 <= month < 11
    ensures RuleSum(year, month + 2, 1) + 7 * weeks ==
            RuleSum(year, month + 1, 1) + MonthLength(12 * (year - 1970) + month)
  {
    var k := 12 * (year - 1970) + month;
    assert k % 12 == month && k / 12 == year - 1970;
    if month == 1 {
      MarchFollowsFebruary(year);
      weeks := 4;
    } else {
      assert RuleSum(year, month + 2, 1) - RuleSum(year, month + 1, 1) == Offset(month + 2) - Offset(month + 1);
      weeks := if month in {3, 6, 9} then 5 else 4;
    }
  }

  lemma MarchFollowsFebruary(year: int)
    ensures RuleSum(year, 3, 1) == RuleSum(year, 2, 1) + if Leap(year) then 1 else 0
  {
    LeapDays(year);
  }

  lemma {:induction false} RuleFollowsMonthStarts(k: int) returns (weeks: int)
    ensures MonthStart(k) + 4 == FirstDaySum(k) + 7 * weeks
    decreases if k < 0 then -k else k
  {
    if k == 0 {
      assert FirstDaySum(0) == RuleSum(1970, 1, 1) == 4 + 7 * 349;
      weeks := -349;
    } else if k > 0 {
      var before := RuleFollowsMonthStarts(k - 1);
      var step := RuleFollowsMonths(k - 1);
      weeks := before + step;
    } else {
      var after := RuleFollowsMonthStarts(k + 1);
      var step := RuleFollowsMonths(k);
      weeks := after - step;
    }
  }

  lemma RuleCountsDays(year: int, month: int, day: int)
    requires 1 <= month <= 12
    ensures RuleSum(year, month, day) == RuleSum(year, month, 1) + day - 1
  {
  }

  lemma WholeWeeks(a: int, b: int, weeks: int)
    requires a == b + 7 * weeks
    ensures a % 7 == b % 7
  {
  }

  /** Counting days from a Thursday agrees with the Gregorian rule on year, month and day. */
  lemma WeekdayIsGregorian(d: int)
    ensures Weekday(d) == DayOfWeek(YearOf(d), MonthInYear(d), DayInMonthOf(d))
  {
    var weeks := RuleFollowsMonthStarts(MonthOfDay(d));
    RuleCountsDays(YearOf(d), MonthInYear(d), DayInMonthOf(d));
    WholeWeeks(d + 4, RuleSum(YearOf(d), MonthInYear(d), DayInMonthOf(d)), weeks);
  }
}
