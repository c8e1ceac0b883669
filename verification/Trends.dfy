/** Booking and revenue trends: rows grouped into days, weeks or months, in UTC. */
module Trends {
  import opened Calendar
  import opened Sequences

  /** A row: when it was created, what it counts for (1 for a booking, cents for an invoice), and
      whether it passes the report's tenant scope and, for revenue, the PAID filter. */
  datatype Row = Row(at: int, amount: int, inScope: bool)

  datatype Bar = Bar(key: int, value: int)

  function Total(rows: seq<Row>): int {
    if rows == [] then 0 else Total(rows[..|rows| - 1]) + rows[|rows| - 1].amount
  }

  /** What falls into one bucket when instants are classified by `f`. */
  function Bucket(rows: seq<Row>, f: int -> int, key: int): int {
    if rows == [] then 0
    else
      var last := rows[|rows| - 1];
      Bucket(rows[..|rows| - 1], f, key) + (if f(last.at) == key then last.amount else 0)
  }

  function WeekOfDay(d: int): int {
    d - Weekday(d)
  }

  /** The Sunday that opens the week of an instant. */
  function WeekOf(t: int): int {
    WeekOfDay(DayOf(t))
  }

  lemma SundayOf(d: int, sunday: int)
    ensures WeekOfDay(d) == sunday <==> Weekday(sunday) == 0 && sunday <= d < sunday + 7
  {
  }

  /** Weeks run from Sunday to Saturday: the key of a week is a Sunday, by the Gregorian rule, and its seven
      days are those of no other week. */
  lemma WeekIsSundayToSaturday(t: int, sunday: int)
    ensures WeekOf(t) == sunday <==>
              DayOfWeek(YearOf(sunday), MonthInYear(sunday), DayInMonthOf(sunday)) == 0
              && sunday * 86400000 <= t < (sunday + 7) * 86400000
  {
    WeekdayIsGregorian(sunday);
    SundayOf(DayOf(t), sunday);
    DayBound(t, sunday);
    DayBound(t, sunday + 7);
  }

  // ----- Conservation -------------------------------------------------------------------------

  function SumOverKeys(rows: seq<Row>, f: int -> int, keys: seq<int>): int {
    if keys == [] then 0 else SumOverKeys(rows, f, keys[..|keys| - 1]) + Bucket(rows, f, keys[|keys| - 1])
  }

  lemma {:induction false} EmptyBuckets(f: int -> int, keys: seq<int>)
    ensures SumOverKeys([], f, keys) == 0
    decreases |keys|
  {
    if keys != [] { EmptyBuckets(f, keys[..|keys| - 1]); }
  }

  /** One more row lands in exactly one of the distinct buckets. */
  lemma {:induction false} OneRowOneBucket(rows: seq<Row>, row: Row, f: int -> int, keys: seq<int>)
    requires Distinct(keys)
    ensures SumOverKeys(rows + [row], f, keys) ==
              SumOverKeys(rows, f, keys) + (if f(row.at) in keys then row.amount else 0)
    decreases |keys|
  {
    if keys != [] {
      var m := |keys| - 1;
      OneRowOneBucket(rows, row, f, keys[..m]);
      assert (rows + [row])[..|rows|] == rows;
      assert keys == keys[..m] + [keys[m]];
    }
  }

  /** If every row's bucket is listed, and none twice, the listed buckets add up to the total. */
  lemma {:induction false} BucketsConserve(rows: seq<Row>, f: int -> int, keys: seq<int>)
    requires Distinct(keys)
    requires forall i :: 0 <= i < |rows| ==> f(rows[i].at) in keys
    ensures SumOverKeys(rows, f, keys) == Total(rows)
    decreases |rows|
  {
    if rows == [] {
      EmptyBuckets(f, keys);
    } else {
      var m := |rows| - 1;
      BucketsConserve(rows[..m], f, keys);
      OneRowOneBucket(rows[..m], rows[m], f, keys);
      assert rows[..m] + [rows[m]] == rows;
    }
  }

  function Keys(bars: seq<Bar>): (keys: seq<int>)
    ensures |keys| == |bars|
  {
    seq(|bars|, i requires 0 <= i < |bars| => bars[i].key)
  }

  function BarSum(bars: seq<Bar>): int {
    if bars == [] then 0 else BarSum(bars[..|bars| - 1]) + bars[|bars| - 1].value
  }

  predicate BarsAre(bars: seq<Bar>, rows: seq<Row>, f: int -> int) {
    forall i :: 0 <= i < |bars| ==> bars[i].value == Bucket(rows, f, bars[i].key)
  }

  lemma {:induction false} BarSumIsKeySum(bars: seq<Bar>, rows: seq<Row>, f: int -> int)
    requires BarsAre(bars, rows, f)
    ensures BarSum(bars) == SumOverKeys(rows, f, Keys(bars))
    decreases |bars|
  {
    if bars != [] {
      var m := |bars| - 1;
      BarSumIsKeySum(bars[..m], rows, f);
      assert Keys(bars)[..m] == Keys(bars[..m]);
    }
  }

  // ----- Grouping -----------------------------------------------------------------------------

  function At(m: map<int, int>, key: int): int {
    if key in m then m[key] else 0
  }

  method GroupBy(rows: seq<Row>, f: int -> int) returns (grouped: map<int, int>)
    ensures forall key :: At(grouped, key) == Bucket(rows, f, key)
    ensures forall key :: key in grouped <==> exists i :: 0 <= i < |rows| && f(rows[i].at) == key
  {
    grouped := map[];
    var i := 0;
    while i < |rows|
      invariant 0 <= i <= |rows|
      invariant forall key :: At(grouped, key) == Bucket(rows[..i], f, key)
      invariant forall key :: key in grouped <==> exists j :: 0 <= j < i && f(rows[j].at) == key
    {
      var key := f(rows[i].at);
      assert rows[..i + 1][..i] == rows[..i];
      grouped := grouped[key := At(grouped, key) + rows[i].amount];
      i := i + 1;
    }
    assert rows[..i] == rows;
  }

  /** Consecutive buckets from `first` to `last`, missing ones counting zero. */
  method FillBars(grouped: map<int, int>, first: int, last: int) returns (bars: seq<Bar>)
    ensures |bars| == if first <= last then last - first + 1 else 0
    ensures forall i :: 0 <= i < |bars| ==> bars[i] == Bar(first + i, At(grouped, first + i))
  {
    bars := [];
    var cursor := first;
    while cursor <= last
      invariant first <= cursor && (cursor <= last + 1 || cursor == first)
      invariant |bars| == cursor - first
      invariant forall i :: 0 <= i < |bars| ==> bars[i] == Bar(first + i, At(grouped, first + i))
    {
      bars := bars + [Bar(cursor, At(grouped, cursor))];
      cursor := cursor + 1;
    }
  }

  // ----- Weekly regrouping --------------------------------------------------------------------

  /** The part of a week's total that lies on the days already regrouped. */
  function PartialWeek(rows: seq<Row>, days: set<int>, week: int): int {
    if rows == [] then 0
    else
      var last := rows[|rows| - 1];
      PartialWeek(rows[..|rows| - 1], days, week)
      + (if DayOf(last.at) in days && WeekOf(last.at) == week then last.amount else 0)
  }

  lemma {:induction false} NoDaysYet(rows: seq<Row>, week: int)
    ensures PartialWeek(rows, {}, week) == 0
    decreases |rows|
  {
    if rows != [] { NoDaysYet(rows[..|rows| - 1], week); }
  }

  lemma {:induction false} OneMoreDay(rows: seq<Row>, days: set<int>, d: int, week: int)
    requires d !in days
    ensures PartialWeek(rows, days + {d}, week) ==
              PartialWeek(rows, days, week) + (if WeekOfDay(d) == week then Bucket(rows, DayOf, d) else 0)
    decreases |rows|
  {
    if rows != [] { OneMoreDay(rows[..|rows| - 1], days, d, week); }
  }

  lemma {:induction false} AllDaysDone(rows: seq<Row>, days: set<int>, week: int)
    requires forall i :: 0 <= i < |rows| ==> DayOf(rows[i].at) in days
    ensures PartialWeek(rows, days, week) == Bucket(rows, WeekOf, week)
    decreases |rows|
  {
    if rows != [] { AllDaysDone(rows[..|rows| - 1], days, week); }
  }

  lemma HasMember(s: set<int>)
    requires s != {}
    ensures exists x :: x in s
  {
    assert (forall x :: x !in s) ==> s == {};
  }

  /** The daily groups poured into their weeks, in whatever order the groups come. */
  method RegroupByWeek(rows: seq<Row>, grouped: map<int, int>) returns (weeks: map<int, int>)
    requires forall key :: At(grouped, key) == Bucket(rows, DayOf, key)
    requires forall key :: key in grouped <==> exists i :: 0 <= i < |rows| && DayOf(rows[i].at) == key
    ensures forall week :: At(weeks, week) == Bucket(rows, WeekOf, week)
    ensures forall week :: week in weeks <==> exists i :: 0 <= i < |rows| && WeekOf(rows[i].at) == week
  {
    weeks := map[];
    var pending := grouped.Keys;
    ghost var days: set<int> := {};
    forall week ensures PartialWeek(rows, {}, week) == 0 { NoDaysYet(rows, week); }
    while pending != {}
      invariant pending !! days && pending + days == grouped.Keys
      invariant forall week :: At(weeks, week) == PartialWeek(rows, days, week)
      invariant forall week :: week in weeks <==> exists d :: d in days && WeekOfDay(d) == week
      decreases pending
    {
      HasMember(pending);
      var d :| d in pending;
      var week := WeekOfDay(d);
      forall w ensures PartialWeek(rows, days + {d}, w) ==
                         PartialWeek(rows, days, w) + (if week == w then Bucket(rows, DayOf, d) else 0)
      {
        OneMoreDay(rows, days, d, w);
      }
      assert grouped[d] == At(grouped, d);
      weeks := weeks[week := At(weeks, week) + grouped[d]];
      pending := pending - {d};
      days := days + {d};
    }
    forall week ensures At(weeks, week) == Bucket(rows, WeekOf, week) { AllDaysDone(rows, days, week); }
  }

  lemma LeastExists(s: set<int>) returns (m: int)
    requires s != {}
    ensures m in s && forall x :: x in s ==> m <= x
    decreases s
  {
    HasMember(s);
    var y :| y in s;
    var rest := s - {y};
    if rest == {} {
      assert s == {y};
      m := y;
    } else {
      var k := LeastExists(rest);
      m := if k < y then k else y;
      assert forall x :: x in s ==> x == y || x in rest;
    }
  }

  /** The groups as bars, sorted by key. */
  method SortedBars(groups: map<int, int>) returns (bars: seq<Bar>)
    ensures forall i, j :: 0 <= i < j < |bars| ==> bars[i].key < bars[j].key
    ensures forall i :: 0 <= i < |bars| ==> bars[i].key in groups && bars[i].value == groups[bars[i].key]
    ensures forall key :: key in groups ==> key in Keys(bars)
  {
    bars := [];
    var rest := groups.Keys;
    while rest != {}
      invariant rest <= groups.Keys
      invariant forall i, j :: 0 <= i < j < |bars| ==> bars[i].key < bars[j].key
      invariant forall i, x :: 0 <= i < |bars| && x in rest ==> bars[i].key < x
      invariant forall i :: 0 <= i < |bars| ==> bars[i].key in groups && bars[i].value == groups[bars[i].key]
      invariant forall key :: key in groups ==> key in rest || key in Keys(bars)
      decreases rest
    {
      ghost var least := LeastExists(rest);
      var key :| key in rest && forall x :: x in rest ==> key <= x;
      ghost var before := bars;
      bars := bars + [Bar(key, groups[key])];
      assert Keys(bars) == Keys(before) + [key];
      rest := rest - {key};
    }
  }

  // ----- The reports --------------------------------------------------------------------------

  function DiffDays(start: int, end: int): int {
    (end - start + DAY - 1) / DAY
  }

  predicate InRange(rows: seq<Row>, start: int, end: int) {
    forall i :: 0 <= i < |rows| ==> start <= rows[i].at <= end
  }

  /** The rows a report reads from its table. */
  function Selected(table: seq<Row>, start: int, end: int): (rows: seq<Row>)
    ensures InRange(rows, start, end)
  {
    if table == [] then []
    else
      var m := |table| - 1;
      var rows := Selected(table[..m], start, end);
      if table[m].inScope && start <= table[m].at <= end then rows + [table[m]] else rows
  }

  /** Exactly the rows in scope and range are read, each as often as it occurs. */
  lemma {:induction false} SelectedExactly(table: seq<Row>, start: int, end: int, row: Row)
    ensures multiset(Selected(table, start, end))[row] ==
              if row.inScope && start <= row.at <= end then multiset(table)[row] else 0
    decreases |table|
  {
    if table != [] {
      var m := |table| - 1;
      SelectedExactly(table[..m], start, end, row);
      assert table == table[..m] + [table[m]];
    }
  }

  /** A row adds its amount to the bucket its instant falls in, if it is in scope and within the range, both
      ends included, and otherwise to none. */
  lemma EachRowAdds(table: seq<Row>, row: Row, f: int -> int, start: int, end: int, key: int)
    ensures Bucket(Selected(table + [row], start, end), f, key) ==
              Bucket(Selected(table, start, end), f, key)
              + (if row.inScope && start <= row.at <= end && f(row.at) == key then row.amount else 0)
    ensures Bucket(Selected([], start, end), f, key) == 0
  {
    assert (table + [row])[..|table|] == table;
    var rows := Selected(table, start, end);
    assert (rows + [row])[..|rows|] == rows;
  }

  /** Bars are daily for ranges of up to sixty days of 24 hours. */
  lemma DailyUpToSixtyDays(start: int, end: int)
    ensures DiffDays(start, end) <= 60 <==> end - start <= 60 * 86400000
  {
  }

  lemma ConsecutiveKeys(bars: seq<Bar>, first: int, last: int)
    requires |bars| == if first <= last then last - first + 1 else 0
    requires forall i :: 0 <= i < |bars| ==> bars[i].key == first + i
    ensures Distinct(Keys(bars))
    ensures forall k :: k in Keys(bars) <==> first <= k <= last
  {
    forall k | first <= k <= last
      ensures k in Keys(bars)
    {
      assert Keys(bars)[k - first] == k;
    }
  }

  /** Daily bars: consecutive days, each row in exactly one, nothing lost. */
  lemma DailyTrendConserves(rows: seq<Row>, start: int, end: int, bars: seq<Bar>)
    requires InRange(rows, start, end)
    requires BarsAre(bars, rows, DayOf)
    requires |bars| == if DayOf(start) <= DayOf(end) then DayOf(end) - DayOf(start) + 1 else 0
    requires forall i :: 0 <= i < |bars| ==> bars[i].key == DayOf(start) + i
    ensures BarSum(bars) == Total(rows) && Distinct(Keys(bars))
  {
    ConsecutiveKeys(bars, DayOf(start), DayOf(end));
    forall i | 0 <= i < |rows|
      ensures DayOf(rows[i].at) in Keys(bars)
    {
      DayBound(rows[i].at, DayOf(start));
      DayBound(start, DayOf(start));
      DayBound(end, DayOf(rows[i].at));
      DayBound(rows[i].at, DayOf(rows[i].at));
    }
    BarSumIsKeySum(bars, rows, DayOf);
    BucketsConserve(rows, DayOf, Keys(bars));
  }

  predicate OccurringWeeks(bars: seq<Bar>, rows: seq<Row>) {
    && (forall i :: 0 <= i < |rows| ==> WeekOf(rows[i].at) in Keys(bars))
    && (forall k :: k in Keys(bars) ==> exists i :: 0 <= i < |rows| && WeekOf(rows[i].at) == k)
  }

  /** Weekly bars: each occurring week once, each row in exactly one, nothing lost. */
  lemma WeeklyTrendConserves(rows: seq<Row>, bars: seq<Bar>)
    requires BarsAre(bars, rows, WeekOf)
    requires forall i, j :: 0 <= i < j < |bars| ==> bars[i].key < bars[j].key
    requires OccurringWeeks(bars, rows)
    ensures BarSum(bars) == Total(rows) && Distinct(Keys(bars))
  {
    BarSumIsKeySum(bars, rows, WeekOf);
    BucketsConserve(rows, WeekOf, Keys(bars));
  }

  /** Whole currency units, halves rounded up. */
  function Round(cents: int): int {
    (cents + 50) / 100
  }

  function RawBars(rows: seq<Row>, start: int, end: int): (bars: seq<Bar>)
    ensures |bars| == if MonthOf(start) <= MonthOf(end) then MonthOf(end) - MonthOf(start) + 1 else 0
    ensures forall i :: 0 <= i < |bars| ==>
              bars[i] == Bar(MonthOf(start) + i, Bucket(rows, MonthOf, MonthOf(start) + i))
  {
    var n := if MonthOf(start) <= MonthOf(end) then MonthOf(end) - MonthOf(start) + 1 else 0;
    seq(n, i requires 0 <= i < n => Bar(MonthOf(start) + i, Bucket(rows, MonthOf, MonthOf(start) + i)))
  }

  lemma MonthsAreMonotone(a: int, b: int)
    requires a <= b
    ensures MonthOf(a) <= MonthOf(b)
  {
    MonthOfAtLeast(a, MonthOf(a));
    MonthOfAtLeast(b, MonthOf(a));
  }

  lemma MonthsInRange(rows: seq<Row>, start: int, end: int)
    requires InRange(rows, start, end)
    ensures forall i :: 0 <= i < |rows| ==> MonthOf(start) <= MonthOf(rows[i].at) <= MonthOf(end)
  {
    forall i | 0 <= i < |rows|
      ensures MonthOf(start) <= MonthOf(rows[i].at) <= MonthOf(end)
    {
      MonthsAreMonotone(start, rows[i].at);
      MonthsAreMonotone(rows[i].at, end);
    }
  }

  lemma RawRevenueConserves(rows: seq<Row>, start: int, end: int)
    requires InRange(rows, start, end)
    ensures BarSum(RawBars(rows, start, end)) == Total(rows) && Distinct(Keys(RawBars(rows, start, end)))
  {
    var raw := RawBars(rows, start, end);
    ConsecutiveKeys(raw, MonthOf(start), MonthOf(end));
    MonthsInRange(rows, start, end);
    BarSumIsKeySum(raw, rows, MonthOf);
    BucketsConserve(rows, MonthOf, Keys(raw));
  }

  /** Monthly revenue before rounding adds up to the selected invoices, and rounding each month moves the
      sum by at most half a unit per month. */
  lemma RevenueTrendConserves(rows: seq<Row>, start: int, end: int, bars: seq<Bar>)
    requires InRange(rows, start, end)
    requires |bars| == |RawBars(rows, start, end)|
    requires forall i :: 0 <= i < |bars| ==>
               bars[i] == Bar(MonthOf(start) + i, Round(Bucket(rows, MonthOf, MonthOf(start) + i)))
    ensures BarSum(RawBars(rows, start, end)) == Total(rows)
    ensures Total(rows) - 50 * |bars| <= 100 * BarSum(bars) <= Total(rows) + 50 * |bars|
  {
    RawRevenueConserves(rows, start, end);
    RoundingDrift(RawBars(rows, start, end), bars);
  }

  lemma {:induction false} RoundingDrift(raw: seq<Bar>, bars: seq<Bar>)
    requires |raw| == |bars| && forall i :: 0 <= i < |raw| ==> bars[i].value == Round(raw[i].value)
    ensures BarSum(raw) - 50 * |raw| <= 100 * BarSum(bars) <= BarSum(raw) + 50 * |raw|
    decreases |raw|
  {
    if raw != [] {
      var m := |raw| - 1;
      RoundingDrift(raw[..m], bars[..m]);
      assert raw[m].value - 50 <= 100 * Round(raw[m].value) <= raw[m].value + 50;
    }
  }

  /** Daily bars, or weekly ones for ranges longer than 60 days. */
  method GetBookingsTrend(table: seq<Row>, start: int, end: int) returns (bars: seq<Bar>)
    ensures BarSum(bars) == Total(Selected(table, start, end)) && Distinct(Keys(bars))
    ensures DiffDays(start, end) <= 60 ==>
              && BarsAre(bars, Selected(table, start, end), DayOf)
              && |bars| == (if DayOf(start) <= DayOf(end) then DayOf(end) - DayOf(start) + 1 else 0)
              && forall i :: 0 <= i < |bars| ==> bars[i].key == DayOf(start) + i
    ensures DiffDays(start, end) > 60 ==>
              && BarsAre(bars, Selected(table, start, end), WeekOf)
              && (forall i, j :: 0 <= i < j < |bars| ==> bars[i].key < bars[j].key)
              && OccurringWeeks(bars, Selected(table, start, end))
  {
    var rows := Selected(table, start, end);
    var grouped := GroupBy(rows, DayOf);
    if DiffDays(start, end) > 60 {
      var weeks := RegroupByWeek(rows, grouped);
      bars := SortedBars(weeks);
      forall i | 0 <= i < |bars|
        ensures bars[i].value == Bucket(rows, WeekOf, bars[i].key)
      {
        assert At(weeks, bars[i].key) == Bucket(rows, WeekOf, bars[i].key);
      }
      assert forall k :: k in Keys(bars) ==> k in weeks;
      WeeklyTrendConserves(rows, bars);
    } else {
      bars := FillBars(grouped, DayOf(start), DayOf(end));
      DailyTrendConserves(rows, start, end, bars);
    }
  }

  method RoundBars(raw: seq<Bar>) returns (bars: seq<Bar>)
    ensures |bars| == |raw|
    ensures forall i :: 0 <= i < |raw| ==> bars[i] == Bar(raw[i].key, Round(raw[i].value))
  {
    bars := [];
    var i := 0;
    while i < |raw|
      invariant 0 <= i <= |raw| && |bars| == i
      invariant forall k :: 0 <= k < i ==> bars[k] == Bar(raw[k].key, Round(raw[k].value))
    {
      bars := bars + [Bar(raw[i].key, Round(raw[i].value))];
      i := i + 1;
    }
  }

  /** Monthly revenue: paid invoices summed by month, each month rounded to whole units. */
  method GetRevenueTrend(table: seq<Row>, start: int, end: int) returns (bars: seq<Bar>)
    ensures |bars| == if MonthOf(start) <= MonthOf(end) then MonthOf(end) - MonthOf(start) + 1 else 0
    ensures forall i :: 0 <= i < |bars| ==>
              bars[i].key == MonthOf(start) + i
              && bars[i].value == Round(Bucket(Selected(table, start, end), MonthOf, MonthOf(start) + i))
    ensures var total := Total(Selected(table, start, end));
            total - 50 * |bars| <= 100 * BarSum(bars) <= total + 50 * |bars|
  {
    var rows := Selected(table, start, end);
    var grouped := GroupBy(rows, MonthOf);
    var raw := FillBars(grouped, MonthOf(start), MonthOf(end));
    bars := RoundBars(raw);
    RevenueTrendConserves(rows, start, end, bars);
  }
}
