/** The lease revenue forecast: a month-by-month timeline of active and expiring rent, in UTC. */
module Forecast {
  import opened Calendar
  import Trends

  datatype LeaseStatus = Draft | Active | Expired | Terminated | Renewed

  /** `rent` is in cents per month, zero when the contract names none. `inScope` says whether the
      caller's tenant filter keeps the lease. */
  datatype Lease = Lease(start: int, end: int, rent: int, status: LeaseStatus, inScope: bool)

  datatype Month = Month(key: int, active: int, expiring: int)

  // ----- The window ---------------------------------------------------------------------------

  function Horizon(months: int): int {
    var atLeastOne := if months < 1 then 1 else months;
    if atLeastOne > 36 then 36 else atLeastOne
  }

  function HorizonEnd(now: int, months: int): int {
    AddMonths(now, Horizon(months))
  }

  /** Days of the month already over at `t`. */
  function DayInMonth(t: int): (d: int)
    ensures 0 <= d < MonthLength(MonthOf(t))
  {
    DayOf(t) - MonthStart(MonthOf(t))
  }

  lemma DayOfShifted(t: int, days: int)
    ensures DayOf(t + days * DAY) == DayOf(t) + days
  {
    DayBound(t + days * DAY, DayOf(t) + days);
    DayBound(t + days * DAY, DayOf(t) + days + 1);
    DayBound(t, DayOf(t));
    DayBound(t, DayOf(t) + 1);
  }

  lemma MonthIs(t: int, m: int)
    requires MonthStart(m) <= DayOf(t) < MonthStart(m + 1)
    ensures MonthOf(t) == m
  {
    MonthOfAtLeast(t, m);
    MonthOfAtLeast(t, m + 1);
    DayBound(t, MonthStart(m));
    DayBound(t, MonthStart(m + 1));
  }

  /** The horizon's end falls `n` months on, or `n + 1` exactly when the target month is too short
      for today's day of the month. */
  lemma ShiftedMonth(t: int, n: int)
    ensures MonthOf(AddMonths(t, n)) ==
              MonthOf(t) + n + (if DayInMonth(t) < MonthLength(MonthOf(t) + n) then 0 else 1)
  {
    var m := MonthOf(t);
    var k := m + n;
    var shift := MonthStart(k) - MonthStart(m);
    assert AddMonths(t, n) == t + shift * DAY by { Distribute(MonthStart(k), MonthStart(m)); }
    DayOfShifted(t, shift);
    NextMonthStart(k);
    NextMonthStart(k + 1);
    if DayInMonth(t) < MonthLength(k) { MonthIs(AddMonths(t, n), k); } else { MonthIs(AddMonths(t, n), k + 1); }
  }

  /** One month after 31 January 1970 is in March: the timeline for one month then has three. */
  lemma LastOfJanuaryOverflows()
    ensures MonthOf(30 * DAY) == 0 && MonthOf(AddMonths(30 * DAY, 1)) == 2
  {
    assert MonthStart(1) == 31 && DayOf(30 * DAY) == 30;
    MonthIs(30 * DAY, 0);
    ShiftedMonth(30 * DAY, 1);
  }

  lemma Distribute(a: int, b: int)
    ensures (a - b) * DAY == a * DAY - b * DAY
  {
  }

  lemma NextMonthStart(k: int)
    ensures MonthStart(k + 1) == MonthStart(k) + MonthLength(k)
  {
  }

  // ----- What the query reads and what a month counts -----------------------------------------

  predicate Chosen(l: Lease, now: int, months: int) {
    && l.inScope && l.status != Draft && l.status != Terminated
    && MonthBegin(MonthOf(now)) <= l.end && l.start <= HorizonEnd(now, months)
  }

  function Selected(table: seq<Lease>, now: int, months: int): (leases: seq<Lease>)
    ensures forall i :: 0 <= i < |leases| ==> Chosen(leases[i], now, months)
  {
    if table == [] then []
    else
      var last := table[|table| - 1];
      var before := Selected(table[..|table| - 1], now, months);
      if Chosen(last, now, months) then before + [last] else before
  }

  predicate Billed(l: Lease) {
    l.status == Active || l.status == Renewed
  }

  predicate Meets(l: Lease, k: int) {
    Billed(l) && l.start <= MonthBegin(k + 1) - 1 && MonthBegin(k) <= l.end
  }

  function MonthActive(leases: seq<Lease>, k: int): int {
    if leases == [] then 0
    else
      var last := leases[|leases| - 1];
      MonthActive(leases[..|leases| - 1], k) + (if Meets(last, k) then last.rent else 0)
  }

  function MonthExpiring(leases: seq<Lease>, k: int): int {
    if leases == [] then 0
    else
      var last := leases[|leases| - 1];
      MonthExpiring(leases[..|leases| - 1], k) + (if MonthOf(last.end) == k then last.rent else 0)
  }

  function CurrentRent(leases: seq<Lease>, now: int): int {
    if leases == [] then 0
    else
      var last := leases[|leases| - 1];
      CurrentRent(leases[..|leases| - 1], now)
      + (if Billed(last) && last.start <= now <= last.end then last.rent else 0)
  }

  /** At least one month ahead and at most three years. */
  lemma HorizonIs(months: int)
    ensures 1 <= Horizon(months) <= 36
    ensures 1 <= months <= 36 ==> Horizon(months) == months
    ensures months < 1 ==> Horizon(months) == 1
    ensures months > 36 ==> Horizon(months) == 36
  {
  }

  /** Drafts and terminated leases are never read; of the others those in scope that end in the current
      month or later and start by the end of the horizon. */
  predicate Reads(l: Lease, now: int, months: int) {
    && l.inScope && l.status in {Active, Expired, Renewed}
    && MonthBegin(MonthOf(now)) <= l.end && l.start <= AddMonths(now, Horizon(months))
  }

  lemma ChosenIffRead(l: Lease, now: int, months: int)
    ensures Chosen(l, now, months) <==> Reads(l, now, months)
  {
  }

  lemma SelectedOneMore(table: seq<Lease>, l: Lease, now: int, months: int)
    ensures Selected(table + [l], now, months) ==
              Selected(table, now, months) + (if Reads(l, now, months) then [l] else [])
  {
    assert (table + [l])[..|table|] == table;
    ChosenIffRead(l, now, months);
  }

  /** What one lease adds to one month and to today: active and renewed ones their rent to each month they
      share an instant with, and to the current rent while they run; any lease its rent to what expires in
      the month of its end. */
  lemma OneLeaseAdds(leases: seq<Lease>, l: Lease, now: int, k: int)
    ensures MonthActive(leases + [l], k) == MonthActive(leases, k)
              + (if l.status in {Active, Renewed} && l.start < MonthBegin(k + 1) && MonthBegin(k) <= l.end
                 then l.rent else 0)
    ensures MonthExpiring(leases + [l], k) == MonthExpiring(leases, k)
              + (if MonthBegin(k) <= l.end < MonthBegin(k + 1) then l.rent else 0)
    ensures CurrentRent(leases + [l], now) == CurrentRent(leases, now)
              + (if l.status in {Active, Renewed} && l.start <= now <= l.end then l.rent else 0)
  {
    assert (leases + [l])[..|leases|] == leases;
    MeetsIff(l, k);
    EndsInIff(l, k);
  }

  lemma MeetsIff(l: Lease, k: int)
    ensures Billed(l) <==> l.status in {Active, Renewed}
    ensures Meets(l, k) <==> l.status in {Active, Renewed} && l.start < MonthBegin(k + 1) && MonthBegin(k) <= l.end
  {
  }

  lemma EndsInIff(l: Lease, k: int)
    ensures MonthOf(l.end) == k <==> MonthBegin(k) <= l.end < MonthBegin(k + 1)
  {
    MonthOfAtLeast(l.end, k);
    MonthOfAtLeast(l.end, k + 1);
  }

  /** The same for a lease of the table, which counts only if it is read; an empty table adds up to nothing. */
  lemma EachLeaseAdds(table: seq<Lease>, l: Lease, now: int, months: int, k: int)
    ensures var before, after := Selected(table, now, months), Selected(table + [l], now, months);
            var rented := Reads(l, now, months) && l.status in {Active, Renewed};
            && MonthActive(after, k) == MonthActive(before, k)
                 + (if rented && l.start < MonthBegin(k + 1) && MonthBegin(k) <= l.end then l.rent else 0)
            && MonthExpiring(after, k) == MonthExpiring(before, k)
                 + (if Reads(l, now, months) && MonthBegin(k) <= l.end < MonthBegin(k + 1) then l.rent else 0)
            && CurrentRent(after, now) == CurrentRent(before, now)
                 + (if rented && l.start <= now <= l.end then l.rent else 0)
    ensures var none := Selected([], now, months);
            MonthActive(none, k) == 0 && MonthExpiring(none, k) == 0 && CurrentRent(none, now) == 0
  {
    SelectedOneMore(table, l, now, months);
    if Reads(l, now, months) { OneLeaseAdds(Selected(table, now, months), l, now, k); }
  }

  // ----- Every lease is counted once for each month it meets ----------------------------------

  /** The months among the `n` from `first` on that a lease meets, counted from its dates alone. */
  function MonthsMet(l: Lease, first: int, n: nat): nat {
    if Billed(l) then CommonMonths(MonthOf(l.start), MonthOf(l.end), first, n) else 0
  }

  /** How many of the months `a` to `b` are among the `n` from `first` on. */
  function CommonMonths(a: int, b: int, first: int, n: nat): nat {
    var opens := if a < first then first else a;
    var closes := if b < first + n then b else first + n - 1;
    if opens <= closes then closes - opens + 1 else 0
  }

  function RentMonths(leases: seq<Lease>, first: int, n: nat): int {
    if leases == [] then 0
    else
      var last := leases[|leases| - 1];
      RentMonths(leases[..|leases| - 1], first, n) + last.rent * MonthsMet(last, first, n)
  }

  function EndingWithin(leases: seq<Lease>, first: int, n: nat): int {
    if leases == [] then 0
    else
      var last := leases[|leases| - 1];
      EndingWithin(leases[..|leases| - 1], first, n) + (if first <= MonthOf(last.end) < first + n then last.rent else 0)
  }

  function ActiveOver(leases: seq<Lease>, first: int, n: nat): int {
    if n == 0 then 0 else ActiveOver(leases, first, n - 1) + MonthActive(leases, first + n - 1)
  }

  function ExpiringOver(leases: seq<Lease>, first: int, n: nat): int {
    if n == 0 then 0 else ExpiringOver(leases, first, n - 1) + MonthExpiring(leases, first + n - 1)
  }

  lemma MeetsByMonths(l: Lease, k: int)
    ensures Meets(l, k) <==> Billed(l) && MonthOf(l.start) <= k <= MonthOf(l.end)
  {
    MonthOfAtLeast(l.start, k + 1);
    MonthOfAtLeast(l.end, k);
  }

  lemma OneMoreMonthMet(l: Lease, first: int, n: nat)
    ensures l.rent * MonthsMet(l, first, n + 1) ==
              l.rent * MonthsMet(l, first, n) + (if Meets(l, first + n) then l.rent else 0)
  {
    MonthsMetGrow(l, first, n);
    Times(l.rent, MonthsMet(l, first, n), MonthsMet(l, first, n + 1));
  }

  lemma MonthsMetGrow(l: Lease, first: int, n: nat)
    ensures MonthsMet(l, first, n + 1) == MonthsMet(l, first, n) + (if Meets(l, first + n) then 1 else 0)
  {
    MeetsByMonths(l, first + n);
    CommonMonthsGrow(MonthOf(l.start), MonthOf(l.end), first, n);
  }

  lemma CommonMonthsGrow(a: int, b: int, first: int, n: nat)
    ensures CommonMonths(a, b, first, n + 1) == CommonMonths(a, b, first, n) + (if a <= first + n <= b then 1 else 0)
  {
  }

  lemma Times(r: int, x: int, y: int)
    ensures y == x + 1 ==> r * y == r * x + r
    ensures y == x ==> r * y == r * x
  {
  }

  lemma {:induction false} OneMoreMonth(leases: seq<Lease>, first: int, n: nat)
    ensures RentMonths(leases, first, n + 1) == RentMonths(leases, first, n) + MonthActive(leases, first + n)
    ensures EndingWithin(leases, first, n + 1) == EndingWithin(leases, first, n) + MonthExpiring(leases, first + n)
    decreases |leases|
  {
    if leases != [] {
      OneMoreMonth(leases[..|leases| - 1], first, n);
      OneMoreMonthMet(leases[|leases| - 1], first, n);
    }
  }

  lemma {:induction false} NoMonths(leases: seq<Lease>, first: int)
    ensures RentMonths(leases, first, 0) == 0 == EndingWithin(leases, first, 0)
    decreases |leases|
  {
    if leases != [] { NoMonths(leases[..|leases| - 1], first); }
  }

  /** Summed over the timeline, the active rent is every lease's rent times the number of timeline
      months it meets, and the expiring rent is the rent of each lease ending on the timeline, once. */
  lemma {:induction false} ForecastConserves(leases: seq<Lease>, first: int, n: nat)
    ensures ActiveOver(leases, first, n) == RentMonths(leases, first, n)
    ensures ExpiringOver(leases, first, n) == EndingWithin(leases, first, n)
    decreases n
  {
    if n == 0 {
      NoMonths(leases, first);
    } else {
      ForecastConserves(leases, first, n - 1);
      OneMoreMonth(leases, first, n - 1);
    }
  }

  // ----- What the query's date filter leaves out ----------------------------------------------

  /** Billed leases in scope that start after the horizon's last instant and still meet the month. */
  function LateStarters(table: seq<Lease>, now: int, months: int, k: int): int {
    if table == [] then 0
    else
      var last := table[|table| - 1];
      LateStarters(table[..|table| - 1], now, months, k)
      + (if last.inScope && Meets(last, k) && HorizonEnd(now, months) < last.start then last.rent else 0)
  }

  function InScope(table: seq<Lease>): seq<Lease> {
    if table == [] then []
    else
      var last := table[|table| - 1];
      var before := InScope(table[..|table| - 1]);
      if last.inScope then before + [last] else before
  }

  lemma {:induction false} ActiveAppend(leases: seq<Lease>, l: Lease, k: int)
    ensures MonthActive(leases + [l], k) == MonthActive(leases, k) + (if Meets(l, k) then l.rent else 0)
  {
    assert (leases + [l])[..|leases|] == leases;
  }

  /** Reading only the chosen leases changes a timeline month by exactly the late starters, and only
      the last month can have any. */
  lemma {:induction false} FilterMissesLateStarters(table: seq<Lease>, now: int, months: int, k: int)
    requires MonthOf(now) <= k <= MonthOf(HorizonEnd(now, months))
    ensures MonthActive(InScope(table), k) ==
              MonthActive(Selected(table, now, months), k) + LateStarters(table, now, months, k)
    ensures k < MonthOf(HorizonEnd(now, months)) ==> LateStarters(table, now, months, k) == 0
    decreases |table|
  {
    if table != [] {
      var m := |table| - 1;
      var last := table[m];
      FilterMissesLateStarters(table[..m], now, months, k);
      if last.inScope { ActiveAppend(InScope(table[..m]), last, k); }
      if Chosen(last, now, months) { ActiveAppend(Selected(table[..m], now, months), last, k); }
      FilterKeeps(last, now, months, k);
    }
  }

  /** A lease from 10 February 1970, asked for on 1 January with a horizon of one month: February is on
      the timeline and the lease meets it, yet its rent is missing there. */
  lemma LateStarterIsMissed() returns (table: seq<Lease>, now: int)
    ensures MonthOf(now) == 0 && MonthOf(HorizonEnd(now, 1)) == 1
    ensures LateStarters(table, now, 1, 1) == 100
    ensures MonthActive(InScope(table), 1) == 100 && MonthActive(Selected(table, now, 1), 1) == 0
  {
    now := 0;
    var lease := Lease(40 * DAY, 400 * DAY, 100, Active, true);
    table := [lease];
    assert MonthStart(1) == 31 && MonthStart(2) == 59;
    MonthIs(0, 0);
    assert HorizonEnd(0, 1) == 31 * DAY;
    MonthIs(31 * DAY, 1);
    assert Meets(lease, 1) && !Chosen(lease, 0, 1);
    assert table[..0] == [];
    assert Selected(table, 0, 1) == [];
    assert LateStarters([], 0, 1, 1) == 0 == MonthActive([], 1);
    assert LateStarters(table, 0, 1, 1) == 100;
    FilterMissesLateStarters(table, 0, 1, 1);
  }

  lemma FilterKeeps(l: Lease, now: int, months: int, k: int)
    requires MonthOf(now) <= k <= MonthOf(HorizonEnd(now, months))
    ensures l.inScope && Meets(l, k) ==> (Chosen(l, now, months) <==> l.start <= HorizonEnd(now, months))
    ensures k < MonthOf(HorizonEnd(now, months)) && Meets(l, k) ==> l.start <= HorizonEnd(now, months)
  {
    MeetsByMonths(l, k);
    MonthOfAtLeast(l.end, MonthOf(now));
    MonthOfAtLeast(HorizonEnd(now, months), k + 1);
  }

  // ----- The report ---------------------------------------------------------------------------

  function ActiveSum(timeline: seq<Month>): int {
    if timeline == [] then 0 else ActiveSum(timeline[..|timeline| - 1]) + timeline[|timeline| - 1].active
  }

  function ExpiringSum(timeline: seq<Month>): int {
    if timeline == [] then 0 else ExpiringSum(timeline[..|timeline| - 1]) + timeline[|timeline| - 1].expiring
  }

  predicate TimelineOf(timeline: seq<Month>, leases: seq<Lease>, first: int) {
    forall i :: 0 <= i < |timeline| ==>
      && timeline[i].key == first + i
      && timeline[i].active == Trends.Round(MonthActive(leases, first + i))
      && timeline[i].expiring == Trends.Round(MonthExpiring(leases, first + i))
  }

  predicate Near(x: int, y: int, slack: int) {
    y - slack <= x <= y + slack
  }

  lemma {:induction false} TimelineDrift(timeline: seq<Month>, leases: seq<Lease>, first: int)
    requires TimelineOf(timeline, leases, first)
    ensures var n := |timeline|;
            && Near(100 * ActiveSum(timeline), ActiveOver(leases, first, n), 50 * n)
            && Near(100 * ExpiringSum(timeline), ExpiringOver(leases, first, n), 50 * n)
    decreases |timeline|
  {
    if timeline != [] {
      var m := |timeline| - 1;
      TimelineDrift(timeline[..m], leases, first);
      RoundWithin(MonthActive(leases, first + m));
      RoundWithin(MonthExpiring(leases, first + m));
    }
  }

  lemma RoundWithin(cents: int)
    ensures cents - 50 <= 100 * Trends.Round(cents) <= cents + 50
  {
  }

  /** The printed timeline adds up to each lease's rent times the months it meets, and to the rents of
      the leases ending on it, up to half a unit of rounding per month. */
  lemma TimelineConserves(timeline: seq<Month>, leases: seq<Lease>, first: int)
    requires TimelineOf(timeline, leases, first)
    ensures var n := |timeline|;
            && Near(100 * ActiveSum(timeline), RentMonths(leases, first, n), 50 * n)
            && Near(100 * ExpiringSum(timeline), EndingWithin(leases, first, n), 50 * n)
  {
    TimelineDrift(timeline, leases, first);
    ForecastConserves(leases, first, |timeline|);
  }

  /** `end_date` at most so many days away, and not past. */
  predicate EndsWithin(l: Lease, now: int, days: int) {
    now <= l.end <= now + days * DAY
  }

  function EndingSoon(leases: seq<Lease>, now: int, days: int): seq<Lease> {
    if leases == [] then []
    else
      var last := leases[|leases| - 1];
      var before := EndingSoon(leases[..|leases| - 1], now, days);
      if EndsWithin(last, now, days) then before + [last] else before
  }

  lemma {:induction false} ReadExactly(table: seq<Lease>, now: int, months: int, l: Lease)
    ensures multiset(Selected(table, now, months))[l] == if Reads(l, now, months) then multiset(table)[l] else 0
    decreases |table|
  {
    if table != [] {
      var m := |table| - 1;
      ReadExactly(table[..m], now, months, l);
      ChosenIffRead(table[m], now, months);
      assert table == table[..m] + [table[m]];
    }
  }

  lemma {:induction false} NamedExactly(leases: seq<Lease>, now: int, days: int, l: Lease)
    ensures multiset(EndingSoon(leases, now, days))[l] ==
              if now <= l.end <= now + days * 86400000 then multiset(leases)[l] else 0
    decreases |leases|
  {
    if leases != [] {
      var m := |leases| - 1;
      NamedExactly(leases[..m], now, days, l);
      assert leases == leases[..m] + [leases[m]];
    }
  }

  lemma {:induction false} SoonerAmongSoon(leases: seq<Lease>, now: int, sooner: nat, days: nat)
    requires sooner <= days
    ensures EndingSoon(EndingSoon(leases, now, days), now, sooner) == EndingSoon(leases, now, sooner)
    decreases |leases|
  {
    if leases != [] {
      var m := |leases| - 1;
      SoonerAmongSoon(leases[..m], now, sooner, days);
      var soon := EndingSoon(leases[..m], now, days);
      assert (soon + [leases[m]])[..|soon|] == soon;
    }
  }

  /** Exactly the leases that are read and end within 120 days are named, each as often as the table has
      it; and the 90-day count is a count among them. */
  lemma EndingSoonExactly(table: seq<Lease>, now: int, months: int, l: Lease)
    ensures multiset(EndingSoon(Selected(table, now, months), now, 120))[l] ==
              if Reads(l, now, months) && now <= l.end <= now + 120 * 86400000 then multiset(table)[l] else 0
    ensures EndingSoon(EndingSoon(Selected(table, now, months), now, 120), now, 90)
            == EndingSoon(Selected(table, now, months), now, 90)
  {
    NamedExactly(Selected(table, now, months), now, 120, l);
    ReadExactly(table, now, months, l);
    SoonerAmongSoon(Selected(table, now, months), now, 90, 120);
  }

  method FilterEnding(leases: seq<Lease>, now: int, days: int) returns (soon: seq<Lease>)
    ensures soon == EndingSoon(leases, now, days)
  {
    soon := [];
    var i := 0;
    while i < |leases|
      invariant 0 <= i <= |leases|
      invariant soon == EndingSoon(leases[..i], now, days)
    {
      assert leases[..i + 1][..i] == leases[..i];
      if leases[i].end - now >= 0 && leases[i].end - now <= days * DAY { soon := soon + [leases[i]]; }
      i := i + 1;
    }
    assert leases[..i] == leases;
  }

  method GetRevenueForecast(table: seq<Lease>, now: int, months: int)
    returns (active: int, timeline: seq<Month>, soon: seq<Lease>, within90: nat)
    ensures active == Trends.Round(CurrentRent(Selected(table, now, months), now))
    ensures |timeline| ==
              Horizon(months) + (if DayInMonth(now) < MonthLength(MonthOf(now) + Horizon(months)) then 1 else 2)
    ensures TimelineOf(timeline, Selected(table, now, months), MonthOf(now))
    ensures soon == EndingSoon(Selected(table, now, months), now, 120)
    ensures within90 == |EndingSoon(soon, now, 90)|
  {
    var leases := Selected(table, now, months);
    var horizonEnd := HorizonEnd(now, months);
    var current := 0;
    var j := 0;
    while j < |leases|
      invariant 0 <= j <= |leases|
      invariant current == CurrentRent(leases[..j], now)
    {
      assert leases[..j + 1][..j] == leases[..j];
      if Billed(leases[j]) && leases[j].start <= now <= leases[j].end { current := current + leases[j].rent; }
      j := j + 1;
    }
    assert leases[..j] == leases;
    active := Trends.Round(current);
    timeline := BuildTimeline(leases, MonthOf(now), horizonEnd);
    ShiftedMonth(now, Horizon(months));
    soon := FilterEnding(leases, now, 120);
    var sooner := FilterEnding(soon, now, 90);
    within90 := |sooner|;
  }

  method BuildTimeline(leases: seq<Lease>, first: int, horizonEnd: int) returns (timeline: seq<Month>)
    ensures |timeline| == if first <= MonthOf(horizonEnd) then MonthOf(horizonEnd) - first + 1 else 0
    ensures TimelineOf(timeline, leases, first)
  {
    timeline := [];
    var cursor := first;
    MonthOfAtLeast(horizonEnd, cursor);
    while MonthBegin(cursor) <= horizonEnd
      invariant first <= cursor && |timeline| == cursor - first
      invariant cursor <= MonthOf(horizonEnd) + 1 || cursor == first
      invariant MonthBegin(cursor) <= horizonEnd <==> cursor <= MonthOf(horizonEnd)
      invariant TimelineOf(timeline, leases, first)
      decreases MonthOf(horizonEnd) - cursor
    {
      var active, expiring := MonthTotals(leases, cursor);
      timeline := timeline + [Month(cursor, Trends.Round(active), Trends.Round(expiring))];
      cursor := cursor + 1;
      MonthOfAtLeast(horizonEnd, cursor);
    }
  }

  method MonthTotals(leases: seq<Lease>, k: int) returns (active: int, expiring: int)
    ensures active == MonthActive(leases, k) && expiring == MonthExpiring(leases, k)
  {
    active, expiring := 0, 0;
    var i := 0;
    while i < |leases|
      invariant 0 <= i <= |leases|
      invariant active == MonthActive(leases[..i], k) && expiring == MonthExpiring(leases[..i], k)
    {
      assert leases[..i + 1][..i] == leases[..i];
      if Billed(leases[i]) && leases[i].start <= MonthBegin(k + 1) - 1 && leases[i].end >= MonthBegin(k) {
        active := active + leases[i].rent;
      }
      if MonthOf(leases[i].end) == k { expiring := expiring + leases[i].rent; }
      i := i + 1;
    }
    assert leases[..i] == leases;
  }
}
