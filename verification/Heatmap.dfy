/** The occupancy heatmap: booked time per space, clipped to a window, against its capacity, with the
    figures rounded for display. */
module Heatmap {
  import opened Options
  import opened BookingLedger
  import OccupancyLaws
  import BookingLaws
  import BookingAnswers
  import opened Calendar

  datatype Heat = Low | Medium | High

  /** Booked and potential time in tenths of an hour, utilisation in thousandths: what is displayed. */
  datatype Desk = Desk(space: nat, capacity: int, bookedTenths: int, potentialTenths: int, utilization: int, heat: Heat)

  function Max(a: int, b: int): int { if a < b then b else a }

  function Min(a: int, b: int): int { if a < b then a else b }

  function Overlap(aStart: int, aEnd: int, bStart: int, bEnd: int): int {
    Max(0, Min(aEnd, bEnd) - Max(aStart, bStart))
  }

  predicate Counted(b: Booking) {
    b.status in OccupancyLaws.COUNTED
  }

  predicate CountsFor(l: Ledger, space: nat, i: nat) {
    i in l.bookings && l.bookings[i].space == space && Counted(l.bookings[i])
  }

  /** Booked time of a space in the window, over the bookings with ids below `n`. */
  function Booked(l: Ledger, space: nat, start: int, end: int, n: nat): int {
    if n == 0 then 0
    else Booked(l, space, start, end, n - 1)
         + (if CountsFor(l, space, n - 1)
            then Overlap(l.bookings[n - 1].start, l.bookings[n - 1].end, start, end)
            else 0)
  }

  /** No two counted bookings of a space overlap. */
  predicate CountedApart(l: Ledger) {
    OccupancyLaws.GroupApart(l, OccupancyLaws.COUNTED)
  }

  // ----- The measure of disjoint intervals ----------------------------------------------------

  predicate Covers(l: Ledger, space: nat, i: nat, p: int) {
    CountsFor(l, space, i) && l.bookings[i].start <= p < l.bookings[i].end
  }

  /** How many counted bookings of a space contain the instant `p`. */
  function Coverage(l: Ledger, space: nat, p: int, n: nat): nat {
    if n == 0 then 0 else Coverage(l, space, p, n - 1) + (if Covers(l, space, n - 1, p) then 1 else 0)
  }

  lemma {:induction false} CoveredBySomeone(l: Ledger, space: nat, p: int, n: nat) returns (i: nat)
    requires Coverage(l, space, p, n) > 0
    ensures i < n && Covers(l, space, i, p)
  {
    if Covers(l, space, n - 1, p) { i := n - 1; } else { i := CoveredBySomeone(l, space, p, n - 1); }
  }

  /** No two counted bookings of the space share an instant. */
  ghost predicate DisjointStays(l: Ledger, space: nat) {
    forall i: nat, j: nat, p :: i != j ==> !(Covers(l, space, i, p) && Covers(l, space, j, p))
  }

  lemma ApartIsDisjoint(l: Ledger, space: nat)
    requires CountedApart(l)
    ensures DisjointStays(l, space)
  {
    forall i: nat, j: nat, p | i != j
      ensures !(Covers(l, space, i, p) && Covers(l, space, j, p))
    {
      assert CountsFor(l, space, i) && CountsFor(l, space, j) ==> Apart(l.bookings[i], l.bookings[j]);
    }
  }

  lemma {:induction false} CoveredAtMostOnce(l: Ledger, space: nat, p: int, n: nat)
    requires DisjointStays(l, space)
    ensures Coverage(l, space, p, n) <= 1
  {
    if n > 0 {
      CoveredAtMostOnce(l, space, p, n - 1);
      if Coverage(l, space, p, n - 1) > 0 {
        var i := CoveredBySomeone(l, space, p, n - 1);
        assert !(Covers(l, space, i, p) && Covers(l, space, n - 1, p));
      }
    }
  }

  /** Widening the window by one instant adds one unit for every booking that covers the instant. */
  lemma {:induction false} BookedGrowsByCoverage(l: Ledger, space: nat, start: int, end: int, n: nat)
    requires start < end
    ensures Booked(l, space, start, end, n) == Booked(l, space, start, end - 1, n) + Coverage(l, space, end - 1, n)
  {
    if n > 0 { BookedGrowsByCoverage(l, space, start, end, n - 1); }
  }

  lemma {:induction false} NothingInEmptyWindow(l: Ledger, space: nat, start: int, end: int, n: nat)
    requires end <= start
    ensures Booked(l, space, start, end, n) == 0
  {
    if n > 0 { NothingInEmptyWindow(l, space, start, end, n - 1); }
  }

  /** Pairwise disjoint stays, clipped to a window, never add up to more than the window. */
  lemma {:induction false} DisjointStaysFit(l: Ledger, space: nat, start: int, end: int, n: nat)
    requires DisjointStays(l, space)
    ensures 0 <= Booked(l, space, start, end, n) <= Max(0, end - start)
    decreases Max(0, end - start)
  {
    if end <= start {
      NothingInEmptyWindow(l, space, start, end, n);
    } else {
      DisjointStaysFit(l, space, start, end - 1, n);
      BookedGrowsByCoverage(l, space, start, end, n);
      CoveredAtMostOnce(l, space, end - 1, n);
    }
  }

  lemma BookedFitsWindow(l: Ledger, space: nat, start: int, end: int, n: nat)
    requires CountedApart(l)
    ensures 0 <= Booked(l, space, start, end, n) <= Max(0, end - start)
  {
    ApartIsDisjoint(l, space);
    DisjointStaysFit(l, space, start, end, n);
  }

  lemma {:induction false} TwoCoversCount(l: Ledger, space: nat, p: int, i: nat, j: nat, n: nat)
    requires i < n && Covers(l, space, i, p)
    ensures Coverage(l, space, p, n) >= 1
    ensures j < i && Covers(l, space, j, p) ==> Coverage(l, space, p, n) >= 2
  {
    if i < n - 1 {
      TwoCoversCount(l, space, p, i, j, n - 1);
    } else if j < i && Covers(l, space, j, p) {
      TwoCoversCount(l, space, p, j, 0, n - 1);
    }
  }

  predicate Fits(l: Ledger, space: nat, start: int, end: int) {
    Booked(l, space, start, end, l.nextBooking) <= Max(0, end - start)
  }

  /** The bound is exact: booked time fits every window if and only if no two counted bookings of the
      space share an instant. */
  lemma BookedFitsIff(l: Ledger, space: nat)
    requires IdsBelowNext(l)
    ensures (forall start, end :: Fits(l, space, start, end)) <==> DisjointStays(l, space)
  {
    if DisjointStays(l, space) {
      forall start, end
        ensures Fits(l, space, start, end)
      {
        DisjointStaysFit(l, space, start, end, l.nextBooking);
      }
    }
    if forall start, end :: Fits(l, space, start, end) {
      forall i: nat, j: nat, p | i != j
        ensures !(Covers(l, space, i, p) && Covers(l, space, j, p))
      {
        assert Fits(l, space, p, p + 1);
        FittingInstantIsUnshared(l, space, i, j, p);
      }
    }
  }

  lemma FittingInstantIsUnshared(l: Ledger, space: nat, i: nat, j: nat, p: int)
    requires IdsBelowNext(l) && i != j
    requires Booked(l, space, p, p + 1, l.nextBooking) <= 1
    ensures !(Covers(l, space, i, p) && Covers(l, space, j, p))
  {
    var n := l.nextBooking;
    BookedGrowsByCoverage(l, space, p, p + 1, n);
    NothingInEmptyWindow(l, space, p, p, n);
    if Covers(l, space, i, p) && Covers(l, space, j, p) {
      TwoCoversCount(l, space, p, if i < j then j else i, if i < j then i else j, n);
      assert false;
    }
  }

  /** What the booking guards keep is enough: every counted booking is live. */
  lemma GuardsKeepCountedApart(l: Ledger)
    requires NoOverlap(l)
    ensures CountedApart(l)
  {
  }

  /** At every moment of every run, acceptances included, booked time fits every window, provided only
      that one-sided reschedules of bookings on the calendar track landed clear. */
  lemma BookedFitsInRuns(states: seq<Ledger>, ops: seq<Op>, m: nat, space: nat, start: int, end: int)
    requires Execution(states, ops) && m < |states|
    requires IdsBelowNext(states[0]) && OccupancyLaws.GroupApart(states[0], OccupancyLaws.TRACK)
    requires forall i :: 0 <= i < |ops| ==> OccupancyLaws.MovesClear(states[i], OccupancyLaws.TRACK, ops[i])
    ensures CountedApart(states[m])
    ensures 0 <= Booked(states[m], space, start, end, states[m].nextBooking) <= Max(0, end - start)
  {
    OccupancyLaws.TrackApartIff(states, ops);
    TrackIsCounted(states[m]);
    BookedFitsWindow(states[m], space, start, end, states[m].nextBooking);
  }

  lemma TrackIsCounted(l: Ledger)
    requires OccupancyLaws.GroupApart(l, OccupancyLaws.TRACK)
    ensures CountedApart(l)
  {
    forall i, j | i in l.bookings && j in l.bookings && i != j && Counted(l.bookings[i]) && Counted(l.bookings[j])
      ensures Apart(l.bookings[i], l.bookings[j])
    {
      assert l.bookings[i].status in OccupancyLaws.TRACK && l.bookings[j].status in OccupancyLaws.TRACK;
    }
  }

  /** The proviso is needed: one moved end, and a window of 30 holds 35 of booked time. */
  lemma OneSidedRescheduleOverfillsWindow() returns (l: Ledger, op: Op)
    ensures IdsBelowNext(l) && OccupancyLaws.GroupApart(l, OccupancyLaws.TRACK)
    ensures op.Reschedule? && Booked(Apply(l, op).0, 0, 0, 30, Apply(l, op).0.nextBooking) == 35
  {
    var b := Booking(0, 0, 0, 0, 10, Confirmed, 0, 0, [], None, None, None, []);
    l := Ledger(map[0 := b, 1 := b.(start := 20, end := 30)], map[], map[], {}, map[], [], 2, 0);
    op := Reschedule(Caller(9, Manager, 0, true), 0, None, Some(25));
    var n := Apply(l, op).0;
    assert n.bookings[0] == b.(end := 25) && n.bookings[1] == b.(start := 20, end := 30);
    assert Booked(n, 0, 0, 30, 0) == 0;
    assert Booked(n, 0, 0, 30, 1) == 25;
    assert Booked(n, 0, 0, 30, 2) == 35;
  }

  // ----- What each booking adds ---------------------------------------------------------------

  /** How long `start` to `end` lasts within the window. */
  function Clipped(start: int, end: int, from: int, until: int): int {
    var opens := if start < from then from else start;
    var closes := if until < end then until else end;
    if opens < closes then closes - opens else 0
  }

  /** The part of a confirmed, checked-in or completed stay that lies in the window; other bookings take
      up no time. */
  function TimeIn(l: Ledger, space: nat, from: int, until: int, id: nat): int {
    if id in l.bookings && l.bookings[id].space == space
       && (l.bookings[id].status == Confirmed || l.bookings[id].status == CheckedIn
           || l.bookings[id].status == Completed)
    then Clipped(l.bookings[id].start, l.bookings[id].end, from, until)
    else 0
  }

  /** Booked time of the whole ledger. */
  function BookedTime(l: Ledger, space: nat, from: int, until: int): int {
    Booked(l, space, from, until, l.nextBooking)
  }

  lemma {:induction false} BookedByEach(l: Ledger, n: Ledger, space: nat, from: int, until: int, id: nat, m: nat)
    requires n.bookings - {id} == l.bookings - {id}
    ensures Booked(n, space, from, until, m) - (if id < m then TimeIn(n, space, from, until, id) else 0)
            == Booked(l, space, from, until, m) - (if id < m then TimeIn(l, space, from, until, id) else 0)
  {
    if m > 0 {
      BookedByEach(l, n, space, from, until, id, m - 1);
      if m - 1 != id { SameRow(l, n, id, m - 1); }
    }
  }

  lemma SameRow(l: Ledger, n: Ledger, id: nat, i: nat)
    requires n.bookings - {id} == l.bookings - {id} && i != id
    ensures i in l.bookings <==> i in n.bookings
    ensures i in l.bookings ==> l.bookings[i] == n.bookings[i]
  {
    assert i in l.bookings <==> i in l.bookings - {id};
    assert i in n.bookings <==> i in n.bookings - {id};
    if i in l.bookings { assert (l.bookings - {id})[i] == (n.bookings - {id})[i]; }
  }

  lemma {:induction false} NothingBeyond(l: Ledger, space: nat, from: int, until: int, m: nat)
    requires IdsBelowNext(l) && l.nextBooking <= m
    ensures Booked(l, space, from, until, m) == BookedTime(l, space, from, until)
  {
    if m > l.nextBooking { NothingBeyond(l, space, from, until, m - 1); }
  }

  /** Two ledgers that agree on all bookings but one differ in booked time by what that one adds. */
  lemma OneBookingApart(l: Ledger, n: Ledger, space: nat, from: int, until: int, id: nat)
    requires IdsBelowNext(l) && IdsBelowNext(n) && n.bookings - {id} == l.bookings - {id}
    ensures BookedTime(n, space, from, until) - TimeIn(n, space, from, until, id)
            == BookedTime(l, space, from, until) - TimeIn(l, space, from, until, id)
  {
    var m := Max(Max(l.nextBooking, n.nextBooking), id + 1);
    BookedByEach(l, n, space, from, until, id, m);
    NothingBeyond(l, space, from, until, m);
    NothingBeyond(n, space, from, until, m);
  }

  /** Each confirmed, checked-in or completed booking of the space adds exactly the part of its stay that
      lies in the window, every other booking adds nothing, and without bookings no time is booked. */
  lemma EachStayAdds(l: Ledger, space: nat, from: int, until: int, id: nat)
    requires IdsBelowNext(l)
    ensures BookedTime(l, space, from, until) ==
              BookedTime(l.(bookings := l.bookings - {id}), space, from, until) + TimeIn(l, space, from, until, id)
    ensures l.bookings == map[] ==> BookedTime(l, space, from, until) == 0
  {
    var n := l.(bookings := l.bookings - {id});
    assert n.bookings - {id} == l.bookings - {id};
    OneBookingApart(l, n, space, from, until, id);
    if l.bookings == map[] { NoBookingsNoTime(l, space, from, until, l.nextBooking); }
  }

  lemma {:induction false} NoBookingsNoTime(l: Ledger, space: nat, from: int, until: int, n: nat)
    requires l.bookings == map[]
    ensures Booked(l, space, from, until, n) == 0
  {
    if n > 0 { NoBookingsNoTime(l, space, from, until, n - 1); }
  }

  lemma OutsideOne(rows: map<nat, Booking>, id: nat, b: Booking)
    ensures rows[id := b] - {id} == rows - {id}
  {
  }

  lemma MoveIsOneBookingApart(l: Ledger, op: Op, space: nat, from: int, until: int)
    requires BookingLaws.IsMove(op) && IdsBelowNext(l) && Apply(l, op).1.Done?
    ensures var n := Apply(l, op).0;
            && op.id in l.bookings && op.id in n.bookings
            && BookingLaws.SameSlot(l.bookings[op.id], n.bookings[op.id])
            && n.bookings[op.id].status == BookingAnswers.RuleOf(op).target
            && l.bookings[op.id].status in BookingAnswers.RuleOf(op).sources
            && BookedTime(n, space, from, until) - TimeIn(n, space, from, until, op.id)
               == BookedTime(l, space, from, until) - TimeIn(l, space, from, until, op.id)
  {
    var n := Apply(l, op).0;
    BookingAnswers.MoveDoneIff(l, op);
    BookingLaws.StepKeepsIds(l, op);
    BookingLaws.MoveShape(l, op);
    OutsideOne(l.bookings, op.id, n.bookings[op.id]);
    OneBookingApart(l, n, space, from, until, op.id);
  }

  /** Checking in and out changes nobody's booked time. */
  lemma StayingKeepsBookedTime(l: Ledger, op: Op, space: nat, from: int, until: int)
    requires op.CheckIn? || op.CheckOut?
    requires IdsBelowNext(l) && Apply(l, op).1.Done?
    ensures BookedTime(Apply(l, op).0, space, from, until) == BookedTime(l, space, from, until)
  {
    MoveIsOneBookingApart(l, op, space, from, until);
  }

  /** The approval of a pending booking books the part of its stay that lies in the window, for its space
      and no other. */
  lemma ApprovalAddsStay(l: Ledger, op: Op, space: nat, from: int, until: int)
    requires op.Approve? && IdsBelowNext(l) && Apply(l, op).1.Done?
    requires op.id in l.bookings && l.bookings[op.id].status == PendingApproval
    ensures var b := l.bookings[op.id];
            BookedTime(Apply(l, op).0, space, from, until) ==
              BookedTime(l, space, from, until)
              + (if b.space == space then Clipped(b.start, b.end, from, until) else 0)
  {
    MoveIsOneBookingApart(l, op, space, from, until);
  }

  /** A cancellation gives back what a confirmed, checked-in or completed booking had booked; that of any
      other booking gives back nothing. */
  lemma CancellationTakesStay(l: Ledger, op: Op, space: nat, from: int, until: int)
    requires op.Cancel? && IdsBelowNext(l) && Apply(l, op).1.Done?
    ensures op.id in l.bookings
    ensures var b := l.bookings[op.id];
            BookedTime(Apply(l, op).0, space, from, until) ==
              BookedTime(l, space, from, until)
              - (if b.space == space && (b.status == Confirmed || b.status == CheckedIn || b.status == Completed)
                 then Clipped(b.start, b.end, from, until) else 0)
  {
    MoveIsOneBookingApart(l, op, space, from, until);
  }

  lemma {:induction false} BookedIsNotNegative(l: Ledger, space: nat, start: int, end: int, n: nat)
    ensures 0 <= Booked(l, space, start, end, n)
  {
    if n > 0 { BookedIsNotNegative(l, space, start, end, n - 1); }
  }

  // ----- The report ---------------------------------------------------------------------------

  function HeatOf(utilization: real): Heat {
    if utilization < 0.15 then Low else if utilization < 0.45 then Medium else High
  }

  /** Nearest tenth of an hour and nearest thousandth, halves up. */
  function Tenths(ms: int): int {
    (20 * ms + HOUR) / (2 * HOUR)
  }

  function Thousandths(u: real): int {
    (u * 1000.0 + 0.5).Floor
  }

  /** Booked over potential, never more than one. */
  function Utilization(booked: int, potential: int): real
    requires potential > 0
  {
    var ratio := booked as real / potential as real;
    if ratio < 1.0 then ratio else 1.0
  }

  function CapacityOf(stored: Option<int>): int {
    Max(if stored.Some? then stored.value else 1, 1)
  }

  function Potential(stored: Option<int>, start: int, end: int): (p: int)
    ensures p >= CapacityOf(stored) >= 1
  {
    Scale(1, Max(1, end - start), CapacityOf(stored));
    Max(1, end - start) * CapacityOf(stored)
  }

  /** The figures of one space. The heat band is read off before rounding. */
  predicate DeskOk(l: Ledger, space: (nat, Option<int>), start: int, end: int, d: Desk) {
    var booked := Booked(l, space.0, start, end, l.nextBooking);
    var potential := Potential(space.1, start, end);
    && d.space == space.0 && d.capacity == CapacityOf(space.1)
    && d.bookedTenths == Tenths(booked) && d.potentialTenths == Tenths(potential)
    && d.utilization == Thousandths(Utilization(booked, potential))
    && d.heat == HeatOf(Utilization(booked, potential))
  }

  /** The figures of one space without fractions: its capacity, booked and potential hours to the nearest
      tenth, the share booked to the nearest thousandth and never above one, and the heat band. */
  predicate Shows(l: Ledger, space: (nat, Option<int>), start: int, end: int, d: Desk) {
    var time := BookedTime(l, space.0, start, end);
    var desks := if space.1.Some? && space.1.value >= 1 then space.1.value else 1;
    var whole := (if end - start < 1 then 1 else end - start) * desks;
    && d.space == space.0 && d.capacity == desks
    && -3600000 <= 20 * time - 7200000 * d.bookedTenths <= 3600000
    && -3600000 <= 20 * whole - 7200000 * d.potentialTenths <= 3600000
    && (time >= whole ==> d.utilization == 1000)
    && (time < whole ==> -whole <= 2 * (d.utilization * whole) - 2000 * time <= whole)
    && (d.heat == Low <==> 100 * time < 15 * whole)
    && (d.heat == High <==> 45 * whole <= 100 * time)
  }

  lemma Share(time: int, whole: int)
    requires 0 <= time && 0 < whole
    ensures var u := Utilization(time, whole);
            && (u < 0.15 <==> 100 * time < 15 * whole)
            && (u < 0.45 <==> 100 * time < 45 * whole)
            && (time >= whole ==> u == 1.0)
            && (time < whole ==> u * whole as real == time as real && 0.0 <= u < 1.0)
  {
    var ratio := time as real / whole as real;
    assert ratio * whole as real == time as real;
    Compare(ratio, time, whole, 15);
    Compare(ratio, time, whole, 45);
    Compare(ratio, time, whole, 100);
    Compare(ratio, time, whole, 0);
  }

  lemma Compare(ratio: real, time: int, whole: int, percent: int)
    requires 0 < whole && ratio * whole as real == time as real
    ensures ratio < percent as real / 100.0 <==> 100 * time < percent * whole
  {
    var bound := percent as real / 100.0;
    if ratio < bound { TimesWhole(ratio, bound, whole); } else { TimesWhole(bound, ratio, whole); }
    if ratio == bound { assert 100 * time == percent * whole; }
    assert 100.0 * (bound * whole as real) == (percent * whole) as real;
  }

  lemma TimesWhole(a: real, b: real, whole: int)
    requires 0 < whole && a <= b
    ensures a * whole as real <= b * whole as real
    ensures a < b ==> a * whole as real < b * whole as real
  {
    Stretch(a, b, whole as real);
  }

  lemma Stretch(a: real, b: real, w: real)
    requires 0.0 < w && a <= b
    ensures a * w <= b * w
    ensures a < b ==> a * w < b * w
  {
    var gap := b - a;
    assert gap > 0.0 ==> gap * w > 0.0;
    assert b * w == a * w + gap * w;
  }

  lemma ShareInThousandths(time: int, whole: int)
    requires 0 <= time < whole
    ensures -whole <= 2 * (Thousandths(Utilization(time, whole)) * whole) - 2000 * time <= whole
  {
    var u := Utilization(time, whole);
    Share(time, whole);
    NearestThousandth(u);
    var t := Thousandths(u);
    OffByHalf(t as real, u, whole as real, time as real);
    AsReals(t, whole);
  }

  lemma OffByHalf(t: real, u: real, w: real, x: real)
    requires 0.0 < w && u * w == x && -0.5 <= t - 1000.0 * u <= 0.5
    ensures -w <= 2.0 * (t * w) - 2000.0 * x <= w
  {
    Stretch(t, 1000.0 * u + 0.5, w);
    Stretch(1000.0 * u - 0.5, t, w);
    Expand(u, 0.5, w);
  }

  lemma AsReals(a: int, b: int)
    ensures (a * b) as real == a as real * b as real
  {
  }

  lemma Expand(u: real, half: real, w: real)
    ensures (1000.0 * u + half) * w == 1000.0 * (u * w) + half * w
    ensures (1000.0 * u - half) * w == 1000.0 * (u * w) - half * w
  {
  }

  lemma HeatByShare(time: int, whole: int)
    requires 0 <= time && 0 < whole
    ensures HeatOf(Utilization(time, whole)) == Low <==> 100 * time < 15 * whole
    ensures HeatOf(Utilization(time, whole)) == High <==> 45 * whole <= 100 * time
  {
    Share(time, whole);
  }

  lemma FullShare(time: int, whole: int)
    requires 0 < whole <= time
    ensures Thousandths(Utilization(time, whole)) == 1000
  {
    Share(time, whole);
  }

  lemma PotentialIs(stored: Option<int>, start: int, end: int)
    ensures CapacityOf(stored) == if stored.Some? && stored.value >= 1 then stored.value else 1
    ensures Potential(stored, start, end) == (if end - start < 1 then 1 else end - start) * CapacityOf(stored)
  {
  }

  lemma DeskShows(l: Ledger, space: (nat, Option<int>), start: int, end: int, d: Desk)
    requires DeskOk(l, space, start, end, d)
    ensures Shows(l, space, start, end, d)
  {
    var time := BookedTime(l, space.0, start, end);
    var whole := Potential(space.1, start, end);
    PotentialIs(space.1, start, end);
    BookedIsNotNegative(l, space.0, start, end, l.nextBooking);
    if time < whole { ShareInThousandths(time, whole); } else { FullShare(time, whole); }
    HeatByShare(time, whole);
    NearestTenth(time);
    NearestTenth(whole);
  }

  /** What is displayed lies between 0 and 100 percent, within half a unit of the exact figures, and
      where counted bookings do not overlap the clamp never changes a value. */
  lemma DisplayIsFaithful(l: Ledger, space: nat, stored: Option<int>, start: int, end: int)
    ensures var booked := Booked(l, space, start, end, l.nextBooking);
            var potential := Potential(stored, start, end);
            var exact := Utilization(booked, potential);
            && 0 <= Thousandths(exact) <= 1000
            && -0.5 <= Thousandths(exact) as real - 1000.0 * exact <= 0.5
            && -HOUR <= 20 * booked - 2 * HOUR * Tenths(booked) <= HOUR
            && (CountedApart(l) ==>
                  exact == booked as real / potential as real && booked * CapacityOf(stored) <= potential)
  {
    var booked := Booked(l, space, start, end, l.nextBooking);
    var potential := Potential(stored, start, end);
    BookedIsNotNegative(l, space, start, end, l.nextBooking);
    UtilizationIsAShare(booked, potential);
    Clamp(l, space, start, end, CapacityOf(stored), booked);
    NearestThousandth(Utilization(booked, potential));
    NearestTenth(booked);
  }

  lemma NearestTenth(ms: int)
    ensures -HOUR <= 20 * ms - 2 * HOUR * Tenths(ms) <= HOUR
  {
  }

  lemma UtilizationIsAShare(booked: int, potential: int)
    requires 0 <= booked && 0 < potential
    ensures 0.0 <= Utilization(booked, potential) <= 1.0
  {
    if booked <= potential { Ratio(booked, potential); }
  }

  lemma NearestThousandth(u: real)
    requires 0.0 <= u <= 1.0
    ensures 0 <= Thousandths(u) <= 1000
    ensures -0.5 <= Thousandths(u) as real - 1000.0 * u <= 0.5
  {
  }

  method BookedBySpace(l: Ledger, spaces: set<nat>, start: int, end: int) returns (booked: map<nat, int>)
    ensures forall s :: s in spaces ==>
              (if s in booked then booked[s] else 0) == Booked(l, s, start, end, l.nextBooking)
  {
    booked := map[];
    var i := 0;
    while i < l.nextBooking
      invariant 0 <= i <= l.nextBooking
      invariant forall s :: s in spaces ==> (if s in booked then booked[s] else 0) == Booked(l, s, start, end, i)
    {
      if i in l.bookings {
        var b := l.bookings[i];
        if b.space in spaces && (b.status == Confirmed || b.status == Completed || b.status == CheckedIn)
           && b.start < end && b.end > start {
          var h := Overlap(b.start, b.end, start, end);
          booked := booked[b.space := (if b.space in booked then booked[b.space] else 0) + h];
        }
      }
      i := i + 1;
    }
  }

  /** Capacities are as stored: missing and non-positive ones count as one desk. */
  method GetOccupancyHeatmap(l: Ledger, spaces: seq<(nat, Option<int>)>, start: int, end: int)
    returns (desks: seq<Desk>)
    ensures |desks| == |spaces|
    ensures forall k :: 0 <= k < |desks| ==> DeskOk(l, spaces[k], start, end, desks[k])
    ensures forall k :: 0 <= k < |desks| ==> Shows(l, spaces[k], start, end, desks[k])
  {
    var periodMs := Max(1, end - start);
    var ids := set k | 0 <= k < |spaces| :: spaces[k].0;
    var booked := BookedBySpace(l, ids, start, end);
    desks := [];
    var k := 0;
    while k < |spaces|
      invariant 0 <= k <= |spaces| && |desks| == k
      invariant forall j :: 0 <= j < k ==> DeskOk(l, spaces[j], start, end, desks[j])
    {
      var cap := Max(if spaces[k].1.Some? then spaces[k].1.value else 1, 1);
      var potential := Potential(spaces[k].1, start, end);
      assert potential == periodMs * cap;
      assert spaces[k].0 in ids;
      var time := if spaces[k].0 in booked then booked[spaces[k].0] else 0;
      var ratio := time as real / potential as real;
      var utilization := if ratio < 1.0 then ratio else 1.0;
      var desk := Desk(spaces[k].0, cap, Tenths(time), Tenths(potential),
                       Thousandths(utilization), HeatOf(utilization));
      desks := desks + [desk];
      k := k + 1;
    }
    forall j | 0 <= j < |desks| ensures Shows(l, spaces[j], start, end, desks[j]) {
      DeskShows(l, spaces[j], start, end, desks[j]);
    }
  }

  lemma Clamp(l: Ledger, space: nat, start: int, end: int, cap: int, time: int)
    requires cap >= 1 && time == Booked(l, space, start, end, l.nextBooking)
    ensures var potential := Max(1, end - start) * cap;
            && potential > 0
            && (CountedApart(l) ==> 0.0 <= time as real / potential as real <= 1.0 && time * cap <= potential)
  {
    var period := Max(1, end - start);
    Scale(1, period, cap);
    if CountedApart(l) {
      BookedFitsWindow(l, space, start, end, l.nextBooking);
      Scale(time, period, cap);
      Scale(period, period, cap);
      Ratio(time, period * cap);
    }
  }

  lemma Scale(a: int, b: int, cap: int)
    requires 0 <= a <= b && 1 <= cap
    ensures a <= a * cap <= b * cap
  {
  }

  lemma Ratio(a: int, b: int)
    requires 0 <= a <= b && 0 < b
    ensures 0.0 <= a as real / b as real <= 1.0
  {
  }
}
