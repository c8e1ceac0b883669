/** The availability calendar published to marketplaces: free one-hour slots, 9 to 17, on the
    weekdays of the next 60 days, in UTC. */
module Availability {
  import opened Options
  import opened BookingLedger
  import opened Calendar

  datatype Slot = Slot(start: int, end: int)

  const WINDOW := 60

  predicate Workday(d: int) {
    Weekday(d) != 0 && Weekday(d) != 6
  }

  /** An hour of a working day of the window that starts with day `first`. */
  predicate OnGrid(first: int, s: Slot) {
    && first <= DayOf(s.start) < first + WINDOW
    && Workday(DayOf(s.start))
    && s.start % HOUR == 0
    && 9 * HOUR <= s.start % DAY < 17 * HOUR
    && s.end == s.start + HOUR
  }

  predicate Free(l: Ledger, space: nat, first: int, s: Slot) {
    OnGrid(first, s) && !InquiryClashes(l, space, s.start, s.end)
  }

  /** What a marketplace may rely on, by the calendar on the wall: one whole hour from 9 to 17 of a
      Monday to Friday among the 60 days that start today, met by no booking of the space that is neither
      cancelled nor a no-show. */
  predicate Offers(l: Ledger, space: nat, now: int, s: Slot) {
    var day := s.start / 86400000;
    && now / 86400000 <= day < now / 86400000 + 60
    && 1 <= DayOfWeek(YearOf(day), MonthInYear(day), DayInMonthOf(day)) <= 5
    && s.start % 3600000 == 0 && 9 * 3600000 <= s.start % 86400000 <= 16 * 3600000
    && s.end == s.start + 3600000
    && forall i :: i in l.bookings && l.bookings[i].space == space
                   && l.bookings[i].status != Cancelled && l.bookings[i].status != NoShow ==>
                     l.bookings[i].end <= s.start || s.end <= l.bookings[i].start
  }

  lemma FreeIffOffered(l: Ledger, space: nat, now: int, s: Slot)
    ensures Free(l, space, DayOf(now), s) <==> Offers(l, space, now, s)
  {
    WeekdayIsGregorian(DayOf(s.start));
    SixtyDays(DayOf(now), DayOf(s.start));
    WholeHours(s.start);
    if Free(l, space, DayOf(now), s) {
      forall i | i in l.bookings && l.bookings[i].space == space
                 && l.bookings[i].status != Cancelled && l.bookings[i].status != NoShow
        ensures l.bookings[i].end <= s.start || s.end <= l.bookings[i].start
      {
        assert !HalfOpenOverlap(l.bookings[i], s.start, s.end);
      }
    }
  }

  lemma SixtyDays(first: int, d: int)
    ensures first <= d < first + WINDOW <==> first <= d < first + 60
  {
  }

  lemma WholeHours(t: int)
    ensures t % HOUR == 0 ==> (t % DAY < 17 * HOUR <==> t % DAY <= 16 * HOUR)
  {
  }

  function Workdays(d: int, n: nat): nat {
    if n == 0 then 0 else Workdays(d, n - 1) + (if Workday(d + n - 1) then 1 else 0)
  }

  lemma {:induction false} WeeksOfWorkdays(d: int, weeks: nat)
    ensures Workdays(d, 7 * weeks) == 5 * weeks
  {
    if weeks > 0 {
      WeeksOfWorkdays(d, weeks - 1);
      var n: nat := 7 * (weeks - 1);
      assert Workdays(d, n + 7) == Workdays(d, n) + 5 by { WeekOfWorkdays(d, n); }
    }
  }

  lemma LaterWeekday(d: int, k: nat)
    requires k < 7
    ensures Weekday(d + k) == if Weekday(d) + k < 7 then Weekday(d) + k else Weekday(d) + k - 7
  {
  }

  lemma WeekOfWorkdays(d: int, n: nat)
    ensures Workdays(d, n + 7) == Workdays(d, n) + 5
  {
    var first := d + n;
    LaterWeekday(first, 1);
    LaterWeekday(first, 2);
    LaterWeekday(first, 3);
    LaterWeekday(first, 4);
    LaterWeekday(first, 5);
    LaterWeekday(first, 6);
    assert Workdays(d, n + 1) == Workdays(d, n) + if Workday(first) then 1 else 0;
    assert Workdays(d, n + 2) == Workdays(d, n + 1) + if Workday(first + 1) then 1 else 0;
    assert Workdays(d, n + 3) == Workdays(d, n + 2) + if Workday(first + 2) then 1 else 0;
    assert Workdays(d, n + 4) == Workdays(d, n + 3) + if Workday(first + 3) then 1 else 0;
    assert Workdays(d, n + 5) == Workdays(d, n + 4) + if Workday(first + 4) then 1 else 0;
    assert Workdays(d, n + 6) == Workdays(d, n + 5) + if Workday(first + 5) then 1 else 0;
    assert Workdays(d, n + 7) == Workdays(d, n + 6) + if Workday(first + 6) then 1 else 0;
  }

  /** Sixty days hold between 40 and 44 working days. */
  lemma WindowHasAtMost44Workdays(d: int)
    ensures 40 <= Workdays(d, WINDOW) <= 44
  {
    WeeksOfWorkdays(d, 8);
    assert Workdays(d, 57) <= Workdays(d, 56) + 1;
    assert Workdays(d, 58) <= Workdays(d, 57) + 1;
    assert Workdays(d, 59) <= Workdays(d, 58) + 1;
  }

  lemma GridHour(d: int, h: int, t: int)
    requires 0 <= h < 24
    ensures DayOf(d * DAY + h * HOUR) == d
    ensures (d * DAY + h * HOUR) % DAY == h * HOUR
    ensures (d * DAY + h * HOUR) % HOUR == 0
    ensures t % HOUR == 0 && d * DAY + h * HOUR <= t < d * DAY + (h + 1) * HOUR ==> t == d * DAY + h * HOUR
  {
    assert d * DAY == d * 24 * HOUR;
    assert t == (t / HOUR) * HOUR + t % HOUR;
  }

  function FirstAtMost<T>(items: seq<T>, n: nat): seq<T> {
    if |items| <= n then items else items[..n]
  }

  /** The bookings the window prefilter selects. */
  function Selected(l: Ledger, space: nat, first: int): set<Booking> {
    set i | i in l.bookings && l.bookings[i].space == space
            && l.bookings[i].status != Cancelled && l.bookings[i].status != NoShow
            && l.bookings[i].start < (first + WINDOW) * DAY && l.bookings[i].end > first * DAY :: l.bookings[i]
  }

  /** `slots` are, in ascending order, the free hours of the window that start before `frontier`. */
  ghost predicate ListsBefore(slots: seq<Slot>, l: Ledger, space: nat, first: int, frontier: int) {
    && (forall s :: s in slots <==> Free(l, space, first, s) && s.start < frontier)
    && (forall i, j :: 0 <= i < j < |slots| ==> slots[i].end <= slots[j].start)
  }

  lemma AppendHour(slots: seq<Slot>, more: seq<Slot>, l: Ledger, space: nat, first: int, d: int, h: int)
    requires first <= d < first + WINDOW && 9 <= h < 17 && Workday(d)
    requires ListsBefore(slots, l, space, first, d * DAY + h * HOUR)
    requires var s := Slot(d * DAY + h * HOUR, d * DAY + (h + 1) * HOUR);
             more == if InquiryClashes(l, space, s.start, s.end) then slots else slots + [s]
    ensures ListsBefore(more, l, space, first, d * DAY + (h + 1) * HOUR)
  {
    var s := Slot(d * DAY + h * HOUR, d * DAY + (h + 1) * HOUR);
    HourStep(l, space, first, d, h);
    forall i | 0 <= i < |slots|
      ensures slots[i].end <= s.start
    {
      assert slots[i] in slots;
      GridGap(slots[i].start, d, h);
    }
  }

  method ListDay(l: Ledger, space: nat, first: int, d: int, bookings: set<Booking>, before: seq<Slot>)
    returns (slots: seq<Slot>)
    requires first <= d < first + WINDOW && Workday(d)
    requires bookings == Selected(l, space, first)
    requires ListsBefore(before, l, space, first, d * DAY + 9 * HOUR)
    ensures ListsBefore(slots, l, space, first, d * DAY + 17 * HOUR)
    ensures |slots| <= |before| + 8
  {
    slots := before;
    var h := 9;
    while h < 17
      invariant 9 <= h <= 17
      invariant ListsBefore(slots, l, space, first, d * DAY + h * HOUR)
      invariant |slots| <= |before| + h - 9
    {
      var s := Slot(d * DAY + h * HOUR, d * DAY + (h + 1) * HOUR);
      var overlap := exists b :: b in bookings && b.start < s.end && b.end > s.start;
      PrefilterLosesNothing(l, space, first, s, d, h);
      var more := if !overlap then slots + [s] else slots;
      AppendHour(slots, more, l, space, first, d, h);
      slots := more;
      h := h + 1;
    }
  }

  /** Exactly the free working hours of the window, in ascending order. There are at most 352, so the
      cap of 400 never cuts the list. */
  method BuildAvailabilityCalendar(l: Ledger, space: nat, now: int) returns (slots: seq<Slot>)
    ensures forall s :: s in slots <==> Offers(l, space, now, s)
    ensures forall i, j :: 0 <= i < j < |slots| ==> slots[i].end <= slots[j].start
    ensures |slots| <= 352
  {
    var first := DayOf(now);
    var bookings := Selected(l, space, first);
    slots := [];
    var d := first;
    assert forall s :: Free(l, space, first, s) ==> !(s.start < first * DAY) by {
      forall s | Free(l, space, first, s)
        ensures first * DAY <= s.start
      {
        DayBound(s.start, first);
      }
    }
    while d < first + WINDOW
      invariant first <= d <= first + WINDOW
      invariant ListsBefore(slots, l, space, first, d * DAY)
      invariant |slots| <= 8 * Workdays(first, d - first)
    {
      if Workday(d) {
        BeforeNine(l, space, first, d);
        slots := ListDay(l, space, first, d, bookings, slots);
        AfterFive(l, space, first, d);
      } else {
        Weekend(l, space, first, d);
      }
      d := d + 1;
    }
    forall s | Free(l, space, first, s)
      ensures s.start < d * DAY
    {
      DayBound(s.start, d);
    }
    WindowHasAtMost44Workdays(first);
    forall s ensures Free(l, space, first, s) <==> Offers(l, space, now, s) { FreeIffOffered(l, space, now, s); }
    slots := FirstAtMost(slots, 400);
  }

  lemma GridGap(t: int, d: int, h: int)
    requires t % HOUR == 0 && t < d * DAY + h * HOUR
    ensures t + HOUR <= d * DAY + h * HOUR
  {
    assert d * DAY + h * HOUR == (24 * d + h) * HOUR;
    assert t == (t / HOUR) * HOUR;
  }

  /** A booking that meets a slot of the window survives the window prefilter. */
  lemma PrefilterLosesNothing(l: Ledger, space: nat, first: int, s: Slot, d: int, h: int)
    requires first <= d < first + WINDOW && 9 <= h < 17
    requires s == Slot(d * DAY + h * HOUR, d * DAY + (h + 1) * HOUR)
    ensures (exists b :: b in Selected(l, space, first) && b.start < s.end && b.end > s.start) <==>
              InquiryClashes(l, space, s.start, s.end)
  {
    assert first * DAY <= s.start && s.end <= (first + WINDOW) * DAY;
    if InquiryClashes(l, space, s.start, s.end) {
      var i :| i in l.bookings && l.bookings[i].space == space
               && l.bookings[i].status != Cancelled && l.bookings[i].status != NoShow
               && HalfOpenOverlap(l.bookings[i], s.start, s.end);
      assert l.bookings[i] in Selected(l, space, first);
    }
  }

  lemma HourStep(l: Ledger, space: nat, first: int, d: int, h: int)
    requires first <= d < first + WINDOW && 9 <= h < 17 && Workday(d)
    ensures var s := Slot(d * DAY + h * HOUR, d * DAY + (h + 1) * HOUR);
            && OnGrid(first, s)
            && forall o: Slot :: Free(l, space, first, o) ==>
                 (o.start < d * DAY + (h + 1) * HOUR <==> o.start < d * DAY + h * HOUR || o == s)
  {
    GridHour(d, h, 0);
    forall o: Slot | Free(l, space, first, o)
      ensures o.start < d * DAY + (h + 1) * HOUR ==>
                o.start < d * DAY + h * HOUR || o == Slot(d * DAY + h * HOUR, d * DAY + (h + 1) * HOUR)
    {
      GridHour(d, h, o.start);
    }
  }

  lemma BeforeNine(l: Ledger, space: nat, first: int, d: int)
    ensures forall o: Slot :: Free(l, space, first, o) ==> (o.start < d * DAY + 9 * HOUR <==> o.start < d * DAY)
  {
    forall o: Slot | Free(l, space, first, o) && d * DAY <= o.start
      ensures d * DAY + 9 * HOUR <= o.start
    {
      DayBound(o.start, d);
      assert o.start == DayOf(o.start) * DAY + o.start % DAY;
    }
  }

  lemma AfterFive(l: Ledger, space: nat, first: int, d: int)
    ensures forall o: Slot :: Free(l, space, first, o) ==> (o.start < d * DAY + 17 * HOUR <==> o.start < (d + 1) * DAY)
  {
    forall o: Slot | Free(l, space, first, o) && o.start < (d + 1) * DAY
      ensures o.start < d * DAY + 17 * HOUR
    {
      DayBound(o.start, d + 1);
      assert o.start == DayOf(o.start) * DAY + o.start % DAY;
    }
  }

  lemma Weekend(l: Ledger, space: nat, first: int, d: int)
    requires !Workday(d)
    ensures forall o: Slot :: Free(l, space, first, o) ==> (o.start < (d + 1) * DAY <==> o.start < d * DAY)
  {
    forall o: Slot | Free(l, space, first, o) && o.start < (d + 1) * DAY
      ensures o.start < d * DAY
    {
      DayBound(o.start, d);
      DayBound(o.start, d + 1);
    }
  }

  /** For an hour on the grid, the calendar lists it exactly when a marketplace inquiry for it would
      be booked on the same table; and once it is booked, the calendar loses that hour and no other. */
  lemma ListedIffInquiryBooks(l: Ledger, space: nat, first: int, s: Slot, inquiry: nat, actor: nat)
    requires OnGrid(first, s) && space in l.spaces && IdsBelowNext(l)
    requires forall i :: i in l.bookings ==> l.bookings[i].inquiry != Some(inquiry)
    ensures var (n, reply) := Inquiring(l, true, inquiry, Some(space), Some(actor), s.start, s.end);
            && (Free(l, space, first, s) <==> reply.Done?)
            && (reply.Done? ==> forall o: Slot :: Free(n, space, first, o) <==> Free(l, space, first, o) && o != s)
  {
    var (n, reply) := Inquiring(l, true, inquiry, Some(space), Some(actor), s.start, s.end);
    if reply.Done? {
      assert n.bookings[l.nextBooking].start == s.start && n.bookings[l.nextBooking].end == s.end;
      forall o: Slot
        ensures Free(n, space, first, o) <==> Free(l, space, first, o) && o != s
      {
        if OnGrid(first, o) { BookedHour(l, n, space, first, s, o); }
      }
    }
  }

  lemma HoursMeetIffEqual(a: int, b: int)
    requires a % HOUR == 0 && b % HOUR == 0
    ensures a < b + HOUR && b < a + HOUR <==> a == b
  {
    assert a == (a / HOUR) * HOUR && b == (b / HOUR) * HOUR;
  }

  lemma BookedHour(l: Ledger, n: Ledger, space: nat, first: int, s: Slot, o: Slot)
    requires OnGrid(first, s) && OnGrid(first, o) && IdsBelowNext(l)
    requires l.nextBooking in n.bookings && n.bookings == l.bookings[l.nextBooking := n.bookings[l.nextBooking]]
    requires var b := n.bookings[l.nextBooking];
             b.space == space && b.status == PendingApproval && b.start == s.start && b.end == s.end
    ensures InquiryClashes(n, space, o.start, o.end) <==> InquiryClashes(l, space, o.start, o.end) || o == s
  {
    var b := n.bookings[l.nextBooking];
    HoursMeetIffEqual(s.start, o.start);
    assert HalfOpenOverlap(b, o.start, o.end) <==> o == s;
    forall i | i in l.bookings
      ensures i in n.bookings && n.bookings[i] == l.bookings[i]
    {
    }
  }
}
