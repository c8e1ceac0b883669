/** Which groups of bookings never overlap. The bookings on the calendar track (asked for, confirmed,
    used) stay apart whatever is accepted through applications: those enter another track and never
    cross over. The bookings the dashboards count are a part of them. */
module OccupancyLaws {
  import opened Options
  import opened BookingLedger
  import opened BookingLaws
  import opened Traces

  const TRACK: set<Status> := {PendingApproval, Confirmed, CheckedIn, Completed}

  const COUNTED: set<Status> := {Confirmed, CheckedIn, Completed}

  /** Live bookings only, and not those that wait for a call. */
  predicate CalendarGroup(group: set<Status>) {
    Cancelled !in group && NoShow !in group && Refused !in group && PendingPhone !in group
  }

  predicate GroupApart(l: Ledger, group: set<Status>) {
    forall i, j :: i in l.bookings && j in l.bookings && i != j
                   && l.bookings[i].status in group && l.bookings[j].status in group ==>
                     Apart(l.bookings[i], l.bookings[j])
  }

  /** A slot for booking `id` that meets no other booking of the space in the group. */
  predicate GroupClear(l: Ledger, group: set<Status>, id: nat, space: nat, start: int, end: int) {
    forall i :: i in l.bookings && i != id && l.bookings[i].space == space && l.bookings[i].status in group ==>
                  !HalfOpenOverlap(l.bookings[i], start, end)
  }

  /** Rows that stay in the group kept their slot, and none entered it. */
  predicate KeepsGroup(l: Ledger, group: set<Status>, n: Ledger) {
    forall i :: i in n.bookings && n.bookings[i].status in group ==>
      i in l.bookings && l.bookings[i].status in group && SameSlot(l.bookings[i], n.bookings[i])
  }

  lemma KeepingGroupKeepsApart(l: Ledger, group: set<Status>, n: Ledger)
    requires CalendarGroup(group) && GroupApart(l, group) && KeepsGroup(l, group, n)
    ensures GroupApart(n, group)
  {
    forall i, j | i in n.bookings && j in n.bookings && i != j
                  && n.bookings[i].status in group && n.bookings[j].status in group
      ensures Apart(n.bookings[i], n.bookings[j])
    {
      assert Apart(l.bookings[i], l.bookings[j]);
    }
  }

  lemma PlacingKeepsApart(l: Ledger, group: set<Status>, n: Ledger, id: nat)
    requires GroupApart(l, group)
    requires id in n.bookings && n.bookings.Keys == l.bookings.Keys + {id}
    requires forall i :: i in l.bookings && i != id ==> n.bookings[i] == l.bookings[i]
    requires var b := n.bookings[id]; b.status in group ==> GroupClear(l, group, id, b.space, b.start, b.end)
    ensures GroupApart(n, group)
  {
    forall i, j | i in n.bookings && j in n.bookings && i != j
                  && n.bookings[i].status in group && n.bookings[j].status in group
      ensures Apart(n.bookings[i], n.bookings[j])
    {
      if i != id && j != id { assert Apart(l.bookings[i], l.bookings[j]); }
    }
  }

  lemma ApartIsClear(l: Ledger, group: set<Status>, n: Ledger, id: nat)
    requires CalendarGroup(group) && GroupApart(n, group)
    requires id in n.bookings && n.bookings[id].status in group
    requires forall i :: i in l.bookings && i != id ==> i in n.bookings && n.bookings[i] == l.bookings[i]
    ensures var b := n.bookings[id]; GroupClear(l, group, id, b.space, b.start, b.end)
  {
    var b := n.bookings[id];
    forall i | i in l.bookings && i != id && l.bookings[i].space == b.space && l.bookings[i].status in group
      ensures !HalfOpenOverlap(l.bookings[i], b.start, b.end)
    {
      assert Apart(n.bookings[i], n.bookings[id]);
    }
  }

  // ----- Single steps -------------------------------------------------------------------------

  predicate OneSided(op: Op) {
    op.Reschedule? && !(op.newStart.Some? && op.newEnd.Some?)
  }

  /** A reschedule of one end that goes through moves a booking of the group clear of the others. */
  predicate MovesClear(l: Ledger, group: set<Status>, op: Op) {
    OneSided(op) && op.who.sees && op.id in l.bookings && l.bookings[op.id].status in group ==>
      var b := l.bookings[op.id];
      GroupClear(l, group, op.id, b.space,
                 if op.newStart.Some? then op.newStart.value else b.start,
                 if op.newEnd.Some? then op.newEnd.value else b.end)
  }

  /** An approval that goes through confirms a booking clear of those already counted. */
  predicate ApprovesClear(l: Ledger, op: Op) {
    op.Approve? && Approver(op.who.role) && op.who.sees
    && op.id in l.bookings && l.bookings[op.id].status == PendingApproval ==>
      var b := l.bookings[op.id];
      GroupClear(l, COUNTED, op.id, b.space, b.start, b.end)
  }

  lemma CreatingKeepsGroup(l: Ledger, group: set<Status>, who: Caller, dto: NewBooking)
    requires CalendarGroup(group) && GroupApart(l, group) && IdsBelowNext(l)
    ensures GroupApart(Creating(l, who, dto).0, group)
  {
    var n := Creating(l, who, dto).0;
    if n != l {
      assert !Clashes(l, dto.space, dto.start, dto.end, None);
      FreeIsClear(l, group, l.nextBooking, dto.space, dto.start, dto.end);
      PlacingKeepsApart(l, group, n, l.nextBooking);
    }
  }

  /** What the closed-interval guard lets through is clear of every group of live bookings. */
  lemma FreeIsClear(l: Ledger, group: set<Status>, id: nat, space: nat, start: int, end: int)
    requires CalendarGroup(group)
    requires !Clashes(l, space, start, end, Some(id)) || (!Clashes(l, space, start, end, None) && id !in l.bookings)
    ensures GroupClear(l, group, id, space, start, end)
  {
    forall i | i in l.bookings && i != id && l.bookings[i].space == space && l.bookings[i].status in group
      ensures !HalfOpenOverlap(l.bookings[i], start, end)
    {
      assert !(l.bookings[i].start <= end && start <= l.bookings[i].end);
    }
  }

  lemma InquiringKeepsGroup(l: Ledger, group: set<Status>, op: Op)
    requires CalendarGroup(group) && GroupApart(l, group) && IdsBelowNext(l) && op.Inquire?
    ensures GroupApart(Inquiring(l, op.signed, op.inquiry, op.place, op.actor, op.start, op.end).0, group)
  {
    var n := Inquiring(l, op.signed, op.inquiry, op.place, op.actor, op.start, op.end).0;
    if n != l {
      assert !InquiryClashes(l, op.place.value, op.start, op.end);
      PlacingKeepsApart(l, group, n, l.nextBooking);
    }
  }

  /** An accepted booking waits for a call, off the track, and so cannot disturb it. */
  lemma AcceptingKeepsGroup(l: Ledger, group: set<Status>, who: Caller, app: nat, r: Option<nat>)
    requires CalendarGroup(group) && GroupApart(l, group) && IdsBelowNext(l)
    ensures GroupApart(Accepting(l, who, app, r).0, group)
  {
    KeepingGroupKeepsApart(l, group, Accepting(l, who, app, r).0);
  }

  lemma OpeningKeepsGroup(l: Ledger, group: set<Status>, op: Op)
    requires CalendarGroup(group) && GroupApart(l, group) && IdsBelowNext(l) && IsOpening(op)
    ensures GroupApart(Apply(l, op).0, group)
  {
    match op
    case Create(who, dto) => CreatingKeepsGroup(l, group, who, dto);
    case Inquire(_, _, _, _, _, _) => InquiringKeepsGroup(l, group, op);
    case AcceptApplication(who, app, r) => AcceptingKeepsGroup(l, group, who, app, r);
  }

  lemma ReschedulingGroupIff(l: Ledger, group: set<Status>, op: Op)
    requires CalendarGroup(group) && GroupApart(l, group) && op.Reschedule?
    ensures GroupApart(Rescheduling(l, op.who, op.id, op.newStart, op.newEnd).0, group) <==> MovesClear(l, group, op)
  {
    var n := Rescheduling(l, op.who, op.id, op.newStart, op.newEnd).0;
    if op.who.sees && op.id in l.bookings && n != l {
      if OneSided(op) {
        if MovesClear(l, group, op) { PlacingKeepsApart(l, group, n, op.id); }
        if GroupApart(n, group) && n.bookings[op.id].status in group { ApartIsClear(l, group, n, op.id); }
      } else {
        FreeIsClear(l, group, op.id, l.bookings[op.id].space, op.newStart.value, op.newEnd.value);
        PlacingKeepsApart(l, group, n, op.id);
      }
    } else if op.who.sees && op.id in l.bookings && l.bookings[op.id].status in group {
      ApartIsClear(l, group, l, op.id);
      UnmovedIsClear(l, group, op);
    }
  }

  lemma UnmovedIsClear(l: Ledger, group: set<Status>, op: Op)
    requires op.Reschedule? && op.id in l.bookings && op.who.sees
    requires Rescheduling(l, op.who, op.id, op.newStart, op.newEnd).0 == l
    requires var b := l.bookings[op.id]; GroupClear(l, group, op.id, b.space, b.start, b.end)
    ensures MovesClear(l, group, op)
  {
    if OneSided(op) {
      var b := l.bookings[op.id];
      var n := Rescheduling(l, op.who, op.id, op.newStart, op.newEnd).0;
      assert n.bookings[op.id].start == b.start && n.bookings[op.id].end == b.end;
    }
  }

  /** No lifecycle step enters the track, and only approvals enter the counted bookings. */
  lemma ShapedKeepsGroup(l: Ledger, group: set<Status>, kind: Kind, n: Ledger)
    requires Shaped(l, kind, n) && !kind.Opening? && (kind.Edit? ==> !kind.times)
    requires forall a, b :: Edge(a, b) && b in group ==> a in group
    ensures KeepsGroup(l, group, n)
  {
  }

  lemma TrackIsClosed()
    ensures CalendarGroup(TRACK) && forall a, b :: Edge(a, b) && b in TRACK ==> a in TRACK
  {
  }

  lemma OtherStepKeepsTrack(l: Ledger, op: Op)
    requires GroupApart(l, TRACK) && IdsBelowNext(l)
    requires !IsOpening(op) && !op.Reschedule?
    ensures GroupApart(Apply(l, op).0, TRACK)
  {
    StepShape(l, op);
    TrackIsClosed();
    ShapedKeepsGroup(l, TRACK, KindOf(op), Apply(l, op).0);
    KeepingGroupKeepsApart(l, TRACK, Apply(l, op).0);
  }

  lemma StepTrackIff(l: Ledger, op: Op)
    requires GroupApart(l, TRACK) && IdsBelowNext(l)
    ensures GroupApart(Apply(l, op).0, TRACK) <==> MovesClear(l, TRACK, op)
  {
    TrackIsClosed();
    if IsOpening(op) {
      OpeningKeepsGroup(l, TRACK, op);
    } else if op.Reschedule? {
      ReschedulingGroupIff(l, TRACK, op);
    } else {
      OtherStepKeepsTrack(l, op);
    }
  }

  lemma ShapedKeepsCounted(l: Ledger, kind: Kind, n: Ledger)
    requires Shaped(l, kind, n) && !kind.Opening? && (kind.Edit? ==> !kind.times)
    requires kind.Move? ==> exists target :: target != Confirmed && Reaches(l, n, kind.id, target)
    ensures KeepsGroup(l, COUNTED, n)
  {
  }

  /** The calls other than approvals do not make a booking counted. */
  lemma QuietStepKeepsCounted(l: Ledger, op: Op)
    requires GroupApart(l, COUNTED) && IdsBelowNext(l)
    requires !IsOpening(op) && !op.Reschedule? && !op.Approve?
    ensures GroupApart(Apply(l, op).0, COUNTED)
  {
    StepShape(l, op);
    if IsMove(op) {
      MoveTarget(l, op);
      assert Target(op) != Confirmed;
    }
    ShapedKeepsCounted(l, KindOf(op), Apply(l, op).0);
    KeepingGroupKeepsApart(l, COUNTED, Apply(l, op).0);
  }

  lemma ApprovingCountedIff(l: Ledger, op: Op)
    requires GroupApart(l, COUNTED) && op.Approve?
    ensures GroupApart(Approving(l, op.who, op.id).0, COUNTED) <==> ApprovesClear(l, op)
  {
    var n := Approving(l, op.who, op.id).0;
    if Approver(op.who.role) && op.who.sees && op.id in l.bookings && l.bookings[op.id].status == PendingApproval {
      ApprovalConfirms(l, op.who, op.id);
      if GroupClear(l, COUNTED, op.id, n.bookings[op.id].space, n.bookings[op.id].start, n.bookings[op.id].end) {
        PlacingKeepsApart(l, COUNTED, n, op.id);
      }
      if GroupApart(n, COUNTED) { ApartIsClear(l, COUNTED, n, op.id); }
    } else {
      assert n == l;
    }
  }

  lemma ApprovalConfirms(l: Ledger, who: Caller, id: nat)
    requires Approver(who.role) && who.sees && id in l.bookings && l.bookings[id].status == PendingApproval
    ensures var n := Approving(l, who, id).0;
            && id in n.bookings && n.bookings == l.bookings[id := n.bookings[id]]
            && SameSlot(l.bookings[id], n.bookings[id]) && n.bookings[id].status == Confirmed
  {
  }

  /** What keeps the counted bookings apart on their own: approvals and one-sided reschedules that land
      clear of them. */
  predicate CountedClear(l: Ledger, op: Op) {
    MovesClear(l, COUNTED, op) && ApprovesClear(l, op)
  }

  lemma StepCountedIff(l: Ledger, op: Op)
    requires GroupApart(l, COUNTED) && IdsBelowNext(l)
    ensures GroupApart(Apply(l, op).0, COUNTED) <==> CountedClear(l, op)
  {
    if IsOpening(op) {
      OpeningKeepsGroup(l, COUNTED, op);
    } else if op.Reschedule? {
      ReschedulingGroupIff(l, COUNTED, op);
    } else if op.Approve? {
      ApprovingCountedIff(l, op);
    } else {
      QuietStepKeepsCounted(l, op);
    }
  }

  // ----- Runs ---------------------------------------------------------------------------------

  function GroupGood(states: seq<Ledger>, group: set<Status>): (good: seq<bool>)
    ensures |good| == |states| && forall i :: 0 <= i < |states| ==> good[i] == GroupApart(states[i], group)
  {
    seq(|states|, i requires 0 <= i < |states| => GroupApart(states[i], group))
  }

  function TrackSound(states: seq<Ledger>, ops: seq<Op>): (sound: seq<bool>)
    requires |ops| <= |states|
    ensures |sound| == |ops| && forall i :: 0 <= i < |ops| ==> sound[i] == MovesClear(states[i], TRACK, ops[i])
  {
    seq(|ops|, i requires 0 <= i < |ops| => MovesClear(states[i], TRACK, ops[i]))
  }

  function CountedSound(states: seq<Ledger>, ops: seq<Op>): (sound: seq<bool>)
    requires |ops| <= |states|
    ensures |sound| == |ops| && forall i :: 0 <= i < |ops| ==> sound[i] == CountedClear(states[i], ops[i])
  {
    seq(|ops|, i requires 0 <= i < |ops| => CountedClear(states[i], ops[i]))
  }

  lemma RunStepTrackIff(states: seq<Ledger>, ops: seq<Op>, i: nat)
    requires Execution(states, ops) && i < |ops| && IdsBelowNext(states[0])
    requires GroupGood(states, TRACK)[i]
    ensures GroupGood(states, TRACK)[i + 1] <==> TrackSound(states, ops)[i]
  {
    RunKeepsIds(states, ops, i);
    assert StepAt(states, ops, i);
    StepTrackIff(states[i], ops[i]);
  }

  lemma RunStepCountedIff(states: seq<Ledger>, ops: seq<Op>, i: nat)
    requires Execution(states, ops) && i < |ops| && IdsBelowNext(states[0])
    requires GroupGood(states, COUNTED)[i]
    ensures GroupGood(states, COUNTED)[i + 1] <==> CountedSound(states, ops)[i]
  {
    RunKeepsIds(states, ops, i);
    assert StepAt(states, ops, i);
    StepCountedIff(states[i], ops[i]);
  }

  /** Over every run, acceptances included: bookings of the track never overlap if and only if every
      one-sided reschedule of one of them landed clear of the others. */
  lemma TrackApartIff(states: seq<Ledger>, ops: seq<Op>)
    requires Execution(states, ops)
    requires IdsBelowNext(states[0]) && GroupApart(states[0], TRACK)
    ensures (forall i :: 0 <= i < |states| ==> GroupApart(states[i], TRACK)) <==>
              (forall i :: 0 <= i < |ops| ==> MovesClear(states[i], TRACK, ops[i]))
  {
    var good, sound := GroupGood(states, TRACK), TrackSound(states, ops);
    forall i | 0 <= i < |ops| && good[i]
      ensures good[i + 1] <==> sound[i]
    {
      RunStepTrackIff(states, ops, i);
    }
    ChainIff(good, sound, |ops|);
  }

  /** Over every run: the counted bookings never overlap if and only if every approval and every
      one-sided reschedule of a counted booking landed clear of the counted ones. */
  lemma CountedApartIff(states: seq<Ledger>, ops: seq<Op>)
    requires Execution(states, ops)
    requires IdsBelowNext(states[0]) && GroupApart(states[0], COUNTED)
    ensures (forall i :: 0 <= i < |states| ==> GroupApart(states[i], COUNTED)) <==>
              (forall i :: 0 <= i < |ops| ==> CountedClear(states[i], ops[i]))
  {
    var good, sound := GroupGood(states, COUNTED), CountedSound(states, ops);
    forall i | 0 <= i < |ops| && good[i]
      ensures good[i + 1] <==> sound[i]
    {
      RunStepCountedIff(states, ops, i);
    }
    ChainIff(good, sound, |ops|);
  }
}
