/** What each booking call answers and leaves behind, in terms of the rows it found. */
module BookingAnswers {
  import opened Options
  import opened BookingLedger
  import opened Calendar
  import opened BookingLaws
  import Quotes

  // ----- Slots --------------------------------------------------------------------------------

  /** Cancelled, missed and refused bookings give up their slot. */
  predicate Standing(b: Booking) {
    b.status !in {Cancelled, NoShow, Refused}
  }

  /** Two bookings may not even share an instant. */
  predicate RoomFor(l: Ledger, space: nat, start: int, end: int, but: Option<nat>) {
    forall i :: i in l.bookings && but != Some(i) && l.bookings[i].space == space && Standing(l.bookings[i]) ==>
                  l.bookings[i].end < start || end < l.bookings[i].start
  }

  lemma RoomIffNoClash(l: Ledger, space: nat, start: int, end: int, but: Option<nat>)
    ensures RoomFor(l, space, start, end, but) <==> !Clashes(l, space, start, end, but)
  {
  }

  // ----- Creating -----------------------------------------------------------------------------

  predicate MayBookFor(who: Caller, dto: NewBooking) {
    || who.role in {SuperAdmin, Finance}
    || (dto.tenant == who.tenant && (who.role == TenantEmployee ==> dto.creator == who.id))
  }

  /** An active service, linked to the space or run by its landlord. */
  predicate OnOffer(l: Ledger, space: nat, service: nat) {
    && service in l.services && l.services[service].active
    && ((space, service) in l.links || (space in l.spaces && l.services[service].tenant == l.spaces[space].owner))
  }

  predicate AllOnOffer(l: Ledger, space: nat, wanted: seq<Wanted>) {
    forall k :: 0 <= k < |wanted| ==> OnOffer(l, space, wanted[k].service)
  }

  /** How often a lease of so many months pays the unit price of a service: 30 days a month, 8 hours a day. */
  function Times(cycle: BillingCycle, months: int): int {
    match cycle
    case Monthly => months
    case Daily => 30 * months
    case Hourly => 240 * months
    case OneTime => 1
    case OtherCycle => 1
  }

  /** A lease lasts `n` months if `n - 1` times 30 days are not enough for it and `n` times 30 days are;
      any lease lasts a day at least. */
  lemma MonthsAreThirtyDays(start: int, end: int, n: int)
    ensures DurationMonths(start, end) == n <==>
              n >= 1
              && (n > 1 ==> (n - 1) * 30 * 86400000 < end - start)
              && end - start <= n * 30 * 86400000
  {
    var length := if end - start < DAY then DAY else end - start;
    var month := 30 * DAY;
    var m := DurationMonths(start, end);
    assert (m - 1) * month < length <= m * month;
    if n < m { Longer(n, m - 1, month); }
    if m < n { Longer(m, n - 1, month); }
  }

  lemma Longer(a: int, b: int, month: int)
    requires a <= b && 0 <= month
    ensures a * month <= b * month
  {
  }

  predicate ResolvedAs(l: Ledger, months: int, want: Wanted, a: Addon) {
    && a.service == want.service && a.quantity == want.quantity
    && want.service in l.services
    && a.unitPrice == l.services[want.service].price * Times(l.services[want.service].cycle, months)
  }

  lemma {:induction false} ResolvedIffAllOffered(l: Ledger, space: nat, months: int, wanted: seq<Wanted>)
    requires months >= 1
    ensures var rows := ResolvedAddons(l, space, months, wanted);
            && (rows.Some? <==> AllOnOffer(l, space, wanted))
            && (rows.Some? ==>
                  && |rows.value| == |wanted|
                  && (forall k :: 0 <= k < |wanted| ==> ResolvedAs(l, months, wanted[k], rows.value[k]))
                  && (forall k :: 0 <= k < |wanted| ==> rows.value[k].id == l.nextAddon + k))
    decreases |wanted|
  {
    if wanted != [] {
      var m := |wanted| - 1;
      ResolvedIffAllOffered(l, space, months, wanted[..m]);
      assert wanted == wanted[..m] + [wanted[m]];
      if Offered(l, space, wanted[m].service) {
        PricedByTimes(l.services[wanted[m].service].price, l.services[wanted[m].service].cycle, months);
      }
    }
  }

  lemma PricedByTimes(price: int, cycle: BillingCycle, months: int)
    requires months >= 1
    ensures UnitPriceForLease(price, cycle, months) == price * Times(cycle, months)
  {
    assert price * months * 30 == price * (30 * months);
    assert price * months * 30 * 8 == price * (240 * months);
  }

  /** Quantity times unit price, added up from the front. */
  function Cost(addons: seq<Addon>): int {
    if addons == [] then 0 else addons[0].quantity * addons[0].unitPrice + Cost(addons[1..])
  }

  lemma {:induction false} CostOfOneMore(addons: seq<Addon>, a: Addon)
    ensures Cost(addons + [a]) == Cost(addons) + a.quantity * a.unitPrice
    decreases |addons|
  {
    if addons == [] {
      assert ([] + [a])[1..] == [];
    } else {
      CostOfOneMore(addons[1..], a);
      assert (addons + [a])[1..] == addons[1..] + [a];
    }
  }

  lemma {:induction false} SumIsCost(addons: seq<Addon>)
    ensures AddonSum(addons) == Cost(addons)
    decreases |addons|
  {
    if addons != [] {
      var m := |addons| - 1;
      SumIsCost(addons[..m]);
      CostOfOneMore(addons[..m], addons[m]);
      assert addons[..m] + [addons[m]] == addons;
    }
  }

  lemma CreationMonths(start: int, end: int)
    ensures DurationMonths(start, end) >= 1
  {
    MonthsAreThirtyDays(start, end, DurationMonths(start, end));
  }

  /** A booking is made exactly when the caller may book for that tenant, the space exists, no standing
      booking of the space shares an instant with the slot, and every service asked for is on offer. The
      first of these that fails names the error, and a refusal changes nothing. */
  lemma CreateDoneIff(l: Ledger, who: Caller, dto: NewBooking)
    ensures var (n, reply) := Apply(l, Create(who, dto));
            var room := RoomFor(l, dto.space, dto.start, dto.end, None);
            && (reply.Done? <==>
                  && MayBookFor(who, dto) && dto.space in l.spaces
                  && room && AllOnOffer(l, dto.space, dto.addons))
            && (reply == Rejected(Forbidden) <==> !MayBookFor(who, dto))
            && (reply == Rejected(NotFound) <==> MayBookFor(who, dto) && dto.space !in l.spaces)
            && (reply == Rejected(Conflict) <==> MayBookFor(who, dto) && dto.space in l.spaces && !room)
            && (!reply.Done? ==> n == l)
  {
    RoomIffNoClash(l, dto.space, dto.start, dto.end, None);
    CreationMonths(dto.start, dto.end);
    ResolvedIffAllOffered(l, dto.space, DurationMonths(dto.start, dto.end), dto.addons);
  }

  /** Portal users always wait for approval; others get the status they ask for, and without one what the
      space requires. */
  predicate OpensWith(l: Ledger, who: Caller, dto: NewBooking, status: Status)
    requires dto.space in l.spaces
  {
    && (who.role in {TenantAdmin, TenantEmployee} ==> status == PendingApproval)
    && (who.role !in {TenantAdmin, TenantEmployee} && dto.status.Some? ==> status == dto.status.value)
    && (who.role !in {TenantAdmin, TenantEmployee} && dto.status.None? ==>
          (status == PendingApproval <==> l.spaces[dto.space].requiresApproval)
          && (status == Confirmed <==> !l.spaces[dto.space].requiresApproval))
  }

  /** The row a creation leaves behind: quoted the given price plus what its add-ons cost for the length of
      the lease, and invoiced for that amount at once if it opens confirmed. */
  lemma CreatedRow(l: Ledger, who: Caller, dto: NewBooking, months: int)
    requires IdsBelowNext(l) && Apply(l, Create(who, dto)).1.Done? && DurationMonths(dto.start, dto.end) == months
    ensures var n, id := Apply(l, Create(who, dto)).0, l.nextBooking;
            && id !in l.bookings && id in n.bookings && n.bookings - {id} == l.bookings
            && n.spaces == l.spaces && n.applications == l.applications
            && var b := n.bookings[id];
               && b.tenant == dto.tenant && b.user == dto.creator
               && b.space == dto.space && b.start == dto.start && b.end == dto.end
               && dto.space in l.spaces && OpensWith(l, who, dto, b.status)
               && |b.addOns| == |dto.addons|
               && (forall k :: 0 <= k < |dto.addons| ==> ResolvedAs(l, months, dto.addons[k], b.addOns[k]))
               && b.totalPrice == dto.price && b.totalAmount == dto.price + Cost(b.addOns)
               && (b.status != Confirmed ==> b.invoice.None? && n.invoices == l.invoices)
               && (b.status == Confirmed ==>
                     && b.invoice == Some(|l.invoices|) && |n.invoices| == |l.invoices| + 1
                     && n.invoices[|l.invoices|].total == b.totalAmount
                     && n.invoices[|l.invoices|].tenant == dto.tenant)
  {
    CreationMonths(dto.start, dto.end);
    ResolvedIffAllOffered(l, dto.space, months, dto.addons);
    SumIsCost(ResolvedAddons(l, dto.space, months, dto.addons).value);
    var n := Creating(l, who, dto).0;
    assert n.bookings - {l.nextBooking} == l.bookings;
  }

  // ----- Rescheduling and cancelling ----------------------------------------------------------

  /** New times are taken exactly when the caller sees the booking and, if both ends are given, no other
      standing booking of the space shares an instant with them. An end that is not given stays. */
  lemma RescheduleDoneIff(l: Ledger, who: Caller, id: nat, start: Option<int>, end: Option<int>)
    ensures var (n, reply) := Apply(l, Reschedule(who, id, start, end));
            && (reply.Done? <==>
                  && who.sees && id in l.bookings
                  && (start.Some? && end.Some? ==>
                        RoomFor(l, l.bookings[id].space, start.value, end.value, Some(id))))
            && (!reply.Done? ==> n == l)
            && (reply.Done? ==>
                  && id in n.bookings && n.bookings == l.bookings[id := n.bookings[id]]
                  && n.bookings[id] == l.bookings[id].(start := n.bookings[id].start, end := n.bookings[id].end)
                  && n.bookings[id].start == (if start.Some? then start.value else l.bookings[id].start)
                  && n.bookings[id].end == (if end.Some? then end.value else l.bookings[id].end))
  {
    if who.sees && id in l.bookings && start.Some? && end.Some? {
      RoomIffNoClash(l, l.bookings[id].space, start.value, end.value, Some(id));
    }
  }

  lemma CancelEffect(l: Ledger, who: Caller, id: nat)
    requires who.sees && id in l.bookings && l.bookings[id].status != Cancelled
    ensures Apply(l, Cancel(who, id)) == (l.(bookings := l.bookings[id := l.bookings[id].(status := Cancelled)]), Done)
  {
  }

  /** A slot given back can be booked: if a creation was refused for a conflict and the only booking in its
      way is then cancelled, the same creation is accepted, unless a service it asks for is not on offer. */
  lemma CancellingMakesRoom(l: Ledger, who: Caller, id: nat, booker: Caller, dto: NewBooking)
    requires who.sees && id in l.bookings && l.bookings[id].status != Cancelled
    requires Apply(l, Create(booker, dto)).1 == Rejected(Conflict)
    requires RoomFor(l, dto.space, dto.start, dto.end, Some(id))
    ensures var n := Apply(l, Cancel(who, id)).0;
            Apply(n, Create(booker, dto)).1.Done? <==> AllOnOffer(l, dto.space, dto.addons)
  {
    var n := Apply(l, Cancel(who, id)).0;
    CancelEffect(l, who, id);
    CreateDoneIff(l, booker, dto);
    CreateDoneIff(n, booker, dto);
    forall i | i in n.bookings && n.bookings[i].space == dto.space && Standing(n.bookings[i])
      ensures n.bookings[i].end < dto.start || dto.end < n.bookings[i].start
    {
      assert i != id && n.bookings[i] == l.bookings[i];
    }
    assert forall s :: OnOffer(n, dto.space, s) <==> OnOffer(l, dto.space, s);
  }

  /** The same in a run: refused, cancelled, asked for again. */
  lemma CancelledSlotIsBooked(states: seq<Ledger>, ops: seq<Op>, i: nat)
    requires Execution(states, ops) && i + 2 < |ops|
    requires ops[i].Create? && ops[i + 2] == ops[i] && ops[i + 1].Cancel?
    requires Apply(states[i], ops[i]).1 == Rejected(Conflict) && Apply(states[i + 1], ops[i + 1]).1.Done?
    requires var dto := ops[i].dto; RoomFor(states[i], dto.space, dto.start, dto.end, Some(ops[i + 1].id))
    ensures states[i + 1] == states[i]
    ensures Apply(states[i + 2], ops[i + 2]).1.Done? <==> AllOnOffer(states[i], ops[i].dto.space, ops[i].dto.addons)
  {
    assert StepAt(states, ops, i) && StepAt(states, ops, i + 1);
    CreateDoneIff(states[i], ops[i].who, ops[i].dto);
    CancelByRule(states[i], ops[i + 1]);
    CancellingMakesRoom(states[i], ops[i + 1].who, ops[i + 1].id, ops[i].who, ops[i].dto);
  }

  // ----- Marketplace inquiries ----------------------------------------------------------------

  /** An inquiry is booked exactly when it is signed, new, names a known space, finds a user and a proper
      interval, and meets no booking of the space that is neither cancelled nor a no-show. */
  lemma InquireDoneIff(l: Ledger, op: Op)
    requires op.Inquire?
    ensures var known := exists i :: i in l.bookings && l.bookings[i].inquiry == Some(op.inquiry);
            && (Apply(l, op).1.Duplicate? <==> op.signed && known)
            && (Apply(l, op).1.Done? <==>
                  && op.signed && !known && op.place.Some? && op.place.value in l.spaces
                  && op.actor.Some? && op.start < op.end
                  && forall i :: i in l.bookings && l.bookings[i].space == op.place.value
                                 && l.bookings[i].status !in {Cancelled, NoShow} ==>
                                   l.bookings[i].end <= op.start || op.end <= l.bookings[i].start)
            && (!Apply(l, op).1.Done? ==> Apply(l, op).0 == l)
  {
    if op.place.Some? {
      assert InquiryClashes(l, op.place.value, op.start, op.end) <==>
             exists i :: i in l.bookings && l.bookings[i].space == op.place.value
                         && l.bookings[i].status !in {Cancelled, NoShow}
                         && HalfOpenOverlap(l.bookings[i], op.start, op.end);
    }
  }

  /** The booking it opens waits for approval, costs nothing yet and carries the inquiry. */
  lemma InquiredRow(l: Ledger, op: Op)
    requires op.Inquire? && IdsBelowNext(l) && Apply(l, op).1.Done?
    ensures var n, id := Apply(l, op).0, l.nextBooking;
            && id in n.bookings && n.bookings - {id} == l.bookings && n.invoices == l.invoices
            && op.place.Some? && op.actor.Some? && op.place.value in l.spaces
            && var b := n.bookings[id];
               && b.tenant == l.spaces[op.place.value].owner && b.user == op.actor.value
               && b.space == op.place.value && b.start == op.start && b.end == op.end
               && b.status == PendingApproval && b.inquiry == Some(op.inquiry)
               && b.totalPrice == 0 && b.totalAmount == 0 && b.addOns == [] && b.invoice.None?
  {
    var n := Apply(l, op).0;
    assert n == Inquiring(l, op.signed, op.inquiry, op.place, op.actor, op.start, op.end).0;
    assert n.bookings - {l.nextBooking} == l.bookings;
  }

  // ----- Acceptance ---------------------------------------------------------------------------

  /** An application is accepted exactly when a manager who may see it finds it pending, its space known
      and its applicant settled. */
  lemma AcceptDoneIff(l: Ledger, who: Caller, app: nat, receptionist: Option<nat>)
    ensures var (n, reply) := Apply(l, AcceptApplication(who, app, receptionist));
            && (reply.Done? <==>
                  && who.role in {SuperAdmin, ClientAdmin, Manager} && app in l.applications
                  && var a := l.applications[app];
                     && (who.role == SuperAdmin || who.sees
                         || (a.space in l.spaces && l.spaces[a.space].owner == who.tenant))
                     && a.pending && a.space in l.spaces && a.applicant.Some?)
            && (!reply.Done? ==> n == l)
  {
  }

  /** The lease runs the same number of calendar months: from the start's month to its end's, keeping the
      time passed since the month began. */
  predicate LeaseEnds(start: int, months: nat, end: int) {
    end - MonthBegin(MonthOf(start) + months) == start - MonthBegin(MonthOf(start))
  }

  predicate SameAddon(a: Addon, b: Addon) {
    a.service == b.service && a.quantity == b.quantity && a.unitPrice == b.unitPrice
  }

  /** The booking an acceptance opens: the applicant's, for the application's space, start and length, in
      the phone queue of the receptionist chosen, quoted the monthly rate times the months plus what the
      application's add-ons cost. */
  predicate OpenedFor(l: Ledger, a: Application, b: Booking, receptionist: Option<nat>)
    requires a.space in l.spaces && a.applicant.Some?
  {
    var rent := l.spaces[a.space].monthlyRate * a.months;
    && (b.tenant, b.user) == a.applicant.value && b.space == a.space
    && b.start == a.start && LeaseEnds(a.start, a.months, b.end)
    && b.status == PendingPhone && b.receptionist == receptionist && b.inquiry.None? && b.documents == []
    && b.totalPrice == rent && b.totalAmount == rent + Cost(a.addons)
    && |b.addOns| == |a.addons| && forall k :: 0 <= k < |a.addons| ==> SameAddon(b.addOns[k], a.addons[k])
  }

  lemma AcceptedBooking(l: Ledger, app: nat, receptionist: Option<nat>)
    requires app in l.applications && l.applications[app].space in l.spaces && l.applications[app].applicant.Some?
    requires IdsBelowNext(l)
    ensures var n := Accepted(l, app, receptionist);
            && l.nextBooking in n.bookings && n.bookings - {l.nextBooking} == l.bookings
            && OpenedFor(l, l.applications[app], n.bookings[l.nextBooking], receptionist)
  {
    SumIsCost(l.applications[app].addons);
    assert Accepted(l, app, receptionist).bookings - {l.nextBooking} == l.bookings;
  }

  lemma AcceptedInvoice(l: Ledger, app: nat, receptionist: Option<nat>)
    requires app in l.applications && l.applications[app].space in l.spaces && l.applications[app].applicant.Some?
    ensures var n := Accepted(l, app, receptionist);
            var a := l.applications[app];
            && |n.invoices| == |l.invoices| + 1 && n.invoices[..|l.invoices|] == l.invoices
            && n.bookings[l.nextBooking].invoice == Some(|l.invoices|)
            && var i := n.invoices[|l.invoices|];
               && i.booking == Some(l.nextBooking) && i.tenant == a.applicant.value.0
               && i.total == l.spaces[a.space].monthlyRate * a.months + Cost(a.addons)
  {
    SumIsCost(l.applications[app].addons);
    Quotes.CopiesCostTheSame(l.applications[app].addons, l.nextAddon);
  }

  /** What an acceptance leaves behind: the booking above; an invoice for the same amount to its tenant; the
      application closed on that booking; the space reserved; everything else as it was. */
  lemma AcceptedRow(l: Ledger, who: Caller, app: nat, receptionist: Option<nat>)
    requires IdsBelowNext(l) && Apply(l, AcceptApplication(who, app, receptionist)).1.Done?
    ensures var n, id := Apply(l, AcceptApplication(who, app, receptionist)).0, l.nextBooking;
            && app in l.applications && l.applications[app].space in l.spaces && l.applications[app].applicant.Some?
            && id !in l.bookings && id in n.bookings && n.bookings - {id} == l.bookings
            && var a, b := l.applications[app], n.bookings[id];
               && OpenedFor(l, a, b, receptionist)
               && b.invoice == Some(|l.invoices|) && |n.invoices| == |l.invoices| + 1
               && n.invoices[|l.invoices|].total == b.totalAmount
               && n.invoices[|l.invoices|].tenant == b.tenant && n.invoices[|l.invoices|].booking == Some(id)
               && app in n.applications && n.applications == l.applications[app := n.applications[app]]
               && !n.applications[app].pending && n.applications[app].booking == Some(id)
               && n.spaces == l.spaces[a.space := l.spaces[a.space].(status := Reserved)]
  {
    assert Apply(l, AcceptApplication(who, app, receptionist)).0 == Accepted(l, app, receptionist);
    AcceptedBooking(l, app, receptionist);
    AcceptedInvoice(l, app, receptionist);
    AcceptedRest(l, app, receptionist);
  }

  lemma AcceptedRest(l: Ledger, app: nat, receptionist: Option<nat>)
    requires app in l.applications && l.applications[app].space in l.spaces && l.applications[app].applicant.Some?
    ensures var n, a := Accepted(l, app, receptionist), l.applications[app];
            && app in n.applications && n.applications == l.applications[app := n.applications[app]]
            && !n.applications[app].pending && n.applications[app].booking == Some(l.nextBooking)
            && n.spaces == l.spaces[a.space := l.spaces[a.space].(status := Reserved)]
  {
  }

  // ----- The lifecycle ------------------------------------------------------------------------

  /** Who may make a move, from which statuses, and to which one. */
  datatype Rule = Rule(roles: set<Role>, sources: set<Status>, target: Status)

  const MANAGERS: set<Role> := {SuperAdmin, ClientAdmin, Manager}

  const STAFF: set<Role> := {SuperAdmin, ClientAdmin, Manager, Receptionist}

  const ANYBODY: set<Role> :=
    {SuperAdmin, ClientAdmin, Manager, Finance, Role.Maintenance, Receptionist, TenantAdmin, TenantEmployee}

  const NOT_CANCELLED: set<Status> :=
    {Draft, PendingApproval, PendingPhone, AwaitingVisit, DocumentsPending, Active, Confirmed, CheckedIn, Completed,
     Refused, NoShow}

  function RuleOf(op: Op): Rule
    requires IsMove(op)
  {
    match op
    case Approve(_, _) => Rule(MANAGERS, {PendingApproval, Confirmed}, Confirmed)
    case Reject(_, _) => Rule(MANAGERS, {PendingApproval}, Cancelled)
    case Cancel(_, _) => Rule(ANYBODY, NOT_CANCELLED, Cancelled)
    case CheckIn(_, _) => Rule(ANYBODY, {Confirmed}, CheckedIn)
    case CheckOut(_, _) => Rule(ANYBODY, {CheckedIn}, Completed)
    case ConfirmPhone(_, _) => Rule(STAFF, {PendingPhone}, AwaitingVisit)
    case MarkUnreachable(_, _) => Rule(STAFF, {PendingPhone}, Refused)
    case MarkDocumentsPending(_, _) => Rule(STAFF, {AwaitingVisit}, DocumentsPending)
    case Finalize(_, _) => Rule(MANAGERS, {DocumentsPending}, Active)
  }

  /** The two conditions beyond status and role: a receptionist calls only unassigned bookings and its own,
      and a lease is finalised only with a contract on file. */
  predicate ExtraGuard(op: Op, b: Booking) {
    && (op.ConfirmPhone? && op.who.role == Receptionist ==> b.receptionist.None? || b.receptionist == Some(op.who.id))
    && (op.Finalize? ==> exists k :: 0 <= k < |b.documents| && b.documents[k] in {SignedLeaseContract, Contract})
  }

  predicate Follows(l: Ledger, op: Op)
    requires IsMove(op)
  {
    && op.who.role in RuleOf(op).roles && op.who.sees && op.id in l.bookings
    && l.bookings[op.id].status in RuleOf(op).sources && ExtraGuard(op, l.bookings[op.id])
  }

  /** Who is turned away: the wrong role, a caller the policy keeps from the booking, and a receptionist on
      a colleague's call. */
  predicate TurnedAway(l: Ledger, op: Op)
    requires IsMove(op)
  {
    || op.who.role !in RuleOf(op).roles || !op.who.sees
    || (op.ConfirmPhone? && op.id in l.bookings && l.bookings[op.id].status == PendingPhone
        && !ExtraGuard(op, l.bookings[op.id]))
  }

  predicate ByRule(l: Ledger, op: Op, n: Ledger, reply: Reply)
    requires IsMove(op)
  {
    && (reply.Done? <==> Follows(l, op))
    && (reply == Rejected(Forbidden) <==> TurnedAway(l, op))
    && (reply == Rejected(NotFound) <==> !TurnedAway(l, op) && op.id !in l.bookings)
    && (!reply.Done? ==> n == l)
    && (reply.Done? ==>
          && op.id in n.bookings && n.bookings == l.bookings[op.id := n.bookings[op.id]]
          && n.bookings[op.id].status == RuleOf(op).target)
  }

  /** Every move goes through exactly by its rule; then its booking has the target status and no other
      booking changes, and otherwise nothing changes at all. Callers who may not make it learn just that,
      others learn that the booking is missing. */
  lemma MoveDoneIff(l: Ledger, op: Op)
    requires IsMove(op)
    ensures ByRule(l, op, Apply(l, op).0, Apply(l, op).1)
  {
    match op
    case Approve(who, id) => ApproveByRule(l, op);
    case Reject(_, _) => RejectByRule(l, op);
    case Cancel(_, _) => CancelByRule(l, op);
    case CheckIn(_, _) => StayByRule(l, op);
    case CheckOut(_, _) => StayByRule(l, op);
    case ConfirmPhone(_, _) => PhoneByRule(l, op);
    case MarkUnreachable(_, _) => PhoneByRule(l, op);
    case MarkDocumentsPending(_, _) => DocumentsByRule(l, op);
    case Finalize(_, _) => FinalizeByRule(l, op);
  }

  lemma ApproveByRule(l: Ledger, op: Op)
    requires op.Approve?
    ensures var (n, reply) := Approving(l, op.who, op.id); ByRule(l, op, n, reply)
  {
  }

  lemma RejectByRule(l: Ledger, op: Op)
    requires op.Reject?
    ensures var (n, reply) := Rejecting(l, op.who, op.id); ByRule(l, op, n, reply)
  {
  }

  lemma Anybody(r: Role)
    ensures r in ANYBODY
  {
    match r
    case SuperAdmin =>
    case ClientAdmin =>
    case Manager =>
    case Finance =>
    case Maintenance =>
    case Receptionist =>
    case TenantAdmin =>
    case TenantEmployee =>
  }

  lemma CancelByRule(l: Ledger, op: Op)
    requires op.Cancel?
    ensures var (n, reply) := Cancelling(l, op.who, op.id); ByRule(l, op, n, reply)
  {
    Anybody(op.who.role);
  }

  lemma StayByRule(l: Ledger, op: Op)
    requires op.CheckIn? || op.CheckOut?
    ensures var (n, reply) := Apply(l, op); ByRule(l, op, n, reply)
  {
    Anybody(op.who.role);
  }

  lemma PhoneByRule(l: Ledger, op: Op)
    requires op.ConfirmPhone? || op.MarkUnreachable?
    ensures op.ConfirmPhone? ==> var (n, reply) := ConfirmingPhone(l, op.who, op.id); ByRule(l, op, n, reply)
    ensures op.MarkUnreachable? ==> var (n, reply) := RefusingUnreachable(l, op.who, op.id); ByRule(l, op, n, reply)
  {
  }

  lemma DocumentsByRule(l: Ledger, op: Op)
    requires op.MarkDocumentsPending?
    ensures var (n, reply) := Apply(l, op); ByRule(l, op, n, reply)
  {
  }

  lemma FinalizeByRule(l: Ledger, op: Op)
    requires op.Finalize?
    ensures var (n, reply) := Finalizing(l, op.who, op.id); ByRule(l, op, n, reply)
  {
    if op.id in l.bookings {
      var docs := l.bookings[op.id].documents;
      assert HasContract(l.bookings[op.id]) <==>
             exists k :: 0 <= k < |docs| && docs[k] in {SignedLeaseContract, Contract};
    }
  }

  predicate SpaceBecomes(l: Ledger, n: Ledger, id: nat, status: SpaceStatus, hidden: bool)
    requires id in l.bookings
  {
    var s := l.bookings[id].space;
    && n.spaces.Keys == l.spaces.Keys
    && (forall t :: t in l.spaces && t != s ==> n.spaces[t] == l.spaces[t])
    && (s in l.spaces ==>
          n.spaces[s] == l.spaces[s].(status := status, published := l.spaces[s].published && !hidden))
  }

  lemma UnreachableSpace(l: Ledger, who: Caller, id: nat)
    requires RefusingUnreachable(l, who, id).1.Done?
    ensures id in l.bookings && SpaceBecomes(l, RefusingUnreachable(l, who, id).0, id, Available, false)
  {
  }

  lemma FinalizedSpace(l: Ledger, who: Caller, id: nat)
    requires Finalizing(l, who, id).1.Done?
    ensures id in l.bookings && SpaceBecomes(l, Finalizing(l, who, id).0, id, Reserved, true)
  {
  }

  lemma OtherMovesKeepSpaces(l: Ledger, op: Op)
    requires IsMove(op) && !op.MarkUnreachable? && !op.Finalize?
    ensures Apply(l, op).0.spaces == l.spaces
  {
  }

  /** A failed call gives the space back, a finalised lease takes it off the market, and no other move
      touches a space. */
  lemma MovesAndSpaces(l: Ledger, op: Op)
    requires IsMove(op) && Apply(l, op).1.Done?
    ensures op.MarkUnreachable? ==> op.id in l.bookings && SpaceBecomes(l, Apply(l, op).0, op.id, Available, false)
    ensures op.Finalize? ==> op.id in l.bookings && SpaceBecomes(l, Apply(l, op).0, op.id, Reserved, true)
    ensures !op.MarkUnreachable? && !op.Finalize? ==> Apply(l, op).0.spaces == l.spaces
  {
    match op
    case MarkUnreachable(who, id) => UnreachableSpace(l, who, id);
    case Finalize(who, id) => FinalizedSpace(l, who, id);
    case _ => OtherMovesKeepSpaces(l, op);
  }

  /** An approval leaves the booking with an invoice: the one it had, or a new one for its price and
      add-ons. No other move touches invoices. */
  lemma MovesAndInvoices(l: Ledger, op: Op)
    requires IsMove(op) && Apply(l, op).1.Done?
    ensures op.id in l.bookings && op.id in Apply(l, op).0.bookings
    ensures var n, b := Apply(l, op).0, l.bookings[op.id];
            if op.Approve? && b.status == PendingApproval && b.invoice.None?
            then
              && n.bookings[op.id].invoice == Some(|l.invoices|) && |n.invoices| == |l.invoices| + 1
              && n.invoices[..|l.invoices|] == l.invoices
              && n.invoices[|l.invoices|].total == b.totalPrice + Cost(b.addOns)
              && n.invoices[|l.invoices|].tenant == b.tenant
            else n.invoices == l.invoices && n.bookings[op.id].invoice == b.invoice
  {
    MoveDoneIff(l, op);
    SumIsCost(l.bookings[op.id].addOns);
  }

  // ----- Documents, add-ons and deletion ------------------------------------------------------

  /** A document is filed exactly while there are fewer than five, and comes last. */
  lemma AddDocumentDoneIff(l: Ledger, who: Caller, id: nat, kind: DocumentType)
    ensures var (n, reply) := Apply(l, AddDocument(who, id, kind));
            && (reply.Done? <==> who.role in STAFF && who.sees && id in l.bookings && |l.bookings[id].documents| < 5)
            && (!reply.Done? ==> n == l)
            && (reply.Done? ==>
                  var b := l.bookings[id];
                  n == l.(bookings := l.bookings[id := b.(documents := b.documents + [kind])]))
  {
  }

  /** One document is taken out of the file, those before and behind it stay. */
  lemma RemoveDocumentDoneIff(l: Ledger, who: Caller, id: nat, index: nat)
    ensures var (n, reply) := Apply(l, RemoveDocument(who, id, index));
            && (reply.Done? <==>
                  who.role in STAFF && who.sees && id in l.bookings && index < |l.bookings[id].documents|)
            && (!reply.Done? ==> n == l)
            && (reply.Done? ==>
                  && id in n.bookings && n == l.(bookings := l.bookings[id := n.bookings[id]])
                  && n.bookings[id] == l.bookings[id].(documents := n.bookings[id].documents)
                  && var (file, left) := (l.bookings[id].documents, n.bookings[id].documents);
                     && |left| == |file| - 1
                     && (forall k :: 0 <= k < index ==> left[k] == file[k])
                     && (forall k :: index <= k < |left| ==> left[k] == file[k + 1]))
  {
  }

  predicate FilesFit(l: Ledger) {
    forall i :: i in l.bookings ==> |l.bookings[i].documents| <= 5
  }

  lemma StepKeepsFilesFit(l: Ledger, op: Op)
    requires IdsBelowNext(l) && FilesFit(l)
    ensures FilesFit(Apply(l, op).0)
  {
    if IsMove(op) {
      MoveKeepsFiles(l, op);
    } else if op.Create? {
      CreatedFile(l, op.who, op.dto);
    } else if op.AcceptApplication? {
      AcceptedFile(l, op.who, op.app, op.receptionist);
    } else if op.Inquire? {
      InquiredFile(l, op);
    } else {
      EditKeepsFiles(l, op);
    }
  }

  lemma MoveKeepsFiles(l: Ledger, op: Op)
    requires IsMove(op)
    ensures var n := Apply(l, op).0;
            forall i :: i in n.bookings ==> i in l.bookings && n.bookings[i].documents == l.bookings[i].documents
  {
    MoveShape(l, op);
    MovedFiles(l, op.id, Apply(l, op).0);
  }

  lemma MovedFiles(l: Ledger, id: nat, n: Ledger)
    requires Moved(l, id, n)
    ensures forall i :: i in n.bookings ==> i in l.bookings && n.bookings[i].documents == l.bookings[i].documents
  {
  }

  predicate OneEmptyFileMore(l: Ledger, n: Ledger) {
    forall i :: i in n.bookings ==>
                  (i in l.bookings && n.bookings[i] == l.bookings[i]) || n.bookings[i].documents == []
  }

  lemma CreatedFile(l: Ledger, who: Caller, dto: NewBooking)
    ensures OneEmptyFileMore(l, Creating(l, who, dto).0)
  {
  }

  lemma InquiredFile(l: Ledger, op: Op)
    requires op.Inquire?
    ensures OneEmptyFileMore(l, Inquiring(l, op.signed, op.inquiry, op.place, op.actor, op.start, op.end).0)
  {
  }

  lemma AcceptedFile(l: Ledger, who: Caller, app: nat, r: Option<nat>)
    ensures OneEmptyFileMore(l, Accepting(l, who, app, r).0)
  {
  }

  lemma EditKeepsFiles(l: Ledger, op: Op)
    requires !IsMove(op) && !IsOpening(op) && FilesFit(l)
    ensures FilesFit(Apply(l, op).0)
  {
    match op
    case Reschedule(who, id, s, e) => RescheduleDoneIff(l, who, id, s, e);
    case AddDocument(who, id, kind) => AddDocumentDoneIff(l, who, id, kind);
    case RemoveDocument(who, id, index) => RemoveDocumentDoneIff(l, who, id, index);
    case AddAddon(who, id, service, q, p) => AddAddonDoneIff(l, who, id, service, q, p);
    case RemoveAddon(who, id, addon) => RemovingAddonFiles(l, who, id, addon);
    case Remove(who, id) => RemoveDoneIff(l, who, id);
    case RecordInvoice(_, _, _, _) =>
  }

  lemma RemovingAddonFiles(l: Ledger, who: Caller, id: nat, addon: nat)
    requires FilesFit(l)
    ensures FilesFit(RemovingAddon(l, who, id, addon).0)
  {
  }

  /** Over every run no booking ever has more than five documents on file. */
  lemma {:induction false} FilesFitInRuns(states: seq<Ledger>, ops: seq<Op>, m: nat)
    requires Execution(states, ops) && m < |states|
    requires IdsBelowNext(states[0]) && FilesFit(states[0])
    ensures FilesFit(states[m])
  {
    if m > 0 {
      FilesFitInRuns(states, ops, m - 1);
      RunKeepsIds(states, ops, m - 1);
      RunStepKeepsFilesFit(states, ops, m - 1);
    }
  }

  lemma RunStepKeepsFilesFit(states: seq<Ledger>, ops: seq<Op>, i: nat)
    requires Execution(states, ops) && i < |ops|
    requires IdsBelowNext(states[i]) && FilesFit(states[i])
    ensures FilesFit(states[i + 1])
  {
    assert StepAt(states, ops, i);
    StepKeepsFilesFit(states[i], ops[i]);
  }

  /** An add-on of a known service is appended at the price given; the quote stays as it was. */
  lemma AddAddonDoneIff(l: Ledger, who: Caller, id: nat, service: nat, quantity: int, unitPrice: int)
    ensures var (n, reply) := Apply(l, AddAddon(who, id, service, quantity, unitPrice));
            && (reply.Done? <==> who.sees && id in l.bookings && service in l.services)
            && (!reply.Done? ==> n == l)
            && (reply.Done? ==>
                  && id in n.bookings && n.bookings == l.bookings[id := n.bookings[id]] && n.invoices == l.invoices
                  && n.bookings[id] == l.bookings[id].(addOns := n.bookings[id].addOns)
                  && n.bookings[id].addOns ==
                       l.bookings[id].addOns + [Addon(l.nextAddon, service, quantity, unitPrice)])
  {
  }

  predicate HasAddon(l: Ledger, i: nat, addon: nat)
    requires i in l.bookings
  {
    exists k :: 0 <= k < |l.bookings[i].addOns| && l.bookings[i].addOns[k].id == addon
  }

  lemma {:induction false} WithoutKeepsOthers(addons: seq<Addon>, addon: nat, a: Addon)
    ensures multiset(WithoutAddon(addons, addon))[a] == if a.id == addon then 0 else multiset(addons)[a]
    decreases |addons|
  {
    if addons != [] {
      var m := |addons| - 1;
      WithoutKeepsOthers(addons[..m], addon, a);
      assert addons == addons[..m] + [addons[m]];
    }
  }

  ghost predicate LosesOnly(a: Booking, b: Booking, addon: nat) {
    && b == a.(addOns := b.addOns)
    && forall x :: multiset(b.addOns)[x] == if x.id == addon then 0 else multiset(a.addOns)[x]
  }

  lemma LosesTheAddon(a: Booking, addon: nat)
    ensures LosesOnly(a, a.(addOns := WithoutAddon(a.addOns, addon)), addon)
  {
    forall x
      ensures multiset(WithoutAddon(a.addOns, addon))[x] == if x.id == addon then 0 else multiset(a.addOns)[x]
    {
      WithoutKeepsOthers(a.addOns, addon, x);
    }
  }

  ghost predicate AddonGone(l: Ledger, n: Ledger, addon: nat) {
    && n == l.(bookings := n.bookings) && n.bookings.Keys == l.bookings.Keys
    && forall i :: i in l.bookings ==> LosesOnly(l.bookings[i], n.bookings[i], addon)
  }

  lemma AllLoseTheAddon(l: Ledger, addon: nat)
    ensures var left := map i | i in l.bookings :: l.bookings[i].(addOns := WithoutAddon(l.bookings[i].addOns, addon));
            AddonGone(l, l.(bookings := left), addon)
  {
    forall i | i in l.bookings
      ensures LosesOnly(l.bookings[i], l.bookings[i].(addOns := WithoutAddon(l.bookings[i].addOns, addon)), addon)
    {
      LosesTheAddon(l.bookings[i], addon);
    }
  }

  ghost predicate Somewhere(l: Ledger, addon: nat) {
    exists i :: i in l.bookings && HasAddon(l, i, addon)
  }

  lemma SomewhereIff(l: Ledger, addon: nat)
    ensures Somewhere(l, addon) <==>
              !(forall i, k :: i in l.bookings && 0 <= k < |l.bookings[i].addOns| ==>
                                 l.bookings[i].addOns[k].id != addon)
  {
    if i :| i in l.bookings && HasAddon(l, i, addon) {
      var k :| 0 <= k < |l.bookings[i].addOns| && l.bookings[i].addOns[k].id == addon;
    }
  }

  lemma RemovalLeaves(l: Ledger, who: Caller, id: nat, addon: nat)
    requires who.sees && id in l.bookings && Somewhere(l, addon)
    ensures RemovingAddon(l, who, id, addon).1.Done?
    ensures AddonGone(l, RemovingAddon(l, who, id, addon).0, addon)
  {
    SomewhereIff(l, addon);
    AllLoseTheAddon(l, addon);
  }

  lemma RemovalRefused(l: Ledger, who: Caller, id: nat, addon: nat)
    requires !(who.sees && id in l.bookings && Somewhere(l, addon))
    ensures !RemovingAddon(l, who, id, addon).1.Done? && RemovingAddon(l, who, id, addon).0 == l
  {
    SomewhereIff(l, addon);
  }

  /** An add-on is removed exactly if some booking has it; then it is gone everywhere, and every other
      add-on of every booking is still there. */
  lemma RemoveAddonDoneIff(l: Ledger, who: Caller, id: nat, addon: nat)
    ensures var (n, reply) := RemovingAddon(l, who, id, addon);
            if who.sees && id in l.bookings && Somewhere(l, addon)
            then reply.Done? && AddonGone(l, n, addon)
            else !reply.Done? && n == l
  {
    if who.sees && id in l.bookings && Somewhere(l, addon) {
      RemovalLeaves(l, who, id, addon);
    } else {
      RemovalRefused(l, who, id, addon);
    }
  }

  /** A deletion takes away the booking and nothing else. */
  lemma RemoveDoneIff(l: Ledger, who: Caller, id: nat)
    ensures var (n, reply) := Apply(l, Remove(who, id));
            && (reply.Done? <==> who.sees && id in l.bookings)
            && n == (if reply.Done? then l.(bookings := l.bookings - {id}) else l)
  {
  }

  /** An invoice recorded by hand is appended as it was given, for no booking. */
  lemma RecordedInvoice(l: Ledger, tenant: nat, lines: seq<Line>, subtotal: int, total: int)
    ensures var (n, reply) := Apply(l, RecordInvoice(tenant, lines, subtotal, total));
            && reply.Done? && n == l.(invoices := n.invoices)
            && |n.invoices| == |l.invoices| + 1 && n.invoices[..|l.invoices|] == l.invoices
            && var i := n.invoices[|l.invoices|];
               i.tenant == tenant && i.lines == lines && i.subtotal == subtotal && i.total == total && i.booking.None?
  {
  }

  // ----- Add-on numbers -----------------------------------------------------------------------

  predicate DistinctIds(addons: seq<Addon>) {
    forall h, k :: 0 <= h < k < |addons| ==> addons[h].id != addons[k].id
  }

  predicate OwnNumbers(l: Ledger, i: nat)
    requires i in l.bookings
  {
    DistinctIds(l.bookings[i].addOns) && forall a :: a in l.bookings[i].addOns ==> a.id < l.nextAddon
  }

  predicate NoneShared(l: Ledger, i: nat, j: nat)
    requires i in l.bookings && j in l.bookings
  {
    forall a, b :: a in l.bookings[i].addOns && b in l.bookings[j].addOns ==> a.id != b.id
  }

  /** Every add-on row of the ledger has a number of its own, below the next one to be given out. */
  predicate AddonsNumbered(l: Ledger) {
    && (forall i :: i in l.bookings ==> OwnNumbers(l, i))
    && (forall i, j :: i in l.bookings && j in l.bookings && i != j ==> NoneShared(l, i, j))
  }

  /** The rows of `after` are rows of `before`, or were numbered from `next` on. */
  predicate Renumbered(before: seq<Addon>, after: seq<Addon>, next: nat, end: nat) {
    && (DistinctIds(before) && (forall a :: a in before ==> a.id < next) ==> DistinctIds(after))
    && (forall a :: a in after ==> a in before || next <= a.id < end)
  }

  function RowsOf(l: Ledger, i: nat): seq<Addon> {
    if i in l.bookings then l.bookings[i].addOns else []
  }

  /** A call that numbers new rows in at most one booking. */
  predicate Numbers(l: Ledger, n: Ledger, id: nat) {
    && l.nextAddon <= n.nextAddon
    && (forall i :: i in n.bookings && i != id ==> Renumbered(RowsOf(l, i), RowsOf(n, i), l.nextAddon, l.nextAddon))
    && Renumbered(RowsOf(l, id), RowsOf(n, id), l.nextAddon, n.nextAddon)
  }

  lemma NumberingKeepsNumbered(l: Ledger, n: Ledger, id: nat)
    requires AddonsNumbered(l) && Numbers(l, n, id)
    ensures AddonsNumbered(n)
  {
    forall i | i in n.bookings
      ensures OwnNumbers(n, i)
    {
      assert i in l.bookings ==> OwnNumbers(l, i);
    }
    forall i, j | i in n.bookings && j in n.bookings && i != j
      ensures NoneShared(n, i, j)
    {
      assert i in l.bookings ==> OwnNumbers(l, i);
      assert j in l.bookings ==> OwnNumbers(l, j);
      assert i in l.bookings && j in l.bookings ==> NoneShared(l, i, j);
    }
  }

  lemma SameRowsNumbered(rows: seq<Addon>, next: nat)
    ensures Renumbered(rows, rows, next, next)
  {
  }

  /** Rows numbered one after another. */
  predicate NumberedFrom(rows: seq<Addon>, next: nat) {
    forall k :: 0 <= k < |rows| ==> rows[k].id == next + k
  }

  lemma OpeningNumbers(l: Ledger, n: Ledger)
    requires IdsBelowNext(l) && l.nextBooking in n.bookings && n.bookings - {l.nextBooking} == l.bookings
    requires NumberedFrom(n.bookings[l.nextBooking].addOns, l.nextAddon)
    requires n.nextAddon == l.nextAddon + |n.bookings[l.nextBooking].addOns|
    ensures Numbers(l, n, l.nextBooking)
  {
    forall i | i in n.bookings && i != l.nextBooking
      ensures i in l.bookings && n.bookings[i] == l.bookings[i]
    {
      assert i in n.bookings - {l.nextBooking};
    }
  }

  lemma CreatedAddons(l: Ledger, who: Caller, dto: NewBooking)
    requires Creating(l, who, dto).1.Done?
    ensures var n := Creating(l, who, dto).0;
            var rows := ResolvedAddons(l, dto.space, DurationMonths(dto.start, dto.end), dto.addons);
            && l.nextBooking in n.bookings && n.nextAddon == l.nextAddon + |dto.addons|
            && rows.Some? && n.bookings[l.nextBooking].addOns == rows.value
  {
  }

  lemma CreatingNumbers(l: Ledger, who: Caller, dto: NewBooking)
    requires IdsBelowNext(l)
    ensures Numbers(l, Creating(l, who, dto).0, l.nextBooking)
  {
    if Creating(l, who, dto).1.Done? {
      CreatedAddons(l, who, dto);
      CreationMonths(dto.start, dto.end);
      ResolvedIffAllOffered(l, dto.space, DurationMonths(dto.start, dto.end), dto.addons);
      CreatedRow(l, who, dto, DurationMonths(dto.start, dto.end));
      OpeningNumbers(l, Creating(l, who, dto).0);
    } else {
      CreateDoneIff(l, who, dto);
    }
  }

  lemma InquiringNumbers(l: Ledger, op: Op)
    requires IdsBelowNext(l) && op.Inquire?
    ensures Numbers(l, Inquiring(l, op.signed, op.inquiry, op.place, op.actor, op.start, op.end).0, l.nextBooking)
  {
  }

  lemma AcceptingNumbers(l: Ledger, who: Caller, app: nat, r: Option<nat>)
    requires IdsBelowNext(l)
    ensures Numbers(l, Accepting(l, who, app, r).0, l.nextBooking)
  {
    if Accepting(l, who, app, r).1.Done? {
      AcceptedBooking(l, app, r);
      OpeningNumbers(l, Accepted(l, app, r));
    }
  }

  lemma AddingNumbers(l: Ledger, op: Op)
    requires op.AddAddon?
    ensures Numbers(l, Apply(l, op).0, op.id)
  {
    AddAddonDoneIff(l, op.who, op.id, op.service, op.quantity, op.unitPrice);
  }

  lemma {:induction false} WithoutNumbers(addons: seq<Addon>, addon: nat, next: nat)
    ensures Renumbered(addons, WithoutAddon(addons, addon), next, next)
    ensures DistinctIds(addons) ==> DistinctIds(WithoutAddon(addons, addon))
    decreases |addons|
  {
    if addons != [] {
      WithoutNumbers(addons[..|addons| - 1], addon, next);
    }
  }

  lemma RemovingNumbers(l: Ledger, who: Caller, id: nat, addon: nat)
    ensures Numbers(l, RemovingAddon(l, who, id, addon).0, id)
  {
    forall i | i in l.bookings
      ensures Renumbered(l.bookings[i].addOns, WithoutAddon(l.bookings[i].addOns, addon), l.nextAddon, l.nextAddon)
    {
      WithoutNumbers(l.bookings[i].addOns, addon, l.nextAddon);
    }
  }

  lemma OthersNumber(l: Ledger, kind: Kind, n: Ledger, id: nat)
    requires Shaped(l, kind, n) && !kind.Opening? && (kind.Edit? ==> !kind.addons) && n.nextAddon == l.nextAddon
    ensures Numbers(l, n, id)
  {
  }

  lemma QuietCallsNumberNothing(l: Ledger, op: Op)
    requires !IsOpening(op) && !op.AddAddon? && !op.RemoveAddon?
    ensures Apply(l, op).0.nextAddon == l.nextAddon
  {
  }

  /** The booking in which a call may number rows. */
  function Numbered(l: Ledger, op: Op): nat {
    if op.AddAddon? || op.RemoveAddon? then op.id else l.nextBooking
  }

  lemma OpeningCallNumbers(l: Ledger, op: Op)
    requires IdsBelowNext(l) && IsOpening(op)
    ensures Numbers(l, Apply(l, op).0, l.nextBooking)
  {
    match op
    case Create(who, dto) => CreatingNumbers(l, who, dto);
    case Inquire(_, _, _, _, _, _) => InquiringNumbers(l, op);
    case AcceptApplication(who, app, r) => AcceptingNumbers(l, who, app, r);
  }

  lemma CallNumbers(l: Ledger, op: Op)
    requires IdsBelowNext(l)
    ensures Numbers(l, Apply(l, op).0, Numbered(l, op))
  {
    if IsOpening(op) {
      OpeningCallNumbers(l, op);
    } else if op.AddAddon? {
      AddingNumbers(l, op);
    } else if op.RemoveAddon? {
      RemovingNumbers(l, op.who, op.id, op.addon);
    } else {
      StepShape(l, op);
      QuietCallsNumberNothing(l, op);
      OthersNumber(l, KindOf(op), Apply(l, op).0, l.nextBooking);
    }
  }

  lemma StepKeepsNumbered(l: Ledger, op: Op)
    requires IdsBelowNext(l) && AddonsNumbered(l)
    ensures AddonsNumbered(Apply(l, op).0)
  {
    CallNumbers(l, op);
    NumberingKeepsNumbered(l, Apply(l, op).0, Numbered(l, op));
  }

  lemma RunStepKeepsNumbered(states: seq<Ledger>, ops: seq<Op>, i: nat)
    requires Execution(states, ops) && i < |ops|
    requires IdsBelowNext(states[i]) && AddonsNumbered(states[i])
    ensures AddonsNumbered(states[i + 1])
  {
    assert StepAt(states, ops, i);
    StepKeepsNumbered(states[i], ops[i]);
  }

  /** Over every run no two add-on rows share a number, so the number in a removal names one row. */
  lemma {:induction false} AddonsNumberedInRuns(states: seq<Ledger>, ops: seq<Op>, m: nat)
    requires Execution(states, ops) && m < |states|
    requires IdsBelowNext(states[0]) && AddonsNumbered(states[0])
    ensures AddonsNumbered(states[m])
  {
    if m > 0 {
      AddonsNumberedInRuns(states, ops, m - 1);
      RunKeepsIds(states, ops, m - 1);
      RunStepKeepsNumbered(states, ops, m - 1);
    }
  }
}
