/** Properties of every run of the booking ledger. */
module BookingLaws {
  import opened Options
  import opened BookingLedger
  import opened Traces
  import Calendar

  // ----- What a call can change ---------------------------------------------------------------

  /** The dedicated lifecycle steps. */
  predicate IsMove(op: Op) {
    || op.Approve? || op.Reject? || op.Cancel? || op.CheckIn? || op.CheckOut? || op.ConfirmPhone?
    || op.MarkUnreachable? || op.MarkDocumentsPending? || op.Finalize?
  }

  /** The status changes the dedicated steps perform. */
  predicate Edge(a: Status, b: Status) {
    || (a == PendingApproval && b == Confirmed)
    || (a == Confirmed && b == CheckedIn)
    || (a == CheckedIn && b == Completed)
    || (a == PendingPhone && b == AwaitingVisit)
    || (a == PendingPhone && b == Refused)
    || (a == AwaitingVisit && b == DocumentsPending)
    || (a == DocumentsPending && b == Active)
    || (a != Cancelled && b == Cancelled)
  }

  /** Old invoices are never rewritten. */
  predicate KeepsInvoices(l: Ledger, n: Ledger) {
    |l.invoices| <= |n.invoices| && forall k :: 0 <= k < |l.invoices| ==> n.invoices[k] == l.invoices[k]
  }

  predicate SameSlot(a: Booking, b: Booking) {
    b.space == a.space && b.start == a.start && b.end == a.end
  }

  predicate SamePrice(a: Booking, b: Booking) {
    b.totalAmount == a.totalAmount && b.totalPrice == a.totalPrice
  }

  /** A lifecycle step rewrites at most its own row, along an edge, and leaves the row's slot, prices
      and add-ons alone. The row keeps its inquiry or forgets it. */
  predicate Moved(l: Ledger, id: nat, n: Ledger) {
    && n.nextBooking == l.nextBooking && n.spaces.Keys == l.spaces.Keys && KeepsInvoices(l, n)
    && n.bookings.Keys == l.bookings.Keys
    && forall i :: i in l.bookings ==>
         n.bookings[i] == l.bookings[i] || (i == id && MovedRow(l.bookings[i], n.bookings[i]))
  }

  predicate MovedRow(a: Booking, b: Booking) {
    && SameSlot(a, b) && SamePrice(a, b) && b.addOns == a.addOns && b.documents == a.documents
    && (b.inquiry == a.inquiry || b.inquiry == None)
    && Edge(a.status, b.status)
  }

  /** It issues no invoice, or it is an approval and issues the one of its row. */
  predicate MovedBills(l: Ledger, id: nat, n: Ledger) {
    || (id !in l.bookings && n == l)
    || (id in l.bookings && id in n.bookings && n.invoices == l.invoices
        && n.bookings[id].invoice == l.bookings[id].invoice)
    || (id in l.bookings && l.bookings[id].invoice.None?
        && n == Billed(l.(bookings := l.bookings[id := l.bookings[id].(status := Confirmed)]), id))
  }

  /** A call that rewrites one row along an edge, and statuses of spaces at most. */
  lemma RowMoves(l: Ledger, id: nat, n: Ledger, b: Booking)
    requires id in l.bookings
    requires n == l.(bookings := l.bookings[id := b], spaces := n.spaces) && n.spaces.Keys == l.spaces.Keys
    requires MovedRow(l.bookings[id], b) && b.invoice == l.bookings[id].invoice
    ensures Moved(l, id, n) && MovedBills(l, id, n)
  {
  }

  lemma NothingMoves(l: Ledger, id: nat)
    ensures Moved(l, id, l) && MovedBills(l, id, l)
  {
  }

  lemma MovingMoves(l: Ledger, who: Caller, id: nat, allowed: bool, before: Status, after: Status)
    requires Edge(before, after)
    ensures var n := Moving(l, who, id, allowed, before, after).0; Moved(l, id, n) && MovedBills(l, id, n)
  {
    NothingMoves(l, id);
    if allowed && Denial(l, who, id).None? && l.bookings[id].status == before {
      RowMoves(l, id, Moving(l, who, id, allowed, before, after).0, l.bookings[id].(status := after));
    }
  }

  lemma ApprovingMoves(l: Ledger, who: Caller, id: nat)
    ensures var n := Approving(l, who, id).0; Moved(l, id, n) && MovedBills(l, id, n)
  {
    NothingMoves(l, id);
    if Approver(who.role) && Denial(l, who, id).None? && l.bookings[id].status == PendingApproval {
      var b := l.bookings[id].(status := Confirmed);
      var moved := l.(bookings := l.bookings[id := b]);
      assert Approving(l, who, id).0 == Issued(moved, id);
      if b.invoice.Some? { RowMoves(l, id, moved, b); } else { BillingMoves(l, id); }
    }
  }

  lemma BillingMoves(l: Ledger, id: nat)
    requires id in l.bookings && l.bookings[id].status == PendingApproval && l.bookings[id].invoice.None?
    ensures var n := Billed(l.(bookings := l.bookings[id := l.bookings[id].(status := Confirmed)]), id);
            Moved(l, id, n) && MovedBills(l, id, n)
  {
  }

  lemma RejectingMoves(l: Ledger, who: Caller, id: nat)
    ensures var n := Rejecting(l, who, id).0; Moved(l, id, n) && MovedBills(l, id, n)
  {
    var n := Rejecting(l, who, id).0;
    NothingMoves(l, id);
    if Rejecting(l, who, id).1.Done? { RowMoves(l, id, n, l.bookings[id].(status := Cancelled, inquiry := None)); }
  }

  lemma CancellingMoves(l: Ledger, who: Caller, id: nat)
    ensures var n := Cancelling(l, who, id).0; Moved(l, id, n) && MovedBills(l, id, n)
  {
    var n := Cancelling(l, who, id).0;
    NothingMoves(l, id);
    if Cancelling(l, who, id).1.Done? { RowMoves(l, id, n, l.bookings[id].(status := Cancelled)); }
  }

  lemma ConfirmingMoves(l: Ledger, who: Caller, id: nat)
    ensures var n := ConfirmingPhone(l, who, id).0; Moved(l, id, n) && MovedBills(l, id, n)
  {
    NothingMoves(l, id);
    MovingMoves(l, who, id, WorkflowStaff(who.role), PendingPhone, AwaitingVisit);
  }

  lemma RefusingMoves(l: Ledger, who: Caller, id: nat)
    ensures var n := RefusingUnreachable(l, who, id).0; Moved(l, id, n) && MovedBills(l, id, n)
  {
    var n := RefusingUnreachable(l, who, id).0;
    NothingMoves(l, id);
    if RefusingUnreachable(l, who, id).1.Done? {
      RowMoves(l, id, n, l.bookings[id].(status := Refused, inquiry := None));
    }
  }

  lemma FinalizingMoves(l: Ledger, who: Caller, id: nat)
    ensures var n := Finalizing(l, who, id).0; Moved(l, id, n) && MovedBills(l, id, n)
  {
    var n := Finalizing(l, who, id).0;
    NothingMoves(l, id);
    if Finalizing(l, who, id).1.Done? { RowMoves(l, id, n, l.bookings[id].(status := Active)); }
  }

  lemma MoveShape(l: Ledger, op: Op)
    requires IsMove(op)
    ensures Moved(l, op.id, Apply(l, op).0) && MovedBills(l, op.id, Apply(l, op).0)
  {
    match op
    case Approve(who, id) => ApprovingMoves(l, who, id);
    case Reject(who, id) => RejectingMoves(l, who, id);
    case Cancel(who, id) => CancellingMoves(l, who, id);
    case CheckIn(who, id) => MovingMoves(l, who, id, true, Confirmed, CheckedIn);
    case CheckOut(who, id) => MovingMoves(l, who, id, true, CheckedIn, Completed);
    case ConfirmPhone(who, id) => ConfirmingMoves(l, who, id);
    case MarkUnreachable(who, id) => RefusingMoves(l, who, id);
    case MarkDocumentsPending(who, id) =>
      MovingMoves(l, who, id, WorkflowStaff(who.role), AwaitingVisit, DocumentsPending);
    case Finalize(who, id) => FinalizingMoves(l, who, id);
  }

  predicate IsOpening(op: Op) {
    op.Create? || op.Inquire? || op.AcceptApplication?
  }

  /** An opening call adds at most the row of the next id, in a known space, and leaves all others alone.
      An inquiry in it is the one delivered, which no other row carries. */
  predicate Grown(l: Ledger, delivered: Option<nat>, n: Ledger) {
    && l.nextBooking <= n.nextBooking && n.spaces.Keys == l.spaces.Keys
    && (forall i :: i in n.bookings ==> i == l.nextBooking || i in l.bookings)
    && (forall i :: i in l.bookings ==> i in n.bookings && n.bookings[i] == l.bookings[i])
    && KeepsInvoices(l, n)
    && (l.nextBooking in n.bookings ==>
          && l.nextBooking < n.nextBooking
          && n.bookings[l.nextBooking].space in l.spaces
          && (n.bookings[l.nextBooking].inquiry.Some? ==>
                && n.bookings[l.nextBooking].inquiry == delivered
                && forall j :: j in l.bookings ==> l.bookings[j].inquiry != delivered))
  }

  /** One new row, billed at once or not. */
  lemma OpenedGrows(l: Ledger, b: Booking, addons: nat)
    requires IdsBelowNext(l) && b.space in l.spaces && b.inquiry.None?
    ensures Grown(l, None, Opened(l, b, addons))
    ensures Grown(l, None, Billed(Opened(l, b, addons), l.nextBooking))
  {
  }

  lemma CreatingGrows(l: Ledger, who: Caller, dto: NewBooking)
    requires IdsBelowNext(l)
    ensures Grown(l, None, Creating(l, who, dto).0)
  {
    var n := Creating(l, who, dto).0;
    if n != l {
      var b := n.bookings[l.nextBooking].(invoice := None);
      OpenedGrows(l, b, |dto.addons|);
      assert n == Opened(l, b, |dto.addons|) || n == Billed(Opened(l, b, |dto.addons|), l.nextBooking);
    }
  }

  lemma InquiringGrows(l: Ledger, op: Op)
    requires IdsBelowNext(l) && op.Inquire?
    ensures Grown(l, Some(op.inquiry), Inquiring(l, op.signed, op.inquiry, op.place, op.actor, op.start, op.end).0)
  {
  }

  lemma AcceptingGrows(l: Ledger, who: Caller, app: nat, r: Option<nat>)
    requires IdsBelowNext(l)
    ensures Grown(l, None, Accepting(l, who, app, r).0)
  {
    var n := Accepting(l, who, app, r).0;
    if n != l {
      var b := n.bookings[l.nextBooking].(invoice := None);
      var closed := l.(spaces := n.spaces, applications := n.applications);
      OpenedGrows(closed, b, |l.applications[app].addons|);
      assert n == Billed(Opened(closed, b, |l.applications[app].addons|), l.nextBooking);
    }
  }

  function Delivered(op: Op): Option<nat> {
    if op.Inquire? then Some(op.inquiry) else None
  }

  lemma OpeningShape(l: Ledger, op: Op)
    requires IdsBelowNext(l) && IsOpening(op)
    ensures Grown(l, Delivered(op), Apply(l, op).0)
  {
    match op
    case Create(who, dto) => CreatingGrows(l, who, dto);
    case Inquire(_, _, _, _, _, _) => InquiringGrows(l, op);
    case AcceptApplication(who, app, r) => AcceptingGrows(l, who, app, r);
  }

  /** The remaining calls: times, documents, add-ons, deletion and hand-written invoices. Only a
      reschedule moves times and only add-on calls touch add-ons. */
  predicate Edited(l: Ledger, times: bool, addons: bool, n: Ledger) {
    && n.nextBooking == l.nextBooking && n.spaces == l.spaces
    && (forall i :: i in n.bookings ==> i in l.bookings && EditedRow(times, addons, l.bookings[i], n.bookings[i]))
    && KeepsInvoices(l, n)
    && forall k :: |l.invoices| <= k < |n.invoices| ==> n.invoices[k].booking.None?
  }

  predicate EditedRow(times: bool, addons: bool, a: Booking, b: Booking) {
    && b.status == a.status && b.invoice == a.invoice && b.inquiry == a.inquiry && b.space == a.space
    && SamePrice(a, b)
    && (times || SameSlot(a, b))
    && (addons || b.addOns == a.addOns)
  }

  lemma RowEdits(l: Ledger, times: bool, addons: bool, id: nat, b: Booking, nextAddon: nat)
    requires id in l.bookings ==> EditedRow(times, addons, l.bookings[id], b)
    ensures Edited(l, times, addons, l)
    ensures id in l.bookings ==>
              Edited(l, times, addons, l.(bookings := l.bookings[id := b], nextAddon := nextAddon))
  {
  }

  lemma ReschedulingEdits(l: Ledger, who: Caller, id: nat, start: Option<int>, end: Option<int>)
    ensures Edited(l, true, false, Rescheduling(l, who, id, start, end).0)
  {
    if id in l.bookings {
      var b := l.bookings[id].(start := if start.Some? then start.value else l.bookings[id].start,
                               end := if end.Some? then end.value else l.bookings[id].end);
      RowEdits(l, true, false, id, b, l.nextAddon);
    }
  }

  lemma AddingDocumentEdits(l: Ledger, who: Caller, id: nat, kind: DocumentType)
    ensures Edited(l, false, false, AddingDocument(l, who, id, kind).0)
  {
    if id in l.bookings {
      RowEdits(l, false, false, id, l.bookings[id].(documents := l.bookings[id].documents + [kind]), l.nextAddon);
    }
  }

  lemma RemovingDocumentEdits(l: Ledger, who: Caller, id: nat, index: nat)
    ensures Edited(l, false, false, RemovingDocument(l, who, id, index).0)
  {
    if id in l.bookings && index < |l.bookings[id].documents| {
      var docs := l.bookings[id].documents;
      RowEdits(l, false, false, id, l.bookings[id].(documents := docs[..index] + docs[index + 1..]), l.nextAddon);
    }
  }

  lemma AddingAddonEdits(l: Ledger, who: Caller, id: nat, service: nat, quantity: int, price: int)
    ensures Edited(l, false, true, AddingAddon(l, who, id, service, quantity, price).0)
  {
    if id in l.bookings {
      var b := l.bookings[id];
      var added := b.addOns + [Addon(l.nextAddon, service, quantity, price)];
      RowEdits(l, false, true, id, b.(addOns := added), l.nextAddon + 1);
    }
  }

  lemma RemovingAddonEdits(l: Ledger, who: Caller, id: nat, addon: nat)
    ensures Edited(l, false, true, RemovingAddon(l, who, id, addon).0)
  {
  }

  lemma RemovingEdits(l: Ledger, who: Caller, id: nat)
    ensures Edited(l, false, false, Removing(l, who, id).0)
  {
  }

  lemma RecordingEdits(l: Ledger, tenant: nat, lines: seq<Line>, subtotal: int, total: int)
    ensures Edited(l, false, false, Recording(l, tenant, lines, subtotal, total))
  {
  }

  lemma EditShape(l: Ledger, op: Op)
    requires !IsMove(op) && !IsOpening(op)
    ensures Edited(l, op.Reschedule?, op.AddAddon? || op.RemoveAddon?, Apply(l, op).0)
  {
    match op
    case Reschedule(who, id, s, e) => ReschedulingEdits(l, who, id, s, e);
    case AddDocument(who, id, kind) => AddingDocumentEdits(l, who, id, kind);
    case RemoveDocument(who, id, index) => RemovingDocumentEdits(l, who, id, index);
    case AddAddon(who, id, service, q, p) => AddingAddonEdits(l, who, id, service, q, p);
    case RemoveAddon(who, id, addon) => RemovingAddonEdits(l, who, id, addon);
    case Remove(who, id) => RemovingEdits(l, who, id);
    case RecordInvoice(tenant, lines, sub, total) => RecordingEdits(l, tenant, lines, sub, total);
  }

  /** The kinds of call, for what they may do to the ledger. */
  datatype Kind = Move(id: nat) | Opening(delivered: Option<nat>) | Edit(times: bool, addons: bool)

  function KindOf(op: Op): Kind {
    if IsMove(op) then Move(op.id)
    else if IsOpening(op) then Opening(Delivered(op))
    else Edit(op.Reschedule?, op.AddAddon? || op.RemoveAddon?)
  }

  predicate Shaped(l: Ledger, kind: Kind, n: Ledger) {
    match kind
    case Move(id) => Moved(l, id, n)
    case Opening(delivered) => Grown(l, delivered, n)
    case Edit(times, addons) => Edited(l, times, addons, n)
  }

  lemma StepShape(l: Ledger, op: Op)
    requires IdsBelowNext(l)
    ensures Shaped(l, KindOf(op), Apply(l, op).0)
  {
    if IsMove(op) {
      MoveShape(l, op);
    } else if IsOpening(op) {
      OpeningShape(l, op);
    } else {
      EditShape(l, op);
    }
  }

  lemma ShapedKeepsIds(l: Ledger, kind: Kind, n: Ledger)
    requires IdsBelowNext(l) && Shaped(l, kind, n)
    ensures IdsBelowNext(n)
    ensures l.nextBooking <= n.nextBooking
    ensures forall i :: i in n.bookings && i < l.nextBooking ==> i in l.bookings
  {
  }

  lemma StepKeepsIds(l: Ledger, op: Op)
    requires IdsBelowNext(l)
    ensures var n := Apply(l, op).0;
            && IdsBelowNext(n)
            && l.nextBooking <= n.nextBooking
            && (forall i :: i in n.bookings && i < l.nextBooking ==> i in l.bookings)
  {
    StepShape(l, op);
    ShapedKeepsIds(l, KindOf(op), Apply(l, op).0);
  }

  // ----- No overlap ---------------------------------------------------------------------------

  /** Every row of `n` was in `l` with the same slot, and no dead row came back to life. */
  predicate KeepsSlots(l: Ledger, n: Ledger) {
    forall i :: i in n.bookings ==>
      && i in l.bookings
      && n.bookings[i].space == l.bookings[i].space
      && n.bookings[i].start == l.bookings[i].start
      && n.bookings[i].end == l.bookings[i].end
      && (Live(n.bookings[i]) ==> Live(l.bookings[i]))
  }

  lemma KeepingSlotsKeepsNoOverlap(l: Ledger, n: Ledger)
    requires NoOverlap(l) && KeepsSlots(l, n)
    ensures NoOverlap(n)
  {
    forall i, j | i in n.bookings && j in n.bookings && i != j
      ensures Apart(n.bookings[i], n.bookings[j])
    {
      assert Apart(l.bookings[i], l.bookings[j]);
    }
  }

  /** A slot for booking `id` that meets no other live booking of the space. */
  predicate ClearSlot(l: Ledger, id: nat, space: nat, start: int, end: int) {
    forall i :: i in l.bookings && i != id && l.bookings[i].space == space && Live(l.bookings[i]) ==>
      !HalfOpenOverlap(l.bookings[i], start, end)
  }

  lemma PlacingIff(l: Ledger, n: Ledger, id: nat)
    requires NoOverlap(l)
    requires id in n.bookings && n.bookings.Keys == l.bookings.Keys + {id}
    requires forall i :: i in l.bookings && i != id ==> n.bookings[i] == l.bookings[i]
    ensures NoOverlap(n) <==>
              (Live(n.bookings[id]) ==>
                ClearSlot(l, id, n.bookings[id].space, n.bookings[id].start, n.bookings[id].end))
  {
    var b := n.bookings[id];
    if Live(b) ==> ClearSlot(l, id, b.space, b.start, b.end) {
      forall i, j | i in n.bookings && j in n.bookings && i != j
        ensures Apart(n.bookings[i], n.bookings[j])
      {
        if i != id && j != id { assert Apart(l.bookings[i], l.bookings[j]); }
      }
    }
    if NoOverlap(n) && Live(b) {
      forall i | i in l.bookings && i != id && l.bookings[i].space == b.space && Live(l.bookings[i])
        ensures !HalfOpenOverlap(l.bookings[i], b.start, b.end)
      {
        assert Apart(n.bookings[i], n.bookings[id]);
      }
    }
  }

  /** The two calls that place a booking without asking whether the slot is free. */
  predicate Unchecked(op: Op) {
    op.AcceptApplication? || (op.Reschedule? && !(op.newStart.Some? && op.newEnd.Some?))
  }

  /** What a caller would have to know before an unchecked call. */
  predicate LandsClear(l: Ledger, op: Op)
    requires Unchecked(op)
  {
    match op
    case AcceptApplication(_, app, _) =>
      app in l.applications ==>
        var a := l.applications[app];
        ClearSlot(l, l.nextBooking, a.space, a.start, Calendar.AddMonths(a.start, a.months))
    case Reschedule(_, id, s, e) =>
      id in l.bookings && Live(l.bookings[id]) ==>
        var b := l.bookings[id];
        ClearSlot(l, id, b.space,
                  if s.Some? then s.value else b.start,
                  if e.Some? then e.value else b.end)
  }

  lemma CreatingKeepsNoOverlap(l: Ledger, who: Caller, dto: NewBooking)
    requires NoOverlap(l) && IdsBelowNext(l)
    ensures NoOverlap(Creating(l, who, dto).0)
  {
    var n := Creating(l, who, dto).0;
    if n != l {
      assert n.bookings[l.nextBooking].start == dto.start;
      forall i | i in l.bookings && l.bookings[i].space == dto.space && Live(l.bookings[i])
        ensures !HalfOpenOverlap(l.bookings[i], dto.start, dto.end)
      {
        assert !(l.bookings[i].start <= dto.end && dto.start <= l.bookings[i].end);
      }
      PlacingIff(l, n, l.nextBooking);
    }
  }

  lemma InquiringKeepsNoOverlap(l: Ledger, op: Op)
    requires NoOverlap(l) && IdsBelowNext(l) && op.Inquire?
    ensures NoOverlap(Inquiring(l, op.signed, op.inquiry, op.place, op.actor, op.start, op.end).0)
  {
    var n := Inquiring(l, op.signed, op.inquiry, op.place, op.actor, op.start, op.end).0;
    if n != l { PlacingIff(l, n, l.nextBooking); }
  }

  lemma ReschedulingKeepsNoOverlap(l: Ledger, op: Op)
    requires NoOverlap(l) && op.Reschedule? && !Unchecked(op)
    ensures NoOverlap(Rescheduling(l, op.who, op.id, op.newStart, op.newEnd).0)
  {
    var n := Rescheduling(l, op.who, op.id, op.newStart, op.newEnd).0;
    if n != l {
      var b := l.bookings[op.id];
      assert !Clashes(l, b.space, op.newStart.value, op.newEnd.value, Some(op.id));
      PlacingIff(l, n, op.id);
    }
  }

  /** Both guards rule out every half-open overlap, whatever the order of the two instants, and no
      lifecycle step revives a dead booking. */
  lemma CheckedStepKeepsNoOverlap(l: Ledger, op: Op)
    requires NoOverlap(l) && IdsBelowNext(l) && !Unchecked(op)
    ensures NoOverlap(Apply(l, op).0)
  {
    match op
    case Create(who, dto) => CreatingKeepsNoOverlap(l, who, dto);
    case Inquire(_, _, _, _, _, _) => InquiringKeepsNoOverlap(l, op);
    case Reschedule(_, _, _, _) => ReschedulingKeepsNoOverlap(l, op);
    case _ => OtherStepKeepsSlots(l, op);
  }

  lemma OtherStepKeepsSlots(l: Ledger, op: Op)
    requires NoOverlap(l) && IdsBelowNext(l)
    requires !op.Create? && !op.Inquire? && !op.Reschedule? && !op.AcceptApplication?
    ensures NoOverlap(Apply(l, op).0)
  {
    StepShape(l, op);
    ShapedKeepsSlots(l, KindOf(op), Apply(l, op).0);
    KeepingSlotsKeepsNoOverlap(l, Apply(l, op).0);
  }

  lemma ShapedKeepsSlots(l: Ledger, kind: Kind, n: Ledger)
    requires Shaped(l, kind, n) && !kind.Opening? && (kind.Edit? ==> !kind.times)
    ensures KeepsSlots(l, n)
  {
  }

  /** The refusals of the unchecked calls, spelled out: what lets such a call go through. */
  predicate GoesThrough(l: Ledger, op: Op)
    requires Unchecked(op)
  {
    match op
    case AcceptApplication(who, app, _) =>
      && Approver(who.role) && app in l.applications
      && var a := l.applications[app];
      && a.space in l.spaces && a.pending && a.applicant.Some?
      && (who.role == SuperAdmin || l.spaces[a.space].owner == who.tenant || who.sees)
    case Reschedule(who, id, _, _) => who.sees && id in l.bookings
  }

  lemma DoneIffGoesThrough(l: Ledger, op: Op)
    requires Unchecked(op)
    ensures Apply(l, op).1.Done? <==> GoesThrough(l, op)
  {
    match op
    case AcceptApplication(_, _, _) =>
    case Reschedule(_, _, _, _) =>
  }

  /** An unchecked call that goes through keeps the calendar free of overlaps exactly when its slot
      was free. */
  lemma UncheckedStepIff(l: Ledger, op: Op)
    requires NoOverlap(l) && IdsBelowNext(l) && Unchecked(op)
    ensures NoOverlap(Apply(l, op).0) <==> (GoesThrough(l, op) ==> LandsClear(l, op))
  {
    if op.AcceptApplication? { AcceptingIff(l, op); } else { OneSidedIff(l, op); }
  }

  lemma AcceptingIff(l: Ledger, op: Op)
    requires NoOverlap(l) && IdsBelowNext(l) && op.AcceptApplication?
    ensures NoOverlap(Accepting(l, op.who, op.app, op.receptionist).0) <==> (GoesThrough(l, op) ==> LandsClear(l, op))
  {
    var n := Accepting(l, op.who, op.app, op.receptionist).0;
    if GoesThrough(l, op) { PlacingIff(l, n, l.nextBooking); }
  }

  lemma OneSidedIff(l: Ledger, op: Op)
    requires NoOverlap(l) && op.Reschedule? && Unchecked(op)
    ensures NoOverlap(Rescheduling(l, op.who, op.id, op.newStart, op.newEnd).0) <==>
            (GoesThrough(l, op) ==> LandsClear(l, op))
  {
    var n := Rescheduling(l, op.who, op.id, op.newStart, op.newEnd).0;
    if GoesThrough(l, op) { PlacingIff(l, n, op.id); }
  }

  /** An unchecked call, if it went through, landed on a free slot. */
  predicate Landed(l: Ledger, op: Op) {
    Unchecked(op) && GoesThrough(l, op) ==> LandsClear(l, op)
  }

  function Good(states: seq<Ledger>): (good: seq<bool>)
    ensures |good| == |states| && forall i :: 0 <= i < |states| ==> good[i] == NoOverlap(states[i])
  {
    seq(|states|, i requires 0 <= i < |states| => NoOverlap(states[i]))
  }

  function Sound(states: seq<Ledger>, ops: seq<Op>): (sound: seq<bool>)
    requires |ops| <= |states|
    ensures |sound| == |ops| && forall i :: 0 <= i < |ops| ==> sound[i] == Landed(states[i], ops[i])
  {
    seq(|ops|, i requires 0 <= i < |ops| => Landed(states[i], ops[i]))
  }

  lemma RunStepIff(states: seq<Ledger>, ops: seq<Op>, i: nat)
    requires Execution(states, ops) && i < |ops| && IdsBelowNext(states[0])
    requires Good(states)[i]
    ensures Good(states)[i + 1] <==> Sound(states, ops)[i]
  {
    RunKeepsIds(states, ops, i);
    assert StepAt(states, ops, i);
    if Unchecked(ops[i]) { UncheckedStepIff(states[i], ops[i]); } else { CheckedStepKeepsNoOverlap(states[i], ops[i]); }
  }

  /** Over a whole run: no two live bookings of a space ever overlap if and only if every accepted
      application and every one-sided reschedule landed on a free slot. */
  lemma NoDoubleBookingIff(states: seq<Ledger>, ops: seq<Op>)
    requires Execution(states, ops)
    requires IdsBelowNext(states[0]) && NoOverlap(states[0])
    ensures (forall i :: 0 <= i < |states| ==> NoOverlap(states[i])) <==>
              (forall i :: 0 <= i < |ops| ==> Landed(states[i], ops[i]))
  {
    var good, sound := Good(states), Sound(states, ops);
    forall i | 0 <= i < |ops| && good[i]
      ensures good[i + 1] <==> sound[i]
    {
      RunStepIff(states, ops, i);
    }
    ChainIff(good, sound, |ops|);
  }

  lemma RunStepKeepsIds(states: seq<Ledger>, ops: seq<Op>, i: nat)
    requires Execution(states, ops) && i < |ops|
    requires IdsBelowNext(states[i])
    ensures IdsBelowNext(states[i + 1]) && states[i].nextBooking <= states[i + 1].nextBooking
    ensures forall id :: id in states[i + 1].bookings && id < states[i].nextBooking ==> id in states[i].bookings
  {
    assert StepAt(states, ops, i);
    StepKeepsIds(states[i], ops[i]);
  }

  lemma {:induction false} RunKeepsIds(states: seq<Ledger>, ops: seq<Op>, m: nat)
    requires Execution(states, ops) && m < |states|
    requires IdsBelowNext(states[0])
    ensures IdsBelowNext(states[m]) && states[0].nextBooking <= states[m].nextBooking
  {
    if m > 0 {
      RunKeepsIds(states, ops, m - 1);
      RunStepKeepsIds(states, ops, m - 1);
    }
  }

  lemma {:induction false} NextOnlyGrows(states: seq<Ledger>, ops: seq<Op>, k: nat, m: nat)
    requires Execution(states, ops) && k <= m < |states|
    requires IdsBelowNext(states[0])
    ensures states[k].nextBooking <= states[m].nextBooking
    decreases m - k
  {
    if k < m {
      NextOnlyGrows(states, ops, k, m - 1);
      RunKeepsIds(states, ops, m - 1);
      RunStepKeepsIds(states, ops, m - 1);
    }
  }

  /** Two applications for the same space and month, both accepted: the calendar is double-booked. */
  lemma AcceptingCanDoubleBook() returns (l: Ledger, first: Op, second: Op)
    ensures NoOverlap(l) && IdsBelowNext(l)
    ensures NoOverlap(Apply(l, first).0)
    ensures Apply(l, first).1.Done? && Apply(Apply(l, first).0, second).1.Done?
    ensures !NoOverlap(Apply(Apply(l, first).0, second).0)
  {
    var app := Application(0, Some((1, 1)), 0, 1, [], true, None);
    l := Ledger(map[], map[0 := Space(0, false, 100, Available, true)], map[], {}, map[0 := app, 1 := app], [], 0, 0);
    var who := Caller(9, Manager, 0, true);
    first := AcceptApplication(who, 0, None);
    second := AcceptApplication(who, 1, None);
    var mid := Apply(l, first).0;
    var end := Apply(mid, second).0;
    Calendar.MonthOfAtLeast(0, 1);
    Calendar.MonthOfAtLeast(0, 0);
    assert Calendar.MonthStart(1) == 31;
    assert Calendar.AddMonths(0, 1) == 31 * Calendar.DAY;
    assert forall i :: i in mid.bookings ==> i == 0;
    assert !Apart(end.bookings[0], end.bookings[1]);
  }

  /** Moving only the end of a booking is not checked either. */
  lemma OneSidedRescheduleCanDoubleBook() returns (l: Ledger, op: Op)
    ensures NoOverlap(l) && IdsBelowNext(l)
    ensures op.Reschedule? && Apply(l, op).1.Done?
    ensures !NoOverlap(Apply(l, op).0)
  {
    var b := Booking(0, 0, 0, 0, 10, Confirmed, 0, 0, [], None, None, None, []);
    l := Ledger(map[0 := b, 1 := b.(start := 20, end := 30)], map[], map[], {}, map[], [], 2, 0);
    op := Reschedule(Caller(9, Manager, 0, true), 0, None, Some(25));
    var n := Apply(l, op).0;
    assert !Apart(n.bookings[0], n.bookings[1]);
  }

  // ----- Lifecycle ----------------------------------------------------------------------------

  function Rank(s: Status): (r: nat)
    ensures r <= 4
  {
    match s
    case PendingApproval => 0
    case PendingPhone => 0
    case Draft => 0
    case Confirmed => 1
    case AwaitingVisit => 1
    case CheckedIn => 2
    case DocumentsPending => 2
    case Completed => 3
    case Active => 3
    case Refused => 3
    case NoShow => 3
    case Cancelled => 4
  }

  lemma StatusMovesAlongEdges(l: Ledger, op: Op, id: nat)
    requires IdsBelowNext(l)
    requires id in l.bookings && id in Apply(l, op).0.bookings
    ensures var a := l.bookings[id].status;
            var b := Apply(l, op).0.bookings[id].status;
            a != b ==> IsMove(op) && op.id == id && Edge(a, b) && Rank(a) < Rank(b)
  {
    StepShape(l, op);
    ShapedStatus(l, KindOf(op), Apply(l, op).0, id);
    var a, b := l.bookings[id].status, Apply(l, op).0.bookings[id].status;
    if a != b { EdgesRaiseRank(a, b); }
  }

  lemma ShapedStatus(l: Ledger, kind: Kind, n: Ledger, id: nat)
    requires Shaped(l, kind, n) && id in l.bookings && id in n.bookings
    ensures var a := l.bookings[id].status;
            var b := n.bookings[id].status;
            a != b ==> kind == Move(id) && Edge(a, b)
  {
  }

  lemma EdgesRaiseRank(a: Status, b: Status)
    requires Edge(a, b)
    ensures Rank(a) < Rank(b)
  {
  }

  ghost function Changes(states: seq<Ledger>, id: nat): nat
    requires |states| > 0
    requires forall i :: 0 <= i < |states| ==> id in states[i].bookings
  {
    if |states| == 1 then 0
    else
      var m := |states| - 1;
      Changes(states[..m], id) + (if states[m - 1].bookings[id].status != states[m].bookings[id].status then 1 else 0)
  }

  lemma RunStepStatus(states: seq<Ledger>, ops: seq<Op>, id: nat, i: nat)
    requires Execution(states, ops) && i < |ops|
    requires IdsBelowNext(states[i]) && id in states[i].bookings && id in states[i + 1].bookings
    ensures var a := states[i].bookings[id].status;
            var b := states[i + 1].bookings[id].status;
            a != b ==> Rank(a) < Rank(b)
  {
    assert StepAt(states, ops, i);
    StatusMovesAlongEdges(states[i], ops[i], id);
  }

  lemma PrefixOfRun(states: seq<Ledger>, ops: seq<Op>, m: nat)
    requires Execution(states, ops) && m < |states|
    ensures Execution(states[..m + 1], ops[..m])
  {
    forall i {:trigger StepAt(states[..m + 1], ops[..m], i)} | 0 <= i < m
      ensures StepAt(states[..m + 1], ops[..m], i)
    {
      assert StepAt(states, ops, i);
    }
  }

  lemma {:induction false} ChangesAreRanked(states: seq<Ledger>, ops: seq<Op>, id: nat)
    requires Execution(states, ops) && IdsBelowNext(states[0])
    requires forall i :: 0 <= i < |states| ==> id in states[i].bookings
    ensures Rank(states[0].bookings[id].status) + Changes(states, id) <= Rank(states[|ops|].bookings[id].status)
    decreases |ops|
  {
    if |ops| > 0 {
      var m := |ops| - 1;
      PrefixOfRun(states, ops, m);
      ChangesAreRanked(states[..m + 1], ops[..m], id);
      RunKeepsIds(states, ops, m);
      RunStepStatus(states, ops, id, m);
    }
  }

  /** A booking changes status at most four times, however long the run. */
  lemma AtMostFourStatusChanges(states: seq<Ledger>, ops: seq<Op>, id: nat)
    requires Execution(states, ops) && IdsBelowNext(states[0])
    requires forall i :: 0 <= i < |states| ==> id in states[i].bookings
    ensures Changes(states, id) <= 4
  {
    ChangesAreRanked(states, ops, id);
  }

  /** The main line of a booking, driven by a manager. */
  function MainLine(before: Status, who: Caller, id: nat): Op {
    match before
    case PendingApproval => Approve(who, id)
    case Confirmed => CheckIn(who, id)
    case CheckedIn => CheckOut(who, id)
    case _ => Cancel(who, id)
  }

  function MainLineNext(before: Status): Status {
    match before
    case PendingApproval => Confirmed
    case Confirmed => CheckedIn
    case CheckedIn => Completed
    case _ => Cancelled
  }

  /** A run continued by one call. */
  lemma ExtendRun(states: seq<Ledger>, ops: seq<Op>, op: Op) returns (n: Ledger)
    requires Execution(states, ops)
    ensures n == Apply(states[|ops|], op).0
    ensures Execution(states + [n], ops + [op])
  {
    n := Apply(states[|ops|], op).0;
    forall i {:trigger StepAt(states + [n], ops + [op], i)} | 0 <= i < |ops| + 1
      ensures StepAt(states + [n], ops + [op], i)
    {
      if i < |ops| { assert StepAt(states, ops, i); }
    }
  }

  lemma MainLineMoves(states: seq<Ledger>, ops: seq<Op>, id: nat) returns (n: Ledger, op: Op)
    requires Execution(states, ops)
    requires id in states[|ops|].bookings && states[|ops|].bookings[id].status != Cancelled
    ensures Execution(states + [n], ops + [op])
    ensures id in n.bookings && n.bookings[id].status == MainLineNext(states[|ops|].bookings[id].status)
  {
    op := MainLine(states[|ops|].bookings[id].status, Caller(9, Manager, 0, true), id);
    n := ExtendRun(states, ops, op);
  }

  /** The bound is met from every pending booking: approval, check-in, check-out, then cancellation. */
  lemma FourStatusChangesHappen(l: Ledger, id: nat) returns (states: seq<Ledger>, ops: seq<Op>)
    requires id in l.bookings && l.bookings[id].status == PendingApproval
    ensures Execution(states, ops) && states[0] == l
    ensures forall i :: 0 <= i < |states| ==> id in states[i].bookings
    ensures Changes(states, id) == 4
  {
    states, ops := [l], [];
    var a, approve := MainLineMoves(states, ops, id);
    states, ops := states + [a], ops + [approve];
    var c, checkIn := MainLineMoves(states, ops, id);
    states, ops := states + [c], ops + [checkIn];
    var d, checkOut := MainLineMoves(states, ops, id);
    states, ops := states + [d], ops + [checkOut];
    var e, cancel := MainLineMoves(states, ops, id);
    states, ops := states + [e], ops + [cancel];
    CountChanges(states, id);
  }

  lemma CountChanges(states: seq<Ledger>, id: nat)
    requires |states| == 5
    requires forall i :: 0 <= i < 5 ==> id in states[i].bookings
    requires forall i :: 0 <= i < 4 ==> states[i].bookings[id].status != states[i + 1].bookings[id].status
    ensures Changes(states, id) == 4
  {
    assert states[..4][..3] == states[..3];
    assert states[..3][..2] == states[..2];
    assert states[..2][..1] == states[..1];
    assert Changes(states[..1], id) == 0;
    assert states[0].bookings[id].status != states[1].bookings[id].status;
    assert Changes(states[..2], id) == 1;
    assert states[1].bookings[id].status != states[2].bookings[id].status;
    assert Changes(states[..3], id) == 2;
    assert states[2].bookings[id].status != states[3].bookings[id].status;
    assert Changes(states[..4], id) == 3;
    assert states[3].bookings[id].status != states[4].bookings[id].status;
  }

  /** Once gone, a booking never comes back, so an id present at both ends was present throughout. */
  lemma {:induction false} PresentThroughout(states: seq<Ledger>, ops: seq<Op>, id: nat, i: nat, m: nat)
    requires Execution(states, ops) && IdsBelowNext(states[0])
    requires i <= m < |states|
    requires id < states[i].nextBooking && id in states[m].bookings
    ensures id in states[i].bookings
    decreases m - i
  {
    if i < m {
      RunKeepsIds(states, ops, i);
      RunStepKeepsIds(states, ops, i);
      PresentThroughout(states, ops, id, i + 1, m);
    }
  }

  /** The last step at which a booking entered its present status. */
  lemma {:induction false} EntryStep(states: seq<Ledger>, id: nat, m: nat) returns (k: nat)
    requires m < |states|
    requires forall i :: 0 <= i <= m ==> id in states[i].bookings
    requires states[0].bookings[id].status != states[m].bookings[id].status
    ensures k < m
    ensures states[k].bookings[id].status != states[m].bookings[id].status
    ensures states[k + 1].bookings[id].status == states[m].bookings[id].status
  {
    if states[m - 1].bookings[id].status != states[m].bookings[id].status {
      k := m - 1;
    } else {
      k := EntryStep(states, id, m - 1);
    }
  }

  /** The status a lifecycle step leads to. */
  function Target(op: Op): Status
    requires IsMove(op)
  {
    match op
    case Approve(_, _) => Confirmed
    case Reject(_, _) => Cancelled
    case Cancel(_, _) => Cancelled
    case CheckIn(_, _) => CheckedIn
    case CheckOut(_, _) => Completed
    case ConfirmPhone(_, _) => AwaitingVisit
    case MarkUnreachable(_, _) => Refused
    case MarkDocumentsPending(_, _) => DocumentsPending
    case Finalize(_, _) => Active
  }

  predicate Reaches(l: Ledger, n: Ledger, id: nat, target: Status) {
    id in l.bookings ==>
      id in n.bookings && (n.bookings[id].status == l.bookings[id].status || n.bookings[id].status == target)
  }

  lemma MovingReaches(l: Ledger, who: Caller, id: nat, allowed: bool, before: Status, after: Status)
    ensures Reaches(l, Moving(l, who, id, allowed, before, after).0, id, after)
  {
  }

  lemma ApprovingReaches(l: Ledger, who: Caller, id: nat)
    ensures Reaches(l, Approving(l, who, id).0, id, Confirmed)
  {
  }

  lemma EndingReaches(l: Ledger, who: Caller, id: nat)
    ensures Reaches(l, Rejecting(l, who, id).0, id, Cancelled)
    ensures Reaches(l, Cancelling(l, who, id).0, id, Cancelled)
    ensures Reaches(l, RefusingUnreachable(l, who, id).0, id, Refused)
  {
  }

  lemma WorkflowReaches(l: Ledger, who: Caller, id: nat)
    ensures Reaches(l, ConfirmingPhone(l, who, id).0, id, AwaitingVisit)
    ensures Reaches(l, Finalizing(l, who, id).0, id, Active)
  {
  }

  lemma MoveTarget(l: Ledger, op: Op)
    requires IsMove(op)
    ensures Reaches(l, Apply(l, op).0, op.id, Target(op))
  {
    match op
    case Approve(who, id) => ApprovingReaches(l, who, id);
    case Reject(who, id) => EndingReaches(l, who, id);
    case Cancel(who, id) => EndingReaches(l, who, id);
    case CheckIn(who, id) => MovingReaches(l, who, id, true, Confirmed, CheckedIn);
    case CheckOut(who, id) => MovingReaches(l, who, id, true, CheckedIn, Completed);
    case ConfirmPhone(who, id) => WorkflowReaches(l, who, id);
    case MarkUnreachable(who, id) => EndingReaches(l, who, id);
    case MarkDocumentsPending(who, id) =>
      MovingReaches(l, who, id, WorkflowStaff(who.role), AwaitingVisit, DocumentsPending);
    case Finalize(who, id) => WorkflowReaches(l, who, id);
  }

  lemma WorkflowGuards(l: Ledger, who: Caller, id: nat)
    requires id in l.bookings
    ensures ConfirmingPhone(l, who, id).0 != l ==> WorkflowStaff(who.role)
    ensures Moving(l, who, id, WorkflowStaff(who.role), AwaitingVisit, DocumentsPending).0 != l ==>
              WorkflowStaff(who.role)
    ensures Finalizing(l, who, id).0 != l ==> Approver(who.role) && HasContract(l.bookings[id])
  {
  }

  predicate IsConfirmPhone(op: Op, id: nat) { op.ConfirmPhone? && op.id == id && WorkflowStaff(op.who.role) }

  predicate IsVisit(op: Op, id: nat) { op.MarkDocumentsPending? && op.id == id && WorkflowStaff(op.who.role) }

  predicate IsFinalize(op: Op, id: nat) { op.Finalize? && op.id == id && Approver(op.who.role) }

  lemma WorkflowEntries(l: Ledger, op: Op, id: nat)
    requires IdsBelowNext(l)
    requires id in l.bookings && id in Apply(l, op).0.bookings
    requires l.bookings[id].status != Apply(l, op).0.bookings[id].status
    ensures var b := Apply(l, op).0.bookings[id].status;
            && (b == Active ==>
                  l.bookings[id].status == DocumentsPending && IsFinalize(op, id) && HasContract(l.bookings[id]))
            && (b == DocumentsPending ==> l.bookings[id].status == AwaitingVisit && IsVisit(op, id))
            && (b == AwaitingVisit ==> l.bookings[id].status == PendingPhone && IsConfirmPhone(op, id))
  {
    StatusMovesAlongEdges(l, op, id);
    MoveTarget(l, op);
    assert Apply(l, op).0.bookings[id].status == Target(op);
    match op
    case ConfirmPhone(who, _) => WorkflowGuards(l, who, id);
    case MarkDocumentsPending(who, _) => WorkflowGuards(l, who, id);
    case Finalize(who, _) => WorkflowGuards(l, who, id);
    case _ =>
  }

  lemma RunStepEntries(states: seq<Ledger>, ops: seq<Op>, id: nat, i: nat)
    requires Execution(states, ops) && i < |ops| && IdsBelowNext(states[i])
    requires id in states[i].bookings && id in states[i + 1].bookings
    requires states[i].bookings[id].status != states[i + 1].bookings[id].status
    ensures var a := states[i].bookings[id];
            var b := states[i + 1].bookings[id].status;
            && (b == Active ==> a.status == DocumentsPending && IsFinalize(ops[i], id) && HasContract(a))
            && (b == DocumentsPending ==> a.status == AwaitingVisit && IsVisit(ops[i], id))
            && (b == AwaitingVisit ==> a.status == PendingPhone && IsConfirmPhone(ops[i], id))
  {
    assert StepAt(states, ops, i);
    WorkflowEntries(states[i], ops[i], id);
  }

  /** A booking opened by an accepted application becomes active only after phone confirmation, then
      the visit, then a finalisation that finds a contract among the documents. */
  lemma ActivationPath(states: seq<Ledger>, ops: seq<Op>, id: nat, m: nat) returns (call: nat, visit: nat, final: nat)
    requires Execution(states, ops) && IdsBelowNext(states[0])
    requires m < |states|
    requires id in states[0].bookings && states[0].bookings[id].status == PendingPhone
    requires id in states[m].bookings && states[m].bookings[id].status == Active
    ensures call < visit < final < m
    ensures IsConfirmPhone(ops[call], id) && IsVisit(ops[visit], id) && IsFinalize(ops[final], id)
    ensures id in states[final].bookings && HasContract(states[final].bookings[id])
  {
    forall i | 0 <= i <= m
      ensures id in states[i].bookings
    {
      RunKeepsIds(states, ops, i);
      PresentThroughout(states, ops, id, i, m);
    }
    final := EntryStep(states, id, m);
    RunKeepsIds(states, ops, final);
    RunStepEntries(states, ops, id, final);
    visit := EntryStep(states, id, final);
    RunKeepsIds(states, ops, visit);
    RunStepEntries(states, ops, id, visit);
    call := EntryStep(states, id, visit);
    RunKeepsIds(states, ops, call);
    RunStepEntries(states, ops, id, call);
  }

  // ----- Invoices -----------------------------------------------------------------------------

  function LineSum(lines: seq<Line>): int {
    if lines == [] then 0 else LineSum(lines[..|lines| - 1]) + lines[|lines| - 1].lineTotal
  }

  lemma {:induction false} LinesAddUp(first: Line, addons: seq<Addon>)
    ensures LineSum([first] + AddonLines(addons)) == first.lineTotal + AddonSum(addons)
    decreases |addons|
  {
    var all := [first] + AddonLines(addons);
    if addons == [] {
      assert all == [first];
      assert LineSum(all[..0]) == 0;
    } else {
      var m := |addons| - 1;
      LinesAddUp(first, addons[..m]);
      assert all[..m + 1] == [first] + AddonLines(addons[..m]);
    }
  }

  predicate GeneratedOk(l: Ledger, k: nat, id: nat)
    requires k < |l.invoices|
  {
    && id < l.nextBooking
    && l.invoices[k].total == LineSum(l.invoices[k].lines) == l.invoices[k].subtotal
    && (id in l.bookings ==> l.bookings[id].invoice == Some(k))
  }

  /** Generated invoices and bookings point at each other, one to one. */
  ghost predicate BillsMatch(l: Ledger) {
    && (forall k :: 0 <= k < |l.invoices| && l.invoices[k].booking.Some? ==>
          GeneratedOk(l, k, l.invoices[k].booking.value))
    && (forall id :: id in l.bookings && l.bookings[id].invoice.Some? ==>
          l.bookings[id].invoice.value < |l.invoices| && l.invoices[l.bookings[id].invoice.value].booking == Some(id))
    && (forall j, k :: 0 <= j < k < |l.invoices| && l.invoices[j].booking.Some? ==>
          l.invoices[j].booking != l.invoices[k].booking)
  }

  lemma BillingKeepsBillsMatch(l: Ledger, id: nat)
    requires BillsMatch(l) && IdsBelowNext(l)
    requires id in l.bookings && l.bookings[id].invoice.None?
    ensures BillsMatch(Billed(l, id))
  {
    var n := Billed(l, id);
    var b := l.bookings[id];
    LinesAddUp(Line(1, b.totalPrice, b.totalPrice), b.addOns);
    forall k | 0 <= k < |n.invoices| && n.invoices[k].booking.Some?
      ensures GeneratedOk(n, k, n.invoices[k].booking.value)
    {
      if k < |l.invoices| { assert GeneratedOk(l, k, l.invoices[k].booking.value); }
    }
    forall j, k | 0 <= j < k < |n.invoices| && n.invoices[j].booking.Some?
      ensures n.invoices[j].booking != n.invoices[k].booking
    {
      assert GeneratedOk(l, j, l.invoices[j].booking.value);
    }
  }

  /** The rows kept their invoices, and no invoice was issued for a booking. */
  lemma KeepingBillsKeepsMatch(l: Ledger, n: Ledger)
    requires BillsMatch(l)
    requires l.nextBooking <= n.nextBooking && |l.invoices| <= |n.invoices|
    requires forall k :: 0 <= k < |l.invoices| ==> n.invoices[k] == l.invoices[k]
    requires forall k :: |l.invoices| <= k < |n.invoices| ==> n.invoices[k].booking.None?
    requires forall i :: i in n.bookings ==>
               if i in l.bookings then n.bookings[i].invoice == l.bookings[i].invoice
               else i >= l.nextBooking && n.bookings[i].invoice.None?
    ensures BillsMatch(n)
  {
    forall k | 0 <= k < |n.invoices| && n.invoices[k].booking.Some?
      ensures GeneratedOk(n, k, n.invoices[k].booking.value)
    {
      assert GeneratedOk(l, k, l.invoices[k].booking.value);
    }
  }

  lemma OpenedKeepsBillsMatch(l: Ledger, b: Booking, addons: nat)
    requires BillsMatch(l) && IdsBelowNext(l) && b.invoice.None?
    ensures var n := Opened(l, b, addons);
            BillsMatch(n) && IdsBelowNext(n) && BillsMatch(Billed(n, l.nextBooking))
  {
    var n := Opened(l, b, addons);
    KeepingBillsKeepsMatch(l, n);
    BillingKeepsBillsMatch(n, l.nextBooking);
  }

  lemma CreatingKeepsBillsMatch(l: Ledger, who: Caller, dto: NewBooking)
    requires BillsMatch(l) && IdsBelowNext(l)
    ensures BillsMatch(Creating(l, who, dto).0)
  {
    var n := Creating(l, who, dto).0;
    if n != l {
      var b := n.bookings[l.nextBooking].(invoice := None);
      OpenedKeepsBillsMatch(l, b, |dto.addons|);
      assert n == Opened(l, b, |dto.addons|) || n == Billed(Opened(l, b, |dto.addons|), l.nextBooking);
    }
  }

  lemma AcceptingKeepsBillsMatch(l: Ledger, who: Caller, app: nat, receptionist: Option<nat>)
    requires BillsMatch(l) && IdsBelowNext(l)
    ensures BillsMatch(Accepting(l, who, app, receptionist).0)
  {
    var n := Accepting(l, who, app, receptionist).0;
    if n != l {
      var b := n.bookings[l.nextBooking].(invoice := None);
      var closed := l.(spaces := n.spaces, applications := n.applications);
      KeepingBillsKeepsMatch(l, closed);
      OpenedKeepsBillsMatch(closed, b, |l.applications[app].addons|);
      assert n == Billed(Opened(closed, b, |l.applications[app].addons|), l.nextBooking);
    }
  }

  lemma MovedKeepsBillsMatch(l: Ledger, id: nat, n: Ledger)
    requires BillsMatch(l) && IdsBelowNext(l)
    requires Moved(l, id, n) && MovedBills(l, id, n)
    ensures BillsMatch(n)
  {
    if n != l {
      if n.invoices == l.invoices && n.bookings[id].invoice == l.bookings[id].invoice {
        KeepingBillsKeepsMatch(l, n);
      } else {
        var mid := l.(bookings := l.bookings[id := l.bookings[id].(status := Confirmed)]);
        KeepingBillsKeepsMatch(l, mid);
        BillingKeepsBillsMatch(mid, id);
      }
    }
  }

  lemma InquiringKeepsBillsMatch(l: Ledger, op: Op)
    requires BillsMatch(l) && IdsBelowNext(l) && op.Inquire?
    ensures BillsMatch(Inquiring(l, op.signed, op.inquiry, op.place, op.actor, op.start, op.end).0)
  {
    KeepingBillsKeepsMatch(l, Inquiring(l, op.signed, op.inquiry, op.place, op.actor, op.start, op.end).0);
  }

  lemma OpeningKeepsBillsMatch(l: Ledger, op: Op)
    requires BillsMatch(l) && IdsBelowNext(l) && IsOpening(op)
    ensures BillsMatch(Apply(l, op).0)
  {
    match op
    case Create(who, dto) =>
      CreatingKeepsBillsMatch(l, who, dto);
      assert Apply(l, op).0 == Creating(l, who, dto).0;
    case Inquire(_, _, _, _, _, _) =>
      InquiringKeepsBillsMatch(l, op);
    case AcceptApplication(who, app, r) =>
      AcceptingKeepsBillsMatch(l, who, app, r);
      assert Apply(l, op).0 == Accepting(l, who, app, r).0;
  }

  /** Invoice `k` is the one of booking `id`: for its tenant, its price and its add-ons, line by line. */
  predicate BillOf(l: Ledger, id: nat, k: nat) {
    && id in l.bookings && k < |l.invoices|
    && l.bookings[id].invoice == Some(k) && l.invoices[k] == InvoiceFor(l.bookings[id], id)
  }

  lemma BilledHasBill(l: Ledger, id: nat)
    requires id in l.bookings
    ensures BillOf(Billed(l, id), id, |l.invoices|)
  {
  }

  lemma MovedHasBill(l: Ledger, id: nat, n: Ledger)
    requires MovedBills(l, id, n) && |n.invoices| > |l.invoices|
    ensures BillOf(n, id, |l.invoices|) && |n.invoices| == |l.invoices| + 1
  {
    BilledHasBill(l.(bookings := l.bookings[id := l.bookings[id].(status := Confirmed)]), id);
  }

  lemma CreatingHasBill(l: Ledger, who: Caller, dto: NewBooking)
    ensures var n := Creating(l, who, dto).0;
            |n.invoices| > |l.invoices| ==>
              BillOf(n, l.nextBooking, |l.invoices|) && |n.invoices| == |l.invoices| + 1
  {
    var n := Creating(l, who, dto).0;
    if |n.invoices| > |l.invoices| {
      var b := n.bookings[l.nextBooking].(invoice := None);
      assert n == Billed(Opened(l, b, |dto.addons|), l.nextBooking);
      BilledHasBill(Opened(l, b, |dto.addons|), l.nextBooking);
    }
  }

  lemma AcceptingHasBill(l: Ledger, who: Caller, app: nat, r: Option<nat>)
    ensures var n := Accepting(l, who, app, r).0;
            |n.invoices| > |l.invoices| ==>
              BillOf(n, l.nextBooking, |l.invoices|) && |n.invoices| == |l.invoices| + 1
  {
    var n := Accepting(l, who, app, r).0;
    if |n.invoices| > |l.invoices| {
      var b := n.bookings[l.nextBooking].(invoice := None);
      var closed := l.(spaces := n.spaces, applications := n.applications);
      assert n == Billed(Opened(closed, b, |l.applications[app].addons|), l.nextBooking);
      BilledHasBill(Opened(closed, b, |l.applications[app].addons|), l.nextBooking);
    }
  }

  lemma EditsIssueNothing(l: Ledger, op: Op)
    requires !IsMove(op) && !IsOpening(op) && !op.RecordInvoice?
    ensures Apply(l, op).0.invoices == l.invoices
  {
  }

  /** A call that issues an invoice issues one, and it is that of a booking. */
  lemma NewInvoiceIsABill(l: Ledger, op: Op) returns (id: nat)
    requires !op.RecordInvoice? && |Apply(l, op).0.invoices| > |l.invoices|
    ensures BillOf(Apply(l, op).0, id, |l.invoices|)
    ensures |Apply(l, op).0.invoices| == |l.invoices| + 1
  {
    if IsMove(op) {
      id := op.id;
      MoveShape(l, op);
      MovedHasBill(l, id, Apply(l, op).0);
    } else if op.Create? {
      id := l.nextBooking;
      CreatingHasBill(l, op.who, op.dto);
    } else if op.AcceptApplication? {
      id := l.nextBooking;
      AcceptingHasBill(l, op.who, op.app, op.receptionist);
    } else {
      id := 0;
      if !op.Inquire? { EditsIssueNothing(l, op); }
    }
  }

  lemma StepKeepsBillsMatch(l: Ledger, op: Op)
    requires BillsMatch(l) && IdsBelowNext(l)
    ensures BillsMatch(Apply(l, op).0)
  {
    if IsOpening(op) {
      OpeningKeepsBillsMatch(l, op);
    } else {
      StepShape(l, op);
      if IsMove(op) {
        MoveShape(l, op);
        MovedKeepsBillsMatch(l, op.id, Apply(l, op).0);
      } else {
        KeepingBillsKeepsMatch(l, Apply(l, op).0);
      }
    }
  }

  lemma RunStepKeepsBillsMatch(states: seq<Ledger>, ops: seq<Op>, i: nat)
    requires Execution(states, ops) && i < |ops|
    requires IdsBelowNext(states[i]) && BillsMatch(states[i])
    ensures BillsMatch(states[i + 1])
  {
    assert StepAt(states, ops, i);
    StepKeepsBillsMatch(states[i], ops[i]);
  }

  lemma {:induction false} RunKeepsBillsMatch(states: seq<Ledger>, ops: seq<Op>, m: nat)
    requires Execution(states, ops) && m < |states|
    requires IdsBelowNext(states[0]) && BillsMatch(states[0])
    ensures IdsBelowNext(states[m]) && BillsMatch(states[m])
  {
    if m > 0 {
      RunKeepsBillsMatch(states, ops, m - 1);
      RunStepKeepsIds(states, ops, m - 1);
      RunStepKeepsBillsMatch(states, ops, m - 1);
    }
  }

  /** Whatever the run of creations, approvals and acceptances, a booking is invoiced at most once,
      and the invoice's total is the sum of its lines. */
  lemma InvoicedAtMostOnce(states: seq<Ledger>, ops: seq<Op>, m: nat, j: nat, k: nat, id: nat)
    requires Execution(states, ops) && m < |states|
    requires IdsBelowNext(states[0]) && BillsMatch(states[0])
    requires j < |states[m].invoices| && k < |states[m].invoices|
    requires states[m].invoices[j].booking == Some(id) == states[m].invoices[k].booking
    ensures j == k
    ensures states[m].invoices[k].total == LineSum(states[m].invoices[k].lines)
  {
    RunKeepsBillsMatch(states, ops, m);
    assert GeneratedOk(states[m], k, id);
  }
}
