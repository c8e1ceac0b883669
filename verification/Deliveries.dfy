/** Marketplace deliveries: inquiries carry an id, and the booking made for one remembers it. */
module Deliveries {
  import opened Options
  import opened BookingLedger
  import opened BookingLaws
  import opened Traces

  predicate SameMarker(a: Booking, b: Booking) {
    a.inquiry.Some? && a.inquiry == b.inquiry
  }

  ghost predicate MarkersUnique(l: Ledger) {
    forall i, j :: i in l.bookings && j in l.bookings && SameMarker(l.bookings[i], l.bookings[j]) ==> i == j
  }

  /** Where the inquiry of a row comes from. */
  lemma ShapedMarker(l: Ledger, kind: Kind, n: Ledger, i: nat)
    requires Shaped(l, kind, n) && i in n.bookings
    ensures var b := n.bookings[i];
            b.inquiry.Some? ==>
              || (i in l.bookings && l.bookings[i].inquiry == b.inquiry)
              || (i == l.nextBooking && forall j :: j in l.bookings ==> l.bookings[j].inquiry != b.inquiry)
  {
  }

  lemma ShapedKeepsMarkersUnique(l: Ledger, kind: Kind, n: Ledger)
    requires Shaped(l, kind, n) && MarkersUnique(l)
    ensures MarkersUnique(n)
  {
    forall i, j | i in n.bookings && j in n.bookings && SameMarker(n.bookings[i], n.bookings[j])
      ensures i == j
    {
      ShapedMarker(l, kind, n, i);
      ShapedMarker(l, kind, n, j);
      assert i in l.bookings && j in l.bookings && SameMarker(l.bookings[i], l.bookings[j]) ==> i == j;
    }
  }

  lemma RunStepKeepsMarkersUnique(states: seq<Ledger>, ops: seq<Op>, i: nat)
    requires Execution(states, ops) && i < |ops|
    requires IdsBelowNext(states[i]) && MarkersUnique(states[i])
    ensures MarkersUnique(states[i + 1])
  {
    assert StepAt(states, ops, i);
    StepShape(states[i], ops[i]);
    ShapedKeepsMarkersUnique(states[i], KindOf(ops[i]), states[i + 1]);
  }

  lemma {:induction false} RunKeepsMarkersUnique(states: seq<Ledger>, ops: seq<Op>, m: nat)
    requires Execution(states, ops) && m < |states|
    requires IdsBelowNext(states[0]) && MarkersUnique(states[0])
    ensures MarkersUnique(states[m])
  {
    if m > 0 {
      RunKeepsMarkersUnique(states, ops, m - 1);
      RunKeepsIds(states, ops, m - 1);
      RunStepKeepsMarkersUnique(states, ops, m - 1);
    }
  }

  // ----- Redelivery ---------------------------------------------------------------------------

  /** Booking `id` is there and remembers the inquiry. */
  predicate Carries(l: Ledger, id: nat, inquiry: nat) {
    id in l.bookings && l.bookings[id].inquiry == Some(inquiry)
  }

  /** The calls that make a booking forget its inquiry, with their guards: deletion, rejection and
      refusal overwrite or delete the notes. */
  predicate Forgets(l: Ledger, op: Op, id: nat) {
    && id in l.bookings
    && match op
       case Remove(who, i) => i == id && who.sees
       case Reject(who, i) =>
         i == id && who.sees && Approver(who.role) && l.bookings[id].status == PendingApproval
       case MarkUnreachable(who, i) =>
         i == id && who.sees && WorkflowStaff(who.role) && l.bookings[id].status == PendingPhone
       case _ => false
  }

  predicate InquiryAfter(l: Ledger, n: Ledger, id: nat, forgets: bool)
    requires id in l.bookings
  {
    id in n.bookings && n.bookings[id].inquiry == if forgets then None else l.bookings[id].inquiry
  }

  lemma MovingForgetsNothing(l: Ledger, who: Caller, id: nat, allowed: bool, before: Status, after: Status)
    requires id in l.bookings
    ensures InquiryAfter(l, Moving(l, who, id, allowed, before, after).0, id, false)
  {
  }

  lemma ApprovingForgetsNothing(l: Ledger, who: Caller, id: nat)
    requires id in l.bookings
    ensures InquiryAfter(l, Approving(l, who, id).0, id, false)
  {
  }

  lemma OthersForgetNothing(l: Ledger, who: Caller, id: nat)
    requires id in l.bookings
    ensures InquiryAfter(l, Cancelling(l, who, id).0, id, false)
    ensures InquiryAfter(l, ConfirmingPhone(l, who, id).0, id, false)
    ensures InquiryAfter(l, Finalizing(l, who, id).0, id, false)
  {
  }

  lemma RejectForgets(l: Ledger, who: Caller, id: nat)
    requires id in l.bookings
    ensures InquiryAfter(l, Rejecting(l, who, id).0, id, Forgets(l, Reject(who, id), id))
  {
  }

  lemma RefusalForgets(l: Ledger, who: Caller, id: nat)
    requires id in l.bookings
    ensures InquiryAfter(l, RefusingUnreachable(l, who, id).0, id, Forgets(l, MarkUnreachable(who, id), id))
  {
  }

  lemma MoveForgets(l: Ledger, op: Op)
    requires IsMove(op) && op.id in l.bookings
    ensures InquiryAfter(l, Apply(l, op).0, op.id, Forgets(l, op, op.id))
  {
    match op
    case Approve(who, id) => ApprovingForgetsNothing(l, who, id);
    case Reject(who, id) => RejectForgets(l, who, id);
    case Cancel(who, id) => OthersForgetNothing(l, who, id);
    case CheckIn(who, id) => MovingForgetsNothing(l, who, id, true, Confirmed, CheckedIn);
    case CheckOut(who, id) => MovingForgetsNothing(l, who, id, true, CheckedIn, Completed);
    case ConfirmPhone(who, id) => OthersForgetNothing(l, who, id);
    case MarkUnreachable(who, id) => RefusalForgets(l, who, id);
    case MarkDocumentsPending(who, id) =>
      MovingForgetsNothing(l, who, id, WorkflowStaff(who.role), AwaitingVisit, DocumentsPending);
    case Finalize(who, id) => OthersForgetNothing(l, who, id);
  }

  lemma MovedCarriesIff(l: Ledger, moved: nat, n: Ledger, id: nat, inquiry: nat, forgets: bool)
    requires Moved(l, moved, n)
    requires id == moved && id in l.bookings ==>
               n.bookings[id].inquiry == if forgets then None else l.bookings[id].inquiry
    requires id != moved ==> !forgets
    ensures Carries(n, id, inquiry) <==> Carries(l, id, inquiry) && !forgets
  {
  }

  lemma MoveCarriesIff(l: Ledger, op: Op, id: nat, inquiry: nat)
    requires IsMove(op) && Moved(l, op.id, Apply(l, op).0)
    ensures Carries(Apply(l, op).0, id, inquiry) <==> Carries(l, id, inquiry) && !Forgets(l, op, id)
  {
    if op.id in l.bookings { MoveForgets(l, op); }
    MovedCarriesIff(l, op.id, Apply(l, op).0, id, inquiry, Forgets(l, op, id));
  }

  /** Which rows an editing call deletes. */
  lemma EditForgets(l: Ledger, op: Op, id: nat)
    requires !IsMove(op) && !IsOpening(op)
    ensures id in Apply(l, op).0.bookings <==> id in l.bookings && !Forgets(l, op, id)
  {
    match op
    case Reschedule(who, i, s, e) => assert Rescheduling(l, who, i, s, e).0.bookings.Keys == l.bookings.Keys;
    case AddDocument(who, i, kind) => assert AddingDocument(l, who, i, kind).0.bookings.Keys == l.bookings.Keys;
    case RemoveDocument(who, i, k) => assert RemovingDocument(l, who, i, k).0.bookings.Keys == l.bookings.Keys;
    case AddAddon(who, i, a, q, p) => assert AddingAddon(l, who, i, a, q, p).0.bookings.Keys == l.bookings.Keys;
    case RemoveAddon(who, i, a) => assert RemovingAddon(l, who, i, a).0.bookings.Keys == l.bookings.Keys;
    case Remove(_, _) =>
    case RecordInvoice(_, _, _, _) =>
  }

  lemma EditedCarriesIff(l: Ledger, times: bool, addons: bool, n: Ledger, id: nat, inquiry: nat)
    requires Edited(l, times, addons, n)
    ensures Carries(n, id, inquiry) <==> Carries(l, id, inquiry) && id in n.bookings
  {
  }

  lemma GrownCarriesIff(l: Ledger, delivered: Option<nat>, n: Ledger, id: nat, inquiry: nat)
    requires Grown(l, delivered, n) && id < l.nextBooking
    ensures Carries(n, id, inquiry) <==> Carries(l, id, inquiry)
  {
  }

  lemma StepCarriesIff(l: Ledger, op: Op, id: nat, inquiry: nat)
    requires IdsBelowNext(l) && id < l.nextBooking
    ensures Carries(Apply(l, op).0, id, inquiry) <==> Carries(l, id, inquiry) && !Forgets(l, op, id)
  {
    var n := Apply(l, op).0;
    StepShape(l, op);
    if IsMove(op) {
      MoveCarriesIff(l, op, id, inquiry);
    } else if IsOpening(op) {
      GrownCarriesIff(l, Delivered(op), n, id, inquiry);
    } else {
      EditForgets(l, op, id);
      EditedCarriesIff(l, op.Reschedule?, op.AddAddon? || op.RemoveAddon?, n, id, inquiry);
    }
  }

  lemma RunStepCarriesIff(states: seq<Ledger>, ops: seq<Op>, i: nat, id: nat, inquiry: nat)
    requires Execution(states, ops) && i < |ops|
    requires IdsBelowNext(states[i]) && id < states[i].nextBooking
    ensures Carries(states[i + 1], id, inquiry) <==> Carries(states[i], id, inquiry) && !Forgets(states[i], ops[i], id)
  {
    assert StepAt(states, ops, i);
    StepCarriesIff(states[i], ops[i], id, inquiry);
  }

  lemma {:induction false} CarryingChains(states: seq<Ledger>, forgets: seq<bool>, id: nat, q: nat, k: nat, m: nat)
    requires k <= m < |states| == |forgets| + 1 && Carries(states[k], id, q)
    requires forall j :: k <= j < m ==> (Carries(states[j + 1], id, q) <==> Carries(states[j], id, q) && !forgets[j])
    ensures Carries(states[m], id, q) <==> forall j :: k <= j < m ==> !forgets[j]
    decreases m - k
  {
    if k < m {
      CarryingChains(states, forgets, id, q, k, m - 1);
      assert Carries(states[m - 1 + 1], id, q) <==> Carries(states[m - 1], id, q) && !forgets[m - 1];
    }
  }

  lemma CarriesIffNeverForgot(states: seq<Ledger>, ops: seq<Op>, id: nat, q: nat, k: nat, m: nat)
    requires Execution(states, ops) && k <= m < |states|
    requires IdsBelowNext(states[0]) && Carries(states[k], id, q)
    ensures Carries(states[m], id, q) <==> forall j :: k <= j < m ==> !Forgets(states[j], ops[j], id)
  {
    RunKeepsIds(states, ops, k);
    var forgets := seq(|ops|, j requires 0 <= j < |ops| => Forgets(states[j], ops[j], id));
    forall j | k <= j < m
      ensures Carries(states[j + 1], id, q) <==> Carries(states[j], id, q) && !forgets[j]
    {
      RunKeepsIds(states, ops, j);
      NextOnlyGrows(states, ops, k, j);
      RunStepCarriesIff(states, ops, j, id, q);
    }
    CarryingChains(states, forgets, id, q, k, m);
    assert forall j :: k <= j < m ==> forgets[j] == Forgets(states[j], ops[j], id);
  }

  lemma RunFirstDelivery(states: seq<Ledger>, ops: seq<Op>, k: nat)
    requires Execution(states, ops) && k < |ops|
    requires ops[k].Inquire? && Apply(states[k], ops[k]).1.Done?
    ensures Carries(states[k + 1], states[k].nextBooking, ops[k].inquiry)
  {
    assert StepAt(states, ops, k);
    FirstDeliveryCarries(states[k], ops[k]);
  }

  lemma FirstDeliveryCarries(l: Ledger, op: Op)
    requires op.Inquire? && Apply(l, op).1.Done?
    ensures Carries(Apply(l, op).0, l.nextBooking, op.inquiry)
  {
  }

  /** What a signed delivery does when a booking already carries the inquiry. */
  lemma DuplicateIffCarried(l: Ledger, again: Op, id: nat)
    requires MarkersUnique(l) && again.Inquire? && again.signed
    ensures Apply(l, again) == (l, Duplicate(id)) <==> Carries(l, id, again.inquiry)
  {
    if Carries(l, id, again.inquiry) {
      assert forall j :: j in l.bookings && l.bookings[j].inquiry == Some(again.inquiry) ==>
          SameMarker(l.bookings[id], l.bookings[j]);
    }
  }

  /** However long the run in between: delivering a booked inquiry again changes nothing and names the
      first booking if and only if no call since deleted, rejected or refused that booking. */
  lemma RedeliveryIff(states: seq<Ledger>, ops: seq<Op>, k: nat, m: nat, again: Op)
    requires Execution(states, ops) && k < m < |states|
    requires IdsBelowNext(states[0]) && MarkersUnique(states[0])
    requires ops[k].Inquire? && Apply(states[k], ops[k]).1.Done?
    requires again.Inquire? && again.signed && again.inquiry == ops[k].inquiry
    ensures var id := states[k].nextBooking;
            Apply(states[m], again) == (states[m], Duplicate(id)) <==>
              forall j :: k < j < m ==> !Forgets(states[j], ops[j], id)
  {
    var id := states[k].nextBooking;
    RunFirstDelivery(states, ops, k);
    CarriesIffNeverForgot(states, ops, id, again.inquiry, k + 1, m);
    RunKeepsMarkersUnique(states, ops, m);
    DuplicateIffCarried(states[m], again, id);
  }

  lemma FreeInquiryBooks(l: Ledger, op: Op)
    requires op.Inquire? && op.signed && op.actor.Some? && op.start < op.end
    requires op.place.Some? && op.place.value in l.spaces
    requires forall i :: i in l.bookings ==>
               l.bookings[i].inquiry != Some(op.inquiry) && l.bookings[i].status == Cancelled
    ensures var n := Inquiring(l, op.signed, op.inquiry, op.place, op.actor, op.start, op.end).0;
            && n.spaces == l.spaces && n.nextBooking == l.nextBooking + 1
            && l.nextBooking in n.bookings && n.bookings == l.bookings[l.nextBooking := n.bookings[l.nextBooking]]
            && n.bookings[l.nextBooking].status == PendingApproval
            && n.bookings[l.nextBooking].inquiry == Some(op.inquiry)
  {
  }

  lemma DeliverInRun(states: seq<Ledger>, ops: seq<Op>, op: Op) returns (n: Ledger)
    requires Execution(states, ops)
    requires op.Inquire? && op.signed && op.actor.Some? && op.start < op.end
    requires op.place.Some? && op.place.value in states[|ops|].spaces
    requires forall i :: i in states[|ops|].bookings ==>
               states[|ops|].bookings[i].inquiry != Some(op.inquiry) && states[|ops|].bookings[i].status == Cancelled
    ensures Execution(states + [n], ops + [op])
    ensures var l := states[|ops|];
            && n.spaces == l.spaces && n.nextBooking == l.nextBooking + 1
            && l.nextBooking in n.bookings && n.bookings == l.bookings[l.nextBooking := n.bookings[l.nextBooking]]
            && n.bookings[l.nextBooking].status == PendingApproval
            && n.bookings[l.nextBooking].inquiry == Some(op.inquiry)
  {
    n := ExtendRun(states, ops, op);
    FreeInquiryBooks(states[|ops|], op);
  }

  lemma RejectInRun(states: seq<Ledger>, ops: seq<Op>, id: nat, who: Caller) returns (n: Ledger)
    requires Execution(states, ops)
    requires id in states[|ops|].bookings && states[|ops|].bookings[id].status == PendingApproval
    requires who.sees && who.role == Manager
    ensures Execution(states + [n], ops + [Reject(who, id)])
    ensures var l := states[|ops|];
            && n.spaces == l.spaces && n.nextBooking == l.nextBooking
            && n.bookings == l.bookings[id := l.bookings[id].(status := Cancelled, inquiry := None)]
  {
    n := ExtendRun(states, ops, Reject(who, id));
    assert n == Rejecting(states[|ops|], who, id).0;
  }

  /** Deliver, reject, deliver: the second delivery books again, and the inquiry has had two bookings. */
  lemma RejectedInquiryBooksAgain() returns (states: seq<Ledger>, ops: seq<Op>)
    ensures Execution(states, ops) && |ops| == 3
    ensures IdsBelowNext(states[0]) && MarkersUnique(states[0]) && states[0].bookings == map[]
    ensures ops[0].Inquire? && ops[2] == ops[0]
    ensures Carries(states[1], 0, ops[0].inquiry) && Carries(states[3], 1, ops[0].inquiry)
    ensures states[3].bookings.Keys == {0, 1}
  {
    var a := Ledger(map[], map[0 := Space(0, false, 100, Available, true)], map[], {}, map[], [], 0, 0);
    var inquiry := Inquire(true, 7, Some(0), Some(5), 0, 10);
    var who := Caller(9, Manager, 0, true);
    states, ops := [a], [];
    var b := DeliverInRun(states, ops, inquiry);
    states, ops := states + [b], ops + [inquiry];
    var c := RejectInRun(states, ops, 0, who);
    states, ops := states + [c], ops + [Reject(who, 0)];
    var d := DeliverInRun(states, ops, inquiry);
    states, ops := states + [d], ops + [inquiry];
  }
}
