/** The booking service: each call reads rows, checks them and overwrites them in place. */
module BookingService {
  import opened Options
  import opened BookingLedger
  import BookingAnswers
  import Calendar

  /** `generateInvoiceFromBooking`: one line for the space, one per add-on, and their running total. */
  method GenerateInvoice(b: Booking, id: nat) returns (invoice: Invoice)
    ensures invoice == InvoiceFor(b, id)
  {
    var totalAmount := b.totalPrice;
    var lineItems := [Line(1, b.totalPrice, b.totalPrice)];
    var i := 0;
    while i < |b.addOns|
      invariant 0 <= i <= |b.addOns|
      invariant totalAmount == b.totalPrice + AddonSum(b.addOns[..i])
      invariant lineItems == [Line(1, b.totalPrice, b.totalPrice)] + AddonLines(b.addOns)[..i]
    {
      var addonTotal := b.addOns[i].quantity * b.addOns[i].unitPrice;
      assert b.addOns[..i + 1][..i] == b.addOns[..i];
      totalAmount := totalAmount + addonTotal;
      lineItems := lineItems + [Line(b.addOns[i].quantity, b.addOns[i].unitPrice, addonTotal)];
      i := i + 1;
    }
    assert b.addOns[..i] == b.addOns;
    invoice := Invoice(b.tenant, lineItems, totalAmount, totalAmount, Some(id));
  }

  /** The application's add-ons, copied row by row under new ids. */
  method CopyAddons(addons: seq<Addon>, first: nat) returns (copies: seq<Addon>)
    ensures copies == CopiedAddons(addons, first)
  {
    copies := [];
    var i := 0;
    while i < |addons|
      invariant 0 <= i <= |addons|
      invariant copies == CopiedAddons(addons, first)[..i]
    {
      copies := copies + [addons[i].(id := first + i)];
      i := i + 1;
    }
  }

  class BookingDesk {
    var bookings: map<nat, Booking>
    var spaces: map<nat, Space>
    var services: map<nat, Service>
    var links: set<(nat, nat)>
    var applications: map<nat, Application>
    var invoices: seq<Invoice>
    var nextBooking: nat
    var nextAddon: nat

    function State(): Ledger
      reads this
    {
      Ledger(bookings, spaces, services, links, applications, invoices, nextBooking, nextAddon)
    }

    method CheckAvailability(space: nat, start: int, end: int, exclude: Option<nat>) returns (free: bool)
      ensures free <==> !Clashes(State(), space, start, end, exclude)
      ensures free <==> BookingAnswers.RoomFor(State(), space, start, end, exclude)
    {
      BookingAnswers.RoomIffNoClash(State(), space, start, end, exclude);
      var conflicts := set i | i in bookings && exclude != Some(i)
                               && bookings[i].space == space && Live(bookings[i])
                               && bookings[i].start <= end && bookings[i].end >= start;
      free := conflicts == {};
      assert forall i :: i in conflicts ==> i in bookings;
      if Clashes(State(), space, start, end, exclude) {
        var i :| i in bookings && exclude != Some(i) && bookings[i].space == space && Live(bookings[i])
                 && bookings[i].start <= end && start <= bookings[i].end;
        assert i in conflicts;
      }
    }

    method ResolveBookingAddons(space: nat, months: int, addons: seq<Wanted>) returns (rows: Option<seq<Addon>>)
      ensures rows == ResolvedAddons(State(), space, months, addons)
    {
      var byId := map s | s in services && services[s].active
                          && ((space, s) in links || (space in spaces && services[s].tenant == spaces[space].owner))
                        :: services[s];
      var resolved: seq<Addon> := [];
      var i := 0;
      while i < |addons|
        invariant 0 <= i <= |addons|
        invariant ResolvedAddons(State(), space, months, addons[..i]) == Some(resolved)
      {
        var item := addons[i];
        assert addons[..i + 1][..i] == addons[..i];
        if item.service !in byId {
          assert ResolvedAddons(State(), space, months, addons[..i + 1]).None?;
          UnavailableStays(State(), space, months, addons, i + 1);
          return None;
        }
        var service := byId[item.service];
        resolved := resolved + [Addon(nextAddon + i, item.service, item.quantity,
                                      UnitPriceForLease(service.price, service.cycle, months))];
        i := i + 1;
      }
      assert addons[..i] == addons;
      rows := Some(resolved);
    }

    method Insert(b: Booking, addons: nat) returns (id: nat)
      modifies this`bookings, this`nextBooking, this`nextAddon
      ensures id == old(nextBooking) && State() == Opened(old(State()), b, addons)
    {
      id := nextBooking;
      bookings := bookings[id := b];
      nextBooking := nextBooking + 1;
      nextAddon := nextAddon + addons;
    }

    method Bill(id: nat)
      requires id in bookings
      modifies this`bookings, this`invoices
      ensures State() == Billed(old(State()), id)
    {
      var invoice := GenerateInvoice(bookings[id], id);
      bookings := bookings[id := bookings[id].(invoice := Some(|invoices|))];
      invoices := invoices + [invoice];
    }

    method IssueBookingInvoice(id: nat)
      requires id in bookings
      modifies this`bookings, this`invoices
      ensures State() == Issued(old(State()), id)
    {
      if bookings[id].invoice.Some? { return; }
      Bill(id);
    }

    method Create(who: Caller, dto: NewBooking) returns (reply: Reply)
      modifies this
      ensures (State(), reply) == Creating(old(State()), who, dto)
    {
      if who.role != SuperAdmin && who.role != Finance {
        if dto.tenant != who.tenant { return Rejected(Forbidden); }
        if who.role == TenantEmployee && dto.creator != who.id { return Rejected(Forbidden); }
      }
      if dto.space !in spaces { return Rejected(NotFound); }
      var free := CheckAvailability(dto.space, dto.start, dto.end, None);
      if !free { return Rejected(Conflict); }
      var durationMonths := DurationMonths(dto.start, dto.end);
      var rows := ResolveBookingAddons(dto.space, durationMonths, dto.addons);
      if rows.None? { return Rejected(BadRequest); }
      var addonsTotal := AddonSum(rows.value);
      var status := if PortalBooker(who.role) then PendingApproval
                    else if spaces[dto.space].requiresApproval then PendingApproval else Confirmed;
      var finalStatus := if PortalBooker(who.role) then PendingApproval
                         else if dto.status.Some? then dto.status.value else status;
      var id := Insert(Booking(dto.tenant, dto.creator, dto.space, dto.start, dto.end, finalStatus,
                               dto.price + addonsTotal, dto.price, rows.value, None, None, None, []), |dto.addons|);
      if bookings[id].status == Confirmed { IssueBookingInvoice(id); }
      reply := Done;
    }

    method HandleInquiry(signed: bool, inquiry: nat, place: Option<nat>, actor: Option<nat>, start: int, end: int)
      returns (reply: Reply)
      requires forall i, j | i in bookings && j in bookings ::
                 bookings[i].inquiry == Some(inquiry) == bookings[j].inquiry ==> i == j
      modifies this
      ensures (State(), reply) == Inquiring(old(State()), signed, inquiry, place, actor, start, end)
    {
      if !signed { return Rejected(Forbidden); }
      var existing := set i | i in bookings && bookings[i].inquiry == Some(inquiry);
      if existing != {} {
        var i :| i in existing;
        return Duplicate(i);
      }
      assert forall i :: i in bookings && bookings[i].inquiry == Some(inquiry) ==> i in existing;
      if place.None? || place.value !in spaces { return Rejected(BadRequest); }
      if actor.None? { return Rejected(BadRequest); }
      if !(start < end) { return Rejected(BadRequest); }
      var conflicts := set i | i in bookings && bookings[i].space == place.value
                               && bookings[i].status != Cancelled && bookings[i].status != NoShow
                               && bookings[i].start < end && bookings[i].end > start;
      if conflicts != {} {
        var i :| i in conflicts;
        assert HalfOpenOverlap(bookings[i], start, end);
        return Rejected(Conflict);
      }
      assert !InquiryClashes(State(), place.value, start, end) by {
        forall i | i in bookings && bookings[i].space == place.value
                   && bookings[i].status != Cancelled && bookings[i].status != NoShow
          ensures !HalfOpenOverlap(bookings[i], start, end)
        {
          assert i !in conflicts;
        }
      }
      var id := Insert(Booking(spaces[place.value].owner, actor.value, place.value, start, end,
                               PendingApproval, 0, 0, [], None, None, Some(inquiry), []), 0);
      reply := Done;
    }

    /** The common prologue of every call on one booking: the access policy, then the row. */
    method FindOneForUser(who: Caller, id: nat) returns (error: Option<Error>)
      ensures error.None? <==> who.sees && id in bookings
      ensures error == Some(Forbidden) <==> !who.sees
      ensures error == Some(NotFound) <==> who.sees && id !in bookings
    {
      if !who.sees { return Some(Forbidden); }
      if id !in bookings { return Some(NotFound); }
      error := None;
    }

    method Update(who: Caller, id: nat, start: Option<int>, end: Option<int>) returns (reply: Reply)
      modifies this`bookings
      ensures (State(), reply) == Rescheduling(old(State()), who, id, start, end)
    {
      var error := FindOneForUser(who, id);
      if error.Some? { return Rejected(error.value); }
      var booking := bookings[id];
      if start.Some? && end.Some? {
        var free := CheckAvailability(booking.space, start.value, end.value, Some(id));
        if !free { return Rejected(Conflict); }
      }
      if start.Some? { booking := booking.(start := start.value); }
      if end.Some? { booking := booking.(end := end.value); }
      bookings := bookings[id := booking];
      reply := Done;
    }

    method Approve(who: Caller, id: nat) returns (reply: Reply)
      modifies this`bookings, this`invoices
      ensures (State(), reply) == Approving(old(State()), who, id)
    {
      if !Approver(who.role) { return Rejected(Forbidden); }
      var error := FindOneForUser(who, id);
      if error.Some? { return Rejected(error.value); }
      if bookings[id].status == Confirmed { return Done; }
      if bookings[id].status != PendingApproval { return Rejected(BadRequest); }
      bookings := bookings[id := bookings[id].(status := Confirmed)];
      IssueBookingInvoice(id);
      reply := Done;
    }

    method Reject(who: Caller, id: nat) returns (reply: Reply)
      modifies this`bookings
      ensures (State(), reply) == Rejecting(old(State()), who, id)
    {
      if !Approver(who.role) { return Rejected(Forbidden); }
      var error := FindOneForUser(who, id);
      if error.Some? { return Rejected(error.value); }
      if bookings[id].status != PendingApproval { return Rejected(BadRequest); }
      bookings := bookings[id := bookings[id].(status := Cancelled, inquiry := None)];
      assert bookings == old(bookings)[id := old(bookings)[id].(status := Cancelled)][id := bookings[id]];
      reply := Done;
    }

    method Cancel(who: Caller, id: nat) returns (reply: Reply)
      modifies this`bookings
      ensures (State(), reply) == Cancelling(old(State()), who, id)
    {
      var error := FindOneForUser(who, id);
      if error.Some? { return Rejected(error.value); }
      if bookings[id].status == Cancelled { return Rejected(BadRequest); }
      bookings := bookings[id := bookings[id].(status := Cancelled)];
      reply := Done;
    }

    method CheckIn(who: Caller, id: nat) returns (reply: Reply)
      modifies this`bookings
      ensures (State(), reply) == Apply(old(State()), Op.CheckIn(who, id))
    {
      var error := FindOneForUser(who, id);
      if error.Some? { return Rejected(error.value); }
      if bookings[id].status != Confirmed { return Rejected(BadRequest); }
      bookings := bookings[id := bookings[id].(status := CheckedIn)];
      reply := Done;
    }

    method CheckOut(who: Caller, id: nat) returns (reply: Reply)
      modifies this`bookings
      ensures (State(), reply) == Apply(old(State()), Op.CheckOut(who, id))
    {
      var error := FindOneForUser(who, id);
      if error.Some? { return Rejected(error.value); }
      if bookings[id].status != CheckedIn { return Rejected(BadRequest); }
      bookings := bookings[id := bookings[id].(status := Completed)];
      reply := Done;
    }

    method AddAddon(who: Caller, id: nat, service: nat, quantity: int, unitPrice: int) returns (reply: Reply)
      modifies this`bookings, this`nextAddon
      ensures (State(), reply) == AddingAddon(old(State()), who, id, service, quantity, unitPrice)
    {
      var error := FindOneForUser(who, id);
      if error.Some? { return Rejected(error.value); }
      if service !in services { return Rejected(BadRequest); }
      var row := Addon(nextAddon, service, quantity, unitPrice);
      bookings := bookings[id := bookings[id].(addOns := bookings[id].addOns + [row])];
      nextAddon := nextAddon + 1;
      reply := Done;
    }

    method RemoveAddon(who: Caller, id: nat, addon: nat) returns (reply: Reply)
      modifies this`bookings
      ensures (State(), reply) == RemovingAddon(old(State()), who, id, addon)
    {
      var error := FindOneForUser(who, id);
      if error.Some? { return Rejected(error.value); }
      if forall i, k :: i in bookings && 0 <= k < |bookings[i].addOns| ==> bookings[i].addOns[k].id != addon {
        return Rejected(NotFound);
      }
      bookings := map i | i in bookings :: bookings[i].(addOns := WithoutAddon(bookings[i].addOns, addon));
      reply := Done;
    }

    method Remove(who: Caller, id: nat) returns (reply: Reply)
      modifies this`bookings
      ensures (State(), reply) == Removing(old(State()), who, id)
    {
      var error := FindOneForUser(who, id);
      if error.Some? { return Rejected(error.value); }
      bookings := bookings - {id};
      reply := Done;
    }

    method ConfirmPhoneCall(who: Caller, id: nat) returns (reply: Reply)
      modifies this`bookings
      ensures (State(), reply) == ConfirmingPhone(old(State()), who, id)
    {
      if !WorkflowStaff(who.role) { return Rejected(Forbidden); }
      var error := FindOneForUser(who, id);
      if error.Some? { return Rejected(error.value); }
      if bookings[id].status != PendingPhone { return Rejected(BadRequest); }
      if who.role == Receptionist && bookings[id].receptionist.Some? && bookings[id].receptionist.value != who.id {
        return Rejected(Forbidden);
      }
      bookings := bookings[id := bookings[id].(status := AwaitingVisit)];
      reply := Done;
    }

    method MarkPhoneUnreachable(who: Caller, id: nat) returns (reply: Reply)
      modifies this`bookings, this`spaces
      ensures (State(), reply) == RefusingUnreachable(old(State()), who, id)
    {
      if !WorkflowStaff(who.role) { return Rejected(Forbidden); }
      var error := FindOneForUser(who, id);
      if error.Some? { return Rejected(error.value); }
      if bookings[id].status != PendingPhone { return Rejected(BadRequest); }
      spaces := WithSpace(spaces, bookings[id].space, Available, false);
      bookings := bookings[id := bookings[id].(status := Refused, inquiry := None)];
      assert bookings == old(bookings)[id := old(bookings)[id].(status := Refused)][id := bookings[id]];
      reply := Done;
    }

    method MarkDocumentsPending(who: Caller, id: nat) returns (reply: Reply)
      modifies this`bookings
      ensures (State(), reply) == Apply(old(State()), Op.MarkDocumentsPending(who, id))
    {
      if !WorkflowStaff(who.role) { return Rejected(Forbidden); }
      var error := FindOneForUser(who, id);
      if error.Some? { return Rejected(error.value); }
      if bookings[id].status != AwaitingVisit { return Rejected(BadRequest); }
      bookings := bookings[id := bookings[id].(status := DocumentsPending)];
      reply := Done;
    }

    method AddDocument(who: Caller, id: nat, kind: DocumentType) returns (reply: Reply)
      modifies this`bookings
      ensures (State(), reply) == AddingDocument(old(State()), who, id, kind)
    {
      if !WorkflowStaff(who.role) { return Rejected(Forbidden); }
      var error := FindOneForUser(who, id);
      if error.Some? { return Rejected(error.value); }
      if |bookings[id].documents| >= 5 { return Rejected(BadRequest); }
      bookings := bookings[id := bookings[id].(documents := bookings[id].documents + [kind])];
      reply := Done;
    }

    method RemoveDocument(who: Caller, id: nat, index: nat) returns (reply: Reply)
      modifies this`bookings
      ensures (State(), reply) == RemovingDocument(old(State()), who, id, index)
    {
      if !WorkflowStaff(who.role) { return Rejected(Forbidden); }
      var error := FindOneForUser(who, id);
      if error.Some? { return Rejected(error.value); }
      if index >= |bookings[id].documents| { return Rejected(NotFound); }
      var docs := bookings[id].documents;
      bookings := bookings[id := bookings[id].(documents := docs[..index] + docs[index + 1..])];
      reply := Done;
    }

    method FinalizeBooking(who: Caller, id: nat) returns (reply: Reply)
      modifies this`bookings, this`spaces
      ensures (State(), reply) == Finalizing(old(State()), who, id)
    {
      if !Approver(who.role) { return Rejected(Forbidden); }
      var error := FindOneForUser(who, id);
      if error.Some? { return Rejected(error.value); }
      if bookings[id].status != DocumentsPending { return Rejected(BadRequest); }
      if SignedLeaseContract !in bookings[id].documents && Contract !in bookings[id].documents {
        return Rejected(BadRequest);
      }
      spaces := WithSpace(spaces, bookings[id].space, Reserved, true);
      bookings := bookings[id := bookings[id].(status := Active)];
      reply := Done;
    }

    /** `accept` of the application service. */
    method AcceptApplication(who: Caller, app: nat, receptionist: Option<nat>) returns (reply: Reply)
      modifies this
      ensures (State(), reply) == Accepting(old(State()), who, app, receptionist)
    {
      if !Approver(who.role) { return Rejected(Forbidden); }
      if app !in applications { return Rejected(NotFound); }
      var a := applications[app];
      if !(who.role == SuperAdmin || (a.space in spaces && spaces[a.space].owner == who.tenant) || who.sees) {
        return Rejected(Forbidden);
      }
      if !a.pending { return Rejected(BadRequest); }
      if a.space !in spaces { return Rejected(NotFound); }
      if a.applicant.None? { return Rejected(BadRequest); }
      OpenWorkflow(app, receptionist);
      reply := Done;
    }

    /** The transaction of an acceptance, and the invoice issued after it. */
    method OpenWorkflow(app: nat, receptionist: Option<nat>)
      requires app in applications && applications[app].space in spaces && applications[app].applicant.Some?
      modifies this
      ensures State() == Accepted(old(State()), app, receptionist)
    {
      var a := applications[app];
      var endTime := Calendar.AddMonths(a.start, a.months);
      var spaceRent := spaces[a.space].monthlyRate * a.months;
      var addonsTotal := AddonSum(a.addons);
      var copies := CopyAddons(a.addons, nextAddon);
      spaces := WithSpace(spaces, a.space, Reserved, false);
      applications := applications[app := a.(pending := false, booking := Some(nextBooking))];
      var id := Insert(Booking(a.applicant.value.0, a.applicant.value.1, a.space, a.start, endTime, PendingPhone,
                               spaceRent + addonsTotal, spaceRent, copies, None, receptionist, None, []), |a.addons|);
      Bill(id);
    }
  }

  lemma {:induction false} UnavailableStays(l: Ledger, space: nat, months: int, wanted: seq<Wanted>, i: nat)
    requires i <= |wanted|
    requires ResolvedAddons(l, space, months, wanted[..i]).None?
    ensures ResolvedAddons(l, space, months, wanted).None?
    decreases |wanted| - i
  {
    if i < |wanted| {
      assert wanted[..i + 1][..i] == wanted[..i];
      UnavailableStays(l, space, months, wanted, i + 1);
    } else {
      assert wanted[..i] == wanted;
    }
  }
}
