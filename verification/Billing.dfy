/** Invoices, payments and overdue reminders. Rows are numbered by position; money is in cents. */
module Billing {
  import opened Options
  import opened Calendar
  import L = BookingLedger

  datatype InvoiceStatus = Draft | Issued | Sent | PartiallyPaid | Paid | Overdue | Cancelled

  datatype PaymentStatus = Pending | Completed | Failed | Refunded

  /** `reachable` tells whether the tenant has a contact address. */
  datatype Invoice = Invoice(
    tenant: nat, total: int, due: Option<int>, status: InvoiceStatus, reminderMaxDay: int, reachable: bool)

  datatype Payment = Payment(invoice: nat, amount: nat, status: PaymentStatus)

  /** What went out: an overdue reminder, or the notice of full payment that resets the reminders. */
  datatype Event = Reminded(invoice: nat, tier: int, at: int) | PaidUp(invoice: nat)

  datatype Book = Book(invoices: seq<Invoice>, payments: seq<Payment>, log: seq<Event>)

  datatype Error = Forbidden | NotFound | BadRequest

  datatype Reply = Done | Rejected(error: Error)

  const TIERS: seq<int> := [1, 7, 14]

  predicate ClientBilling(r: L.Role) {
    r == L.ClientAdmin || r == L.Manager || r == L.Finance
  }

  // ----- Status of an invoice -----------------------------------------------------------------

  /** Sum of the completed payments of an invoice. */
  function PaidSum(payments: seq<Payment>, invoice: nat): nat {
    if payments == [] then 0
    else
      var p := payments[|payments| - 1];
      PaidSum(payments[..|payments| - 1], invoice)
      + (if p.invoice == invoice && p.status == Completed then p.amount else 0)
  }

  function StatusFor(invoice: Invoice, totalPaid: nat): InvoiceStatus {
    if totalPaid >= invoice.total then Paid
    else if totalPaid > 0 then PartiallyPaid
    else invoice.status
  }

  /** `updateInvoiceStatus` */
  function Recomputed(b: Book, i: nat): Book
    requires i < |b.invoices|
  {
    var status := StatusFor(b.invoices[i], PaidSum(b.payments, i));
    if status == Paid
    then b.(invoices := b.invoices[i := b.invoices[i].(status := status, reminderMaxDay := 0)],
            log := b.log + [PaidUp(i)])
    else b.(invoices := b.invoices[i := b.invoices[i].(status := status)])
  }

  // ----- What each call does ------------------------------------------------------------------

  function Opening(b: Book, invoice: Invoice): Book {
    b.(invoices := b.invoices + [invoice.(reminderMaxDay := 0)])
  }

  /** An invoice generated for a booking is issued at once and due in 30 days. */
  function FromBooking(bill: L.Invoice, now: int, reachable: bool): Invoice {
    Invoice(bill.tenant, bill.total, Some(now + 30 * DAY), Issued, 0, reachable)
  }

  function WithStatus(b: Book, i: nat, status: InvoiceStatus): Book
    requires i < |b.invoices|
  {
    b.(invoices := b.invoices[i := b.invoices[i].(status := status)])
  }

  function Sending(b: Book, who: L.Caller, i: nat): (Book, Reply) {
    if i >= |b.invoices| then (b, Rejected(NotFound))
    else if !who.sees then (b, Rejected(Forbidden))
    else if b.invoices[i].status != Issued && b.invoices[i].status != Draft then (b, Rejected(BadRequest))
    else (WithStatus(b, i, Sent), Done)
  }

  function Cancelling(b: Book, who: L.Caller, i: nat): (Book, Reply) {
    if i >= |b.invoices| then (b, Rejected(NotFound))
    else if !who.sees then (b, Rejected(Forbidden))
    else if b.invoices[i].status == Paid || b.invoices[i].status == Cancelled then (b, Rejected(BadRequest))
    else (WithStatus(b, i, Cancelled), Done)
  }

  predicate HasPending(payments: seq<Payment>, i: nat) {
    exists k :: 0 <= k < |payments| && payments[k].invoice == i && payments[k].status == Pending
  }

  /** A renter's payment waits for confirmation, one at a time; billing staff may record either kind. */
  function Paying(b: Book, who: L.Caller, i: nat, tenant: nat, amount: nat, pending: bool): (Book, Reply) {
    if i >= |b.invoices| then (b, Rejected(NotFound))
    else if b.invoices[i].status == Cancelled || b.invoices[i].status == Paid then (b, Rejected(BadRequest))
    else if L.PortalBooker(who.role) then
      if tenant != who.tenant || HasPending(b.payments, i) then (b, Rejected(BadRequest))
      else (b.(payments := b.payments + [Payment(i, amount, Pending)]), Done)
    else if !ClientBilling(who.role) then (b, Rejected(Forbidden))
    else if pending then (b.(payments := b.payments + [Payment(i, amount, Pending)]), Done)
    else (Recomputed(b.(payments := b.payments + [Payment(i, amount, Completed)]), i), Done)
  }

  function Confirming(b: Book, who: L.Caller, p: nat): (Book, Reply) {
    if !ClientBilling(who.role) then (b, Rejected(BadRequest))
    else if p >= |b.payments| then (b, Rejected(NotFound))
    else if b.payments[p].status != Pending then (b, Rejected(BadRequest))
    else Settling(b, p, Completed)
  }

  function Refunding(b: Book, who: L.Caller, p: nat): (Book, Reply) {
    if p >= |b.payments| then (b, Rejected(NotFound))
    else if !who.sees then (b, Rejected(Forbidden))
    else if b.payments[p].status != Completed then (b, Rejected(BadRequest))
    else Settling(b, p, Refunded)
  }

  function Settling(b: Book, p: nat, status: PaymentStatus): (Book, Reply)
    requires p < |b.payments|
  {
    var settled := b.(payments := b.payments[p := b.payments[p].(status := status)]);
    if b.payments[p].invoice < |b.invoices| then (Recomputed(settled, b.payments[p].invoice), Done)
    else (settled, Done)
  }

  predicate FallsOverdue(invoice: Invoice, now: int) {
    invoice.due.Some? && invoice.due.value < now && invoice.status != Paid && invoice.status != Cancelled
  }

  /** `getOverdueInvoices`: the past-due open invoices the caller may list become overdue. */
  function Sweeping(b: Book, scope: set<nat>, now: int): Book {
    b.(invoices := seq(|b.invoices|, i requires 0 <= i < |b.invoices| =>
         if i in scope && FallsOverdue(b.invoices[i], now) then b.invoices[i].(status := Overdue) else b.invoices[i]))
  }

  /** The first tier that is due and beyond what was already sent. */
  function ChosenTier(daysOverdue: int, maxSent: int): Option<int> {
    if daysOverdue >= 1 && maxSent < 1 then Some(1)
    else if daysOverdue >= 7 && maxSent < 7 then Some(7)
    else if daysOverdue >= 14 && maxSent < 14 then Some(14)
    else None
  }

  function Reminder(invoice: Invoice, now: int): Option<int> {
    if invoice.status == Overdue && invoice.due.Some? && invoice.due.value < now && invoice.reachable
    then ChosenTier((now - invoice.due.value) / DAY, invoice.reminderMaxDay)
    else None
  }

  function RemindingOne(b: Book, i: nat, now: int): Book
    requires i < |b.invoices|
  {
    var tier := Reminder(b.invoices[i], now);
    if tier.None? then b
    else b.(invoices := b.invoices[i := b.invoices[i].(reminderMaxDay := tier.value)],
            log := b.log + [Reminded(i, tier.value, now)])
  }

  /** `sendOverdueReminders`, over the first `n` invoices. */
  function Reminding(b: Book, now: int, n: nat): (r: Book)
    requires n <= |b.invoices|
    ensures |r.invoices| == |b.invoices|
  {
    if n == 0 then b else RemindingOne(Reminding(b, now, n - 1), n - 1, now)
  }

  class BillingService {
    var invoices: seq<Invoice>
    var payments: seq<Payment>
    var log: seq<Event>

    function State(): Book
      reads this
    {
      Book(invoices, payments, log)
    }

    method UpdateInvoiceStatus(i: nat)
      requires i < |invoices|
      modifies this`invoices, this`log
      ensures State() == Recomputed(old(State()), i)
    {
      var totalPaid := 0;
      var k := 0;
      while k < |payments|
        invariant 0 <= k <= |payments|
        invariant totalPaid == PaidSum(payments[..k], i)
      {
        assert payments[..k + 1][..k] == payments[..k];
        if payments[k].invoice == i && payments[k].status == Completed {
          totalPaid := totalPaid + payments[k].amount;
        }
        k := k + 1;
      }
      assert payments[..k] == payments;
      var invoice := invoices[i];
      var newStatus: InvoiceStatus;
      if totalPaid >= invoice.total {
        newStatus := Paid;
      } else if totalPaid > 0 {
        newStatus := PartiallyPaid;
      } else {
        newStatus := invoice.status;
      }
      invoice := invoice.(status := newStatus);
      if newStatus == Paid {
        invoice := invoice.(reminderMaxDay := 0);
        log := log + [PaidUp(i)];
      }
      invoices := invoices[i := invoice];
    }

    method SendInvoice(who: L.Caller, i: nat) returns (reply: Reply)
      modifies this`invoices
      ensures (State(), reply) == Sending(old(State()), who, i)
    {
      if i >= |invoices| { return Rejected(NotFound); }
      if !who.sees { return Rejected(Forbidden); }
      if invoices[i].status != Issued && invoices[i].status != Draft { return Rejected(BadRequest); }
      invoices := invoices[i := invoices[i].(status := Sent)];
      reply := Done;
    }

    method CancelInvoice(who: L.Caller, i: nat) returns (reply: Reply)
      modifies this`invoices
      ensures (State(), reply) == Cancelling(old(State()), who, i)
    {
      if i >= |invoices| { return Rejected(NotFound); }
      if !who.sees { return Rejected(Forbidden); }
      var status := invoices[i].status;
      if status == Paid || status == Cancelled { return Rejected(BadRequest); }
      invoices := invoices[i := invoices[i].(status := Cancelled)];
      reply := Done;
    }

    method CreatePayment(who: L.Caller, i: nat, tenant: nat, amount: nat, pending: bool) returns (reply: Reply)
      modifies this
      ensures (State(), reply) == Paying(old(State()), who, i, tenant, amount, pending)
    {
      if i >= |invoices| { return Rejected(NotFound); }
      var status := invoices[i].status;
      if status == Cancelled || status == Paid { return Rejected(BadRequest); }
      var isTenantUser := L.PortalBooker(who.role);
      if isTenantUser {
        if tenant != who.tenant { return Rejected(BadRequest); }
        if HasPending(payments, i) { return Rejected(BadRequest); }
      } else if !ClientBilling(who.role) {
        return Rejected(Forbidden);
      }
      var paymentStatus := if isTenantUser then Pending else if pending then Pending else Completed;
      payments := payments + [Payment(i, amount, paymentStatus)];
      if paymentStatus == Completed { UpdateInvoiceStatus(i); }
      reply := Done;
    }

    method ConfirmPayment(who: L.Caller, p: nat) returns (reply: Reply)
      modifies this
      ensures (State(), reply) == Confirming(old(State()), who, p)
    {
      if !ClientBilling(who.role) { return Rejected(BadRequest); }
      if p >= |payments| { return Rejected(NotFound); }
      if payments[p].status != Pending { return Rejected(BadRequest); }
      payments := payments[p := payments[p].(status := Completed)];
      if payments[p].invoice < |invoices| { UpdateInvoiceStatus(payments[p].invoice); }
      reply := Done;
    }

    method RefundPayment(who: L.Caller, p: nat) returns (reply: Reply)
      modifies this
      ensures (State(), reply) == Refunding(old(State()), who, p)
    {
      if p >= |payments| { return Rejected(NotFound); }
      if !who.sees { return Rejected(Forbidden); }
      if payments[p].status != Completed { return Rejected(BadRequest); }
      payments := payments[p := payments[p].(status := Refunded)];
      if payments[p].invoice < |invoices| { UpdateInvoiceStatus(payments[p].invoice); }
      reply := Done;
    }

    method GetOverdueInvoices(scope: set<nat>, now: int) returns (overdue: seq<nat>)
      modifies this`invoices
      ensures State() == Sweeping(old(State()), scope, now)
      ensures forall i: nat :: i in overdue <==>
                                 i < |old(invoices)| && i in scope && FallsOverdue(old(invoices)[i], now)
    {
      overdue := [];
      var i := 0;
      while i < |invoices|
        invariant 0 <= i <= |invoices| == |old(invoices)|
        invariant forall k :: 0 <= k < i ==> invoices[k] == Sweeping(old(State()), scope, now).invoices[k]
        invariant forall k :: i <= k < |invoices| ==> invoices[k] == old(invoices)[k]
        invariant forall k: nat :: k in overdue <==> k < i && k in scope && FallsOverdue(old(invoices)[k], now)
      {
        if i in scope && FallsOverdue(invoices[i], now) {
          overdue := overdue + [i];
          invoices := invoices[i := invoices[i].(status := Overdue)];
        }
        i := i + 1;
      }
    }

    method SendOverdueReminders(now: int)
      modifies this`invoices, this`log
      ensures State() == Reminding(old(State()), now, |old(invoices)|)
    {
      var i := 0;
      while i < |invoices|
        invariant 0 <= i <= |invoices| == |old(invoices)|
        invariant State() == Reminding(old(State()), now, i)
      {
        var invoice := invoices[i];
        if invoice.status == Overdue && invoice.due.Some? && invoice.due.value < now && invoice.reachable {
          var daysOverdue := (now - invoice.due.value) / DAY;
          var maxSent := invoice.reminderMaxDay;
          var chosen: Option<int> := None;
          var t := 0;
          while t < 3 && chosen.None?
            invariant 0 <= t <= 3
            invariant chosen.None? ==> forall k :: 0 <= k < t ==> !(daysOverdue >= TIERS[k] && maxSent < TIERS[k])
            invariant chosen.Some? ==> chosen == ChosenTier(daysOverdue, maxSent)
          {
            if daysOverdue >= TIERS[t] && maxSent < TIERS[t] {
              assert t > 0 ==> !(daysOverdue >= TIERS[0] && maxSent < TIERS[0]);
              assert t > 1 ==> !(daysOverdue >= TIERS[1] && maxSent < TIERS[1]);
              chosen := Some(TIERS[t]);
            }
            t := t + 1;
          }
          assert chosen.None? ==> forall k :: 0 <= k < 3 ==> !(daysOverdue >= TIERS[k] && maxSent < TIERS[k]);
          assert chosen == ChosenTier(daysOverdue, maxSent) by {
            assert TIERS[0] == 1 && TIERS[1] == 7 && TIERS[2] == 14;
          }
          if chosen.Some? {
            log := log + [Reminded(i, chosen.value, now)];
            invoices := invoices[i := invoice.(reminderMaxDay := chosen.value)];
          }
        }
        i := i + 1;
      }
    }
  }
}
