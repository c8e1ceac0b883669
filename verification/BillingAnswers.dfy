/** What each billing call answers and leaves behind, in terms of the rows it found. */
module BillingAnswers {
  import opened Options
  import opened Billing
  import opened BillingLaws
  import L = BookingLedger

  // ----- Money received -----------------------------------------------------------------------

  /** The completed payments of an invoice, added up from the front. */
  function Received(payments: seq<Payment>, i: nat): nat {
    if payments == [] then 0
    else (if payments[0].invoice == i && payments[0].status == Completed then payments[0].amount else 0)
         + Received(payments[1..], i)
  }

  lemma {:induction false} ReceivedOneMore(payments: seq<Payment>, p: Payment, i: nat)
    ensures Received(payments + [p], i) ==
              Received(payments, i) + (if p.invoice == i && p.status == Completed then p.amount else 0)
    decreases |payments|
  {
    if payments == [] {
      assert ([] + [p])[1..] == [];
    } else {
      ReceivedOneMore(payments[1..], p, i);
      assert (payments + [p])[1..] == payments[1..] + [p];
    }
  }

  lemma {:induction false} PaidSumIsReceived(payments: seq<Payment>, i: nat)
    ensures PaidSum(payments, i) == Received(payments, i)
    decreases |payments|
  {
    if payments != [] {
      var m := |payments| - 1;
      PaidSumIsReceived(payments[..m], i);
      ReceivedOneMore(payments[..m], payments[m], i);
      assert payments[..m] + [payments[m]] == payments;
    }
  }

  /** What money makes of an invoice: paid once it covers the total, partly paid while it covers a part,
      unchanged while there is none. A paid one starts over with its reminders. */
  predicate StandsAt(before: Invoice, after: Invoice, received: nat) {
    && after == before.(status := after.status, reminderMaxDay := after.reminderMaxDay)
    && (received >= before.total ==> after.status == Paid)
    && (0 < received < before.total ==> after.status == PartiallyPaid)
    && (received == 0 < before.total ==> after.status == before.status)
    && after.reminderMaxDay == if after.status == Paid then 0 else before.reminderMaxDay
  }

  predicate OnlyInvoice(b: Book, n: Book, i: nat)
    requires i < |b.invoices|
  {
    |n.invoices| == |b.invoices| && n.invoices == b.invoices[i := n.invoices[i]]
  }

  lemma RecomputedStandsAt(b: Book, i: nat)
    requires i < |b.invoices|
    ensures var n := Recomputed(b, i);
            && n.payments == b.payments && OnlyInvoice(b, n, i)
            && StandsAt(b.invoices[i], n.invoices[i], Received(b.payments, i))
  {
    PaidSumIsReceived(b.payments, i);
  }

  // ----- Payments -----------------------------------------------------------------------------

  /** Renters pay in their own name and one payment at a time; otherwise client billing staff record
      payments. */
  predicate MayPay(b: Book, who: L.Caller, i: nat, tenant: nat) {
    if who.role in {L.TenantAdmin, L.TenantEmployee} then
      && tenant == who.tenant
      && forall k :: 0 <= k < |b.payments| && b.payments[k].invoice == i ==> b.payments[k].status != Pending
    else who.role in {L.ClientAdmin, L.Manager, L.Finance}
  }

  /** A payment is taken exactly for an open invoice and from somebody who may pay it. A renter's payment
      waits for confirmation, and so does one announced as pending; any other counts at once. */
  lemma PayDoneIff(b: Book, who: L.Caller, i: nat, tenant: nat, amount: nat, pending: bool)
    ensures var (n, reply) := Paying(b, who, i, tenant, amount, pending);
            && (reply.Done? <==>
                  && i < |b.invoices| && b.invoices[i].status !in {Paid, Cancelled} && MayPay(b, who, i, tenant))
            && (!reply.Done? ==> n == b)
            && (reply == Rejected(NotFound) <==> i >= |b.invoices|)
            && (reply == Rejected(Forbidden) <==>
                  && i < |b.invoices| && b.invoices[i].status !in {Paid, Cancelled}
                  && who.role !in {L.TenantAdmin, L.TenantEmployee, L.ClientAdmin, L.Manager, L.Finance})
            && (reply.Done? ==>
                  var waits := pending || who.role in {L.TenantAdmin, L.TenantEmployee};
                  var p := Payment(i, amount, if waits then Pending else Completed);
                  && n.payments == b.payments + [p] && OnlyInvoice(b, n, i)
                  && (if waits then n.invoices == b.invoices
                      else StandsAt(b.invoices[i], n.invoices[i], Received(b.payments, i) + amount)))
  {
    if i < |b.invoices| {
      RecomputedStandsAt(b.(payments := b.payments + [Payment(i, amount, Completed)]), i);
      ReceivedOneMore(b.payments, Payment(i, amount, Completed), i);
    }
  }

  /** A payment changes status exactly from `before`, when `allowed`, and its invoice then stands at what
      has been received. */
  predicate Settles(b: Book, p: nat, allowed: bool, before: PaymentStatus, after: PaymentStatus,
                    n: Book, reply: Reply)
  {
    && (reply.Done? <==> p < |b.payments| && allowed && b.payments[p].status == before)
    && (!reply.Done? ==> n == b)
    && (reply.Done? ==>
          var i := b.payments[p].invoice;
          && n.payments == b.payments[p := b.payments[p].(status := after)]
          && (i >= |b.invoices| ==> n.invoices == b.invoices)
          && (i < |b.invoices| ==>
                OnlyInvoice(b, n, i) && StandsAt(b.invoices[i], n.invoices[i], Received(n.payments, i))))
  }

  lemma SettlingStandsAt(b: Book, p: nat, status: PaymentStatus)
    requires p < |b.payments|
    ensures var n := Settling(b, p, status).0;
            var i := b.payments[p].invoice;
            && n.payments == b.payments[p := b.payments[p].(status := status)]
            && (i >= |b.invoices| ==> n.invoices == b.invoices)
            && (i < |b.invoices| ==>
                  OnlyInvoice(b, n, i) && StandsAt(b.invoices[i], n.invoices[i], Received(n.payments, i)))
  {
    var settled := b.(payments := b.payments[p := b.payments[p].(status := status)]);
    if b.payments[p].invoice < |b.invoices| { RecomputedStandsAt(settled, b.payments[p].invoice); }
  }

  /** Client billing staff confirm pending payments; whoever sees a completed payment may refund it. */
  lemma SettlementDoneIff(b: Book, who: L.Caller, p: nat)
    ensures var (n, reply) := Confirming(b, who, p);
            && Settles(b, p, who.role in {L.ClientAdmin, L.Manager, L.Finance}, Pending, Completed, n, reply)
            && (reply == Rejected(NotFound) <==>
                  who.role in {L.ClientAdmin, L.Manager, L.Finance} && p >= |b.payments|)
    ensures var (n, reply) := Refunding(b, who, p);
            && Settles(b, p, who.sees, Completed, Refunded, n, reply)
            && (reply == Rejected(NotFound) <==> p >= |b.payments|)
            && (reply == Rejected(Forbidden) <==> p < |b.payments| && !who.sees)
  {
    if p < |b.payments| {
      SettlingStandsAt(b, p, Completed);
      SettlingStandsAt(b, p, Refunded);
    }
  }

  /** A draft or issued invoice can be sent, an unpaid one can be cancelled, by whoever sees it; nothing
      but its status changes. */
  lemma StatusCallDoneIff(b: Book, who: L.Caller, i: nat)
    ensures var (n, reply) := Sending(b, who, i);
            && (reply.Done? <==> i < |b.invoices| && who.sees && b.invoices[i].status in {Draft, Issued})
            && (reply == Rejected(NotFound) <==> i >= |b.invoices|)
            && (reply == Rejected(Forbidden) <==> i < |b.invoices| && !who.sees)
            && n == (if reply.Done? then b.(invoices := b.invoices[i := b.invoices[i].(status := Sent)]) else b)
    ensures var (n, reply) := Billing.Cancelling(b, who, i);
            && (reply.Done? <==> i < |b.invoices| && who.sees && b.invoices[i].status !in {Paid, Cancelled})
            && (reply == Rejected(NotFound) <==> i >= |b.invoices|)
            && (reply == Rejected(Forbidden) <==> i < |b.invoices| && !who.sees)
            && n == (if reply.Done? then b.(invoices := b.invoices[i := b.invoices[i].(status := Cancelled)]) else b)
  {
  }

  // ----- Overdue ------------------------------------------------------------------------------

  predicate PastDue(i: Invoice, now: int) {
    && i.due.Some? && i.due.value < now
    && i.status in {Draft, Issued, Sent, PartiallyPaid, Overdue}
  }

  /** After a sweep an invoice is overdue exactly if it was before, or the caller may list it, its due date
      has passed and it is neither paid nor cancelled. A sweep changes nothing else. */
  lemma SweepMarksIff(b: Book, scope: set<nat>, now: int, i: nat)
    requires i < |b.invoices|
    ensures var n := BillingLaws.Apply(b, Sweep(scope, now));
            && |n.invoices| == |b.invoices| && n.payments == b.payments && n.log == b.log
            && (n.invoices[i].status == Overdue <==>
                  b.invoices[i].status == Overdue || (i in scope && PastDue(b.invoices[i], now)))
            && n.invoices[i] == b.invoices[i].(status := n.invoices[i].status)
            && (n.invoices[i].status != Overdue ==> n.invoices[i] == b.invoices[i])
  {
  }

  lemma SweepKeepsReminders(b: Book, scope: set<nat>, now: int)
    requires RemindersMatch(b)
    ensures RemindersMatch(Sweeping(b, scope, now)) && Sweeping(b, scope, now).log == b.log
  {
    StepKeepsReminders(b, Sweep(scope, now));
  }

  const ONE_DAY := 24 * 60 * 60 * 1000

  /** From the due date to the reminder: sweeping and reminding at one moment sends a past-due invoice of a
      reachable tenant its next reminder, the first one day after the due date, the second after seven,
      the third after fourteen, and no fourth. */
  lemma LateInvoiceIsReminded(b: Book, scope: set<nat>, now: int, i: nat)
    requires RemindersMatch(b) && i < |b.invoices|
    requires i in scope && PastDue(b.invoices[i], now) && b.invoices[i].reachable
    ensures var sent := SentTiers(b.log, i);
            var swept := BillingLaws.Apply(b, Sweep(scope, now));
            var after := SentTiers(BillingLaws.Apply(swept, Remind(now)).log, i);
            var late := now - b.invoices[i].due.value;
            && (sent == [] || sent == [1] || sent == [1, 7] || sent == [1, 7, 14])
            && after == (if sent == [] && late >= ONE_DAY then [1]
                         else if sent == [1] && late >= 7 * ONE_DAY then [1, 7]
                         else if sent == [1, 7] && late >= 14 * ONE_DAY then [1, 7, 14]
                         else sent)
  {
    var swept := Sweeping(b, scope, now);
    SweepMarksIff(b, scope, now, i);
    SweepKeepsReminders(b, scope, now);
    SweepSendsNextTierOnly(swept, now, i);
    assert RemindersInOrder(b, i);
    FirstTiers(|SentTiers(b.log, i)|);
    if |SentTiers(b.log, i)| < 3 { FirstTiers(|SentTiers(b.log, i)| + 1); }
  }

  lemma FirstTiers(n: nat)
    requires n <= 3
    ensures TIERS[..n] == if n == 0 then [] else if n == 1 then [1] else if n == 2 then [1, 7] else [1, 7, 14]
    ensures n < 3 ==> TIERS[n] == if n == 0 then 1 else if n == 1 then 7 else 14
  {
  }
}
