/** Two statements one would expect of the billing ledger and that do not always hold: a paid invoice is
    covered by its payments, and a cancelled invoice stays cancelled. Each is given with the exact calls
    that break it, for single steps and for whole runs. */
module RefundsAndRevivals {
  import opened Billing
  import opened BillingLaws
  import opened Traces
  import L = BookingLedger

  // ----- Runs, moment by moment ---------------------------------------------------------------

  /** The ledger after the first `k` calls. */
  function After(b: Book, ops: seq<Op>, k: nat): Book
    requires k <= |ops|
  {
    Run(b, ops[..k])
  }

  lemma NextMoment(b: Book, ops: seq<Op>, k: nat)
    requires k < |ops|
    ensures After(b, ops, k + 1) == Apply(After(b, ops, k), ops[k])
  {
    assert ops[..k + 1][..k] == ops[..k];
  }

  lemma FirstMoment(b: Book, ops: seq<Op>)
    ensures After(b, ops, 0) == b
  {
  }

  predicate PaymentsKnown(b: Book) {
    forall p :: 0 <= p < |b.payments| ==> b.payments[p].invoice < |b.invoices|
  }

  lemma StepKeepsPaymentsKnown(b: Book, op: Op)
    requires PaymentsKnown(b)
    ensures PaymentsKnown(Apply(b, op))
  {
    if op.Remind? { RemindingTouchesOnlyReminders(b, op.now, |b.invoices|); }
  }

  lemma {:induction false} RunKeepsPaymentsKnown(b: Book, ops: seq<Op>, k: nat)
    requires PaymentsKnown(b) && k <= |ops|
    ensures PaymentsKnown(After(b, ops, k))
  {
    FirstMoment(b, ops);
    if k > 0 {
      RunKeepsPaymentsKnown(b, ops, k - 1);
      NextMoment(b, ops, k - 1);
      StepKeepsPaymentsKnown(After(b, ops, k - 1), ops[k - 1]);
    }
  }

  // ----- Single settlements -------------------------------------------------------------------

  /** What a confirmation or refund that goes through does to its own invoice. */
  lemma SettledInvoice(b: Book, p: nat, status: PaymentStatus)
    requires p < |b.payments| && b.payments[p].invoice < |b.invoices|
    requires (b.payments[p].status, status) in {(Pending, Completed), (Completed, Refunded)}
    ensures var n := Settling(b, p, status).0;
            var i := b.payments[p].invoice;
            var worth: int := b.payments[p].amount;
            var change := if status == Completed then worth else -worth;
            && PaidSum(n.payments, i) == PaidSum(b.payments, i) + change
            && n.invoices[i].total == b.invoices[i].total
            && n.invoices[i].status == StatusFor(b.invoices[i], PaidSum(n.payments, i))
  {
    SettlingChangesOneSum(b.payments, p, status, b.payments[p].invoice);
  }

  lemma OtherInvoicesStay(b: Book, p: nat, status: PaymentStatus, k: nat)
    requires p < |b.payments| && k < |b.invoices| && k != b.payments[p].invoice
    ensures var n := Settling(b, p, status).0;
            k < |n.invoices| && n.invoices[k] == b.invoices[k] && PaidSum(n.payments, k) == PaidSum(b.payments, k)
  {
    SettlingChangesOneSum(b.payments, p, status, k);
  }

  /** A refund leaves an invoice paid without cover exactly when the invoice was paid and the refunded
      payment was all there was. */
  lemma RefundLeavesPaidIff(b: Book, who: L.Caller, p: nat)
    requires Refunding(b, who, p).1.Done?
    requires b.payments[p].invoice < |b.invoices| && b.invoices[b.payments[p].invoice].total > 0
    ensures var n := Refunding(b, who, p).0;
            var i := b.payments[p].invoice;
            n.invoices[i].status == Paid && PaidSum(n.payments, i) < n.invoices[i].total <==>
              b.invoices[i].status == Paid && PaidSum(b.payments, i) == b.payments[p].amount
  {
    SettledInvoice(b, p, Refunded);
  }

  /** A confirmation takes an invoice out of cancellation exactly when completed payments are then
      positive, or the invoice asks for nothing. */
  lemma ConfirmationRevivesIff(b: Book, who: L.Caller, p: nat)
    requires Confirming(b, who, p).1.Done?
    requires b.payments[p].invoice < |b.invoices| && b.invoices[b.payments[p].invoice].status == Cancelled
    ensures var i := b.payments[p].invoice;
            Confirming(b, who, p).0.invoices[i].status != Cancelled <==>
              PaidSum(b.payments, i) + b.payments[p].amount > 0 || b.invoices[i].total <= 0
  {
    SettledInvoice(b, p, Completed);
  }

  /** A refund does so exactly when some other completed payment remains, or the invoice asks for nothing. */
  lemma RefundRevivesIff(b: Book, who: L.Caller, p: nat)
    requires Refunding(b, who, p).1.Done?
    requires b.payments[p].invoice < |b.invoices| && b.invoices[b.payments[p].invoice].status == Cancelled
    ensures var i := b.payments[p].invoice;
            Refunding(b, who, p).0.invoices[i].status != Cancelled <==>
              PaidSum(b.payments, i) > b.payments[p].amount || b.invoices[i].total <= 0
  {
    SettledInvoice(b, p, Refunded);
  }

  // ----- Paid means covered -------------------------------------------------------------------

  predicate CoveredAt(b: Book, i: nat)
    requires i < |b.invoices|
  {
    b.invoices[i].status == Paid && b.invoices[i].total > 0 ==> PaidSum(b.payments, i) >= b.invoices[i].total
  }

  predicate Covered(b: Book) {
    forall i :: 0 <= i < |b.invoices| ==> CoveredAt(b, i)
  }

  /** The calls that leave a paid invoice without cover: opening it as paid, and refunding the only
      completed payment of a paid invoice. */
  predicate Uncovers(b: Book, op: Op) {
    match op
    case Open(invoice) => invoice.status == Paid && invoice.total > 0
    case Refund(who, p) =>
      && p < |b.payments| && who.sees && b.payments[p].status == Completed
      && b.payments[p].invoice < |b.invoices|
      && b.invoices[b.payments[p].invoice].status == Paid && b.invoices[b.payments[p].invoice].total > 0
      && PaidSum(b.payments, b.payments[p].invoice) == b.payments[p].amount
    case _ => false
  }

  lemma AppendedPayment(payments: seq<Payment>, p: Payment, i: nat)
    ensures PaidSum(payments + [p], i) ==
              PaidSum(payments, i) + (if p.invoice == i && p.status == Completed then p.amount else 0)
  {
    assert (payments + [p])[..|payments|] == payments;
  }

  lemma PayingKeepsCovered(b: Book, op: Op)
    requires op.Pay? && Covered(b)
    ensures Covered(Apply(b, op))
  {
    if Apply(b, op) != b {
      var p := Apply(b, op).payments[|b.payments|];
      if p.status == Completed { CompletedKeepsCovered(b, p); } else { AnnouncedKeepsCovered(b, p); }
    }
  }

  lemma AnnouncedKeepsCovered(b: Book, p: Payment)
    requires Covered(b) && p.status == Pending
    ensures Covered(b.(payments := b.payments + [p]))
  {
    var n := b.(payments := b.payments + [p]);
    forall k | 0 <= k < |n.invoices|
      ensures CoveredAt(n, k)
    {
      assert CoveredAt(b, k);
      AppendedPayment(b.payments, p, k);
    }
  }

  lemma CompletedKeepsCovered(b: Book, p: Payment)
    requires Covered(b) && p.status == Completed && p.invoice < |b.invoices|
    requires b.invoices[p.invoice].status != Paid
    ensures Covered(Recomputed(b.(payments := b.payments + [p]), p.invoice))
  {
    var n := Recomputed(b.(payments := b.payments + [p]), p.invoice);
    forall k | 0 <= k < |n.invoices|
      ensures CoveredAt(n, k)
    {
      assert CoveredAt(b, k);
      AppendedPayment(b.payments, p, k);
    }
  }

  lemma SettlingCoveredIff(b: Book, op: Op)
    requires op.Confirm? || op.Refund?
    requires Covered(b) && PaymentsKnown(b)
    ensures Covered(Apply(b, op)) <==> !Uncovers(b, op)
  {
    var n := Apply(b, op);
    if n != b {
      var status := if op.Confirm? then Completed else Refunded;
      var i := b.payments[op.p].invoice;
      SettledInvoice(b, op.p, status);
      assert CoveredAt(b, i);
      assert CoveredAt(n, i) <==> !Uncovers(b, op);
      forall k | 0 <= k < |n.invoices| && k != i
        ensures CoveredAt(n, k)
      {
        assert CoveredAt(b, k);
        OtherInvoicesStay(b, op.p, status, k);
      }
    }
  }

  lemma OpeningCoveredIff(b: Book, invoice: Invoice)
    requires Covered(b) && PaymentsKnown(b)
    ensures Covered(Opening(b, invoice)) <==> !Uncovers(b, Open(invoice))
  {
    var n := Opening(b, invoice);
    NothingPaidYet(b.payments, |b.invoices|);
    assert CoveredAt(n, |b.invoices|) <==> !Uncovers(b, Open(invoice));
    forall k | 0 <= k < |b.invoices|
      ensures CoveredAt(n, k)
    {
      assert CoveredAt(b, k);
    }
  }

  /** No payment moved and no invoice became paid. */
  lemma QuietStepKeepsCovered(b: Book, n: Book)
    requires Covered(b) && n.payments == b.payments && |n.invoices| == |b.invoices|
    requires forall k :: 0 <= k < |b.invoices| ==>
               && n.invoices[k].total == b.invoices[k].total
               && (n.invoices[k].status == Paid ==> b.invoices[k].status == Paid)
    ensures Covered(n)
  {
    forall k | 0 <= k < |n.invoices|
      ensures CoveredAt(n, k)
    {
      assert CoveredAt(b, k);
    }
  }

  lemma StepCoveredIff(b: Book, op: Op)
    requires Covered(b) && PaymentsKnown(b)
    ensures Covered(Apply(b, op)) <==> !Uncovers(b, op)
  {
    match op
    case Open(invoice) => OpeningCoveredIff(b, invoice);
    case Pay(_, _, _, _, _) => PayingKeepsCovered(b, op);
    case Confirm(_, _) => SettlingCoveredIff(b, op);
    case Refund(_, _) => SettlingCoveredIff(b, op);
    case Remind(now) =>
      RemindingTouchesOnlyReminders(b, now, |b.invoices|);
      QuietStepKeepsCovered(b, Apply(b, op));
    case _ => QuietStepKeepsCovered(b, Apply(b, op));
  }

  /** Over every run: paid invoices of positive total are covered at every moment if and only if none is
      opened as paid and no refund takes back the only completed payment of a paid invoice. */
  lemma CoveredIff(b: Book, ops: seq<Op>)
    requires Covered(b) && PaymentsKnown(b)
    ensures (forall k :: 0 <= k <= |ops| ==> Covered(After(b, ops, k))) <==>
              (forall k :: 0 <= k < |ops| ==> !Uncovers(After(b, ops, k), ops[k]))
  {
    var n := |ops|;
    var good := seq(n + 1, k requires 0 <= k <= n => Covered(After(b, ops, k)));
    var sound := seq(n, k requires 0 <= k < n => !Uncovers(After(b, ops, k), ops[k]));
    FirstMoment(b, ops);
    forall k | 0 <= k < n && good[k]
      ensures good[k + 1] <==> sound[k]
    {
      NextMoment(b, ops, k);
      RunKeepsPaymentsKnown(b, ops, k);
      StepCoveredIff(After(b, ops, k), ops[k]);
    }
    ChainIff(good, sound, n);
    assert forall k :: 0 <= k <= n ==> good[k] == Covered(After(b, ops, k));
    assert forall k :: 0 <= k < n ==> sound[k] == !Uncovers(After(b, ops, k), ops[k]);
  }

  // ----- Cancelled stays cancelled ------------------------------------------------------------

  predicate StaysCancelled(b: Book, n: Book, i: nat) {
    i < |b.invoices| && b.invoices[i].status == Cancelled ==> i < |n.invoices| && n.invoices[i].status == Cancelled
  }

  /** The calls that take a cancelled invoice out of cancellation. */
  predicate Revives(b: Book, op: Op) {
    match op
    case Confirm(who, p) =>
      && ClientBilling(who.role) && p < |b.payments| && b.payments[p].status == Pending
      && OnCancelled(b, p)
      && (PaidSum(b.payments, b.payments[p].invoice) + b.payments[p].amount > 0
          || b.invoices[b.payments[p].invoice].total <= 0)
    case Refund(who, p) =>
      && who.sees && p < |b.payments| && b.payments[p].status == Completed
      && OnCancelled(b, p)
      && (PaidSum(b.payments, b.payments[p].invoice) > b.payments[p].amount
          || b.invoices[b.payments[p].invoice].total <= 0)
    case _ => false
  }

  predicate OnCancelled(b: Book, p: nat)
    requires p < |b.payments|
  {
    b.payments[p].invoice < |b.invoices| && b.invoices[b.payments[p].invoice].status == Cancelled
  }

  lemma StepCancelledIff(b: Book, op: Op)
    ensures (forall i: nat :: StaysCancelled(b, Apply(b, op), i)) <==> !Revives(b, op)
  {
    match op
    case Confirm(_, p) => if Apply(b, op) != b { SettlingCancelledIff(b, p, Completed); }
    case Refund(_, p) => if Apply(b, op) != b { SettlingCancelledIff(b, p, Refunded); }
    case Remind(now) => RemindingTouchesOnlyReminders(b, now, |b.invoices|);
    case _ =>
  }

  lemma SettlingCancelledIff(b: Book, p: nat, status: PaymentStatus)
    requires p < |b.payments|
    requires (b.payments[p].status, status) in {(Pending, Completed), (Completed, Refunded)}
    ensures var n := Settling(b, p, status).0;
            (forall i: nat :: StaysCancelled(b, n, i)) <==>
              !(OnCancelled(b, p) && (LeavesMoney(b, p, status) || b.invoices[b.payments[p].invoice].total <= 0))
  {
    var n := Settling(b, p, status).0;
    var i := b.payments[p].invoice;
    if i < |b.invoices| {
      SettledInvoice(b, p, status);
      assert forall k: nat :: k != i ==> StaysCancelled(b, n, k);
      assert StaysCancelled(b, n, i) <==>
               !(OnCancelled(b, p) && (LeavesMoney(b, p, status) || b.invoices[i].total <= 0));
    }
  }

  /** Completed payments remain on the invoice once the payment has its new status. */
  predicate LeavesMoney(b: Book, p: nat, status: PaymentStatus)
    requires p < |b.payments|
  {
    var sum := PaidSum(b.payments, b.payments[p].invoice);
    if status == Completed then sum + b.payments[p].amount > 0 else sum > b.payments[p].amount
  }

  lemma {:induction false} CancellationChains(b: Book, ops: seq<Op>, i: nat, j: nat, k: nat)
    requires j <= k <= |ops|
    requires forall m :: 0 <= m < |ops| ==> !Revives(After(b, ops, m), ops[m])
    ensures StaysCancelled(After(b, ops, j), After(b, ops, k), i)
    decreases k - j
  {
    if j < k {
      CancellationChains(b, ops, i, j, k - 1);
      NextMoment(b, ops, k - 1);
      StepCancelledIff(After(b, ops, k - 1), ops[k - 1]);
      assert StaysCancelled(After(b, ops, k - 1), After(b, ops, k), i);
    }
  }

  /** Over every run: an invoice once cancelled is cancelled at every later moment if and only if no
      confirmation or refund in the run revives one. */
  lemma CancelledIsFinalIff(b: Book, ops: seq<Op>)
    ensures (forall i: nat, j, k | 0 <= j <= k <= |ops| :: StaysCancelled(After(b, ops, j), After(b, ops, k), i)) <==>
              (forall m :: 0 <= m < |ops| ==> !Revives(After(b, ops, m), ops[m]))
  {
    if forall m :: 0 <= m < |ops| ==> !Revives(After(b, ops, m), ops[m]) {
      forall i: nat, j, k | 0 <= j <= k <= |ops|
        ensures StaysCancelled(After(b, ops, j), After(b, ops, k), i)
      {
        CancellationChains(b, ops, i, j, k);
      }
    }
    if forall i: nat, j, k | 0 <= j <= k <= |ops| :: StaysCancelled(After(b, ops, j), After(b, ops, k), i) {
      forall m | 0 <= m < |ops|
        ensures !Revives(After(b, ops, m), ops[m])
      {
        NextMoment(b, ops, m);
        forall i: nat
          ensures StaysCancelled(After(b, ops, m), Apply(After(b, ops, m), ops[m]), i)
        {
          assert StaysCancelled(After(b, ops, m), After(b, ops, m + 1), i);
        }
        StepCancelledIff(After(b, ops, m), ops[m]);
      }
    }
  }

  // ----- Both do happen -----------------------------------------------------------------------

  /** Opened, paid in full, refunded: still paid, with nothing received. */
  lemma RefundedInvoiceStaysPaid() returns (b: Book)
    ensures Reachable(b) && |b.invoices| == 1
    ensures b.invoices[0].status == Paid && b.invoices[0].total == 100 && PaidSum(b.payments, 0) == 0
  {
    b := EveryAllowedCombinationOccurs(Paid, 0, 100);
  }

  /** Opened, a payment announced, cancelled, the payment confirmed: the invoice is paid. */
  lemma CancelledInvoiceIsRevived() returns (b: Book, op: Op)
    ensures Reachable(b) && |b.invoices| == 1
    ensures b.invoices[0].status == Cancelled && op.Confirm?
    ensures Apply(b, op).invoices[0].status == Paid
  {
    var who := L.Caller(0, L.Finance, 0, true);
    var a := AfterOpening(100, Issued);
    var announced := AfterAnnouncement(a, who, 100);
    b := AfterLastStep(announced, who, Cancelled);
    op := Confirm(who, 0);
    ConfirmedOnlyPayment(b, who);
  }

  lemma AfterAnnouncement(b: Book, who: L.Caller, amount: nat) returns (n: Book)
    requires Reachable(b) && |b.invoices| == 1 && b.payments == [] && b.invoices[0].status == Issued
    requires who.role == L.Finance
    ensures Reachable(n) && n == b.(payments := [Payment(0, amount, Pending)])
  {
    Extend(b, Pay(who, 0, 0, amount, true));
    n := Apply(b, Pay(who, 0, 0, amount, true));
    assert b.payments + [Payment(0, amount, Pending)] == [Payment(0, amount, Pending)];
  }

  lemma ConfirmedOnlyPayment(b: Book, who: L.Caller)
    requires |b.payments| == 1 && b.payments[0].invoice == 0 && b.payments[0].status == Pending
    requires |b.invoices| == 1 && 0 < b.invoices[0].total <= b.payments[0].amount
    requires who.role == L.Finance
    ensures Apply(b, Confirm(who, 0)).invoices[0].status == Paid
  {
    assert Apply(b, Confirm(who, 0)) == Settling(b, 0, Completed).0;
    assert b.payments == [b.payments[0]];
    SinglePayment(b.payments[0]);
    SettledInvoice(b, 0, Completed);
  }
}
