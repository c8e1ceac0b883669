/** Properties of every run of the billing ledger. */
module BillingLaws {
  import opened Options
  import opened Calendar
  import opened Billing
  import L = BookingLedger

  datatype Op =
    | Open(invoice: Invoice)
    | Send(who: L.Caller, i: nat)
    | Cancel(who: L.Caller, i: nat)
    | Pay(who: L.Caller, i: nat, tenant: nat, amount: nat, pending: bool)
    | Confirm(who: L.Caller, p: nat)
    | Refund(who: L.Caller, p: nat)
    | Sweep(scope: set<nat>, now: int)
    | Remind(now: int)

  function Apply(b: Book, op: Op): Book {
    match op
    case Open(invoice) => Opening(b, invoice)
    case Send(who, i) => Sending(b, who, i).0
    case Cancel(who, i) => Cancelling(b, who, i).0
    case Pay(who, i, tenant, amount, pending) => Paying(b, who, i, tenant, amount, pending).0
    case Confirm(who, p) => Confirming(b, who, p).0
    case Refund(who, p) => Refunding(b, who, p).0
    case Sweep(scope, now) => Sweeping(b, scope, now)
    case Remind(now) => Reminding(b, now, |b.invoices|)
  }

  function Run(b: Book, ops: seq<Op>): Book {
    if ops == [] then b else Apply(Run(b, ops[..|ops| - 1]), ops[|ops| - 1])
  }

  // ----- Payments -----------------------------------------------------------------------------

  /** How a status and the completed payments of an invoice of positive total may combine. */
  predicate Allowed(status: InvoiceStatus, paid: nat, total: int) {
    && (paid >= total ==> status == Paid)
    && (0 < paid < total ==> status == PartiallyPaid || status == Overdue || status == Cancelled)
    && (status == Paid ==> paid >= total || paid == 0)
  }

  ghost predicate PaymentsMatch(b: Book) {
    && (forall p :: 0 <= p < |b.payments| ==> b.payments[p].invoice < |b.invoices|)
    && (forall i :: 0 <= i < |b.invoices| && b.invoices[i].total > 0 ==>
          Allowed(b.invoices[i].status, PaidSum(b.payments, i), b.invoices[i].total))
  }

  lemma {:induction false} NothingPaidYet(payments: seq<Payment>, i: nat)
    requires forall p :: 0 <= p < |payments| ==> payments[p].invoice != i
    ensures PaidSum(payments, i) == 0
    decreases |payments|
  {
    if payments != [] { NothingPaidYet(payments[..|payments| - 1], i); }
  }

  lemma {:induction false} SettlingChangesOneSum(payments: seq<Payment>, p: nat, status: PaymentStatus, i: nat)
    requires p < |payments|
    ensures var after := payments[p := payments[p].(status := status)];
            var worth := (s: PaymentStatus) =>
              if payments[p].invoice == i && s == Completed then payments[p].amount else 0;
            PaidSum(after, i) == PaidSum(payments, i) - worth(payments[p].status) + worth(status)
    decreases |payments|
  {
    var m := |payments| - 1;
    var after := payments[p := payments[p].(status := status)];
    if p < m {
      SettlingChangesOneSum(payments[..m], p, status, i);
      assert after[..m] == payments[..m][p := payments[p].(status := status)];
    } else {
      assert after[..m] == payments[..m];
    }
  }

  lemma RecomputedMatches(b: Book, i: nat)
    requires i < |b.invoices|
    requires forall p :: 0 <= p < |b.payments| ==> b.payments[p].invoice < |b.invoices|
    requires forall k :: 0 <= k < |b.invoices| && k != i && b.invoices[k].total > 0 ==>
               Allowed(b.invoices[k].status, PaidSum(b.payments, k), b.invoices[k].total)
    ensures PaymentsMatch(Recomputed(b, i))
  {
  }

  lemma PayingKeepsMatch(b: Book, op: Op)
    requires PaymentsMatch(b) && op.Pay?
    ensures PaymentsMatch(Apply(b, op))
  {
    var n := Apply(b, op);
    if n != b {
      var p := n.payments[|b.payments|];
      AppendingKeepsSums(b, p);
      if p.status == Completed { RecomputedMatches(b.(payments := b.payments + [p]), op.i); }
      else { AppendedMatches(b, p); }
    }
  }

  lemma AppendedMatches(b: Book, p: Payment)
    requires PaymentsMatch(b) && p.status != Completed && p.invoice < |b.invoices|
    ensures PaymentsMatch(b.(payments := b.payments + [p]))
  {
    AppendingKeepsSums(b, p);
  }

  lemma AppendingKeepsSums(b: Book, p: Payment)
    ensures forall k :: 0 <= k < |b.invoices| && (k != p.invoice || p.status != Completed) ==>
              PaidSum(b.payments + [p], k) == PaidSum(b.payments, k)
  {
    assert (b.payments + [p])[..|b.payments|] == b.payments;
  }

  lemma SettlingKeepsMatch(b: Book, p: nat, status: PaymentStatus)
    requires PaymentsMatch(b) && p < |b.payments|
    ensures PaymentsMatch(Settling(b, p, status).0)
  {
    var settled := b.(payments := b.payments[p := b.payments[p].(status := status)]);
    forall k | 0 <= k < |b.invoices| && k != b.payments[p].invoice
      ensures PaidSum(settled.payments, k) == PaidSum(b.payments, k)
    {
      SettlingChangesOneSum(b.payments, p, status, k);
    }
    RecomputedMatches(settled, b.payments[p].invoice);
  }

  lemma {:induction false} RemindingTouchesOnlyReminders(b: Book, now: int, n: nat)
    requires n <= |b.invoices|
    ensures var r := Reminding(b, now, n);
            && r.payments == b.payments
            && forall i :: 0 <= i < |b.invoices| ==>
                 r.invoices[i] == b.invoices[i].(reminderMaxDay := r.invoices[i].reminderMaxDay)
                 && (i >= n ==> r.invoices[i] == b.invoices[i])
  {
    if n > 0 { RemindingTouchesOnlyReminders(b, now, n - 1); }
  }

  lemma StepKeepsMatch(b: Book, op: Op)
    requires PaymentsMatch(b)
    ensures PaymentsMatch(Apply(b, op))
  {
    match op
    case Open(invoice) => NothingPaidYet(b.payments, |b.invoices|);
    case Pay(_, _, _, _, _) => PayingKeepsMatch(b, op);
    case Confirm(_, p) => if Apply(b, op) != b { SettlingKeepsMatch(b, p, Completed); }
    case Refund(_, p) => if Apply(b, op) != b { SettlingKeepsMatch(b, p, Refunded); }
    case Remind(now) => RemindingTouchesOnlyReminders(b, now, |b.invoices|);
    case _ =>
  }

  /** Over every run: enough completed payments mean paid, some mean partially paid, overdue or
      cancelled, and a paid invoice is either covered or has been refunded in full. */
  lemma {:induction false} PaymentInvariant(b: Book, ops: seq<Op>)
    requires PaymentsMatch(b)
    ensures PaymentsMatch(Run(b, ops))
    decreases |ops|
  {
    if ops != [] {
      PaymentInvariant(b, ops[..|ops| - 1]);
      StepKeepsMatch(Run(b, ops[..|ops| - 1]), ops[|ops| - 1]);
    }
  }

  /** The books that some run reaches from an empty ledger. */
  ghost predicate Reachable(b: Book) {
    exists ops :: b == Run(Book([], [], []), ops)
  }

  lemma Extend(b: Book, op: Op)
    requires Reachable(b)
    ensures Reachable(Apply(b, op))
  {
    var ops :| b == Run(Book([], [], []), ops);
    assert (ops + [op])[..|ops|] == ops;
    assert Apply(b, op) == Run(Book([], [], []), ops + [op]);
  }

  /** The invariant is exact: each combination it allows is reached, for every total above one. */
  lemma EveryAllowedCombinationOccurs(status: InvoiceStatus, paid: nat, total: int) returns (b: Book)
    requires total > 1 && Allowed(status, paid, total)
    ensures Reachable(b)
    ensures |b.invoices| == 1 && b.invoices[0].total == total && b.invoices[0].status == status
    ensures PaidSum(b.payments, 0) == paid
  {
    var who := L.Caller(0, L.Finance, 0, true);
    b := AfterOpening(total, if status == Draft then Draft else Issued);
    if paid > 0 {
      b := AfterPayment(b, who, paid);
    } else if status == Paid || status == PartiallyPaid {
      b := AfterPayment(b, who, if status == Paid then total else 1);
      b := AfterRefund(b, who);
    }
    b := AfterLastStep(b, who, status);
  }

  lemma AfterOpening(total: int, status: InvoiceStatus) returns (b: Book)
    ensures Reachable(b) && b == Book([Invoice(0, total, Some(0), status, 0, true)], [], [])
  {
    var empty := Book([], [], []);
    assert empty == Run(empty, []);
    var invoice := Invoice(0, total, Some(0), status, 0, true);
    Extend(empty, Open(invoice));
    b := Apply(empty, Open(invoice));
  }

  lemma AfterLastStep(b: Book, who: L.Caller, status: InvoiceStatus) returns (n: Book)
    requires Reachable(b) && |b.invoices| == 1 && who.sees
    requires var now := b.invoices[0].status;
             match status
             case Sent => now == Issued
             case Overdue => now == Issued || now == PartiallyPaid
             case Cancelled => now == Issued || now == PartiallyPaid
             case _ => now == status
    requires b.invoices[0].due == Some(0)
    ensures Reachable(n) && n.payments == b.payments
    ensures |n.invoices| == 1 && n.invoices[0] == b.invoices[0].(status := status)
  {
    n := b;
    match status
    case Sent => Extend(b, Send(who, 0)); n := Apply(b, Send(who, 0));
    case Overdue => Extend(b, Sweep({0}, 1)); n := Apply(b, Sweep({0}, 1));
    case Cancelled => Extend(b, Cancel(who, 0)); n := Apply(b, Cancel(who, 0));
    case _ =>
  }

  lemma AfterPayment(b: Book, who: L.Caller, amount: nat) returns (n: Book)
    requires Reachable(b) && |b.invoices| == 1 && b.payments == [] && b.invoices[0].total > 0 && amount > 0
    requires b.invoices[0].status == Issued || b.invoices[0].status == Draft
    requires who.role == L.Finance
    ensures Reachable(n) && |n.invoices| == 1 && n.payments == [Payment(0, amount, Completed)]
    ensures n.invoices[0] == b.invoices[0].(
              status := if amount >= b.invoices[0].total then Paid else PartiallyPaid,
              reminderMaxDay := n.invoices[0].reminderMaxDay)
    ensures PaidSum(n.payments, 0) == amount
  {
    var payment := Payment(0, amount, Completed);
    Extend(b, Pay(who, 0, 0, amount, false));
    assert b.payments + [payment] == [payment];
    SinglePayment(payment);
    n := Recomputed(b.(payments := [payment]), 0);
    assert n == Apply(b, Pay(who, 0, 0, amount, false));
  }

  lemma AfterRefund(b: Book, who: L.Caller) returns (n: Book)
    requires Reachable(b) && |b.invoices| == 1 && b.invoices[0].total > 0
    requires |b.payments| == 1 && b.payments[0].invoice == 0 && b.payments[0].status == Completed
    requires who.sees
    ensures Reachable(n) && |n.invoices| == 1
    ensures n.invoices[0] == b.invoices[0].(reminderMaxDay := n.invoices[0].reminderMaxDay)
    ensures PaidSum(n.payments, 0) == 0
  {
    var refunded := b.payments[0].(status := Refunded);
    Extend(b, Refund(who, 0));
    assert b.payments[0 := refunded] == [refunded];
    SinglePayment(refunded);
    n := Recomputed(b.(payments := [refunded]), 0);
    assert Refunding(b, who, 0) == Settling(b, 0, Refunded);
  }

  lemma SinglePayment(p: Payment)
    ensures PaidSum([p], 0) == if p.invoice == 0 && p.status == Completed then p.amount else 0
  {
    assert [p][..0] == [];
  }

  // ----- Overdue reminders --------------------------------------------------------------------

  /** The tiers sent for an invoice since it was last paid up. */
  function SentTiers(log: seq<Event>, i: nat): seq<int> {
    if log == [] then []
    else
      var before := SentTiers(log[..|log| - 1], i);
      match log[|log| - 1]
      case Reminded(j, tier, _) => if j == i then before + [tier] else before
      case PaidUp(j) => if j == i then [] else before
  }

  predicate EventOk(b: Book, e: Event) {
    && e.invoice < |b.invoices|
    && (e.Reminded? ==> b.invoices[e.invoice].due.Some? && e.at - b.invoices[e.invoice].due.value >= e.tier * DAY)
  }

  /** The tiers sent so far are the first few of 1, 7, 14, and the invoice remembers the last one. */
  predicate RemindersInOrder(b: Book, i: nat)
    requires i < |b.invoices|
  {
    var sent := SentTiers(b.log, i);
    && |sent| <= 3
    && sent == TIERS[..|sent|]
    && b.invoices[i].reminderMaxDay == (if sent == [] then 0 else TIERS[|sent| - 1])
  }

  ghost predicate RemindersMatch(b: Book) {
    && (forall k :: 0 <= k < |b.log| ==> EventOk(b, b.log[k]))
    && (forall i :: 0 <= i < |b.invoices| ==> RemindersInOrder(b, i))
  }

  lemma {:induction false} NoEventsYet(log: seq<Event>, i: nat)
    requires forall k :: 0 <= k < |log| ==> log[k].invoice != i
    ensures SentTiers(log, i) == []
    decreases |log|
  {
    if log != [] { NoEventsYet(log[..|log| - 1], i); }
  }

  lemma AppendedEvent(log: seq<Event>, e: Event, i: nat)
    ensures SentTiers(log + [e], i) ==
              if e.invoice != i then SentTiers(log, i)
              else if e.Reminded? then SentTiers(log, i) + [e.tier]
              else []
  {
    assert (log + [e])[..|log|] == log;
  }

  /** One sweep sends an invoice the next tier, if that many days have passed, and nothing else. */
  lemma ChosenIsNext(days: int, sent: nat)
    requires sent <= 3
    ensures ChosenTier(days, if sent == 0 then 0 else TIERS[sent - 1]) ==
              if sent < 3 && days >= TIERS[sent] then Some(TIERS[sent]) else None
  {
    assert TIERS[0] == 1 && TIERS[1] == 7 && TIERS[2] == 14;
  }

  lemma RemindingOneKeepsMatch(b: Book, i: nat, now: int)
    requires RemindersMatch(b) && i < |b.invoices|
    ensures RemindersMatch(RemindingOne(b, i, now))
  {
    var n := RemindingOne(b, i, now);
    if n != b {
      var sent := |SentTiers(b.log, i)|;
      var days := (now - b.invoices[i].due.value) / DAY;
      assert RemindersInOrder(b, i);
      ChosenIsNext(days, sent);
      var e := Reminded(i, TIERS[sent], now);
      assert n.log == b.log + [e];
      assert days * DAY <= now - b.invoices[i].due.value;
      forall k | 0 <= k < |n.log|
        ensures EventOk(n, n.log[k])
      {
        if k < |b.log| { assert EventOk(b, b.log[k]); }
      }
      forall j | 0 <= j < |n.invoices|
        ensures RemindersInOrder(n, j)
      {
        AppendedEvent(b.log, e, j);
        assert RemindersInOrder(b, j);
        if j == i { assert TIERS[..sent] + [TIERS[sent]] == TIERS[..sent + 1]; }
      }
    }
  }

  lemma {:induction false} RemindingKeepsMatch(b: Book, now: int, n: nat)
    requires RemindersMatch(b) && n <= |b.invoices|
    ensures RemindersMatch(Reminding(b, now, n))
  {
    if n > 0 {
      RemindingKeepsMatch(b, now, n - 1);
      RemindingOneKeepsMatch(Reminding(b, now, n - 1), n - 1, now);
    }
  }

  /** The rows keep their due dates and reminder marks. */
  lemma OtherwiseKeepsMatch(b: Book, n: Book)
    requires RemindersMatch(b)
    requires n.log == b.log && |b.invoices| == |n.invoices|
    requires forall i :: 0 <= i < |b.invoices| ==>
               n.invoices[i].due == b.invoices[i].due && n.invoices[i].reminderMaxDay == b.invoices[i].reminderMaxDay
    ensures RemindersMatch(n)
  {
    forall i | 0 <= i < |n.invoices|
      ensures RemindersInOrder(n, i)
    {
      assert RemindersInOrder(b, i);
    }
    forall k | 0 <= k < |n.log|
      ensures EventOk(n, n.log[k])
    {
      assert EventOk(b, b.log[k]);
    }
  }

  lemma RecomputedKeepsReminders(b: Book, i: nat)
    requires RemindersMatch(b) && i < |b.invoices|
    ensures RemindersMatch(Recomputed(b, i))
  {
    var n := Recomputed(b, i);
    if n.log == b.log {
      OtherwiseKeepsMatch(b, n);
    } else {
      forall j | 0 <= j < |n.invoices|
        ensures RemindersInOrder(n, j)
      {
        AppendedEvent(b.log, PaidUp(i), j);
        assert RemindersInOrder(b, j);
      }
      forall k | 0 <= k < |n.log|
        ensures EventOk(n, n.log[k])
      {
        if k < |b.log| { assert EventOk(b, b.log[k]); }
      }
    }
  }

  lemma OpeningKeepsReminders(b: Book, invoice: Invoice)
    requires RemindersMatch(b)
    ensures RemindersMatch(Opening(b, invoice))
  {
    var n := Opening(b, invoice);
    assert forall k :: 0 <= k < |b.log| ==> EventOk(b, b.log[k]);
    NoEventsYet(b.log, |b.invoices|);
    forall j | 0 <= j < |n.invoices|
      ensures RemindersInOrder(n, j)
    {
      if j < |b.invoices| { assert RemindersInOrder(b, j); }
    }
    forall k | 0 <= k < |n.log|
      ensures EventOk(n, n.log[k])
    {
      assert EventOk(b, b.log[k]);
    }
  }

  lemma PaymentsKeepReminders(b: Book, payments: seq<Payment>, i: nat)
    requires RemindersMatch(b) && i < |b.invoices|
    ensures RemindersMatch(b.(payments := payments)) && RemindersMatch(Recomputed(b.(payments := payments), i))
  {
    OtherwiseKeepsMatch(b, b.(payments := payments));
    RecomputedKeepsReminders(b.(payments := payments), i);
  }

  lemma StepKeepsReminders(b: Book, op: Op)
    requires RemindersMatch(b)
    ensures RemindersMatch(Apply(b, op))
  {
    var n := Apply(b, op);
    match op
    case Open(invoice) => OpeningKeepsReminders(b, invoice);
    case Pay(_, i, _, _, _) => if n != b { PaymentsKeepReminders(b, n.payments, i); }
    case Confirm(_, p) => SettlementKeepsReminders(b, n, p, Completed);
    case Refund(_, p) => SettlementKeepsReminders(b, n, p, Refunded);
    case Remind(now) => RemindingKeepsMatch(b, now, |b.invoices|);
    case _ => OtherwiseKeepsMatch(b, n);
  }

  lemma SettlementKeepsReminders(b: Book, n: Book, p: nat, status: PaymentStatus)
    requires RemindersMatch(b)
    requires n == b || (p < |b.payments| && n == Settling(b, p, status).0)
    ensures RemindersMatch(n)
  {
    if n != b {
      if b.payments[p].invoice < |b.invoices| { PaymentsKeepReminders(b, n.payments, b.payments[p].invoice); }
      else { OtherwiseKeepsMatch(b, n); }
    }
  }

  /** Over every run: between two resets the reminders sent for an invoice are 1, then 7, then 14, each
      at most once and never before that many days have passed. */
  lemma {:induction false} ReminderInvariant(b: Book, ops: seq<Op>)
    requires RemindersMatch(b)
    ensures RemindersMatch(Run(b, ops))
    decreases |ops|
  {
    if ops != [] {
      ReminderInvariant(b, ops[..|ops| - 1]);
      StepKeepsReminders(Run(b, ops[..|ops| - 1]), ops[|ops| - 1]);
    }
  }

  lemma {:induction false} RemindingReaches(b: Book, now: int, n: nat, i: nat)
    requires n <= |b.invoices| && i < |b.invoices|
    ensures var r := Reminding(b, now, n);
            && (i >= n ==> r.invoices[i] == b.invoices[i] && SentTiers(r.log, i) == SentTiers(b.log, i))
            && (i < n ==>
                  var tier := Reminder(b.invoices[i], now);
                  SentTiers(r.log, i) ==
                    if tier.Some? then SentTiers(b.log, i) + [tier.value] else SentTiers(b.log, i))
  {
    if n > 0 {
      RemindingReaches(b, now, n - 1, i);
      RemindingOneReaches(Reminding(b, now, n - 1), now, n - 1, i);
    }
  }

  lemma RemindingOneReaches(b: Book, now: int, k: nat, i: nat)
    requires k < |b.invoices| && i < |b.invoices|
    ensures var r := RemindingOne(b, k, now);
            var tier := Reminder(b.invoices[k], now);
            && (i != k ==> r.invoices[i] == b.invoices[i])
            && SentTiers(r.log, i) ==
                 if i == k && tier.Some? then SentTiers(b.log, i) + [tier.value] else SentTiers(b.log, i)
  {
    var tier := Reminder(b.invoices[k], now);
    if tier.Some? { AppendedEvent(b.log, Reminded(k, tier.value, now), i); }
  }

  /** A sweep sends an overdue, reachable invoice the next outstanding tier if it is due, and a single
      one: a sweep that comes late catches up one tier at a time without skipping any. */
  lemma SweepSendsNextTierOnly(b: Book, now: int, i: nat)
    requires RemindersMatch(b) && i < |b.invoices|
    ensures var invoice := b.invoices[i];
            var sent := |SentTiers(b.log, i)|;
            var after := SentTiers(Reminding(b, now, |b.invoices|).log, i);
            sent <= 3 &&
            if invoice.status == Overdue && invoice.reachable && invoice.due.Some? && sent < 3
               && now - invoice.due.value >= TIERS[sent] * DAY
            then after == TIERS[..sent + 1]
            else after == TIERS[..sent]
  {
    var invoice := b.invoices[i];
    var sent := |SentTiers(b.log, i)|;
    assert RemindersInOrder(b, i);
    RemindingReaches(b, now, |b.invoices|, i);
    if invoice.due.Some? {
      ChosenIsNext((now - invoice.due.value) / DAY, sent);
      if sent < 3 {
        assert TIERS[..sent] + [TIERS[sent]] == TIERS[..sent + 1];
        DaysFloor(now - invoice.due.value, TIERS[sent]);
      }
    }
  }

  lemma DaysFloor(ms: int, days: int)
    ensures ms / DAY >= days <==> ms >= days * DAY
  {
  }
}
