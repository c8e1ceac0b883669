/** The booking ledger and the billing ledger running together: every invoice the one issues or records
    is opened in the other, and then lives through payments, sweeps and reminders there. */
module JointBooks {
  import opened Options
  import opened BookingLedger
  import BookingLaws
  import Billing
  import BillingLaws
  import Portfolio
  import opened Calendar

  datatype Joint = Joint(ledger: Ledger, book: Billing.Book)

  datatype Step =
    | Booking(op: Op, now: int, reachable: bool)
    | Recording(tenant: nat, lines: seq<Line>, subtotal: int, total: int, due: Option<int>,
                status: Billing.InvoiceStatus, reachable: bool)
    | Billing(bill: BillingLaws.Op)

  /** Invoices are recorded and opened through steps of their own. */
  predicate Proper(s: Step) {
    && (s.Booking? ==> !s.op.RecordInvoice?)
    && (s.Billing? ==> !s.bill.Open?)
  }

  ghost function Next(j: Joint, s: Step): Joint {
    match s
    case Booking(op, now, reachable) =>
      var l := Apply(j.ledger, op).0;
      if |l.invoices| <= |j.ledger.invoices| then Joint(l, j.book)
      else Joint(l, Billing.Opening(j.book, Billing.FromBooking(l.invoices[|j.ledger.invoices|], now, reachable)))
    case Recording(tenant, lines, subtotal, total, due, status, reachable) =>
      Joint(BookingLedger.Recording(j.ledger, tenant, lines, subtotal, total),
            Billing.Opening(j.book, Billing.Invoice(tenant, total, due, status, 0, reachable)))
    case Billing(bill) => j.(book := BillingLaws.Apply(j.book, bill))
  }

  ghost predicate StepAt(states: seq<Joint>, steps: seq<Step>, i: nat)
    requires i < |steps| < |states|
  {
    Proper(steps[i]) && states[i + 1] == Next(states[i], steps[i])
  }

  ghost predicate Execution(states: seq<Joint>, steps: seq<Step>) {
    && |states| == |steps| + 1
    && forall i {:trigger StepAt(states, steps, i)} :: 0 <= i < |steps| ==> StepAt(states, steps, i)
  }

  /** Both ledgers' own invariants, and that they speak of the same invoices. */
  ghost predicate InStep(j: Joint) {
    && IdsBelowNext(j.ledger) && BookingLaws.BillsMatch(j.ledger) && Portfolio.SpacesKnown(j.ledger)
    && BillingLaws.PaymentsMatch(j.book)
    && Portfolio.Aligned(j.ledger, j.book)
  }

  lemma BookingsAddOneInvoice(l: Ledger, op: Op)
    requires !op.RecordInvoice? && IdsBelowNext(l)
    ensures var n := Apply(l, op).0;
            && |l.invoices| <= |n.invoices| <= |l.invoices| + 1
            && n.invoices[..|l.invoices|] == l.invoices
  {
    BookingLaws.StepShape(l, op);
    ShapedKeepsInvoices(l, BookingLaws.KindOf(op), Apply(l, op).0);
    if |Apply(l, op).0.invoices| > |l.invoices| { var id := BookingLaws.NewInvoiceIsABill(l, op); }
  }

  lemma ShapedKeepsInvoices(l: Ledger, kind: BookingLaws.Kind, n: Ledger)
    requires BookingLaws.Shaped(l, kind, n)
    ensures |l.invoices| <= |n.invoices| && n.invoices[..|l.invoices|] == l.invoices
  {
    assert BookingLaws.KeepsInvoices(l, n);
  }

  lemma BillingKeepsInvoices(b: Billing.Book, op: BillingLaws.Op)
    requires !op.Open?
    ensures var n := BillingLaws.Apply(b, op);
            && |n.invoices| == |b.invoices|
            && forall k :: 0 <= k < |b.invoices| ==>
                 n.invoices[k].tenant == b.invoices[k].tenant && n.invoices[k].total == b.invoices[k].total
  {
    if op.Remind? { BillingLaws.RemindingTouchesOnlyReminders(b, op.now, |b.invoices|); }
  }

  /** One step of the ledger, and on the other side nothing, or the opening of its new invoice. */
  lemma OpeningKeepsAligned(j: Joint, n: Joint, bill: Option<Billing.Invoice>)
    requires Portfolio.Aligned(j.ledger, j.book) && BillingLaws.PaymentsMatch(j.book)
    requires |n.ledger.invoices| == |j.ledger.invoices| + (if bill.Some? then 1 else 0)
    requires n.ledger.invoices[..|j.ledger.invoices|] == j.ledger.invoices
    requires n.book == if bill.Some? then Billing.Opening(j.book, bill.value) else j.book
    requires bill.Some? ==>
               var added := n.ledger.invoices[|j.ledger.invoices|];
               bill.value.tenant == added.tenant && bill.value.total == added.total
    ensures Portfolio.Aligned(n.ledger, n.book) && BillingLaws.PaymentsMatch(n.book)
  {
    if bill.Some? { BillingLaws.StepKeepsMatch(j.book, BillingLaws.Open(bill.value)); }
    forall k | 0 <= k < |j.ledger.invoices|
      ensures n.ledger.invoices[k] == j.ledger.invoices[k]
    {
      assert n.ledger.invoices[..|j.ledger.invoices|][k] == j.ledger.invoices[k];
    }
  }

  lemma BookingStepKeepsInStep(j: Joint, s: Step)
    requires InStep(j) && Proper(s) && s.Booking?
    ensures InStep(Next(j, s))
  {
    var n := Next(j, s);
    BookingLaws.StepKeepsIds(j.ledger, s.op);
    BookingLaws.StepKeepsBillsMatch(j.ledger, s.op);
    Portfolio.StepKeepsSpacesKnown(j.ledger, s.op);
    BookingsAddOneInvoice(j.ledger, s.op);
    var m := |j.ledger.invoices|;
    OpeningKeepsAligned(j, n, if |n.ledger.invoices| <= m then None
                              else Some(Billing.FromBooking(n.ledger.invoices[m], s.now, s.reachable)));
  }

  lemma RecordingStepKeepsInStep(j: Joint, s: Step)
    requires InStep(j) && s.Recording?
    ensures InStep(Next(j, s))
  {
    var op := RecordInvoice(s.tenant, s.lines, s.subtotal, s.total);
    assert Next(j, s).ledger == Apply(j.ledger, op).0;
    BookingLaws.StepKeepsIds(j.ledger, op);
    BookingLaws.StepKeepsBillsMatch(j.ledger, op);
    Portfolio.StepKeepsSpacesKnown(j.ledger, op);
    OpeningKeepsAligned(j, Next(j, s), Some(Billing.Invoice(s.tenant, s.total, s.due, s.status, 0, s.reachable)));
  }

  lemma StepKeepsInStep(j: Joint, s: Step)
    requires InStep(j) && Proper(s)
    ensures InStep(Next(j, s))
  {
    match s
    case Booking(_, _, _) => BookingStepKeepsInStep(j, s);
    case Recording(_, _, _, _, _, _, _) => RecordingStepKeepsInStep(j, s);
    case Billing(bill) =>
      BillingKeepsInvoices(j.book, bill);
      BillingLaws.StepKeepsMatch(j.book, bill);
  }

  /** Over every joint run both ledgers keep their invariants and agree on tenant and total of each
      invoice. */
  lemma {:induction false} RunKeepsInStep(states: seq<Joint>, steps: seq<Step>, m: nat)
    requires Execution(states, steps) && m < |states|
    requires InStep(states[0])
    ensures InStep(states[m])
  {
    if m > 0 {
      RunKeepsInStep(states, steps, m - 1);
      assert StepAt(states, steps, m - 1);
      StepKeepsInStep(states[m - 1], steps[m - 1]);
    }
  }

  /** A platform without bookings and invoices, whatever its spaces and services. */
  lemma StartsInStep(l: Ledger)
    requires l.bookings == map[] && l.invoices == []
    ensures InStep(Joint(l, Billing.Book([], [], [])))
  {
  }

  /** The invoice of a booking reaches billing issued, unpaid, due in 30 days, for the tenant of the
      booking, its price and its add-ons. */
  lemma BookingIsBilledOnce(j: Joint, s: Step) returns (id: nat)
    requires InStep(j) && Proper(s) && s.Booking?
    ensures var n := Next(j, s);
            var k := |j.book.invoices|;
            && k <= |n.book.invoices| <= k + 1
            && (|n.book.invoices| == k + 1 ==>
                  && n.book.invoices[..k] == j.book.invoices
                  && id in n.ledger.bookings && n.ledger.bookings[id].invoice == Some(k)
                  && IsNewBillOf(n.book.invoices[k], n.ledger.bookings[id], s.now)
                  && Billing.PaidSum(n.book.payments, k) == 0)
  {
    id := 0;
    var l := Apply(j.ledger, s.op).0;
    BookingsAddOneInvoice(j.ledger, s.op);
    BillingLaws.NothingPaidYet(j.book.payments, |j.book.invoices|);
    if |l.invoices| > |j.ledger.invoices| { id := BookingLaws.NewInvoiceIsABill(j.ledger, s.op); }
  }

  predicate IsNewBillOf(i: Billing.Invoice, b: BookingLedger.Booking, now: int) {
    && i.status == Billing.Issued && i.due == Some(now + 30 * DAY)
    && i.tenant == b.tenant && i.total == b.totalPrice + AddonSum(b.addOns)
  }

  /** At every moment of every joint run the landlords' summaries and the unlinked invoices make up the
      summary of the platform's owner. */
  lemma SummariesAddUpInRuns(states: seq<Joint>, steps: seq<Step>, m: nat, owners: seq<nat>, boss: Caller)
    requires Execution(states, steps) && m < |states|
    requires InStep(states[0])
    requires Portfolio.Landlords(states[m].ledger, owners) && boss.role == SuperAdmin
    ensures var l := states[m].ledger;
            var b := states[m].book;
            && Portfolio.Aligned(l, b)
            && Portfolio.Plus(Portfolio.LandlordSummaries(l, b, owners),
                              Portfolio.SummaryOver(b, |l.invoices|, Portfolio.UnlinkedIn(l)))
               == Portfolio.SummaryOver(b, |l.invoices|, Portfolio.ListedBy(l, boss, None))
  {
    RunKeepsInStep(states, steps, m);
    Portfolio.SummariesAddUp(states[m].ledger, states[m].book, owners, boss);
  }
}
