/** Whose books a row belongs to. A landlord owns buildings, sees the invoices linked to bookings of
    its spaces, and its dashboards also count rows booked under its own name. */
module Portfolio {
  import opened Options
  import opened BookingLedger
  import opened Sequences
  import BookingLaws
  import Billing
  import BillingAnswers

  // ----- Filters ------------------------------------------------------------------------------

  predicate Owned(l: Ledger, id: nat, owner: nat) {
    id in l.bookings && l.bookings[id].space in l.spaces && l.spaces[l.bookings[id].space].owner == owner
  }

  predicate Linked(l: Ledger, invoice: nat) {
    exists id :: id in l.bookings && l.bookings[id].invoice == Some(invoice)
  }

  /** `portfolioInvoiceWhere` */
  predicate InPortfolio(l: Ledger, invoice: nat, owner: nat) {
    exists id :: id in l.bookings && l.bookings[id].invoice == Some(invoice) && Owned(l, id, owner)
  }

  /** `invoiceTenantFilter` */
  predicate InvoiceCounted(l: Ledger, invoice: nat, tenant: nat) {
    invoice < |l.invoices| && (l.invoices[invoice].tenant == tenant || InPortfolio(l, invoice, tenant))
  }

  /** `bookingTenantFilter` */
  predicate BookingCounted(l: Ledger, id: nat, tenant: nat) {
    id in l.bookings && (l.bookings[id].tenant == tenant || Owned(l, id, tenant))
  }

  predicate SpacesKnown(l: Ledger) {
    forall id :: id in l.bookings ==> l.bookings[id].space in l.spaces
  }

  /** The landlords: every owner of a building, each once. */
  predicate Landlords(l: Ledger, owners: seq<nat>) {
    && (forall s :: s in l.spaces ==> l.spaces[s].owner in owners)
    && Distinct(owners)
  }

  // ----- Sums over rows and over landlords ----------------------------------------------------

  /** The weight of the rows below `n` that a relation assigns to one landlord. */
  ghost function SumFor(n: nat, rel: (nat, nat) -> bool, weight: nat -> int, owner: nat): int {
    if n == 0 then 0
    else SumFor(n - 1, rel, weight, owner) + (if rel(n - 1, owner) then weight(n - 1) else 0)
  }

  ghost function SumOverAll(n: nat, rel: (nat, nat) -> bool, weight: nat -> int, owners: seq<nat>): int {
    if owners == [] then 0
    else SumOverAll(n, rel, weight, owners[..|owners| - 1]) + SumFor(n, rel, weight, owners[|owners| - 1])
  }

  ghost function SumWhere(n: nat, keep: nat -> bool, weight: nat -> int): int {
    if n == 0 then 0 else SumWhere(n - 1, keep, weight) + (if keep(n - 1) then weight(n - 1) else 0)
  }

  /** How many landlords a row is assigned to. */
  ghost function Hits(k: nat, rel: (nat, nat) -> bool, owners: seq<nat>): nat {
    if owners == [] then 0
    else Hits(k, rel, owners[..|owners| - 1]) + (if rel(k, owners[|owners| - 1]) then 1 else 0)
  }

  lemma {:induction false} SumOfNoRows(rel: (nat, nat) -> bool, weight: nat -> int, owners: seq<nat>)
    ensures SumOverAll(0, rel, weight, owners) == 0
    decreases |owners|
  {
    if owners != [] { SumOfNoRows(rel, weight, owners[..|owners| - 1]); }
  }

  lemma {:induction false} OneMoreRow(n: nat, rel: (nat, nat) -> bool, weight: nat -> int, owners: seq<nat>)
    ensures SumOverAll(n + 1, rel, weight, owners) ==
              SumOverAll(n, rel, weight, owners) + weight(n) * Hits(n, rel, owners)
    decreases |owners|
  {
    if owners != [] {
      var m := |owners| - 1;
      OneMoreRow(n, rel, weight, owners[..m]);
      var before := Hits(n, rel, owners[..m]);
      assert weight(n) * (before + 1) == weight(n) * before + weight(n);
    }
  }

  /** If every row is assigned to one landlord, except those in `none` to nobody and those in `twice`
      to two, the landlords' sums exceed the whole by exactly the rows in `twice` less those in `none`. */
  lemma {:induction false} SumsAddUp(n: nat, rel: (nat, nat) -> bool, weight: nat -> int, owners: seq<nat>,
                                     all: nat -> bool, twice: nat -> bool, none: nat -> bool)
    requires forall k: nat | k < n ::
               Hits(k, rel, owners) ==
                 (if all(k) then 1 else 0) + (if twice(k) then 1 else 0) - (if none(k) then 1 else 0)
    ensures SumOverAll(n, rel, weight, owners) ==
              SumWhere(n, all, weight) + SumWhere(n, twice, weight) - SumWhere(n, none, weight)
  {
    if n == 0 {
      SumOfNoRows(rel, weight, owners);
    } else {
      SumsAddUp(n - 1, rel, weight, owners, all, twice, none);
      OneMoreRow(n - 1, rel, weight, owners);
      Scaled(weight(n - 1), Hits(n - 1, rel, owners));
    }
  }

  lemma Scaled(w: int, hits: nat)
    ensures hits == 0 ==> w * hits == 0
    ensures hits == 1 ==> w * hits == w
    ensures hits == 2 ==> w * hits == w + w
  {
  }

  lemma {:induction false} HitsNobody(k: nat, rel: (nat, nat) -> bool, owners: seq<nat>)
    requires forall i :: 0 <= i < |owners| ==> !rel(k, owners[i])
    ensures Hits(k, rel, owners) == 0
    decreases |owners|
  {
    if owners != [] { HitsNobody(k, rel, owners[..|owners| - 1]); }
  }

  /** A row assigned to `a` and to `b` alone hits each of them once. */
  lemma {:induction false} HitsTwo(k: nat, rel: (nat, nat) -> bool, owners: seq<nat>, a: nat, b: nat)
    requires Distinct(owners)
    requires forall x :: x in owners ==> (rel(k, x) <==> x == a || x == b)
    ensures Hits(k, rel, owners) == (if a in owners then 1 else 0) + (if b in owners && b != a then 1 else 0)
    decreases |owners|
  {
    if owners != [] {
      var m := |owners| - 1;
      assert owners == owners[..m] + [owners[m]];
      HitsTwo(k, rel, owners[..m], a, b);
    }
  }

  // ----- Invoices -----------------------------------------------------------------------------

  ghost function PortfolioOf(l: Ledger): (nat, nat) -> bool {
    (k: nat, x: nat) => InPortfolio(l, k, x)
  }

  ghost function CountedInvoicesOf(l: Ledger): (nat, nat) -> bool {
    (k: nat, x: nat) => InvoiceCounted(l, k, x)
  }

  ghost function Every(): nat -> bool {
    k => true
  }

  ghost function NoRow(): nat -> bool {
    k => false
  }

  ghost function UnlinkedIn(l: Ledger): nat -> bool {
    (k: nat) => !Linked(l, k)
  }

  /** An invoice is linked exactly when it was generated from a booking that is still there. */
  lemma LinkedIffBookingPresent(l: Ledger, k: nat)
    requires BookingLaws.BillsMatch(l) && k < |l.invoices|
    ensures Linked(l, k) <==> l.invoices[k].booking.Some? && l.invoices[k].booking.value in l.bookings
  {
    if l.invoices[k].booking.Some? {
      assert BookingLaws.GeneratedOk(l, k, l.invoices[k].booking.value);
    }
  }

  lemma OneOwner(l: Ledger, k: nat, id: nat, x: nat)
    requires BookingLaws.BillsMatch(l) && SpacesKnown(l)
    requires id in l.bookings && l.bookings[id].invoice == Some(k)
    ensures InPortfolio(l, k, x) <==> x == l.spaces[l.bookings[id].space].owner
  {
    if x == l.spaces[l.bookings[id].space].owner { assert Owned(l, id, x); }
  }

  /** No invoice is in two portfolios. */
  lemma PortfoliosAreDisjoint(l: Ledger, k: nat, x: nat, y: nat)
    requires BookingLaws.BillsMatch(l) && SpacesKnown(l)
    requires InPortfolio(l, k, x) && InPortfolio(l, k, y)
    ensures x == y
  {
    var id :| id in l.bookings && l.bookings[id].invoice == Some(k) && Owned(l, id, x);
    OneOwner(l, k, id, y);
  }

  lemma PortfolioHits(l: Ledger, owners: seq<nat>, k: nat)
    requires BookingLaws.BillsMatch(l) && SpacesKnown(l) && Landlords(l, owners)
    ensures Hits(k, PortfolioOf(l), owners) == if Linked(l, k) then 1 else 0
  {
    if Linked(l, k) {
      var id :| id in l.bookings && l.bookings[id].invoice == Some(k);
      var owner := l.spaces[l.bookings[id].space].owner;
      forall x
        ensures PortfolioOf(l)(k, x) <==> x == owner
      {
        OneOwner(l, k, id, x);
      }
      HitsTwo(k, PortfolioOf(l), owners, owner, owner);
    } else {
      HitsNobody(k, PortfolioOf(l), owners);
    }
  }

  /** Whatever is summed, the landlords' portfolios add up to the platform less exactly the invoices
      linked to no booking. */
  lemma PortfoliosPartition(l: Ledger, owners: seq<nat>, weight: nat -> int)
    requires BookingLaws.BillsMatch(l) && SpacesKnown(l) && Landlords(l, owners)
    ensures SumOverAll(|l.invoices|, PortfolioOf(l), weight, owners) ==
              SumWhere(|l.invoices|, Every(), weight) - SumWhere(|l.invoices|, UnlinkedIn(l), weight)
  {
    forall k: nat ensures Hits(k, PortfolioOf(l), owners) == if Linked(l, k) then 1 else 0 {
      PortfolioHits(l, owners, k);
    }
    SumsAddUp(|l.invoices|, PortfolioOf(l), weight, owners, Every(), NoRow(), UnlinkedIn(l));
    SumOfNone(|l.invoices|, weight);
  }

  lemma {:induction false} SumOfNone(n: nat, weight: nat -> int)
    ensures SumWhere(n, NoRow(), weight) == 0
  {
    if n > 0 { SumOfNone(n - 1, weight); }
  }

  /** The portfolios' invoice counts add up to the platform's exactly when every invoice is linked. */
  lemma InvoiceCountsAddUpIff(l: Ledger, owners: seq<nat>)
    requires BookingLaws.BillsMatch(l) && SpacesKnown(l) && Landlords(l, owners)
    ensures SumOverAll(|l.invoices|, PortfolioOf(l), One(), owners) == SumWhere(|l.invoices|, Every(), One()) <==>
              forall k: nat | k < |l.invoices| :: Linked(l, k)
  {
    PortfoliosPartition(l, owners, One());
    CountIsZeroIffNone(|l.invoices|, UnlinkedIn(l));
    assert forall k: nat | k < |l.invoices| :: Linked(l, k) <==> !UnlinkedIn(l)(k);
  }

  /** It fails for a single invoice recorded by hand: the platform counts it, no landlord does. */
  lemma RecordedInvoiceIsInNoPortfolio() returns (l: Ledger, owners: seq<nat>)
    ensures BookingLaws.BillsMatch(l) && SpacesKnown(l) && Landlords(l, owners) && IdsBelowNext(l)
    ensures SumWhere(|l.invoices|, Every(), One()) == 1
    ensures SumOverAll(|l.invoices|, PortfolioOf(l), One(), owners) == 0
  {
    var start := Ledger(map[], map[0 := Space(5, false, 100, Available, true)], map[], {}, map[], [], 0, 0);
    l := Recording(start, 7, [], 100, 100);
    owners := [5];
    PortfoliosPartition(l, owners, One());
    assert UnlinkedIn(l)(0);
    assert SumWhere(0, Every(), One()) == 0 == SumWhere(0, UnlinkedIn(l), One());
    assert SumWhere(1, Every(), One()) == 1 == SumWhere(1, UnlinkedIn(l), One());
  }

  // ----- Dashboard counts ---------------------------------------------------------------------

  /** A landlord other than the linked building's owner is billed: two dashboards count the invoice. */
  predicate TwiceCounted(l: Ledger, owners: seq<nat>, k: nat) {
    && k < |l.invoices| && l.invoices[k].tenant in owners && Linked(l, k) && !InPortfolio(l, k, l.invoices[k].tenant)
  }

  predicate NeverCounted(l: Ledger, owners: seq<nat>, k: nat) {
    k < |l.invoices| && l.invoices[k].tenant !in owners && !Linked(l, k)
  }

  ghost function TwiceIn(l: Ledger, owners: seq<nat>): nat -> bool {
    (k: nat) => TwiceCounted(l, owners, k)
  }

  ghost function NeverIn(l: Ledger, owners: seq<nat>): nat -> bool {
    (k: nat) => NeverCounted(l, owners, k)
  }

  lemma InvoiceHits(l: Ledger, owners: seq<nat>, k: nat)
    requires BookingLaws.BillsMatch(l) && SpacesKnown(l) && Landlords(l, owners) && k < |l.invoices|
    ensures Hits(k, CountedInvoicesOf(l), owners) ==
              1 + (if TwiceCounted(l, owners, k) then 1 else 0) - (if NeverCounted(l, owners, k) then 1 else 0)
  {
    var tenant := l.invoices[k].tenant;
    if Linked(l, k) {
      var id :| id in l.bookings && l.bookings[id].invoice == Some(k);
      var owner := l.spaces[l.bookings[id].space].owner;
      forall x
        ensures CountedInvoicesOf(l)(k, x) <==> x == owner || x == tenant
        ensures InPortfolio(l, k, x) <==> x == owner
      {
        OneOwner(l, k, id, x);
      }
      HitsTwo(k, CountedInvoicesOf(l), owners, owner, tenant);
    } else {
      HitsTwo(k, CountedInvoicesOf(l), owners, tenant, tenant);
    }
  }

  /** Dashboards, which also count invoices by tenant, exceed the platform by the invoices of landlords
      renting from others and fall short by those of no landlord and no booking. */
  lemma DashboardInvoicesAddUp(l: Ledger, owners: seq<nat>, weight: nat -> int)
    requires BookingLaws.BillsMatch(l) && SpacesKnown(l) && Landlords(l, owners)
    ensures SumOverAll(|l.invoices|, CountedInvoicesOf(l), weight, owners) ==
              SumWhere(|l.invoices|, Every(), weight)
              + SumWhere(|l.invoices|, TwiceIn(l, owners), weight)
              - SumWhere(|l.invoices|, NeverIn(l, owners), weight)
  {
    forall k: nat | k < |l.invoices|
      ensures Hits(k, CountedInvoicesOf(l), owners) ==
                1 + (if TwiceCounted(l, owners, k) then 1 else 0) - (if NeverCounted(l, owners, k) then 1 else 0)
    {
      InvoiceHits(l, owners, k);
    }
    SumsAddUp(|l.invoices|, CountedInvoicesOf(l), weight, owners, Every(), TwiceIn(l, owners), NeverIn(l, owners));
  }

  ghost function CountedBookingsOf(l: Ledger): (nat, nat) -> bool {
    (id: nat, x: nat) => BookingCounted(l, id, x)
  }

  ghost function BookingsIn(l: Ledger): nat -> bool {
    id => id in l.bookings
  }

  /** The booking's tenant is a landlord other than the building's owner. */
  predicate LandlordRents(l: Ledger, owners: seq<nat>, id: nat) {
    id in l.bookings && l.bookings[id].tenant in owners && !Owned(l, id, l.bookings[id].tenant)
  }

  ghost function LandlordRentals(l: Ledger, owners: seq<nat>): nat -> bool {
    (id: nat) => LandlordRents(l, owners, id)
  }

  ghost function One(): nat -> int {
    id => 1
  }

  lemma BookingHits(l: Ledger, owners: seq<nat>, id: nat)
    requires SpacesKnown(l) && Landlords(l, owners)
    ensures Hits(id, CountedBookingsOf(l), owners) ==
              (if id in l.bookings then 1 else 0) + (if LandlordRents(l, owners, id) then 1 else 0)
  {
    if id in l.bookings {
      HitsTwo(id, CountedBookingsOf(l), owners, l.spaces[l.bookings[id].space].owner, l.bookings[id].tenant);
    } else {
      HitsNobody(id, CountedBookingsOf(l), owners);
    }
  }

  lemma {:induction false} CountIsZeroIffNone(n: nat, keep: nat -> bool)
    ensures SumWhere(n, keep, One()) >= 0
    ensures SumWhere(n, keep, One()) == 0 <==> forall k: nat | k < n :: !keep(k)
  {
    if n > 0 { CountIsZeroIffNone(n - 1, keep); }
  }

  /** The landlords' booking counts add up to the platform's exactly when no landlord rents from another. */
  lemma BookingCountsAddUpIff(l: Ledger, owners: seq<nat>)
    requires SpacesKnown(l) && Landlords(l, owners) && IdsBelowNext(l)
    ensures var all := SumWhere(l.nextBooking, BookingsIn(l), One());
            var seen := SumOverAll(l.nextBooking, CountedBookingsOf(l), One(), owners);
            && seen == all + SumWhere(l.nextBooking, LandlordRentals(l, owners), One())
            && (seen == all <==> forall id: nat :: !LandlordRents(l, owners, id))
  {
    forall id: nat
      ensures Hits(id, CountedBookingsOf(l), owners) ==
                (if id in l.bookings then 1 else 0) + (if LandlordRents(l, owners, id) then 1 else 0)
    {
      BookingHits(l, owners, id);
    }
    SumsAddUp(l.nextBooking, CountedBookingsOf(l), One(), owners, BookingsIn(l), LandlordRentals(l, owners), NoRow());
    SumOfNone(l.nextBooking, One());
    CountIsZeroIffNone(l.nextBooking, LandlordRentals(l, owners));
    assert forall id: nat :: LandlordRents(l, owners, id) ==> id < l.nextBooking && LandlordRentals(l, owners)(id);
  }

  // ----- Runs ---------------------------------------------------------------------------------

  lemma StepKeepsSpacesKnown(l: Ledger, op: Op)
    requires SpacesKnown(l) && IdsBelowNext(l)
    ensures SpacesKnown(Apply(l, op).0)
  {
    BookingLaws.StepShape(l, op);
    ShapedKeepsSpacesKnown(l, BookingLaws.KindOf(op), Apply(l, op).0);
  }

  lemma ShapedKeepsSpacesKnown(l: Ledger, kind: BookingLaws.Kind, n: Ledger)
    requires SpacesKnown(l) && BookingLaws.Shaped(l, kind, n)
    ensures SpacesKnown(n)
  {
    assert n.spaces.Keys == l.spaces.Keys;
  }

  lemma RunStepKeepsSpacesKnown(states: seq<Ledger>, ops: seq<Op>, i: nat)
    requires Execution(states, ops) && i < |ops|
    requires IdsBelowNext(states[i]) && SpacesKnown(states[i])
    ensures SpacesKnown(states[i + 1])
  {
    assert StepAt(states, ops, i);
    StepKeepsSpacesKnown(states[i], ops[i]);
  }

  lemma {:induction false} RunKeepsSpacesKnown(states: seq<Ledger>, ops: seq<Op>, m: nat)
    requires Execution(states, ops) && m < |states|
    requires IdsBelowNext(states[0]) && SpacesKnown(states[0])
    ensures SpacesKnown(states[m])
  {
    if m > 0 {
      RunKeepsSpacesKnown(states, ops, m - 1);
      BookingLaws.RunKeepsIds(states, ops, m - 1);
      RunStepKeepsSpacesKnown(states, ops, m - 1);
    }
  }

  /** At every moment of every run the portfolios partition the linked invoices. */
  lemma PortfoliosPartitionInRuns(states: seq<Ledger>, ops: seq<Op>, m: nat, owners: seq<nat>, weight: nat -> int)
    requires Execution(states, ops) && m < |states|
    requires IdsBelowNext(states[0]) && BookingLaws.BillsMatch(states[0]) && SpacesKnown(states[0])
    requires Landlords(states[m], owners)
    ensures var l := states[m];
            SumOverAll(|l.invoices|, PortfolioOf(l), weight, owners) ==
              SumWhere(|l.invoices|, Every(), weight) - SumWhere(|l.invoices|, UnlinkedIn(l), weight)
  {
    RunKeepsSpacesKnown(states, ops, m);
    BookingLaws.RunKeepsBillsMatch(states, ops, m);
    PortfoliosPartition(states[m], owners, weight);
  }

  // ----- The financial summary ----------------------------------------------------------------

  datatype Summary = Summary(invoiced: int, paid: int, pending: int, overdue: int, count: int)

  /** The billing rows of the same invoices: statuses and payments live there. */
  predicate Aligned(l: Ledger, b: Billing.Book) {
    && |b.invoices| == |l.invoices|
    && forall k :: 0 <= k < |l.invoices| ==>
         b.invoices[k].tenant == l.invoices[k].tenant && b.invoices[k].total == l.invoices[k].total
  }

  /** `resolveTenantScope`: None refuses, Some(None) filters nothing. */
  function TenantScope(who: Caller, asked: Option<nat>): Option<Option<nat>> {
    if PortalBooker(who.role) then
      if asked.Some? && asked.value != who.tenant then None else Some(Some(who.tenant))
    else if Billing.ClientBilling(who.role) then
      if asked.Some? && asked.value != who.tenant then Some(asked) else Some(None)
    else Some(asked)
  }

  /** `buildInvoiceListWhere` */
  predicate Listed(l: Ledger, who: Caller, scope: Option<nat>, k: nat) {
    && k < |l.invoices|
    && (Billing.ClientBilling(who.role) ==> InPortfolio(l, k, who.tenant))
    && (scope.Some? ==> l.invoices[k].tenant == scope.value)
  }

  /** `assertInvoiceReadable` */
  predicate Readable(l: Ledger, who: Caller, k: nat) {
    && k < |l.invoices|
    && !(PortalBooker(who.role) && l.invoices[k].tenant != who.tenant)
    && !(Billing.ClientBilling(who.role) && !InPortfolio(l, k, who.tenant))
  }

  /** One invoice can be opened exactly when the caller's unfiltered list shows it. */
  lemma ReadableIffListed(l: Ledger, who: Caller, k: nat)
    ensures TenantScope(who, None).Some?
    ensures Readable(l, who, k) <==> Listed(l, who, TenantScope(who, None).value, k)
  {
  }

  ghost function ListedBy(l: Ledger, who: Caller, scope: Option<nat>): nat -> bool {
    (k: nat) => Listed(l, who, scope, k)
  }

  ghost function TotalOf(b: Billing.Book): nat -> int {
    (k: nat) => if k < |b.invoices| then b.invoices[k].total else 0
  }

  ghost function PaidOf(b: Billing.Book): nat -> int {
    (k: nat) => Billing.PaidSum(b.payments, k)
  }

  ghost function OverdueOf(b: Billing.Book): nat -> int {
    (k: nat) => if k < |b.invoices| && b.invoices[k].status == Billing.Overdue then b.invoices[k].total else 0
  }

  ghost function SummaryOver(b: Billing.Book, n: nat, keep: nat -> bool): Summary {
    var invoiced := SumWhere(n, keep, TotalOf(b));
    var paid := SumWhere(n, keep, PaidOf(b));
    Summary(invoiced, paid, invoiced - paid, SumWhere(n, keep, OverdueOf(b)), SumWhere(n, keep, One()))
  }

  /** Whose invoices a caller is shown: renters see their own, client staff those of their portfolio, others
      all; and whoever may ask for one tenant sees that tenant's among them. */
  predicate Shown(l: Ledger, who: Caller, asked: Option<nat>, k: nat) {
    && k < |l.invoices|
    && (who.role in {TenantAdmin, TenantEmployee} ==> l.invoices[k].tenant == who.tenant)
    && (who.role in {ClientAdmin, Manager, Finance} ==>
          exists id :: id in l.bookings && l.bookings[id].invoice == Some(k)
                       && l.bookings[id].space in l.spaces && l.spaces[l.bookings[id].space].owner == who.tenant)
    && (asked.Some? && who.role !in {TenantAdmin, TenantEmployee}
        && !(who.role in {ClientAdmin, Manager, Finance} && asked.value == who.tenant) ==>
          l.invoices[k].tenant == asked.value)
  }

  lemma ListedIffShown(l: Ledger, who: Caller, asked: Option<nat>, k: nat)
    ensures TenantScope(who, asked).None? <==>
              who.role in {TenantAdmin, TenantEmployee} && asked.Some? && asked.value != who.tenant
    ensures TenantScope(who, asked).Some? ==>
              (Listed(l, who, TenantScope(who, asked).value, k) <==> Shown(l, who, asked, k))
  {
    assert InPortfolio(l, k, who.tenant) <==>
           exists id :: id in l.bookings && l.bookings[id].invoice == Some(k)
                        && l.bookings[id].space in l.spaces && l.spaces[l.bookings[id].space].owner == who.tenant;
  }

  /** Each invoice shown adds its total to the amount invoiced, its completed payments to the amount paid, the
      difference to the amount pending, its total to the overdue amount if its status says so, and one to
      the count; others add nothing. */
  lemma EachInvoiceAdds(l: Ledger, b: Billing.Book, who: Caller, asked: Option<nat>, k: nat)
    requires Aligned(l, b) && k < |l.invoices| && TenantScope(who, asked).Some?
    ensures var keep := ListedBy(l, who, TenantScope(who, asked).value);
            var paid := BillingAnswers.Received(b.payments, k);
            SummaryOver(b, k + 1, keep) ==
              if !Shown(l, who, asked, k) then SummaryOver(b, k, keep)
              else Plus(SummaryOver(b, k, keep),
                        Summary(l.invoices[k].total, paid, l.invoices[k].total - paid,
                                if b.invoices[k].status == Billing.Overdue then l.invoices[k].total else 0, 1))
    ensures SummaryOver(b, 0, ListedBy(l, who, TenantScope(who, asked).value)) == Summary(0, 0, 0, 0, 0)
  {
    ListedIffShown(l, who, asked, k);
    BillingAnswers.PaidSumIsReceived(b.payments, k);
  }

  method GetFinancialSummary(l: Ledger, b: Billing.Book, who: Caller, asked: Option<nat>) returns (s: Option<Summary>)
    requires Aligned(l, b)
    ensures s.None? <==> PortalBooker(who.role) && asked.Some? && asked.value != who.tenant
    ensures s.Some? ==> TenantScope(who, asked).Some?
                        && s.value == SummaryOver(b, |l.invoices|, ListedBy(l, who, TenantScope(who, asked).value))
  {
    var scope := TenantScope(who, asked);
    if scope.None? { return None; }
    ghost var keep := ListedBy(l, who, scope.value);
    var invoiced, paid, overdue, count := 0, 0, 0, 0;
    var k: nat := 0;
    while k < |l.invoices|
      invariant k <= |l.invoices|
      invariant invoiced == SumWhere(k, keep, TotalOf(b)) && paid == SumWhere(k, keep, PaidOf(b))
      invariant overdue == SumWhere(k, keep, OverdueOf(b)) && count == SumWhere(k, keep, One())
    {
      if Listed(l, who, scope.value, k) {
        invoiced := invoiced + b.invoices[k].total;
        paid := paid + Billing.PaidSum(b.payments, k);
        if b.invoices[k].status == Billing.Overdue { overdue := overdue + b.invoices[k].total; }
        count := count + 1;
      }
      k := k + 1;
    }
    s := Some(Summary(invoiced, paid, invoiced - paid, overdue, count));
  }

  function Plus(x: Summary, y: Summary): Summary {
    Summary(x.invoiced + y.invoiced, x.paid + y.paid, x.pending + y.pending, x.overdue + y.overdue, x.count + y.count)
  }

  /** The administrator of one landlord. */
  function AdminOf(owner: nat): Caller {
    Caller(0, ClientAdmin, owner, true)
  }

  ghost function LandlordSummaries(l: Ledger, b: Billing.Book, owners: seq<nat>): Summary {
    if owners == [] then Summary(0, 0, 0, 0, 0)
    else Plus(LandlordSummaries(l, b, owners[..|owners| - 1]),
              SummaryOver(b, |l.invoices|, ListedBy(l, AdminOf(owners[|owners| - 1]), None)))
  }

  lemma {:induction false} ListIsPortfolio(l: Ledger, owner: nat, n: nat, weight: nat -> int)
    requires n <= |l.invoices|
    ensures SumWhere(n, ListedBy(l, AdminOf(owner), None), weight) == SumFor(n, PortfolioOf(l), weight, owner)
  {
    if n > 0 { ListIsPortfolio(l, owner, n - 1, weight); }
  }

  lemma {:induction false} SummariesAreSums(l: Ledger, b: Billing.Book, owners: seq<nat>)
    ensures var s := LandlordSummaries(l, b, owners);
            var n := |l.invoices|;
            && s.invoiced == SumOverAll(n, PortfolioOf(l), TotalOf(b), owners)
            && s.paid == SumOverAll(n, PortfolioOf(l), PaidOf(b), owners)
            && s.pending == s.invoiced - s.paid
            && s.overdue == SumOverAll(n, PortfolioOf(l), OverdueOf(b), owners)
            && s.count == SumOverAll(n, PortfolioOf(l), One(), owners)
    decreases |owners|
  {
    if owners != [] {
      var m := |owners| - 1;
      SummariesAreSums(l, b, owners[..m]);
      ListIsPortfolio(l, owners[m], |l.invoices|, TotalOf(b));
      ListIsPortfolio(l, owners[m], |l.invoices|, PaidOf(b));
      ListIsPortfolio(l, owners[m], |l.invoices|, OverdueOf(b));
      ListIsPortfolio(l, owners[m], |l.invoices|, One());
    }
  }

  lemma {:induction false} SameRowsSameSum(n: nat, keep: nat -> bool, other: nat -> bool, weight: nat -> int)
    requires forall k: nat | k < n :: keep(k) == other(k)
    ensures SumWhere(n, keep, weight) == SumWhere(n, other, weight)
  {
    if n > 0 { SameRowsSameSum(n - 1, keep, other, weight); }
  }

  lemma PlatformListsAll(l: Ledger, boss: Caller, weight: nat -> int)
    requires boss.role == SuperAdmin
    ensures SumWhere(|l.invoices|, ListedBy(l, boss, None), weight) == SumWhere(|l.invoices|, Every(), weight)
  {
    SameRowsSameSum(|l.invoices|, ListedBy(l, boss, None), Every(), weight);
  }

  /** Every figure of the landlords' summaries, together with the unlinked invoices, makes up the
      summary the platform's owner sees. */
  lemma SummariesAddUp(l: Ledger, b: Billing.Book, owners: seq<nat>, boss: Caller)
    requires BookingLaws.BillsMatch(l) && SpacesKnown(l) && Landlords(l, owners) && boss.role == SuperAdmin
    ensures Plus(LandlordSummaries(l, b, owners), SummaryOver(b, |l.invoices|, UnlinkedIn(l)))
            == SummaryOver(b, |l.invoices|, ListedBy(l, boss, None))
  {
    PlatformListsAll(l, boss, TotalOf(b));
    PlatformListsAll(l, boss, PaidOf(b));
    PlatformListsAll(l, boss, OverdueOf(b));
    PlatformListsAll(l, boss, One());
    SummariesAreSums(l, b, owners);
    PortfoliosPartition(l, owners, TotalOf(b));
    PortfoliosPartition(l, owners, PaidOf(b));
    PortfoliosPartition(l, owners, OverdueOf(b));
    PortfoliosPartition(l, owners, One());
  }
}
