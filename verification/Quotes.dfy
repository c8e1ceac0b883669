/** The amount a booking is quoted and the amount it is invoiced. */
module Quotes {
  import opened Options
  import opened BookingLedger
  import opened BookingLaws

  lemma {:induction false} CopiesCostTheSame(addons: seq<Addon>, first: nat)
    ensures AddonSum(CopiedAddons(addons, first)) == AddonSum(addons)
    decreases |addons|
  {
    if addons != [] {
      var m := |addons| - 1;
      CopiesCostTheSame(addons[..m], first);
      assert CopiedAddons(addons, first)[..m] == CopiedAddons(addons[..m], first);
    }
  }

  lemma {:induction false} AbsentAddonRemovesNothing(addons: seq<Addon>, addon: nat)
    requires forall k :: 0 <= k < |addons| ==> addons[k].id != addon
    ensures WithoutAddon(addons, addon) == addons
    decreases |addons|
  {
    if addons != [] {
      AbsentAddonRemovesNothing(addons[..|addons| - 1], addon);
    }
  }

  /** The call edits an add-on of booking `id`. */
  predicate EditsAddons(l: Ledger, op: Op, id: nat) {
    || (op.AddAddon? && op.id == id)
    || (op.RemoveAddon? && id in l.bookings
        && exists k :: 0 <= k < |l.bookings[id].addOns| && l.bookings[id].addOns[k].id == op.addon)
  }

  /** The quoted amount is the price of the space plus the add-ons, and an invoice, if there is one,
      asks for exactly that. */
  predicate Quoted(l: Ledger, id: nat)
    requires id in l.bookings
  {
    var b := l.bookings[id];
    && b.totalAmount == b.totalPrice + AddonSum(b.addOns)
    && (b.invoice.Some? ==> b.invoice.value < |l.invoices| && l.invoices[b.invoice.value].total == b.totalAmount)
  }

  lemma OpeningIsQuoted(l: Ledger, op: Op, id: nat)
    requires IdsBelowNext(l)
    requires id !in l.bookings && id in Apply(l, op).0.bookings
    ensures Quoted(Apply(l, op).0, id)
  {
    StepShape(l, op);
    match op
    case Create(who, dto) => CreatedIsQuoted(l, who, dto);
    case Inquire(_, _, _, _, _, _) => InquiredIsQuoted(l, op);
    case AcceptApplication(who, app, r) => AcceptedIsQuoted(l, who, app, r);
    case _ =>
  }

  lemma CreatedIsQuoted(l: Ledger, who: Caller, dto: NewBooking)
    requires IdsBelowNext(l) && l.nextBooking in Creating(l, who, dto).0.bookings
    ensures Quoted(Creating(l, who, dto).0, l.nextBooking)
  {
  }

  lemma InquiredIsQuoted(l: Ledger, op: Op)
    requires op.Inquire? && IdsBelowNext(l)
    requires l.nextBooking in Inquiring(l, op.signed, op.inquiry, op.place, op.actor, op.start, op.end).0.bookings
    ensures Quoted(Inquiring(l, op.signed, op.inquiry, op.place, op.actor, op.start, op.end).0, l.nextBooking)
  {
  }

  lemma AcceptedIsQuoted(l: Ledger, who: Caller, app: nat, r: Option<nat>)
    requires IdsBelowNext(l) && l.nextBooking in Accepting(l, who, app, r).0.bookings
    ensures Quoted(Accepting(l, who, app, r).0, l.nextBooking)
  {
    CopiesCostTheSame(l.applications[app].addons, l.nextAddon);
  }

  lemma ShapedKeepsQuoted(l: Ledger, kind: Kind, n: Ledger, id: nat)
    requires Shaped(l, kind, n) && (kind.Move? ==> MovedBills(l, kind.id, n)) && (kind.Edit? ==> !kind.addons)
    requires id in l.bookings && id in n.bookings && Quoted(l, id)
    ensures Quoted(n, id)
  {
  }

  lemma AddonCallKeepsQuoted(l: Ledger, op: Op, id: nat)
    requires op.AddAddon? || op.RemoveAddon?
    requires id in l.bookings && Quoted(l, id) && !EditsAddons(l, op, id)
    ensures op.AddAddon? ==>
              var n := AddingAddon(l, op.who, op.id, op.service, op.quantity, op.unitPrice).0;
              id in n.bookings && Quoted(n, id)
    ensures op.RemoveAddon? ==>
              var n := RemovingAddon(l, op.who, op.id, op.addon).0;
              id in n.bookings && Quoted(n, id)
  {
    if op.RemoveAddon? { AbsentAddonRemovesNothing(l.bookings[id].addOns, op.addon); }
  }

  lemma StepKeepsQuoted(l: Ledger, op: Op, id: nat)
    requires IdsBelowNext(l)
    requires id in l.bookings && Quoted(l, id)
    requires id in Apply(l, op).0.bookings && !EditsAddons(l, op, id)
    ensures Quoted(Apply(l, op).0, id)
  {
    if op.AddAddon? || op.RemoveAddon? {
      AddonCallKeepsQuoted(l, op, id);
    } else {
      StepShape(l, op);
      if IsMove(op) { MoveShape(l, op); }
      ShapedKeepsQuoted(l, KindOf(op), Apply(l, op).0, id);
    }
  }

  lemma RunStepKeepsQuoted(states: seq<Ledger>, ops: seq<Op>, id: nat, i: nat)
    requires Execution(states, ops) && i < |ops| && IdsBelowNext(states[i])
    requires id in states[i].bookings && id in states[i + 1].bookings
    requires Quoted(states[i], id) && !EditsAddons(states[i], ops[i], id)
    ensures Quoted(states[i + 1], id)
  {
    assert StepAt(states, ops, i);
    StepKeepsQuoted(states[i], ops[i], id);
  }

  /** A run's opening step leaves the new booking quoted. */
  lemma RunOpeningIsQuoted(states: seq<Ledger>, ops: seq<Op>, id: nat, i: nat)
    requires Execution(states, ops) && i < |ops| && IdsBelowNext(states[i])
    requires id !in states[i].bookings && id in states[i + 1].bookings
    ensures Quoted(states[i + 1], id)
  {
    assert StepAt(states, ops, i);
    OpeningIsQuoted(states[i], ops[i], id);
  }

  /** A booking opened during the run and whose add-ons were not edited since is invoiced, whenever
      it is, for exactly the amount it was quoted. */
  lemma {:induction false} QuoteEqualsInvoice(states: seq<Ledger>, ops: seq<Op>, m: nat, id: nat)
    requires Execution(states, ops) && m < |states|
    requires IdsBelowNext(states[0]) && states[0].nextBooking <= id
    requires id in states[m].bookings
    requires forall i :: 0 <= i < m ==> !EditsAddons(states[i], ops[i], id)
    ensures Quoted(states[m], id)
  {
    if m > 0 {
      RunKeepsIds(states, ops, m - 1);
      if id in states[m - 1].bookings {
        QuoteEqualsInvoice(states, ops, m - 1, id);
        RunStepKeepsQuoted(states, ops, id, m - 1);
      } else {
        RunOpeningIsQuoted(states, ops, id, m - 1);
      }
    }
  }

  // ----- When exactly quote and invoice agree -------------------------------------------------

  /** A booking keeps its quote and, once it has one, its invoice; invoices are never rewritten. */
  predicate KeepsMoney(l: Ledger, n: Ledger, id: nat) {
    && id in l.bookings && id in n.bookings
    && n.bookings[id].totalAmount == l.bookings[id].totalAmount
    && n.bookings[id].totalPrice == l.bookings[id].totalPrice
    && (l.bookings[id].invoice.Some? ==> n.bookings[id].invoice == l.bookings[id].invoice)
    && KeepsInvoices(l, n)
  }

  /** A row that gains its invoice in this step is billed its price plus the add-ons it has now. */
  lemma ShapedKeepsMoney(l: Ledger, kind: Kind, n: Ledger, id: nat)
    requires Shaped(l, kind, n) && (kind.Move? ==> MovedBills(l, kind.id, n))
    requires id in l.bookings && id in n.bookings
    ensures KeepsMoney(l, n, id)
    ensures l.bookings[id].invoice.None? && n.bookings[id].invoice.Some? ==> BilledNow(n, id)
  {
  }

  predicate BilledNow(l: Ledger, id: nat)
    requires id in l.bookings && l.bookings[id].invoice.Some?
  {
    var b := l.bookings[id];
    b.invoice.value < |l.invoices| && l.invoices[b.invoice.value].total == b.totalPrice + AddonSum(b.addOns)
  }

  lemma MoneyCarriesOver(a: Ledger, b: Ledger, c: Ledger, id: nat)
    requires KeepsMoney(a, b, id) && KeepsMoney(b, c, id)
    ensures KeepsMoney(a, c, id)
  {
    forall k | 0 <= k < |a.invoices|
      ensures c.invoices[k] == a.invoices[k]
    {
      assert b.invoices[k] == a.invoices[k];
    }
  }

  predicate MoneyStep(states: seq<Ledger>, id: nat, i: nat)
    requires i + 1 < |states|
  {
    KeepsMoney(states[i], states[i + 1], id)
  }

  lemma {:induction false} MoneyChains(states: seq<Ledger>, id: nat, k: nat, m: nat)
    requires k <= m < |states| && id in states[k].bookings
    requires forall i {:trigger MoneyStep(states, id, i)} :: k <= i < m ==> MoneyStep(states, id, i)
    ensures KeepsMoney(states[k], states[m], id)
    decreases m - k
  {
    if k < m {
      MoneyChains(states, id, k, m - 1);
      assert MoneyStep(states, id, m - 1);
      MoneyCarriesOver(states[k], states[m - 1], states[m], id);
    }
  }

  /** The same, at one step of a run. */
  lemma RunStepKeepsMoney(states: seq<Ledger>, ops: seq<Op>, id: nat, i: nat)
    requires Execution(states, ops) && i < |ops|
    requires IdsBelowNext(states[i])
    requires id in states[i].bookings && id in states[i + 1].bookings
    ensures KeepsMoney(states[i], states[i + 1], id)
    ensures states[i].bookings[id].invoice.None? && states[i + 1].bookings[id].invoice.Some? ==>
              BilledNow(states[i + 1], id)
  {
    assert StepAt(states, ops, i);
    StepShape(states[i], ops[i]);
    if IsMove(ops[i]) { MoveShape(states[i], ops[i]); }
    ShapedKeepsMoney(states[i], KindOf(ops[i]), states[i + 1], id);
  }

  lemma RunKeepsMoney(states: seq<Ledger>, ops: seq<Op>, id: nat, k: nat, m: nat)
    requires Execution(states, ops) && k <= m < |states|
    requires IdsBelowNext(states[0])
    requires id in states[k].bookings && id in states[m].bookings
    ensures KeepsMoney(states[k], states[m], id)
  {
    PresentBetween(states, ops, id, k, m);
    forall i {:trigger MoneyStep(states, id, i)} | k <= i < m
      ensures MoneyStep(states, id, i)
    {
      RunKeepsIds(states, ops, i);
      RunStepKeepsMoney(states, ops, id, i);
    }
    MoneyChains(states, id, k, m);
  }

  lemma PresentBetween(states: seq<Ledger>, ops: seq<Op>, id: nat, k: nat, m: nat)
    requires Execution(states, ops) && k <= m < |states|
    requires IdsBelowNext(states[0])
    requires id in states[k].bookings && id in states[m].bookings
    ensures forall i :: k <= i <= m ==> id in states[i].bookings
  {
    RunKeepsIds(states, ops, k);
    forall i | k <= i <= m
      ensures id in states[i].bookings
    {
      NextOnlyGrows(states, ops, k, i);
      PresentThroughout(states, ops, id, i, m);
    }
  }

  /** From the opening, through the moment of invoicing, to any later moment. */
  lemma AgreementIff(first: Ledger, billed: Ledger, later: Ledger, id: nat)
    requires id in first.bookings && Quoted(first, id)
    requires KeepsMoney(first, billed, id) && KeepsMoney(billed, later, id)
    requires billed.bookings[id].invoice.Some? && BilledNow(billed, id)
    ensures var b := later.bookings[id];
            && b.invoice.Some? && b.invoice.value < |later.invoices|
            && (later.invoices[b.invoice.value].total == b.totalAmount <==>
                  AddonSum(billed.bookings[id].addOns) == AddonSum(first.bookings[id].addOns))
  {
  }

  /** Over every run: take the step that opens a booking, the first moment at which it has an invoice,
      and any later moment. Then the invoice asks for exactly the quoted amount if and only if the
      add-ons cost as much at the moment of invoicing as they did at the opening. Editing them
      afterwards does not matter. */
  lemma QuoteEqualsInvoiceIff(states: seq<Ledger>, ops: seq<Op>, id: nat, start: nat, billed: nat, m: nat)
    requires Execution(states, ops) && IdsBelowNext(states[0])
    requires start < billed <= m < |states|
    requires id !in states[start].bookings && id in states[start + 1].bookings
    requires id in states[billed].bookings && states[billed].bookings[id].invoice.Some?
    requires billed == start + 1 || (id in states[billed - 1].bookings && states[billed - 1].bookings[id].invoice.None?)
    requires id in states[m].bookings
    ensures var b := states[m].bookings[id];
            && b.invoice.Some? && b.invoice.value < |states[m].invoices|
            && (states[m].invoices[b.invoice.value].total == b.totalAmount <==>
                  AddonSum(states[billed].bookings[id].addOns) == AddonSum(states[start + 1].bookings[id].addOns))
  {
    RunKeepsIds(states, ops, start);
    RunOpeningIsQuoted(states, ops, id, start);
    RunKeepsMoney(states, ops, id, start + 1, billed);
    RunKeepsMoney(states, ops, id, billed, m);
    RunKeepsIds(states, ops, billed - 1);
    if billed > start + 1 { RunStepKeepsMoney(states, ops, id, billed - 1); }
    AgreementIff(states[start + 1], states[billed], states[m], id);
  }

  lemma PendingCreation(l: Ledger, who: Caller, dto: NewBooking)
    requires who.role == SuperAdmin && dto.space in l.spaces && l.spaces[dto.space].requiresApproval
    requires l.bookings == map[] && dto.addons == [] && dto.status == None
    ensures var n := Creating(l, who, dto).0;
            && n.services == l.services && n.invoices == l.invoices && n.nextAddon == l.nextAddon
            && l.nextBooking in n.bookings
            && n.bookings == map[l.nextBooking :=
                 Booking(dto.tenant, dto.creator, dto.space, dto.start, dto.end, PendingApproval,
                         dto.price, dto.price, [], None, None, None, [])]
  {
    assert AddonSum([]) == 0;
  }

  lemma CreateInRun(l: Ledger, who: Caller, dto: NewBooking) returns (n: Ledger)
    requires who.role == SuperAdmin && dto.space in l.spaces && l.spaces[dto.space].requiresApproval
    requires l.bookings == map[] && dto.addons == [] && dto.status == None
    ensures Execution([l, n], [Create(who, dto)]) && n == Creating(l, who, dto).0
  {
    assert Execution([l], []);
    n := ExtendRun([l], [], Create(who, dto));
    assert [l] + [n] == [l, n] && [] + [Create(who, dto)] == [Create(who, dto)];
  }

  lemma AddonInRun(states: seq<Ledger>, ops: seq<Op>, who: Caller, id: nat, service: nat, price: int)
    returns (n: Ledger)
    requires Execution(states, ops) && who.sees
    requires id in states[|ops|].bookings && service in states[|ops|].services
    ensures Execution(states + [n], ops + [AddAddon(who, id, service, 1, price)])
    ensures var l := states[|ops|];
            var b := l.bookings[id];
            && n.invoices == l.invoices
            && n.bookings == l.bookings[id := b.(addOns := b.addOns + [Addon(l.nextAddon, service, 1, price)])]
  {
    n := ExtendRun(states, ops, AddAddon(who, id, service, 1, price));
    assert n == AddingAddon(states[|ops|], who, id, service, 1, price).0;
  }

  lemma ApproveInRun(states: seq<Ledger>, ops: seq<Op>, who: Caller, id: nat) returns (n: Ledger)
    requires Execution(states, ops) && who.sees && who.role == SuperAdmin
    requires id in states[|ops|].bookings
    requires states[|ops|].bookings[id].status == PendingApproval && states[|ops|].bookings[id].invoice.None?
    ensures Execution(states + [n], ops + [Approve(who, id)])
    ensures BillOf(n, id, |states[|ops|].invoices|)
    ensures n.bookings[id].totalAmount == states[|ops|].bookings[id].totalAmount
    ensures n.bookings[id].totalPrice == states[|ops|].bookings[id].totalPrice
    ensures n.bookings[id].addOns == states[|ops|].bookings[id].addOns
  {
    var l := states[|ops|];
    n := ExtendRun(states, ops, Approve(who, id));
    var moved := l.(bookings := l.bookings[id := l.bookings[id].(status := Confirmed)]);
    assert n == Approving(l, who, id).0 == Billed(moved, id);
    BilledHasBill(moved, id);
  }

  /** Created for 100, given an add-on for 20, approved: quoted 100, invoiced 120. */
  lemma EditedBookingCostsMore() returns (states: seq<Ledger>, ops: seq<Op>)
    ensures Execution(states, ops) && IdsBelowNext(states[0]) && states[0].bookings == map[]
    ensures var l := states[|ops|];
            && 0 in l.bookings && l.bookings[0].totalAmount == 100
            && l.bookings[0].invoice == Some(0) && |l.invoices| > 0 && l.invoices[0].total == 120
  {
    var l := Ledger(map[], map[0 := Space(5, true, 100, Available, true)],
                    map[0 := Service(5, 20, OneTime, true)], {}, map[], [], 0, 0);
    var who := Caller(9, SuperAdmin, 5, true);
    var dto := NewBooking(7, 9, 0, 0, 10, 100, None, []);
    PendingCreation(l, who, dto);
    var a := CreateInRun(l, who, dto);
    states, ops := [l, a], [Create(who, dto)];
    var b := AddonInRun(states, ops, who, 0, 0, 20);
    states, ops := states + [b], ops + [AddAddon(who, 0, 0, 1, 20)];
    OneAddonCosts(Addon(a.nextAddon, 0, 1, 20));
    assert [] + [Addon(a.nextAddon, 0, 1, 20)] == [Addon(a.nextAddon, 0, 1, 20)];
    var c := ApproveInRun(states, ops, who, 0);
    states, ops := states + [c], ops + [Approve(who, 0)];
  }

  lemma OneAddonCosts(addon: Addon)
    ensures AddonSum([addon]) == addon.quantity * addon.unitPrice
  {
    assert [addon][..0] == [];
  }
}
