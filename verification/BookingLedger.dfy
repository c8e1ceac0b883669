/** The booking table with the rows it touches: spaces, add-on services, applications and the
    invoices issued for bookings. Ids are serial numbers; instants are milliseconds; money is in cents. */
module BookingLedger {
  import opened Options
  import Calendar

  datatype Status =
    | Draft | PendingApproval | PendingPhone | AwaitingVisit | DocumentsPending | Active
    | Confirmed | CheckedIn | Completed | Cancelled | Refused | NoShow

  datatype Role =
    | SuperAdmin | ClientAdmin | Manager | Finance | Maintenance | Receptionist
    | TenantAdmin | TenantEmployee

  datatype DocumentType = SignedLeaseContract | Contract | OtherDocument

  datatype SpaceStatus = Available | Reserved | OtherStatus

  datatype BillingCycle = Monthly | Daily | Hourly | OneTime | OtherCycle

  datatype Space = Space(owner: nat, requiresApproval: bool, monthlyRate: int, status: SpaceStatus, published: bool)

  datatype Service = Service(tenant: nat, price: int, cycle: BillingCycle, active: bool)

  datatype Wanted = Wanted(service: nat, quantity: int)

  datatype Addon = Addon(id: nat, service: nat, quantity: int, unitPrice: int)

  datatype Booking = Booking(
    tenant: nat, user: nat, space: nat, start: int, end: int, status: Status,
    totalAmount: int, totalPrice: int, addOns: seq<Addon>, invoice: Option<nat>,
    receptionist: Option<nat>, inquiry: Option<nat>, documents: seq<DocumentType>)

  datatype Line = Line(quantity: int, unitPrice: int, lineTotal: int)

  /** `booking` records which booking an invoice was generated from, if any. */
  datatype Invoice = Invoice(tenant: nat, lines: seq<Line>, subtotal: int, total: int, booking: Option<nat>)

  datatype Application = Application(
    space: nat, applicant: Option<(nat, nat)>, start: int, months: nat,
    addons: seq<Addon>, pending: bool, booking: Option<nat>)

  datatype Ledger = Ledger(
    bookings: map<nat, Booking>,
    spaces: map<nat, Space>,
    services: map<nat, Service>,
    links: set<(nat, nat)>,
    applications: map<nat, Application>,
    invoices: seq<Invoice>,
    nextBooking: nat,
    nextAddon: nat)

  datatype Error = Forbidden | NotFound | BadRequest | Conflict

  datatype Reply = Done | Duplicate(booking: nat) | Rejected(error: Error)

  /** The caller of a service method. `sees` is the verdict of the access policy on the row asked for. */
  datatype Caller = Caller(id: nat, role: Role, tenant: nat, sees: bool)

  datatype NewBooking = NewBooking(
    tenant: nat, creator: nat, space: nat, start: int, end: int, price: int,
    status: Option<Status>, addons: seq<Wanted>)

  // ----- Conflict rules -----------------------------------------------------------------------

  predicate Live(b: Booking) {
    b.status != Cancelled && b.status != NoShow && b.status != Refused
  }

  predicate HalfOpenOverlap(b: Booking, start: int, end: int) {
    b.start < end && start < b.end
  }

  /** `checkAvailability`: closed intervals, and only live bookings count. */
  predicate Clashes(l: Ledger, space: nat, start: int, end: int, exclude: Option<nat>) {
    exists i :: i in l.bookings && exclude != Some(i)
                && l.bookings[i].space == space && Live(l.bookings[i])
                && l.bookings[i].start <= end && start <= l.bookings[i].end
  }

  /** The marketplace guard: half-open intervals, and refused bookings still count. */
  predicate InquiryClashes(l: Ledger, space: nat, start: int, end: int) {
    exists i :: i in l.bookings
                && l.bookings[i].space == space
                && l.bookings[i].status != Cancelled && l.bookings[i].status != NoShow
                && HalfOpenOverlap(l.bookings[i], start, end)
  }

  /** No two live bookings of one space overlap. */
  predicate NoOverlap(l: Ledger) {
    forall i, j :: i in l.bookings && j in l.bookings && i != j ==> Apart(l.bookings[i], l.bookings[j])
  }

  predicate Apart(a: Booking, b: Booking) {
    a.space == b.space && Live(a) && Live(b) ==> !HalfOpenOverlap(a, b.start, b.end)
  }

  // ----- Prices -------------------------------------------------------------------------------

  /** Months of 30 days, rounded up, at least one. */
  function DurationMonths(start: int, end: int): int {
    var length := if end - start < Calendar.DAY then Calendar.DAY else end - start;
    (length + 30 * Calendar.DAY - 1) / (30 * Calendar.DAY)
  }

  function UnitPriceForLease(price: int, cycle: BillingCycle, durationMonths: int): int {
    var months := if durationMonths < 1 then 1 else durationMonths;
    match cycle
    case Monthly => price * months
    case Daily => price * months * 30
    case Hourly => price * months * 30 * 8
    case _ => price
  }

  function AddonSum(addons: seq<Addon>): int {
    if addons == [] then 0
    else AddonSum(addons[..|addons| - 1]) + addons[|addons| - 1].quantity * addons[|addons| - 1].unitPrice
  }

  /** A service may be booked with a space if it is active and either linked to the space or
      offered by the space's landlord. */
  predicate Offered(l: Ledger, space: nat, service: nat) {
    && service in l.services && l.services[service].active
    && ((space, service) in l.links || (space in l.spaces && l.services[service].tenant == l.spaces[space].owner))
  }

  function ResolvedAddons(l: Ledger, space: nat, months: int, wanted: seq<Wanted>): Option<seq<Addon>> {
    if wanted == [] then Some([])
    else
      var last := wanted[|wanted| - 1];
      var before := ResolvedAddons(l, space, months, wanted[..|wanted| - 1]);
      if before.None? || !Offered(l, space, last.service) then None
      else
        var service := l.services[last.service];
        Some(before.value + [Addon(l.nextAddon + |wanted| - 1, last.service, last.quantity,
                                   UnitPriceForLease(service.price, service.cycle, months))])
  }

  // ----- Invoices -----------------------------------------------------------------------------

  function AddonLines(addons: seq<Addon>): (lines: seq<Line>)
    ensures |lines| == |addons|
  {
    seq(|addons|, i requires 0 <= i < |addons| =>
      Line(addons[i].quantity, addons[i].unitPrice, addons[i].quantity * addons[i].unitPrice))
  }

  function InvoiceFor(b: Booking, id: nat): Invoice {
    var total := b.totalPrice + AddonSum(b.addOns);
    Invoice(b.tenant, [Line(1, b.totalPrice, b.totalPrice)] + AddonLines(b.addOns), total, total, Some(id))
  }

  function Billed(l: Ledger, id: nat): Ledger
    requires id in l.bookings
  {
    l.(invoices := l.invoices + [InvoiceFor(l.bookings[id], id)],
       bookings := l.bookings[id := l.bookings[id].(invoice := Some(|l.invoices|))])
  }

  /** `issueBookingInvoice`: a booking that already has an invoice keeps it. */
  function Issued(l: Ledger, id: nat): Ledger
    requires id in l.bookings
  {
    if l.bookings[id].invoice.Some? then l else Billed(l, id)
  }

  // ----- What each call does to the ledger ----------------------------------------------------

  /** A new row under the next id, with as many new add-on rows. */
  function Opened(l: Ledger, b: Booking, addons: nat): Ledger {
    l.(bookings := l.bookings[l.nextBooking := b],
       nextBooking := l.nextBooking + 1,
       nextAddon := l.nextAddon + addons)
  }

  predicate PortalBooker(r: Role) { r == TenantAdmin || r == TenantEmployee }

  predicate Approver(r: Role) { r == SuperAdmin || r == ClientAdmin || r == Manager }

  predicate WorkflowStaff(r: Role) { Approver(r) || r == Receptionist }

  function OpeningStatus(role: Role, requiresApproval: bool, asked: Option<Status>): Status {
    if PortalBooker(role) then PendingApproval
    else if asked.Some? then asked.value
    else if requiresApproval then PendingApproval
    else Confirmed
  }

  function Creating(l: Ledger, who: Caller, dto: NewBooking): (Ledger, Reply) {
    if who.role != SuperAdmin && who.role != Finance
       && (dto.tenant != who.tenant || (who.role == TenantEmployee && dto.creator != who.id))
    then (l, Rejected(Forbidden))
    else if dto.space !in l.spaces then (l, Rejected(NotFound))
    else if Clashes(l, dto.space, dto.start, dto.end, None) then (l, Rejected(Conflict))
    else
      var addons := ResolvedAddons(l, dto.space, DurationMonths(dto.start, dto.end), dto.addons);
      if addons.None? then (l, Rejected(BadRequest))
      else
        var status := OpeningStatus(who.role, l.spaces[dto.space].requiresApproval, dto.status);
        var b := Booking(dto.tenant, dto.creator, dto.space, dto.start, dto.end, status,
                         dto.price + AddonSum(addons.value), dto.price, addons.value, None, None, None, []);
        var booked := Opened(l, b, |dto.addons|);
        (if status == Confirmed then Issued(booked, l.nextBooking) else booked, Done)
  }

  ghost function Inquiring(l: Ledger, signed: bool, inquiry: nat, space: Option<nat>, actor: Option<nat>,
                           start: int, end: int): (Ledger, Reply)
  {
    if !signed then (l, Rejected(Forbidden))
    else if exists i :: i in l.bookings && l.bookings[i].inquiry == Some(inquiry) then
      var i :| i in l.bookings && l.bookings[i].inquiry == Some(inquiry);
      (l, Duplicate(i))
    else if space.None? || space.value !in l.spaces then (l, Rejected(BadRequest))
    else if actor.None? || end <= start then (l, Rejected(BadRequest))
    else if InquiryClashes(l, space.value, start, end) then (l, Rejected(Conflict))
    else
      var b := Booking(l.spaces[space.value].owner, actor.value, space.value, start, end, PendingApproval,
                       0, 0, [], None, None, Some(inquiry), []);
      (Opened(l, b, 0), Done)
  }

  /** Why a booking cannot be fetched for this caller, if it cannot. */
  function Denial(l: Ledger, who: Caller, id: nat): Option<Error> {
    if !who.sees then Some(Forbidden) else if id !in l.bookings then Some(NotFound) else None
  }

  /** A step open to `allowed` roles that moves a booking from status `before` to status `after`. */
  function Moving(l: Ledger, who: Caller, id: nat, allowed: bool, before: Status, after: Status): (Ledger, Reply) {
    if !allowed then (l, Rejected(Forbidden))
    else if Denial(l, who, id).Some? then (l, Rejected(Denial(l, who, id).value))
    else if l.bookings[id].status != before then (l, Rejected(BadRequest))
    else (l.(bookings := l.bookings[id := l.bookings[id].(status := after)]), Done)
  }

  /** `update` carrying only times. Availability is checked only when both ends are given. */
  function Rescheduling(l: Ledger, who: Caller, id: nat, start: Option<int>, end: Option<int>): (Ledger, Reply) {
    if Denial(l, who, id).Some? then (l, Rejected(Denial(l, who, id).value))
    else
      var b := l.bookings[id];
      if start.Some? && end.Some? && Clashes(l, b.space, start.value, end.value, Some(id))
      then (l, Rejected(Conflict))
      else
        (l.(bookings := l.bookings[id := b.(
              start := if start.Some? then start.value else b.start,
              end := if end.Some? then end.value else b.end)]), Done)
  }

  function Approving(l: Ledger, who: Caller, id: nat): (Ledger, Reply) {
    if Approver(who.role) && Denial(l, who, id).None? && l.bookings[id].status == Confirmed then (l, Done)
    else
      var (moved, reply) := Moving(l, who, id, Approver(who.role), PendingApproval, Confirmed);
      if reply.Done? then (Issued(moved, id), reply) else (l, reply)
  }

  /** Rejection overwrites the notes, and with them the marketplace marker. */
  function Rejecting(l: Ledger, who: Caller, id: nat): (Ledger, Reply) {
    var (moved, reply) := Moving(l, who, id, Approver(who.role), PendingApproval, Cancelled);
    if reply.Done? then (moved.(bookings := moved.bookings[id := moved.bookings[id].(inquiry := None)]), reply)
    else (l, reply)
  }

  function Cancelling(l: Ledger, who: Caller, id: nat): (Ledger, Reply) {
    if Denial(l, who, id).Some? then (l, Rejected(Denial(l, who, id).value))
    else if l.bookings[id].status == Cancelled then (l, Rejected(BadRequest))
    else (l.(bookings := l.bookings[id := l.bookings[id].(status := Cancelled)]), Done)
  }

  function WithSpace(spaces: map<nat, Space>, id: nat, status: SpaceStatus, unpublish: bool): map<nat, Space> {
    if id in spaces
    then spaces[id := spaces[id].(status := status, published := spaces[id].published && !unpublish)]
    else spaces
  }

  function ConfirmingPhone(l: Ledger, who: Caller, id: nat): (Ledger, Reply) {
    if WorkflowStaff(who.role) && Denial(l, who, id).None? && l.bookings[id].status == PendingPhone
       && who.role == Receptionist && l.bookings[id].receptionist.Some? && l.bookings[id].receptionist != Some(who.id)
    then (l, Rejected(Forbidden))
    else Moving(l, who, id, WorkflowStaff(who.role), PendingPhone, AwaitingVisit)
  }

  function RefusingUnreachable(l: Ledger, who: Caller, id: nat): (Ledger, Reply) {
    var (moved, reply) := Moving(l, who, id, WorkflowStaff(who.role), PendingPhone, Refused);
    if reply.Done?
    then (moved.(spaces := WithSpace(l.spaces, l.bookings[id].space, Available, false),
                 bookings := moved.bookings[id := moved.bookings[id].(inquiry := None)]), reply)
    else (l, reply)
  }

  function AddingDocument(l: Ledger, who: Caller, id: nat, kind: DocumentType): (Ledger, Reply) {
    if !WorkflowStaff(who.role) then (l, Rejected(Forbidden))
    else if Denial(l, who, id).Some? then (l, Rejected(Denial(l, who, id).value))
    else if |l.bookings[id].documents| >= 5 then (l, Rejected(BadRequest))
    else (l.(bookings := l.bookings[id := l.bookings[id].(documents := l.bookings[id].documents + [kind])]), Done)
  }

  function RemovingDocument(l: Ledger, who: Caller, id: nat, index: nat): (Ledger, Reply) {
    if !WorkflowStaff(who.role) then (l, Rejected(Forbidden))
    else if Denial(l, who, id).Some? then (l, Rejected(Denial(l, who, id).value))
    else if index >= |l.bookings[id].documents| then (l, Rejected(NotFound))
    else
      var docs := l.bookings[id].documents;
      (l.(bookings := l.bookings[id := l.bookings[id].(documents := docs[..index] + docs[index + 1..])]), Done)
  }

  predicate HasContract(b: Booking) {
    SignedLeaseContract in b.documents || Contract in b.documents
  }

  function Finalizing(l: Ledger, who: Caller, id: nat): (Ledger, Reply) {
    var (moved, reply) := Moving(l, who, id, Approver(who.role), DocumentsPending, Active);
    if !reply.Done? then (l, reply)
    else if !HasContract(l.bookings[id]) then (l, Rejected(BadRequest))
    else (moved.(spaces := WithSpace(l.spaces, l.bookings[id].space, Reserved, true)), reply)
  }

  function AddingAddon(l: Ledger, who: Caller, id: nat, service: nat, quantity: int, unitPrice: int): (Ledger, Reply) {
    if Denial(l, who, id).Some? then (l, Rejected(Denial(l, who, id).value))
    else if service !in l.services then (l, Rejected(BadRequest))
    else
      var b := l.bookings[id];
      (l.(bookings := l.bookings[id := b.(addOns := b.addOns + [Addon(l.nextAddon, service, quantity, unitPrice)])],
          nextAddon := l.nextAddon + 1), Done)
  }

  function WithoutAddon(addons: seq<Addon>, addon: nat): seq<Addon> {
    if addons == [] then []
    else
      var rest := WithoutAddon(addons[..|addons| - 1], addon);
      if addons[|addons| - 1].id == addon then rest else rest + [addons[|addons| - 1]]
  }

  /** The add-on is deleted by its own id; that it belongs to the booking named in the call is not checked. */
  function RemovingAddon(l: Ledger, who: Caller, id: nat, addon: nat): (Ledger, Reply) {
    if Denial(l, who, id).Some? then (l, Rejected(Denial(l, who, id).value))
    else if forall i, k :: i in l.bookings && 0 <= k < |l.bookings[i].addOns| ==> l.bookings[i].addOns[k].id != addon
    then (l, Rejected(NotFound))
    else
      (l.(bookings := map i | i in l.bookings ::
            l.bookings[i].(addOns := WithoutAddon(l.bookings[i].addOns, addon))), Done)
  }

  function Removing(l: Ledger, who: Caller, id: nat): (Ledger, Reply) {
    if Denial(l, who, id).Some? then (l, Rejected(Denial(l, who, id).value))
    else (l.(bookings := l.bookings - {id}), Done)
  }

  function CopiedAddons(addons: seq<Addon>, first: nat): (copies: seq<Addon>)
    ensures |copies| == |addons|
  {
    seq(|addons|, i requires 0 <= i < |addons| => addons[i].(id := first + i))
  }

  function Accepted(l: Ledger, app: nat, receptionist: Option<nat>): Ledger
    requires app in l.applications && l.applications[app].space in l.spaces && l.applications[app].applicant.Some?
  {
    var a := l.applications[app];
    var rent := l.spaces[a.space].monthlyRate * a.months;
    var b := Booking(a.applicant.value.0, a.applicant.value.1, a.space, a.start,
                     Calendar.AddMonths(a.start, a.months), PendingPhone,
                     rent + AddonSum(a.addons), rent, CopiedAddons(a.addons, l.nextAddon),
                     None, receptionist, None, []);
    var closed := l.(spaces := WithSpace(l.spaces, a.space, Reserved, false),
                     applications := l.applications[app := a.(pending := false, booking := Some(l.nextBooking))]);
    Billed(Opened(closed, b, |a.addons|), l.nextBooking)
  }

  /** Accepting an application opens the phone and visit workflow and issues the invoice. The
      calendar of the space is not consulted. */
  function Accepting(l: Ledger, who: Caller, app: nat, receptionist: Option<nat>): (Ledger, Reply) {
    if !Approver(who.role) then (l, Rejected(Forbidden))
    else if app !in l.applications then (l, Rejected(NotFound))
    else
      var a := l.applications[app];
      if !(who.role == SuperAdmin || (a.space in l.spaces && l.spaces[a.space].owner == who.tenant) || who.sees)
      then (l, Rejected(Forbidden))
      else if !a.pending then (l, Rejected(BadRequest))
      else if a.space !in l.spaces then (l, Rejected(NotFound))
      else if a.applicant.None? then (l, Rejected(BadRequest))
      else (Accepted(l, app, receptionist), Done)
  }

  /** An invoice recorded by hand, without a booking. */
  function Recording(l: Ledger, tenant: nat, lines: seq<Line>, subtotal: int, total: int): Ledger {
    l.(invoices := l.invoices + [Invoice(tenant, lines, subtotal, total, None)])
  }

  // ----- Runs ---------------------------------------------------------------------------------

  datatype Op =
    | Create(who: Caller, dto: NewBooking)
    | Inquire(signed: bool, inquiry: nat, place: Option<nat>, actor: Option<nat>, start: int, end: int)
    | Reschedule(who: Caller, id: nat, newStart: Option<int>, newEnd: Option<int>)
    | Approve(who: Caller, id: nat)
    | Reject(who: Caller, id: nat)
    | Cancel(who: Caller, id: nat)
    | CheckIn(who: Caller, id: nat)
    | CheckOut(who: Caller, id: nat)
    | ConfirmPhone(who: Caller, id: nat)
    | MarkUnreachable(who: Caller, id: nat)
    | MarkDocumentsPending(who: Caller, id: nat)
    | AddDocument(who: Caller, id: nat, kind: DocumentType)
    | RemoveDocument(who: Caller, id: nat, index: nat)
    | Finalize(who: Caller, id: nat)
    | AddAddon(who: Caller, id: nat, service: nat, quantity: int, unitPrice: int)
    | RemoveAddon(who: Caller, id: nat, addon: nat)
    | Remove(who: Caller, id: nat)
    | AcceptApplication(who: Caller, app: nat, receptionist: Option<nat>)
    | RecordInvoice(tenant: nat, lines: seq<Line>, subtotal: int, total: int)

  ghost function Apply(l: Ledger, op: Op): (Ledger, Reply) {
    match op
    case Create(who, dto) => Creating(l, who, dto)
    case Inquire(signed, inquiry, place, actor, start, end) => Inquiring(l, signed, inquiry, place, actor, start, end)
    case Reschedule(who, id, s, e) => Rescheduling(l, who, id, s, e)
    case Approve(who, id) => Approving(l, who, id)
    case Reject(who, id) => Rejecting(l, who, id)
    case Cancel(who, id) => Cancelling(l, who, id)
    case CheckIn(who, id) => Moving(l, who, id, true, Confirmed, CheckedIn)
    case CheckOut(who, id) => Moving(l, who, id, true, CheckedIn, Completed)
    case ConfirmPhone(who, id) => ConfirmingPhone(l, who, id)
    case MarkUnreachable(who, id) => RefusingUnreachable(l, who, id)
    case MarkDocumentsPending(who, id) => Moving(l, who, id, WorkflowStaff(who.role), AwaitingVisit, DocumentsPending)
    case AddDocument(who, id, kind) => AddingDocument(l, who, id, kind)
    case RemoveDocument(who, id, index) => RemovingDocument(l, who, id, index)
    case Finalize(who, id) => Finalizing(l, who, id)
    case AddAddon(who, id, service, q, p) => AddingAddon(l, who, id, service, q, p)
    case RemoveAddon(who, id, addon) => RemovingAddon(l, who, id, addon)
    case Remove(who, id) => Removing(l, who, id)
    case AcceptApplication(who, app, r) => Accepting(l, who, app, r)
    case RecordInvoice(tenant, lines, subtotal, total) => (Recording(l, tenant, lines, subtotal, total), Done)
  }

  ghost predicate StepAt(states: seq<Ledger>, ops: seq<Op>, i: nat)
    requires i < |ops| < |states|
  {
    states[i + 1] == Apply(states[i], ops[i]).0
  }

  /** A run: every state follows from the one before it by one call. */
  ghost predicate Execution(states: seq<Ledger>, ops: seq<Op>) {
    && |states| == |ops| + 1
    && forall i {:trigger StepAt(states, ops, i)} :: 0 <= i < |ops| ==> StepAt(states, ops, i)
  }

  /** Ids are never reused. */
  predicate IdsBelowNext(l: Ledger) {
    forall i :: i in l.bookings ==> i < l.nextBooking
  }
}
