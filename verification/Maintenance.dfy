/** Maintenance tickets: creation, assignment, self-claim, progress, resolution, closure, cancellation. */
module Maintenance {
  import opened Options
  import L = BookingLedger

  datatype Status = Open | Assigned | InProgress | Resolved | Closed | Cancelled

  datatype Ticket = Ticket(
    status: Status, assignee: Option<nat>, resolvedAt: Option<int>, cost: Option<int>, creator: nat)

  datatype Error = Forbidden | NotFound | BadRequest

  datatype Reply = Done | Rejected(error: Error)

  datatype User = User(id: nat, role: L.Role)

  type Desk = seq<Ticket>

  // ----- What each call does ------------------------------------------------------------------

  function Creating(d: Desk, creator: nat, assignee: Option<nat>): Desk {
    d + [Ticket(if assignee.Some? then Assigned else Open, assignee, None, None, creator)]
  }

  function Assigning(d: Desk, id: nat, user: nat): (Desk, Reply) {
    if id >= |d| then (d, Rejected(NotFound))
    else if d[id].status == Closed || d[id].status == Cancelled then (d, Rejected(BadRequest))
    else if d[id].assignee.Some? && d[id].assignee != Some(user) then (d, Rejected(BadRequest))
    else (d[id := d[id].(assignee := Some(user), status := Assigned)], Done)
  }

  /** The guard of the branch that serves tickets which progressed without an assignee. */
  predicate LegacyClaim(t: Ticket) {
    t.assignee.None? && (t.status == Assigned || t.status == InProgress)
  }

  function Claiming(d: Desk, id: nat, user: User): (Desk, Reply) {
    if user.role != L.Maintenance then (d, Rejected(Forbidden))
    else if id >= |d| then (d, Rejected(NotFound))
    else if d[id].status in {Closed, Cancelled, Resolved} then (d, Rejected(BadRequest))
    else if d[id].assignee.Some? && d[id].assignee != Some(user.id) then (d, Rejected(BadRequest))
    else if d[id].assignee == Some(user.id) then (d, Done)
    else if d[id].status == Open then Assigning(d, id, user.id)
    else (d[id := d[id].(assignee := Some(user.id))], Done)
  }

  /** Technicians act on their own tickets only; renters may cancel only what they created. Calls
      without a user are trusted. */
  predicate MayAct(t: Ticket, user: Option<User>, cancelling: bool) {
    user.None?
    || (if user.value.role == L.Maintenance then t.assignee == Some(user.value.id)
        else !cancelling || !L.PortalBooker(user.value.role) || t.creator == user.value.id)
  }

  function Moving(d: Desk, id: nat, user: Option<User>, cancelling: bool, sources: set<Status>,
                  after: Ticket -> Ticket): (Desk, Reply) {
    if id >= |d| then (d, Rejected(NotFound))
    else if !MayAct(d[id], user, cancelling) then (d, Rejected(Forbidden))
    else if d[id].status !in sources then (d, Rejected(BadRequest))
    else (d[id := after(d[id])], Done)
  }

  function Starting(d: Desk, id: nat, user: Option<User>): (Desk, Reply) {
    Moving(d, id, user, false, {Assigned}, (t: Ticket) => t.(status := InProgress))
  }

  /** A cost is recorded if one is given; otherwise the ticket keeps the one it has. */
  function Resolving(d: Desk, id: nat, cost: Option<int>, user: Option<User>, now: int): (Desk, Reply) {
    Moving(d, id, user, false, {Open, Assigned, InProgress}, (t: Ticket) =>
      t.(status := Resolved, resolvedAt := Some(now), cost := if cost.Some? then cost else t.cost))
  }

  function Closing(d: Desk, id: nat, user: Option<User>): (Desk, Reply) {
    Moving(d, id, user, false, {Resolved}, (t: Ticket) => t.(status := Closed))
  }

  function Cancelling(d: Desk, id: nat, user: Option<User>): (Desk, Reply) {
    Moving(d, id, user, true, {Open, Assigned, InProgress, Resolved}, (t: Ticket) => t.(status := Cancelled))
  }

  class MaintenanceService {
    var tickets: Desk

    method Create(creator: nat, assignee: Option<nat>)
      modifies this
      ensures tickets == Creating(old(tickets), creator, assignee)
    {
      var status := if assignee.Some? then Assigned else Open;
      tickets := tickets + [Ticket(status, assignee, None, None, creator)];
    }

    method Assign(id: nat, user: nat) returns (reply: Reply)
      modifies this
      ensures (tickets, reply) == Assigning(old(tickets), id, user)
    {
      if id >= |tickets| { return Rejected(NotFound); }
      var ticket := tickets[id];
      if ticket.status == Closed || ticket.status == Cancelled { return Rejected(BadRequest); }
      if ticket.assignee.Some? && ticket.assignee.value != user { return Rejected(BadRequest); }
      tickets := tickets[id := ticket.(assignee := Some(user), status := Assigned)];
      reply := Done;
    }

    method Accept(id: nat, user: User) returns (reply: Reply)
      modifies this
      ensures (tickets, reply) == Claiming(old(tickets), id, user)
    {
      if user.role != L.Maintenance { return Rejected(Forbidden); }
      if id >= |tickets| { return Rejected(NotFound); }
      var ticket := tickets[id];
      if ticket.status in {Closed, Cancelled, Resolved} { return Rejected(BadRequest); }
      if ticket.assignee.Some? && ticket.assignee.value != user.id { return Rejected(BadRequest); }
      if ticket.assignee == Some(user.id) { return Done; }
      if ticket.status == Open {
        reply := Assign(id, user.id);
        return;
      }
      tickets := tickets[id := ticket.(assignee := Some(user.id))];
      reply := Done;
    }

    method StartProgress(id: nat, user: Option<User>) returns (reply: Reply)
      modifies this
      ensures (tickets, reply) == Starting(old(tickets), id, user)
    {
      if id >= |tickets| { return Rejected(NotFound); }
      if !MayAct(tickets[id], user, false) { return Rejected(Forbidden); }
      if tickets[id].status != Assigned { return Rejected(BadRequest); }
      tickets := tickets[id := tickets[id].(status := InProgress)];
      reply := Done;
    }

    method Resolve(id: nat, cost: Option<int>, user: Option<User>, now: int) returns (reply: Reply)
      modifies this
      ensures (tickets, reply) == Resolving(old(tickets), id, cost, user, now)
    {
      if id >= |tickets| { return Rejected(NotFound); }
      if !MayAct(tickets[id], user, false) { return Rejected(Forbidden); }
      if tickets[id].status !in {Open, Assigned, InProgress} { return Rejected(BadRequest); }
      var ticket := tickets[id].(status := Resolved, resolvedAt := Some(now));
      if cost.Some? { ticket := ticket.(cost := cost); }
      tickets := tickets[id := ticket];
      reply := Done;
    }

    method Close(id: nat, user: Option<User>) returns (reply: Reply)
      modifies this
      ensures (tickets, reply) == Closing(old(tickets), id, user)
    {
      if id >= |tickets| { return Rejected(NotFound); }
      if !MayAct(tickets[id], user, false) { return Rejected(Forbidden); }
      if tickets[id].status != Resolved { return Rejected(BadRequest); }
      tickets := tickets[id := tickets[id].(status := Closed)];
      reply := Done;
    }

    method Cancel(id: nat, user: Option<User>) returns (reply: Reply)
      modifies this
      ensures (tickets, reply) == Cancelling(old(tickets), id, user)
    {
      if id >= |tickets| { return Rejected(NotFound); }
      if !MayAct(tickets[id], user, true) { return Rejected(Forbidden); }
      if tickets[id].status == Closed || tickets[id].status == Cancelled { return Rejected(BadRequest); }
      tickets := tickets[id := tickets[id].(status := Cancelled)];
      reply := Done;
    }
  }

  // ----- Answers ------------------------------------------------------------------------------

  /** Technicians act on tickets assigned to them; everybody else on any ticket. */
  predicate Permitted(t: Ticket, user: Option<User>) {
    user.Some? && user.value.role == L.Maintenance ==> t.assignee == Some(user.value.id)
  }

  /** Tenants' users cancel only the tickets they opened. */
  predicate PermittedToCancel(t: Ticket, user: Option<User>) {
    && Permitted(t, user)
    && (user.Some? && user.value.role in {L.TenantAdmin, L.TenantEmployee} ==> t.creator == user.value.id)
  }

  predicate Answers(d: Desk, id: nat, goes: bool, after: Desk, reply: Reply) {
    && (reply.Done? <==> id < |d| && goes)
    && (!reply.Done? ==> after == d)
    && (reply.Done? ==> |after| == |d| && after == d[id := after[id]])
  }

  /** When exactly each call on a ticket goes through, and what the ticket then is. */
  lemma TicketCallsDoneIff(d: Desk, id: nat, user: Option<User>, cost: Option<int>, now: int)
    requires id < |d|
    ensures var (n, reply) := Starting(d, id, user);
            && Answers(d, id, Permitted(d[id], user) && d[id].status == Assigned, n, reply)
            && (reply.Done? ==> n[id] == d[id].(status := InProgress))
    ensures var (n, reply) := Resolving(d, id, cost, user, now);
            && Answers(d, id, Permitted(d[id], user) && d[id].status in {Open, Assigned, InProgress}, n, reply)
            && (reply.Done? ==>
                  && n[id] == d[id].(status := Resolved, resolvedAt := n[id].resolvedAt, cost := n[id].cost)
                  && n[id].resolvedAt == Some(now)
                  && (cost.Some? ==> n[id].cost == cost) && (cost.None? ==> n[id].cost == d[id].cost))
    ensures var (n, reply) := Closing(d, id, user);
            && Answers(d, id, Permitted(d[id], user) && d[id].status == Resolved, n, reply)
            && (reply.Done? ==> n[id] == d[id].(status := Closed))
    ensures var (n, reply) := Cancelling(d, id, user);
            && Answers(d, id, PermittedToCancel(d[id], user) && d[id].status !in {Closed, Cancelled}, n, reply)
            && (reply.Done? ==> n[id] == d[id].(status := Cancelled))
  {
  }

  /** A ticket is assigned exactly if it is not finished and nobody else has it. */
  lemma AssignDoneIff(d: Desk, id: nat, technician: nat)
    requires id < |d|
    ensures var (n, reply) := Assigning(d, id, technician);
            && Answers(d, id, d[id].status !in {Closed, Cancelled}
                              && (d[id].assignee.None? || d[id].assignee == Some(technician)), n, reply)
            && (reply.Done? ==> n[id] == d[id].(status := Assigned, assignee := Some(technician)))
  {
  }

  /** A new ticket is open, or assigned if it names a technician, and stands at the end. */
  lemma CreatedTicket(d: Desk, creator: nat, assignee: Option<nat>)
    ensures var n := Creating(d, creator, assignee);
            && |n| == |d| + 1 && n[..|d|] == d
            && var t := n[|d|];
               && t.creator == creator && t.assignee == assignee && t.resolvedAt.None? && t.cost.None?
               && (assignee.Some? <==> t.status == Assigned) && (assignee.None? <==> t.status == Open)
  {
  }

  /** A technician gets an unfinished ticket that nobody else has; one it already has stays as it is. */
  lemma ClaimDoneIff(d: Desk, id: nat, user: User)
    requires id < |d|
    ensures var (n, reply) := Claiming(d, id, user);
            && Answers(d, id, user.role == L.Maintenance && d[id].status in {Open, Assigned, InProgress}
                              && (d[id].assignee.None? || d[id].assignee == Some(user.id)), n, reply)
            && (reply.Done? ==>
                  && n[id].assignee == Some(user.id)
                  && n[id] == d[id].(assignee := Some(user.id), status := n[id].status)
                  && n[id].status == (if d[id].assignee.None? && d[id].status == Open then Assigned else d[id].status))
  {
  }

  // ----- Runs ---------------------------------------------------------------------------------

  datatype Op =
    | Create(creator: nat, to_: Option<nat>)
    | Assign(id: nat, technician: nat)
    | Claim(id: nat, claimer: User)
    | Start(id: nat, user: Option<User>)
    | Resolve(id: nat, newCost: Option<int>, user: Option<User>, now: int)
    | Close(id: nat, user: Option<User>)
    | Cancel(id: nat, user: Option<User>)

  function Apply(d: Desk, op: Op): Desk {
    match op
    case Create(creator, assignee) => Creating(d, creator, assignee)
    case Assign(id, technician) => Assigning(d, id, technician).0
    case Claim(id, claimer) => Claiming(d, id, claimer).0
    case Start(id, user) => Starting(d, id, user).0
    case Resolve(id, newCost, user, now) => Resolving(d, id, newCost, user, now).0
    case Close(id, user) => Closing(d, id, user).0
    case Cancel(id, user) => Cancelling(d, id, user).0
  }

  function Run(d: Desk, ops: seq<Op>): Desk
    decreases |ops|
  {
    if ops == [] then d else Run(Apply(d, ops[0]), ops[1..])
  }

  predicate Sound(t: Ticket) {
    && (t.status == Assigned || t.status == InProgress ==> t.assignee.Some?)
    && (t.status == Resolved || t.status == Closed ==> t.resolvedAt.Some?)
    && (t.status == Open ==> t.assignee.None?)
  }

  predicate AllSound(d: Desk) {
    forall i :: 0 <= i < |d| ==> Sound(d[i])
  }

  /** What one step, and hence any run, may do to a ticket. */
  predicate Evolves(a: Ticket, b: Ticket) {
    && (a.assignee.Some? ==> b.assignee == a.assignee)
    && (a.status == Closed || a.status == Cancelled ==> b == a)
    && (a.resolvedAt.Some? ==> b.resolvedAt.Some?)
    && b.creator == a.creator
  }

  lemma StepKeepsSound(d: Desk, op: Op)
    requires AllSound(d)
    ensures AllSound(Apply(d, op))
    ensures |d| <= |Apply(d, op)| && forall i :: 0 <= i < |d| ==> Evolves(d[i], Apply(d, op)[i])
  {
  }

  /** Over every run: tickets stay sound, an assignee once set stays, and closed or cancelled tickets
      never change again. */
  lemma {:induction false} RunKeepsSound(d: Desk, ops: seq<Op>)
    requires AllSound(d)
    ensures AllSound(Run(d, ops))
    ensures |d| <= |Run(d, ops)| && forall i :: 0 <= i < |d| ==> Evolves(d[i], Run(d, ops)[i])
    decreases |ops|
  {
    if ops != [] {
      StepKeepsSound(d, ops[0]);
      RunKeepsSound(Apply(d, ops[0]), ops[1..]);
      forall i | 0 <= i < |d|
        ensures Evolves(d[i], Run(d, ops)[i])
      {
        assert Evolves(d[i], Apply(d, ops[0])[i]);
      }
    }
  }

  /** The legacy branch of the self-claim is dead: on a desk that started empty a successful claim
      either takes an open ticket or finds the claimer already in charge. */
  lemma LegacyBranchIsDead(ops: seq<Op>, id: nat, user: User)
    requires id < |Run([], ops)|
    ensures var t := Run([], ops)[id];
            && !LegacyClaim(t)
            && (Claiming(Run([], ops), id, user).1.Done? <==>
                  user.role == L.Maintenance
                  && (t.status == Open
                      || (t.assignee == Some(user.id) && (t.status == Assigned || t.status == InProgress))))
  {
    RunKeepsSound([], ops);
    assert Sound(Run([], ops)[id]);
  }
}
