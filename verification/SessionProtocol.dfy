/** The client side of the session protocol and the system it forms with the server.

    Any number of browser tabs, each with its own token storage and refresh slot, run any number of
    requests against one server. Every message is a separate step, so parallel 401s, the refresh
    request, its reply and the waiting requests interleave freely. */
module SessionProtocol {
  import opened Options
  import opened AuthSessions

  // ----- One browser tab ----------------------------------------------------------------------

  /** `stored` is the refresh token in the tab's storage; `slot` is the promise of the refresh in
      flight, named by a serial number. */
  datatype Tab = Tab(stored: Option<Token>, slot: Option<nat>)

  /** What `refreshAccessToken` hands to the caller: a promise already in flight, a new one whose
      request carries `token`, or null. */
  datatype Refreshing = Joined(promise: nat) | Started(promise: nat, token: Token) | Nothing

  function Refreshes(tab: Tab, serial: nat): (Tab, Refreshing) {
    if tab.slot.Some? then (tab, Joined(tab.slot.value))
    else if tab.stored.None? then (tab, Nothing)
    else (tab.(slot := Some(serial)), Started(serial, tab.stored.value))
  }

  function Settles(tab: Tab, reply: Option<Token>): Tab {
    Tab(if reply.Some? then reply else tab.stored, None)
  }

  function Cleared(tab: Tab, restoring: bool): Tab {
    if restoring then tab else tab.(stored := None)
  }

  class ApiClient {
    var stored: Option<Token>
    var slot: Option<nat>

    function State(): Tab
      reads this
    {
      Tab(stored, slot)
    }

    method RefreshAccessToken(serial: nat) returns (r: Refreshing)
      modifies this`slot
      ensures (State(), r) == Refreshes(old(State()), serial)
    {
      if slot.Some? { return Joined(slot.value); }
      if stored.None? { return Nothing; }
      slot := Some(serial);
      r := Started(serial, stored.value);
    }

    method OnRefreshReply(reply: Option<Token>)
      modifies this
      ensures State() == Settles(old(State()), reply)
    {
      if reply.Some? { stored := reply; }
      slot := None;
    }

    method OnRefreshFailed(restoring: bool)
      modifies this`stored
      ensures State() == Cleared(old(State()), restoring)
    {
      if !restoring { stored := None; }
    }
  }

  // ----- The system ---------------------------------------------------------------------------

  datatype Phase = OnWire | Waiting(promise: nat) | Finished

  datatype Request = Request(tab: nat, sends: nat, retried: bool, phase: Phase)

  datatype Message = Ask(tab: nat, token: Token) | Answer(tab: nat, reply: Option<Token>)

  /** `owner` records which tab's login opened a session. */
  datatype System = System(
    server: Server,
    tabs: map<nat, Tab>,
    requests: map<nat, Request>,
    net: map<nat, Message>,
    settled: map<nat, Option<Token>>,
    nextPromise: nat,
    owner: map<nat, nat>)

  datatype Action =
    | Enter(tab: nat, user: nat, expires: int)         // a login completes
    | Issue(tab: nat, request: nat)                    // a request is sent
    | Accepted(request: nat)                           // any answer but a 401
    | Rejected401(request: nat, restoring: bool)       // a 401 arrives
    | Serve(promise: nat, now: int, expires: int)      // the server handles a refresh
    | Deliver(promise: nat)                            // the refresh reply reaches the tab
    | Resume(request: nat, restoring: bool)            // a waiting request wakes up
    | Forget(tab: nat)                                 // the tab clears its storage
    | Outside(call: Call)                              // anybody else calls the server

  predicate Possesses(y: System, c: nat, t: Token) {
    && c in y.tabs
    && (y.tabs[c].stored == Some(t)
        || exists i :: i in y.net && y.net[i].tab == c && Carries(y.net[i], t))
  }

  predicate Carries(m: Message, t: Token) {
    match m
    case Ask(_, token) => token == t
    case Answer(_, reply) => reply == Some(t)
  }

  /** Other parties may log in, revoke, log out and replay spent tokens at will, but cannot
      present a token that sits in a tab or on its way to or from one. */
  ghost predicate Enabled(y: System, a: Action) {
    match a
    case Enter(c, u, _) => c in y.tabs && u in y.server.legacy
    case Issue(c, r) => c in y.tabs && r !in y.requests
    case Accepted(r) => r in y.requests && y.requests[r].phase.OnWire?
    case Rejected401(r, _) => r in y.requests && y.requests[r].phase.OnWire? && y.requests[r].tab in y.tabs
    case Serve(i, _, _) => i in y.net && y.net[i].Ask?
    case Deliver(i) => i in y.net && y.net[i].Answer? && y.net[i].tab in y.tabs
    case Resume(r, _) =>
      && r in y.requests && y.requests[r].tab in y.tabs
      && y.requests[r].phase.Waiting? && y.requests[r].phase.promise in y.settled
    case Forget(c) => c in y.tabs
    case Outside(call) => call.Refresh? ==> forall c :: !Possesses(y, c, call.token)
  }

  ghost function Act(y: System, a: Action): System
    requires Enabled(y, a)
  {
    match a
    case Enter(c, u, e) =>
      y.(server := AfterLogin(y.server, u, e).0,
         tabs := y.tabs[c := y.tabs[c].(stored := Some(|y.server.issued|))],
         owner := y.owner[y.server.nextSession := c])
    case Issue(c, r) => y.(requests := y.requests[r := Request(c, 1, false, OnWire)])
    case Accepted(r) => Finish(y, r)
    case Rejected401(r, restoring) => On401(y, r, restoring)
    case Serve(i, now, e) =>
      var (server, reply) := AfterRefresh(y.server, y.net[i].token, now, e);
      y.(server := server,
         net := y.net[i := Answer(y.net[i].tab, if reply.Granted? then Some(reply.token) else None)])
    case Deliver(i) =>
      var m := y.net[i];
      y.(net := y.net - {i},
         settled := y.settled[i := m.reply],
         tabs := y.tabs[m.tab := Settles(y.tabs[m.tab], m.reply)])
    case Resume(r, restoring) =>
      var q := y.requests[r];
      if y.settled[q.phase.promise].Some?
      then y.(requests := y.requests[r := q.(sends := q.sends + 1, phase := OnWire)])
      else Finish(y, r).(tabs := y.tabs[q.tab := Cleared(y.tabs[q.tab], restoring)])
    case Forget(c) => y.(tabs := y.tabs[c := y.tabs[c].(stored := None)])
    case Outside(call) => y.(server := Step(y.server, call))
  }

  function Finish(y: System, r: nat): System
    requires r in y.requests
  {
    y.(requests := y.requests[r := y.requests[r].(phase := Finished)])
  }

  /** The 401 branch of the response interceptor. */
  function On401(y: System, r: nat, restoring: bool): System
    requires r in y.requests && y.requests[r].tab in y.tabs
  {
    var q := y.requests[r];
    if q.retried then Finish(y, r)
    else
      var (tab, refreshing) := Refreshes(y.tabs[q.tab], y.nextPromise);
      match refreshing
      case Joined(i) =>
        y.(requests := y.requests[r := q.(retried := true, phase := Waiting(i))])
      case Started(i, token) =>
        y.(requests := y.requests[r := q.(retried := true, phase := Waiting(i))],
           tabs := y.tabs[q.tab := tab],
           net := y.net[i := Ask(q.tab, token)],
           nextPromise := y.nextPromise + 1)
      case Nothing =>
        y.(requests := y.requests[r := q.(retried := true, phase := Finished)],
           tabs := y.tabs[q.tab := Cleared(tab, restoring)])
  }

  // ----- The invariant ------------------------------------------------------------------------

  function SessionOf(s: Server, t: Token): Option<nat> {
    if t < |s.issued| then s.issued[t].session else None
  }

  /** `t` is the token the server holds for its session, unless that session has ended. */
  predicate UpToDate(s: Server, t: Token) {
    && SessionOf(s, t).Some?
    && (SessionOf(s, t).value in s.sessions ==> s.sessions[SessionOf(s, t).value].token == t)
  }

  predicate OwnedBy(y: System, t: Token, c: nat) {
    && SessionOf(y.server, t).Some?
    && SessionOf(y.server, t).value in y.owner
    && y.owner[SessionOf(y.server, t).value] == c
  }

  /** The reply now travelling to tab `c`, if any, renews the session of `t`. */
  predicate Renewing(y: System, c: nat, t: Token)
    requires c in y.tabs
  {
    && y.tabs[c].slot.Some? && y.tabs[c].slot.value in y.net
    && var m := y.net[y.tabs[c].slot.value];
       m.Answer? && m.reply.Some? && SessionOf(y.server, m.reply.value) == SessionOf(y.server, t)
  }

  predicate StoredOk(y: System, c: nat)
    requires c in y.tabs
  {
    y.tabs[c].stored.Some? ==>
      var t := y.tabs[c].stored.value;
      OwnedBy(y, t, c) && (Renewing(y, c, t) || UpToDate(y.server, t))
  }

  predicate SlotOk(y: System, c: nat)
    requires c in y.tabs
  {
    y.tabs[c].slot.Some? ==> y.tabs[c].slot.value in y.net && y.net[y.tabs[c].slot.value].tab == c
  }

  predicate MessageOk(y: System, i: nat)
    requires i in y.net
  {
    var m := y.net[i];
    && m.tab in y.tabs && y.tabs[m.tab].slot == Some(i)
    && i < y.nextPromise && i !in y.settled
    && (m.Ask? ==> OwnedBy(y, m.token, m.tab) && UpToDate(y.server, m.token))
    && (m.Answer? && m.reply.Some? ==> OwnedBy(y, m.reply.value, m.tab) && UpToDate(y.server, m.reply.value))
  }

  predicate RequestOk(y: System, r: nat)
    requires r in y.requests
  {
    var q := y.requests[r];
    && q.tab in y.tabs
    && 1 <= q.sends <= 2
    && (!q.retried ==> q.sends == 1 && !q.phase.Waiting?)
    && (q.phase.Waiting? ==>
          && q.sends == 1
          && (q.phase.promise in y.settled || (q.phase.promise in y.net && y.net[q.phase.promise].tab == q.tab)))
    && (q.retried && q.phase.OnWire? ==> q.sends == 2)
  }

  ghost predicate Inv(y: System) {
    && Valid(y.server)
    && (forall k :: k in y.owner ==> k < y.server.nextSession)
    && (forall c :: c in y.tabs ==> StoredOk(y, c) && SlotOk(y, c))
    && (forall i :: i in y.net ==> MessageOk(y, i))
    && (forall i :: i in y.settled ==> i < y.nextPromise)
    && (forall r :: r in y.requests ==> RequestOk(y, r))
  }

  // ----- Preservation -------------------------------------------------------------------------

  lemma ServerStepKeepsUpToDate(s: Server, call: Call, t: Token)
    requires Valid(s)
    requires UpToDate(s, t)
    requires call.Refresh? && AfterRefresh(s, call.token, call.now, call.expires).1.Granted? ==>
               SessionOf(s, t) != SessionOf(s, call.token) || call.token != t
    ensures UpToDate(Step(s, call), t)
    ensures SessionOf(Step(s, call), t) == SessionOf(s, t)
  {
    var n := Step(s, call);
    StepGrowsLog(s, call);
    assert n.issued[t] == n.issued[..|s.issued|][t];
    var k := SessionOf(s, t).value;
    if k in n.sessions { StepKeepsOtherRows(s, call, k); }
  }

  lemma SessionStays(s: Server, call: Call, t: Token)
    requires SessionOf(s, t).Some?
    ensures SessionOf(Step(s, call), t) == SessionOf(s, t)
  {
    StepGrowsLog(s, call);
    assert Step(s, call).issued[t] == Step(s, call).issued[..|s.issued|][t];
  }

  lemma EnterKeepsInv(y: System, c: nat, u: nat, e: int)
    requires Inv(y) && Enabled(y, Enter(c, u, e))
    ensures Inv(Act(y, Enter(c, u, e)))
  {
    var n := Act(y, Enter(c, u, e));
    var call := Login(u, e);
    StepKeepsValid(y.server, call);
    forall d | d in n.tabs
      ensures StoredOk(n, d) && SlotOk(n, d)
    {
      assert StoredOk(y, d) && SlotOk(y, d);
      if d != c && y.tabs[d].stored.Some? {
        KeepsStored(y, n, call, d);
      }
    }
    forall i | i in n.net
      ensures MessageOk(n, i)
    {
      assert MessageOk(y, i);
      KeepsMessage(y, n, call, i);
    }
    forall r | r in n.requests
      ensures RequestOk(n, r)
    {
      assert RequestOk(y, r);
    }
  }

  /** A server call that does not consume the tab's own tokens leaves its storage in order. */
  lemma KeepsStored(y: System, n: System, call: Call, d: nat)
    requires Valid(y.server)
    requires d in y.tabs && StoredOk(y, d) && SlotOk(y, d)
    requires y.tabs[d].slot.Some? ==> MessageOk(y, y.tabs[d].slot.value)
    requires n.server == Step(y.server, call)
    requires n.net == y.net && d in n.tabs && n.tabs[d] == y.tabs[d]
    requires forall k :: k in y.owner ==> k < y.server.nextSession && k in n.owner && n.owner[k] == y.owner[k]
    requires call.Refresh? ==> !Possesses(y, d, call.token)
    ensures StoredOk(n, d)
  {
    if y.tabs[d].stored.Some? {
      var t := y.tabs[d].stored.value;
      SessionStays(y.server, call, t);
      if Renewing(y, d, t) {
        SessionStays(y.server, call, y.net[y.tabs[d].slot.value].reply.value);
      } else {
        ServerStepKeepsUpToDate(y.server, call, t);
      }
    }
  }

  lemma KeepsMessage(y: System, n: System, call: Call, i: nat)
    requires Valid(y.server)
    requires i in y.net && MessageOk(y, i)
    requires n.server == Step(y.server, call)
    requires i in n.net && n.net[i] == y.net[i] && n.settled == y.settled && n.nextPromise == y.nextPromise
    requires y.net[i].tab in n.tabs && n.tabs[y.net[i].tab].slot == y.tabs[y.net[i].tab].slot
    requires forall k :: k in y.owner ==> k < y.server.nextSession && k in n.owner && n.owner[k] == y.owner[k]
    requires call.Refresh? ==> !Carries(y.net[i], call.token)
    ensures MessageOk(n, i)
  {
    var m := y.net[i];
    if m.Ask? {
      ServerStepKeepsUpToDate(y.server, call, m.token);
    } else if m.reply.Some? {
      ServerStepKeepsUpToDate(y.server, call, m.reply.value);
    }
  }

  lemma OutsideKeepsInv(y: System, call: Call)
    requires Inv(y) && Enabled(y, Outside(call))
    ensures Inv(Act(y, Outside(call)))
  {
    var n := Act(y, Outside(call));
    StepKeepsValid(y.server, call);
    StepGrowsLog(y.server, call);
    forall d | d in n.tabs
      ensures StoredOk(n, d) && SlotOk(n, d)
    {
      assert StoredOk(y, d) && SlotOk(y, d);
      KeepsStored(y, n, call, d);
    }
    forall i | i in n.net
      ensures MessageOk(n, i)
    {
      assert MessageOk(y, i);
      assert call.Refresh? ==> !Possesses(y, y.net[i].tab, call.token);
      KeepsMessage(y, n, call, i);
    }
    forall r | r in n.requests
      ensures RequestOk(n, r)
    {
      assert RequestOk(y, r);
    }
  }

  lemma ServeKeepsMessage(y: System, n: System, i: nat, call: Call, j: nat)
    requires Inv(y) && i in y.net && y.net[i].Ask?
    requires call.Refresh? && call.token == y.net[i].token
    requires n == Act(y, Serve(i, call.now, call.expires))
    requires j in y.net
    ensures MessageOk(n, j)
  {
    assert MessageOk(y, i) && MessageOk(y, j);
    if AfterRefresh(y.server, call.token, call.now, call.expires).1.Granted? {
      if j == i {
        assert SessionOf(n.server, |y.server.issued|) == SessionOf(y.server, call.token);
        assert UpToDate(n.server, |y.server.issued|);
      } else {
        assert !Carries(y.net[j], call.token);
        KeepsMessage(y, n, call, j);
      }
    }
  }

  /** The tab's own refresh: the token travelling to the server is exchanged for the one travelling
      back, and nothing that belongs to another tab changes. */
  lemma ServeKeepsInv(y: System, i: nat, now: int, e: int)
    requires Inv(y) && Enabled(y, Serve(i, now, e))
    ensures Inv(Act(y, Serve(i, now, e)))
  {
    var n := Act(y, Serve(i, now, e));
    var call := Refresh(y.net[i].token, now, e);
    StepKeepsValid(y.server, call);
    StepGrowsLog(y.server, call);
    forall j | j in n.net
      ensures MessageOk(n, j)
    {
      ServeKeepsMessage(y, n, i, call, j);
    }
    forall d | d in n.tabs
      ensures StoredOk(n, d) && SlotOk(n, d)
    {
      assert StoredOk(y, d) && SlotOk(y, d);
      if y.tabs[d].stored.Some? { ServeKeepsStored(y, n, i, call, d); }
    }
    forall r | r in n.requests
      ensures RequestOk(n, r)
    {
      assert RequestOk(y, r);
    }
  }

  /** The tab whose refresh was granted: the new token is on its way to it. */
  lemma ServeKeepsOwnStored(y: System, n: System, i: nat, call: Call)
    requires Inv(y) && i in y.net && y.net[i].Ask?
    requires call.Refresh? && call.token == y.net[i].token
    requires AfterRefresh(y.server, call.token, call.now, call.expires).1.Granted?
    requires n == Act(y, Serve(i, call.now, call.expires))
    requires y.net[i].tab in y.tabs && y.tabs[y.net[i].tab].stored.Some?
    ensures StoredOk(n, y.net[i].tab)
  {
    var c := y.net[i].tab;
    var t := y.tabs[c].stored.value;
    assert MessageOk(y, i) && StoredOk(y, c) && SlotOk(y, c);
    SessionStays(y.server, call, t);
    if SessionOf(y.server, t) == SessionOf(y.server, call.token) {
      assert SessionOf(n.server, |y.server.issued|) == SessionOf(y.server, call.token);
      assert Renewing(n, c, t);
    } else {
      ServerStepKeepsUpToDate(y.server, call, t);
    }
  }

  lemma ServeKeepsOtherStored(y: System, n: System, i: nat, call: Call, d: nat)
    requires Inv(y) && i in y.net && y.net[i].Ask?
    requires call.Refresh? && call.token == y.net[i].token
    requires AfterRefresh(y.server, call.token, call.now, call.expires).1.Granted?
    requires n == Act(y, Serve(i, call.now, call.expires))
    requires d in y.tabs && y.tabs[d].stored.Some? && d != y.net[i].tab
    ensures StoredOk(n, d)
  {
    var t := y.tabs[d].stored.value;
    assert MessageOk(y, i) && StoredOk(y, d) && SlotOk(y, d);
    SessionStays(y.server, call, t);
    assert SessionOf(y.server, t) != SessionOf(y.server, call.token);
    if Renewing(y, d, t) {
      ServeKeepsOtherRenewing(y, n, i, call, d);
    } else {
      ServerStepKeepsUpToDate(y.server, call, t);
    }
  }

  lemma ServeKeepsOtherRenewing(y: System, n: System, i: nat, call: Call, d: nat)
    requires Inv(y) && i in y.net && y.net[i].Ask?
    requires call.Refresh? && call.token == y.net[i].token
    requires AfterRefresh(y.server, call.token, call.now, call.expires).1.Granted?
    requires n == Act(y, Serve(i, call.now, call.expires))
    requires d in y.tabs && y.tabs[d].stored.Some? && d != y.net[i].tab
    requires Renewing(y, d, y.tabs[d].stored.value)
    ensures StoredOk(n, d)
  {
    var t := y.tabs[d].stored.value;
    var j := y.tabs[d].slot.value;
    assert MessageOk(y, i) && MessageOk(y, j) && StoredOk(y, d) && SlotOk(y, d);
    assert j != i;
    SessionStays(y.server, call, t);
    SessionStays(y.server, call, y.net[j].reply.value);
  }

  lemma ServeKeepsStored(y: System, n: System, i: nat, call: Call, d: nat)
    requires Inv(y) && i in y.net && y.net[i].Ask?
    requires call.Refresh? && call.token == y.net[i].token
    requires n == Act(y, Serve(i, call.now, call.expires))
    requires d in y.tabs && y.tabs[d].stored.Some?
    ensures StoredOk(n, d)
  {
    if AfterRefresh(y.server, call.token, call.now, call.expires).1.Granted? {
      if d == y.net[i].tab { ServeKeepsOwnStored(y, n, i, call); } else { ServeKeepsOtherStored(y, n, i, call, d); }
    } else {
      assert MessageOk(y, i) && StoredOk(y, d) && SlotOk(y, d);
    }
  }

  lemma DeliverKeepsTab(y: System, n: System, i: nat, d: nat)
    requires Inv(y) && Enabled(y, Deliver(i)) && n == Act(y, Deliver(i))
    requires d in y.tabs
    ensures StoredOk(n, d) && SlotOk(n, d)
  {
    assert MessageOk(y, i);
    assert StoredOk(y, d) && SlotOk(y, d);
  }

  lemma DeliverKeepsMessage(y: System, n: System, i: nat, j: nat)
    requires Inv(y) && Enabled(y, Deliver(i)) && n == Act(y, Deliver(i))
    requires j in n.net
    ensures MessageOk(n, j)
  {
    assert MessageOk(y, i) && MessageOk(y, j);
  }

  lemma DeliverKeepsRequest(y: System, n: System, i: nat, r: nat)
    requires Inv(y) && Enabled(y, Deliver(i)) && n == Act(y, Deliver(i))
    requires r in n.requests
    ensures RequestOk(n, r)
  {
    assert MessageOk(y, i) && RequestOk(y, r);
  }

  lemma DeliverKeepsInv(y: System, i: nat)
    requires Inv(y) && Enabled(y, Deliver(i))
    ensures Inv(Act(y, Deliver(i)))
  {
    var n := Act(y, Deliver(i));
    forall d | d in n.tabs
      ensures StoredOk(n, d) && SlotOk(n, d)
    {
      DeliverKeepsTab(y, n, i, d);
    }
    forall j | j in n.net
      ensures MessageOk(n, j)
    {
      DeliverKeepsMessage(y, n, i, j);
    }
    forall r | r in n.requests
      ensures RequestOk(n, r)
    {
      DeliverKeepsRequest(y, n, i, r);
    }
    assert MessageOk(y, i);
  }

  lemma RequestsKeepInv(y: System, n: System)
    requires Inv(y)
    requires n == y.(requests := n.requests)
    requires forall r :: r in n.requests ==> RequestOk(n, r)
    ensures Inv(n)
  {
    forall d | d in n.tabs
      ensures StoredOk(n, d) && SlotOk(n, d)
    {
      assert StoredOk(y, d) && SlotOk(y, d);
    }
    forall j | j in n.net
      ensures MessageOk(n, j)
    {
      assert MessageOk(y, j);
    }
  }

  lemma OneRequestKeepsInv(y: System, n: System, r: nat)
    requires Inv(y)
    requires r in n.requests && n == y.(requests := y.requests[r := n.requests[r]])
    requires RequestOk(n, r)
    ensures Inv(n)
  {
    forall q | q in n.requests
      ensures RequestOk(n, q)
    {
      if q != r { assert RequestOk(y, q); }
    }
    RequestsKeepInv(y, n);
  }

  lemma ClearingKeepsInv(y: System, n: System, c: nat)
    requires Inv(y) && c in y.tabs
    requires n == y.(tabs := y.tabs[c := y.tabs[c].(stored := None)])
    ensures Inv(n)
  {
    forall d | d in n.tabs
      ensures StoredOk(n, d) && SlotOk(n, d)
    {
      assert StoredOk(y, d) && SlotOk(y, d);
    }
    forall j | j in n.net
      ensures MessageOk(n, j)
    {
      assert MessageOk(y, j);
    }
    forall q | q in n.requests
      ensures RequestOk(n, q)
    {
      assert RequestOk(y, q);
    }
  }

  /** The request that finds the slot empty puts the stored token on its way and occupies the slot. */
  lemma StartingKeepsInv(y: System, n: System, c: nat)
    requires Inv(y) && c in y.tabs
    requires y.tabs[c].slot.None? && y.tabs[c].stored.Some?
    requires n == y.(tabs := y.tabs[c := y.tabs[c].(slot := Some(y.nextPromise))],
                     net := y.net[y.nextPromise := Ask(c, y.tabs[c].stored.value)],
                     nextPromise := y.nextPromise + 1)
    ensures Inv(n)
  {
    assert y.nextPromise in y.net ==> MessageOk(y, y.nextPromise);
    assert StoredOk(y, c);
    forall d | d in n.tabs
      ensures StoredOk(n, d) && SlotOk(n, d)
    {
      assert StoredOk(y, d) && SlotOk(y, d);
    }
    forall j | j in n.net
      ensures MessageOk(n, j)
    {
      assert j in y.net ==> MessageOk(y, j);
    }
    forall q | q in n.requests
      ensures RequestOk(n, q)
    {
      assert RequestOk(y, q);
    }
  }

  lemma RejectionKeepsInv(y: System, r: nat, restoring: bool)
    requires Inv(y) && Enabled(y, Rejected401(r, restoring))
    ensures Inv(Act(y, Rejected401(r, restoring)))
  {
    var n := Act(y, Rejected401(r, restoring));
    var q := y.requests[r];
    assert RequestOk(y, r);
    assert SlotOk(y, q.tab);
    if q.retried || y.tabs[q.tab].slot.Some? {
      OneRequestKeepsInv(y, n, r);
    } else if y.tabs[q.tab].stored.None? {
      assert y.tabs[q.tab := y.tabs[q.tab]] == y.tabs;
      assert y.tabs[q.tab].(stored := None) == y.tabs[q.tab];
      OneRequestKeepsInv(y, n, r);
    } else {
      var mid := n.(requests := y.requests);
      StartingKeepsInv(y, mid, q.tab);
      OneRequestKeepsInv(mid, n, r);
    }
  }

  lemma LocalKeepsInv(y: System, a: Action)
    requires Inv(y) && Enabled(y, a)
    requires a.Issue? || a.Accepted? || a.Resume? || a.Forget?
    ensures Inv(Act(y, a))
  {
    var n := Act(y, a);
    match a
    case Issue(c, r) => OneRequestKeepsInv(y, n, r);
    case Accepted(r) =>
      assert RequestOk(y, r);
      OneRequestKeepsInv(y, n, r);
    case Resume(r, restoring) =>
      assert RequestOk(y, r);
      var mid := y.(requests := n.requests);
      OneRequestKeepsInv(y, mid, r);
      if n.tabs != mid.tabs {
        ClearingKeepsInv(mid, n, y.requests[r].tab);
      }
    case Forget(c) => ClearingKeepsInv(y, n, c);
  }

  lemma ActionKeepsInv(y: System, a: Action)
    requires Inv(y) && Enabled(y, a)
    ensures Inv(Act(y, a))
  {
    match a
    case Enter(c, u, e) => EnterKeepsInv(y, c, u, e);
    case Rejected401(r, restoring) => RejectionKeepsInv(y, r, restoring);
    case Serve(i, now, e) => ServeKeepsInv(y, i, now, e);
    case Deliver(i) => DeliverKeepsInv(y, i);
    case Outside(call) => OutsideKeepsInv(y, call);
    case _ => LocalKeepsInv(y, a);
  }

  // ----- Runs ---------------------------------------------------------------------------------

  /** Any server with consistent tables, and tabs that nobody has logged in from yet. */
  ghost predicate Start(y: System) {
    && Valid(y.server)
    && (forall c :: c in y.tabs ==> y.tabs[c] == Tab(None, None))
    && y.requests == map[] && y.net == map[] && y.settled == map[] && y.owner == map[]
  }

  ghost predicate StepAt(states: seq<System>, actions: seq<Action>, i: nat)
    requires i < |actions| < |states|
  {
    Enabled(states[i], actions[i]) && states[i + 1] == Act(states[i], actions[i])
  }

  ghost predicate Execution(states: seq<System>, actions: seq<Action>) {
    && |states| == |actions| + 1
    && Start(states[0])
    && forall i {:trigger StepAt(states, actions, i)} :: 0 <= i < |actions| ==> StepAt(states, actions, i)
  }

  lemma {:induction false} ExecutionKeepsInv(states: seq<System>, actions: seq<Action>, i: nat)
    requires Execution(states, actions)
    requires i < |states|
    ensures Inv(states[i])
  {
    if i > 0 {
      ExecutionKeepsInv(states, actions, i - 1);
      assert StepAt(states, actions, i - 1);
      ActionKeepsInv(states[i - 1], actions[i - 1]);
    }
  }

  /** At most one refresh of a tab is travelling at any moment. */
  lemma OneRefreshInFlight(states: seq<System>, actions: seq<Action>, i: nat, p: nat, q: nat)
    requires Execution(states, actions) && i < |states|
    requires p in states[i].net && q in states[i].net && states[i].net[p].tab == states[i].net[q].tab
    ensures p == q
  {
    ExecutionKeepsInv(states, actions, i);
    assert MessageOk(states[i], p) && MessageOk(states[i], q);
  }

  /** A request goes out at most twice, the second time only after it was answered 401. */
  lemma RetriedAtMostOnce(states: seq<System>, actions: seq<Action>, i: nat, r: nat)
    requires Execution(states, actions) && i < |states|
    requires r in states[i].requests
    ensures states[i].requests[r].sends <= 2
    ensures states[i].requests[r].sends == 2 ==> states[i].requests[r].retried
  {
    ExecutionKeepsInv(states, actions, i);
    assert RequestOk(states[i], r);
  }

  /** A tab's refresh is turned down only if the token has expired or its session was ended by a
      logout or a revocation. */
  lemma LiveSessionIsNeverRejected(states: seq<System>, actions: seq<Action>, i: nat, p: nat, now: int, expires: int)
    requires Execution(states, actions) && i < |states|
    requires p in states[i].net && states[i].net[p].Ask?
    ensures var s := states[i].server;
            var t := states[i].net[p].token;
            && t < |s.issued| && s.issued[t].session.Some?
            && (AfterRefresh(s, t, now, expires).1.Granted? <==>
                  now < s.issued[t].expires && s.issued[t].session.value in s.sessions)
  {
    ExecutionKeepsInv(states, actions, i);
    var y := states[i];
    assert MessageOk(y, p);
    var t := y.net[p].token;
    var k := SessionOf(y.server, t).value;
    if k in y.server.sessions {
      assert RowValid(y.server, k);
      assert Holds(y.server, k, y.server.issued[t].user, t);
    }
  }

  /** The token a tab stores, or the reply on its way to the tab, is the one the server holds. */
  lemma TabKeepsUp(states: seq<System>, actions: seq<Action>, i: nat, c: nat)
    requires Execution(states, actions) && i < |states|
    requires c in states[i].tabs && states[i].tabs[c].stored.Some?
    ensures var s := states[i].server;
            var t := states[i].tabs[c].stored.value;
            && SessionOf(s, t).Some?
            && var k := SessionOf(s, t).value;
               k in s.sessions ==>
                 s.sessions[k].token == t
                 || exists p :: p in states[i].net && states[i].net[p] == Answer(c, Some(s.sessions[k].token))
  {
    ExecutionKeepsInv(states, actions, i);
    var y := states[i];
    assert StoredOk(y, c) && SlotOk(y, c);
    if Renewing(y, c, y.tabs[c].stored.value) {
      var p := y.tabs[c].slot.value;
      assert MessageOk(y, p);
    }
  }

  /** Two tabs never hold tokens of the same session. */
  lemma TabsNeverShareSessions(states: seq<System>, actions: seq<Action>, i: nat, c: nat, d: nat, t: Token, u: Token)
    requires Execution(states, actions) && i < |states|
    requires c != d && Possesses(states[i], c, t) && Possesses(states[i], d, u)
    ensures SessionOf(states[i].server, t) != SessionOf(states[i].server, u)
  {
    ExecutionKeepsInv(states, actions, i);
    PossessionIsOwnership(states[i], c, t);
    PossessionIsOwnership(states[i], d, u);
  }

  lemma PossessionIsOwnership(y: System, c: nat, t: Token)
    requires Inv(y) && Possesses(y, c, t)
    ensures OwnedBy(y, t, c)
  {
    assert StoredOk(y, c);
    if i :| i in y.net && y.net[i].tab == c && Carries(y.net[i], t) {
      assert MessageOk(y, i);
    }
  }
}
