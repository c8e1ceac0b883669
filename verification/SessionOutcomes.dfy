/** What the session protocol achieves: which token a tab ends up with, when a tab loses it, and what
    becomes of a request that was answered 401. */
module SessionOutcomes {
  import opened Options
  import opened AuthSessions
  import opened SessionProtocol
  import opened Traces

  lemma ExecutionStep(states: seq<System>, actions: seq<Action>, i: nat)
    requires Execution(states, actions) && i < |actions|
    ensures Inv(states[i]) && Enabled(states[i], actions[i])
    ensures states[i + 1] == Act(states[i], actions[i])
  {
    ExecutionKeepsInv(states, actions, i);
    assert StepAt(states, actions, i);
  }

  // ----- One refresh, from the server to the tab ----------------------------------------------

  /** The server answers a refresh with a token exactly when the presented one is unexpired and its
      session is alive, and that token is the one the session's row holds from then on. */
  lemma ServedIff(states: seq<System>, actions: seq<Action>, i: nat)
    requires Execution(states, actions) && i < |actions| && actions[i].Serve?
    ensures var y, n, p := states[i], states[i + 1], actions[i].promise;
            && p in y.net && y.net[p].Ask? && p in n.net
            && var m := y.net[p];
               m.token < |y.server.issued| && y.server.issued[m.token].session.Some?
               && var k := y.server.issued[m.token].session.value;
               && n.net[p].Answer? && n.net[p].tab == m.tab
               && (n.net[p].reply.Some? <==>
                     actions[i].now < y.server.issued[m.token].expires && k in y.server.sessions)
               && (n.net[p].reply.Some? ==>
                     k in n.server.sessions && n.server.sessions[k].token == n.net[p].reply.value
                     && n.net[p].reply.value == |y.server.issued|
                     && n.server.issued ==
                          y.server.issued + [Claim(y.server.issued[m.token].user, Some(k), actions[i].expires)])
  {
    ExecutionStep(states, actions, i);
    LiveSessionIsNeverRejected(states, actions, i, actions[i].promise, actions[i].now, actions[i].expires);
  }

  /** A granted reply is what the tab stores, whatever it stored before; a refusal leaves the stored token
      as it was. Either way the slot is free again, and other tabs notice nothing. */
  lemma DeliveryStores(states: seq<System>, actions: seq<Action>, i: nat)
    requires Execution(states, actions) && i < |actions| && actions[i].Deliver?
    ensures var y, n, p := states[i], states[i + 1], actions[i].promise;
            && p in y.net && y.net[p].Answer? && p !in n.net
            && var c := y.net[p].tab;
               c in y.tabs && n.tabs.Keys == y.tabs.Keys
               && n.tabs[c].stored == (if y.net[p].reply.Some? then y.net[p].reply else y.tabs[c].stored)
               && y.tabs[c].slot == Some(p) && n.tabs[c].slot == None
               && (forall d :: d in y.tabs && d != c ==> n.tabs[d] == y.tabs[d])
               && p in n.settled && n.settled[p] == y.net[p].reply
  {
    ExecutionStep(states, actions, i);
    assert MessageOk(states[i], actions[i].promise);
  }

  /** A login leaves the tab with the token of the session it opened. */
  lemma LoginStores(states: seq<System>, actions: seq<Action>, i: nat)
    requires Execution(states, actions) && i < |actions| && actions[i].Enter?
    ensures var y, n, c := states[i], states[i + 1], actions[i].tab;
            var k := y.server.nextSession;
            && k !in y.server.sessions && k in n.server.sessions
            && n.server.sessions[k].user == actions[i].user
            && c in n.tabs && n.tabs[c].stored == Some(n.server.sessions[k].token)
            && n.server.issued == y.server.issued + [Claim(actions[i].user, Some(k), actions[i].expires)]
  {
    ExecutionStep(states, actions, i);
    var k := states[i].server.nextSession;
    assert k in states[i].server.sessions ==> RowValid(states[i].server, k);
  }

  // ----- How long a tab stays logged in -------------------------------------------------------

  predicate Cleans(y: System, a: Action, c: nat) {
    || a == Forget(c)
    || (a.Resume? && !a.restoring && a.request in y.requests && y.requests[a.request].tab == c
        && y.requests[a.request].phase.Waiting?
        && y.requests[a.request].phase.promise in y.settled
        && y.settled[y.requests[a.request].phase.promise] == None)
  }

  predicate Fills(y: System, a: Action, c: nat) {
    || (a.Enter? && a.tab == c)
    || (a.Deliver? && a.promise in y.net && y.net[a.promise].Answer?
        && y.net[a.promise].tab == c && y.net[a.promise].reply.Some?)
  }

  /** After any step a tab holds a token exactly when the step brought one, or it held one and the step was
      neither a sign-out nor, outside restoring, the end of a refused refresh. */
  lemma HoldsAfterIff(y: System, a: Action, c: nat)
    requires Inv(y) && Enabled(y, a) && c in y.tabs
    ensures c in Act(y, a).tabs
    ensures Act(y, a).tabs[c].stored.Some? <==> Fills(y, a, c) || (y.tabs[c].stored.Some? && !Cleans(y, a, c))
  {
    if a.Rejected401? {
      RejectionKeepsStored(y, a.request, a.restoring, c);
    }
  }

  lemma RejectionKeepsStored(y: System, r: nat, restoring: bool, c: nat)
    requires Enabled(y, Rejected401(r, restoring)) && c in y.tabs
    ensures var n := On401(y, r, restoring); c in n.tabs && n.tabs[c].stored == y.tabs[c].stored
  {
  }

  predicate LoggedIn(y: System, c: nat) {
    c in y.tabs && y.tabs[c].stored.Some?
  }

  lemma RunStepLoggedIn(states: seq<System>, actions: seq<Action>, i: nat, c: nat)
    requires Execution(states, actions) && i < |actions| && LoggedIn(states[i], c)
    ensures LoggedIn(states[i + 1], c) <==> !Cleans(states[i], actions[i], c)
  {
    ExecutionStep(states, actions, i);
    HoldsAfterIff(states[i], actions[i], c);
  }

  function Holding(states: seq<System>, c: nat, k: nat, m: nat): (good: seq<bool>)
    requires k <= m < |states|
    ensures |good| == m - k + 1 && forall i :: 0 <= i <= m - k ==> good[i] == LoggedIn(states[k + i], c)
  {
    seq(m - k + 1, i requires 0 <= i <= m - k => LoggedIn(states[k + i], c))
  }

  function Sparing(states: seq<System>, actions: seq<Action>, c: nat, k: nat, m: nat): (sound: seq<bool>)
    requires k <= m < |states| && m <= |actions|
    ensures |sound| == m - k
    ensures forall i :: 0 <= i < m - k ==> sound[i] == !Cleans(states[k + i], actions[k + i], c)
  {
    seq(m - k, i requires 0 <= i < m - k => !Cleans(states[k + i], actions[k + i], c))
  }

  /** Over every run: a tab that holds a token at moment `k` holds one at every moment up to `m` if and
      only if it was not signed out and saw no refused refresh outside restoring in between. */
  lemma StaysLoggedInIff(states: seq<System>, actions: seq<Action>, c: nat, k: nat, m: nat)
    requires Execution(states, actions) && k <= m < |states| && LoggedIn(states[k], c)
    ensures (forall i :: k <= i <= m ==> LoggedIn(states[i], c)) <==>
              (forall i :: k <= i < m ==> !Cleans(states[i], actions[i], c))
  {
    var good, sound := Holding(states, c, k, m), Sparing(states, actions, c, k, m);
    forall i | 0 <= i < m - k && good[i]
      ensures good[i + 1] <==> sound[i]
    {
      RunStepLoggedIn(states, actions, k + i, c);
    }
    ChainIff(good, sound, m - k);
    assert forall i :: k <= i <= m ==> good[i - k] == LoggedIn(states[i], c);
    assert forall i :: k <= i < m ==> sound[i - k] == !Cleans(states[i], actions[i], c);
  }

  /** From its login on, and as long as nothing of the kind happened, the tab stores a token whose session
      has either ended or is held by the server under that very token or one on its way to the tab. */
  lemma LoggedInTabKeepsSession(states: seq<System>, actions: seq<Action>, k: nat, m: nat)
    requires Execution(states, actions) && k < m < |states| && actions[k].Enter?
    requires forall i :: k < i < m ==> !Cleans(states[i], actions[i], actions[k].tab)
    ensures var c, s := actions[k].tab, states[m].server;
            && LoggedIn(states[m], c)
            && var t := states[m].tabs[c].stored.value;
               SessionOf(s, t).Some?
               && var id := SessionOf(s, t).value;
               id in s.sessions ==>
                 s.sessions[id].token == t
                 || exists p :: p in states[m].net && states[m].net[p] == Answer(c, Some(s.sessions[id].token))
  {
    LoginStores(states, actions, k);
    StaysLoggedInIff(states, actions, actions[k].tab, k + 1, m);
    TabKeepsUp(states, actions, m, actions[k].tab);
  }

  /** Signing out does not reach a refresh under way: its reply logs the tab in again. */
  lemma LateReplyLogsInAgain(states: seq<System>, actions: seq<Action>, i: nat, p: nat)
    requires Execution(states, actions) && i + 2 < |states|
    requires p in states[i].net && states[i].net[p].Answer? && states[i].net[p].reply.Some?
    requires actions[i] == Forget(states[i].net[p].tab) && actions[i + 1] == Deliver(p)
    ensures !LoggedIn(states[i + 1], states[i].net[p].tab)
    ensures LoggedIn(states[i + 2], states[i].net[p].tab)
  {
    ExecutionStep(states, actions, i);
    DeliveryStores(states, actions, i + 1);
  }

  // ----- What becomes of a request ------------------------------------------------------------

  /** A first 401 makes the request wait for the refresh its tab has under way, or for a new one that
      carries the stored token; it ends the request only if the tab has neither. A second 401 ends it. */
  lemma First401Outcome(states: seq<System>, actions: seq<Action>, i: nat)
    requires Execution(states, actions) && i < |actions| && actions[i].Rejected401?
    ensures var y, n, r := states[i], states[i + 1], actions[i].request;
            && r in y.requests && r in n.requests && y.requests[r].tab in y.tabs
            && var q, c := n.requests[r], y.requests[r].tab;
               q.tab == c && q.sends == y.requests[r].sends && q.retried
               && (q.phase.Waiting? <==>
                     !y.requests[r].retried && (y.tabs[c].slot.Some? || y.tabs[c].stored.Some?))
               && (!q.phase.Waiting? ==> q.phase.Finished? && n.net == y.net)
               && (q.phase.Waiting? ==>
                     && c in n.tabs && n.tabs[c].slot == Some(q.phase.promise)
                     && q.phase.promise in n.net && n.net[q.phase.promise].tab == c
                     && (y.tabs[c].slot.Some? ==> n.net == y.net && n.tabs == y.tabs)
                     && (y.tabs[c].slot.None? ==>
                           n.net == y.net[y.nextPromise := Ask(c, y.tabs[c].stored.value)]
                           && q.phase.promise == y.nextPromise && y.nextPromise !in y.net))
  {
    ExecutionStep(states, actions, i);
    var y := states[i];
    var c := y.requests[actions[i].request].tab;
    assert SlotOk(y, c) && RequestOk(y, actions[i].request);
    assert y.nextPromise in y.net ==> MessageOk(y, y.nextPromise);
  }

  /** A tab's slot is taken exactly while a refresh of it is under way, so a failed one never blocks it. */
  lemma SlotTakenIffUnderWay(states: seq<System>, actions: seq<Action>, i: nat, c: nat)
    requires Execution(states, actions) && i < |states| && c in states[i].tabs
    ensures states[i].tabs[c].slot.Some? <==> exists p :: p in states[i].net && states[i].net[p].tab == c
  {
    ExecutionKeepsInv(states, actions, i);
    assert SlotOk(states[i], c);
    if p :| p in states[i].net && states[i].net[p].tab == c { assert MessageOk(states[i], p); }
  }

  /** A new request goes out once, and any answer but a 401 ends one; neither touches tabs or messages. */
  lemma PlainStepsOutcome(states: seq<System>, actions: seq<Action>, i: nat)
    requires Execution(states, actions) && i < |actions| && (actions[i].Issue? || actions[i].Accepted?)
    ensures var y, n, r := states[i], states[i + 1], actions[i].request;
            && r in n.requests && n == y.(requests := y.requests[r := n.requests[r]])
            && (actions[i].Issue? ==> r !in y.requests && n.requests[r] == Request(actions[i].tab, 1, false, OnWire))
            && (actions[i].Accepted? ==> r in y.requests && n.requests[r] == y.requests[r].(phase := Finished))
  {
    ExecutionStep(states, actions, i);
  }

  predicate WaitsFor(y: System, r: nat, p: nat) {
    r in y.requests && y.requests[r].phase == Waiting(p)
  }

  lemma OthersWait(y: System, a: Action, r: nat, p: nat)
    requires Enabled(y, a) && WaitsFor(y, r, p) && !(a.Resume? && a.request == r)
    ensures r in Act(y, a).requests && Act(y, a).requests[r] == y.requests[r]
  {
  }

  lemma WaitingStays(states: seq<System>, actions: seq<Action>, i: nat, r: nat, p: nat)
    requires Execution(states, actions) && i < |actions| && WaitsFor(states[i], r, p)
    requires !(actions[i].Resume? && actions[i].request == r)
    ensures WaitsFor(states[i + 1], r, p) && states[i + 1].requests[r] == states[i].requests[r]
  {
    assert StepAt(states, actions, i);
    OthersWait(states[i], actions[i], r, p);
  }

  lemma SettledStays(states: seq<System>, actions: seq<Action>, i: nat, p: nat)
    requires Execution(states, actions) && i < |actions| && p in states[i].settled
    ensures p in states[i + 1].settled && states[i + 1].settled[p] == states[i].settled[p]
  {
    ExecutionStep(states, actions, i);
    if actions[i].Deliver? { assert MessageOk(states[i], actions[i].promise); }
  }

  lemma {:induction false} SettledForEver(states: seq<System>, actions: seq<Action>, i: nat, j: nat, p: nat)
    requires Execution(states, actions) && i <= j < |states| && p in states[i].settled
    ensures p in states[j].settled && states[j].settled[p] == states[i].settled[p]
    decreases j - i
  {
    if i < j {
      SettledForEver(states, actions, i, j - 1, p);
      SettledStays(states, actions, j - 1, p);
    }
  }

  lemma {:induction false} WaitsUntil(states: seq<System>, actions: seq<Action>, i: nat, j: nat, r: nat, p: nat)
    requires Execution(states, actions) && i <= j < |states| && WaitsFor(states[i], r, p)
    requires forall h :: i <= h < j ==> !(actions[h].Resume? && actions[h].request == r)
    ensures WaitsFor(states[j], r, p) && states[j].requests[r] == states[i].requests[r]
    decreases j - i
  {
    if i < j {
      WaitsUntil(states, actions, i, j - 1, r, p);
      WaitingStays(states, actions, j - 1, r, p);
    }
  }

  /** A waiting request wakes up to be sent once more if its refresh brought a token; otherwise it ends,
      and outside restoring its tab's storage is cleared. */
  lemma ResumeOutcome(states: seq<System>, actions: seq<Action>, i: nat)
    requires Execution(states, actions) && i < |actions| && actions[i].Resume?
    ensures var y, n, r := states[i], states[i + 1], actions[i].request;
            && r in y.requests && y.requests[r].phase.Waiting? && y.requests[r].phase.promise in y.settled
            && r in n.requests && n.requests[r].tab == y.requests[r].tab && y.requests[r].tab in y.tabs
            && var reply, c := y.settled[y.requests[r].phase.promise], y.requests[r].tab;
               n.requests[r].phase == (if reply.Some? then OnWire else Finished)
               && n.requests[r].sends == (if reply.Some? then 2 else 1)
               && n.tabs == (if reply.None? && !actions[i].restoring
                             then y.tabs[c := y.tabs[c].(stored := None)] else y.tabs)
  {
    ExecutionStep(states, actions, i);
    var y := states[i];
    var q := y.requests[actions[i].request];
    assert RequestOk(y, actions[i].request);
    assert y.tabs[q.tab := y.tabs[q.tab]] == y.tabs;
  }

  /** Over every run: a request answered 401 at `i`, whose refresh reached its tab at `d` and that wakes up
      for the first time at `j`, is sent again exactly if that reply carried a token. */
  lemma RetriedIffRefreshed(states: seq<System>, actions: seq<Action>, i: nat, d: nat, j: nat, r: nat)
    requires Execution(states, actions) && i < d < j < |actions|
    requires actions[d].Deliver? && actions[j].Resume? && actions[j].request == r
    requires actions[i].Rejected401? && actions[i].request == r && WaitsFor(states[i + 1], r, actions[d].promise)
    requires forall h :: i < h < j ==> !(actions[h].Resume? && actions[h].request == r)
    ensures var p := actions[d].promise;
            && p in states[d].net && states[d].net[p].Answer? && r in states[j + 1].requests
            && var granted := states[d].net[p].reply.Some?;
               (states[j + 1].requests[r].phase.OnWire? <==> granted)
               && states[j + 1].requests[r].sends == if granted then 2 else 1
  {
    var p := actions[d].promise;
    WaitsUntil(states, actions, i + 1, j, r, p);
    DeliveryStores(states, actions, d);
    SettledForEver(states, actions, d + 1, j, p);
    ResumeOutcome(states, actions, j);
  }

  /** Nothing is ever stuck: a waiting request can wake up, or its refresh can be served or delivered. */
  lemma WaitingCanGoOn(states: seq<System>, actions: seq<Action>, i: nat, r: nat, p: nat)
    requires Execution(states, actions) && i < |states| && WaitsFor(states[i], r, p)
    ensures var y := states[i];
            || Enabled(y, Resume(r, false))
            || (forall now, e :: Enabled(y, Serve(p, now, e)))
            || Enabled(y, Deliver(p))
  {
    ExecutionKeepsInv(states, actions, i);
    assert RequestOk(states[i], r);
  }
}
