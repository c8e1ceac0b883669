/** Refreshes outside the single slot. When a page reloads, the restored session may refresh with the
    stored token directly, while a refresh of the slot is on its way with the same token. Here nothing is
    assumed about who calls the server: the lemmas say exactly when a live session loses a refresh. */
module SessionRaces {
  import opened Options
  import opened AuthSessions
  import P = SessionProtocol

  /** Some call of the run exchanges `t`. */
  ghost predicate Spends(s: Server, calls: seq<Call>, t: Token)
    decreases |calls|
  {
    calls != [] &&
    (Exchanges(s, calls[0], t) || Spends(Step(s, calls[0]), calls[1..], t))
  }

  /** A refresh with `t`, in time and while `t` is the token to present: what makes it go through. */
  ghost predicate Exchanges(s: Server, c: Call, t: Token) {
    c.Refresh? && c.token == t && Verifies(s, t, c.now) && Current(s, t)
  }

  lemma {:induction false} EndedForever(s: Server, calls: seq<Call>, k: nat)
    requires Valid(s) && k < s.nextSession && k !in s.sessions
    ensures k !in Run(s, calls).sessions
    decreases |calls|
  {
    if calls != [] {
      var n := Step(s, calls[0]);
      if k in n.sessions { StepKeepsOtherRows(s, calls[0], k); }
      StepGrowsLog(s, calls[0]);
      StepKeepsValid(s, calls[0]);
      EndedForever(n, calls[1..], k);
    }
  }

  /** A call that retires the token of a session either exchanges it or ends the session. */
  lemma RetiringExchangesOrEnds(s: Server, c: Call, t: Token, k: nat)
    requires Valid(s) && Current(s, t) && s.issued[t].session == Some(k)
    ensures Retires(s, c, t) <==> Exchanges(s, c, t) || k !in Step(s, c).sessions
  {
    CurrentRow(s, t, k);
    if c.Refresh? { RefreshRetiresIff(s, c, t, k); } else { EndingRetiresIff(s, c, t, k); }
  }

  lemma CurrentRow(s: Server, t: Token, k: nat)
    requires Valid(s) && Current(s, t) && s.issued[t].session == Some(k)
    ensures k in s.sessions && s.sessions[k].token == t && k < s.nextSession
    ensures s.sessions[k].user == s.issued[t].user
    ensures forall j :: j in s.sessions && s.sessions[j].token == t ==> j == k
  {
    RowHoldsNewest(s, k, t);
    assert RowValid(s, k);
  }

  lemma RefreshRetiresIff(s: Server, c: Call, t: Token, k: nat)
    requires Valid(s) && k in s.sessions && c.Refresh?
    ensures Retires(s, c, t) <==> Exchanges(s, c, t)
    ensures k in Step(s, c).sessions
  {
    AcceptedIffCurrent(s, c.token, c.now, c.expires);
  }

  lemma EndingRetiresIff(s: Server, c: Call, t: Token, k: nat)
    requires k in s.sessions && s.sessions[k].token == t && t < |s.issued|
    requires forall j :: j in s.sessions && s.sessions[j].token == t ==> j == k
    requires !c.Refresh?
    ensures Retires(s, c, t) <==> k !in Step(s, c).sessions
  {
    match c
    case Login(_, _) =>
    case Logout(_, _) =>
    case Revoke(_, _, _) =>
    case RevokeOthers(_, _) =>
    case ResetToken(_, _) =>
  }

  /** A session's token stays the current one over a run exactly while the session lives and no call
      has exchanged the token. */
  lemma {:induction false} CurrentAfterRunIff(s: Server, calls: seq<Call>, t: Token, k: nat)
    requires Valid(s) && Current(s, t) && s.issued[t].session == Some(k)
    ensures Current(Run(s, calls), t) <==> k in Run(s, calls).sessions && !Spends(s, calls, t)
    decreases |calls|
  {
    if calls != [] {
      var n := Step(s, calls[0]);
      StepKeepsValid(s, calls[0]);
      StepGrowsLog(s, calls[0]);
      assert n.issued[t] == s.issued[t];
      CallActsOnCurrent(s, calls[0], t);
      RetiringExchangesOrEnds(s, calls[0], t, k);
      if Current(n, t) {
        CurrentAfterRunIff(n, calls[1..], t, k);
      } else {
        RetiredForever(n, calls[1..], t);
        if k !in n.sessions { EndedForever(n, calls[1..], k); }
      }
    }
  }

  /** Whatever happens at the server in between, direct refreshes with the same token included: the
      refresh under way from a tab is granted if and only if its token has not expired, its session
      still exists, and nobody exchanged the token first. */
  lemma RacedRefreshIff(states: seq<P.System>, actions: seq<P.Action>, i: nat, p: nat,
                        calls: seq<Call>, now: int, expires: int)
    requires P.Execution(states, actions) && i < |states|
    requires p in states[i].net && states[i].net[p].Ask?
    ensures var s := states[i].server;
            var t := states[i].net[p].token;
            var n := Run(s, calls);
            && t < |s.issued| && s.issued[t].session.Some?
            && (AfterRefresh(n, t, now, expires).1.Granted? <==>
                  && now < s.issued[t].expires
                  && s.issued[t].session.value in n.sessions
                  && !Spends(s, calls, t))
  {
    var s := states[i].server;
    var t := states[i].net[p].token;
    P.LiveSessionIsNeverRejected(states, actions, i, p, now, expires);
    P.ExecutionKeepsInv(states, actions, i);
    AcceptedIffCurrentInRuns(s, calls, t, now, expires);
    LogOnlyGrows(s, calls);
    var k := s.issued[t].session.value;
    if k in s.sessions {
      AskedIsCurrent(states, actions, i, p);
      CurrentAfterRunIff(s, calls, t, k);
    } else {
      RetiredForever(s, calls, t);
      EndedForever(s, calls, k);
    }
  }

  lemma AskedIsCurrent(states: seq<P.System>, actions: seq<P.Action>, i: nat, p: nat)
    requires P.Execution(states, actions) && i < |states|
    requires p in states[i].net && states[i].net[p].Ask?
    requires P.Inv(states[i])
    requires P.SessionOf(states[i].server, states[i].net[p].token).Some?
    requires P.SessionOf(states[i].server, states[i].net[p].token).value in states[i].server.sessions
    ensures Current(states[i].server, states[i].net[p].token)
  {
    var s := states[i].server;
    var t := states[i].net[p].token;
    assert P.MessageOk(states[i], p);
    RowHoldsNewest(s, s.issued[t].session.value, t);
  }

  lemma {:induction false} LogOnlyGrows(s: Server, calls: seq<Call>)
    ensures |s.issued| <= |Run(s, calls).issued|
    ensures forall t :: 0 <= t < |s.issued| ==> Run(s, calls).issued[t] == s.issued[t]
    decreases |calls|
  {
    if calls != [] {
      StepGrowsLog(s, calls[0]);
      LogOnlyGrows(Step(s, calls[0]), calls[1..]);
      forall t | 0 <= t < |s.issued|
        ensures Step(s, calls[0]).issued[t] == s.issued[t]
      {
        assert Step(s, calls[0]).issued[..|s.issued|][t] == s.issued[t];
      }
    }
  }

  /** A restored session keeps the token it read at the start and, when its own calls fail, writes that
      token back to the tab's storage. Whatever happened at the server meanwhile, the tab is then behind
      the server if and only if the session lives and somebody exchanged the token. */
  lemma WriteBackFallsBehindIff(states: seq<P.System>, actions: seq<P.Action>, i: nat, c: nat, calls: seq<Call>)
    requires P.Execution(states, actions) && i < |states|
    requires c in states[i].tabs && states[i].tabs[c].stored.Some?
    requires P.UpToDate(states[i].server, states[i].tabs[c].stored.value)
    ensures var s := states[i].server;
            var t := states[i].tabs[c].stored.value;
            var n := Run(s, calls);
            !P.UpToDate(n, t) <==> P.SessionOf(s, t).value in n.sessions && Spends(s, calls, t)
  {
    P.ExecutionKeepsInv(states, actions, i);
    WriteBackAfterRun(states[i].server, states[i].tabs[c].stored.value, calls);
  }

  lemma WriteBackAfterRun(s: Server, t: Token, calls: seq<Call>)
    requires Valid(s) && P.UpToDate(s, t) && P.SessionOf(s, t).value < s.nextSession
    ensures !P.UpToDate(Run(s, calls), t) <==>
              P.SessionOf(s, t).value in Run(s, calls).sessions && Spends(s, calls, t)
  {
    var k := P.SessionOf(s, t).value;
    var n := Run(s, calls);
    LogOnlyGrows(s, calls);
    RunKeepsValid(s, calls);
    if k in s.sessions {
      RowHoldsNewest(s, k, t);
      CurrentAfterRunIff(s, calls, t, k);
      if k in n.sessions { RowHoldsNewest(n, k, t); }
    } else {
      EndedForever(s, calls, k);
    }
  }

  /** Two refreshes with one token of a live session, anything but a third one between them: the second
      is granted if and only if the session still lives, the token is unexpired, and the first one came
      too late. So whenever the first is in time, the second is lost although the session lives. */
  lemma SecondRefreshIff(s: Server, t: Token, k: nat, first: int, e1: int, between: seq<Call>, second: int, e2: int)
    requires Valid(s) && Current(s, t) && s.issued[t].session == Some(k)
    requires !Spends(Step(s, Refresh(t, first, e1)), between, t)
    ensures var n := Run(s, [Refresh(t, first, e1)] + between);
            AfterRefresh(n, t, second, e2).1.Granted? <==>
              k in n.sessions && second < s.issued[t].expires <= first
  {
    var c := Refresh(t, first, e1);
    var calls := [c] + between;
    assert calls[1..] == between;
    CurrentAfterRunIff(s, calls, t, k);
    AcceptedIffCurrentInRuns(s, calls, t, second, e2);
    LogOnlyGrows(s, calls);
  }

  /** It happens: a live session, two refreshes with its token, the second one refused. */
  lemma DirectRefreshLosesTheOther() returns (s: Server, t: Token)
    ensures Valid(s) && Current(s, t) && s.sessions.Keys == {0}
    ensures var n := Step(s, Refresh(t, 1, 100));
            n.sessions.Keys == {0} && AfterRefresh(n, t, 1, 100).1 == Unauthorized
  {
    var empty := Server(map[7 := None], map[], [], 0, map[]);
    s := AfterLogin(empty, 7, 100).0;
    t := 0;
    StepKeepsValid(empty, Login(7, 100));
    assert s.issued == [Claim(7, Some(0), 100)];
    assert Holds(s, 0, 7, 0);
  }
}
