/** Server side of the session protocol: one rotating refresh token per browser session.

    A refresh token is the position at which it was signed in the server's issuance log, so two
    tokens never coincide. Verifying a token returns the claim it was signed with. */
module AuthSessions {
  import opened Options

  type Token = nat

  datatype Claim = Claim(user: nat, session: Option<nat>, expires: int)

  datatype Row = Row(user: nat, token: Token)

  /** `legacy` maps every user to its `session_refresh_token` column, `resets` to the `refreshToken`
      column, which holds the password reset token. */
  datatype Server = Server(
    legacy: map<nat, Option<Token>>,
    sessions: map<nat, Row>,
    issued: seq<Claim>,
    nextSession: nat,
    resets: map<nat, Token>)

  datatype Reply = Granted(token: Token) | Done | Unauthorized | NotFound

  predicate Verifies(s: Server, t: Token, now: int) {
    t < |s.issued| && now < s.issued[t].expires
  }

  /** Referential integrity of the two tables with the issuance log. A row may still hold a token
      without a session id: a migration interrupted before its rotation leaves such a row. */
  ghost predicate Valid(s: Server) {
    && (forall t :: 0 <= t < |s.issued| && s.issued[t].session.Some? ==> s.issued[t].session.value < s.nextSession)
    && (forall k :: k in s.sessions ==> RowValid(s, k))
    && (forall j, k :: j in s.sessions && k in s.sessions && s.sessions[j].token == s.sessions[k].token ==> j == k)
    && (forall u :: u in s.legacy && s.legacy[u].Some? ==> LegacyValid(s, u, s.legacy[u].value))
  }

  ghost predicate RowValid(s: Server, k: nat)
    requires k in s.sessions
  {
    var row := s.sessions[k];
    && k < s.nextSession
    && row.user in s.legacy
    && row.token < |s.issued|
    && s.issued[row.token].user == row.user
    && (s.issued[row.token].session == Some(k) || s.issued[row.token].session == None)
    && (forall t :: 0 <= t < |s.issued| && s.issued[t].session == Some(k) ==>
          t <= row.token && s.issued[row.token].session == Some(k))
  }

  ghost predicate LegacyValid(s: Server, u: nat, t: Token) {
    && t < |s.issued|
    && s.issued[t].user == u
    && s.issued[t].session == None
    && (forall k :: k in s.sessions ==> s.sessions[k].token != t)
  }

  // ----- What each call does to the tables ---------------------------------------------------

  function Signed(s: Server, user: nat, session: nat, expires: int): Server {
    s.(issued := s.issued + [Claim(user, Some(session), expires)])
  }

  function Rotated(s: Server, user: nat, session: nat, expires: int): Server {
    Signed(s, user, session, expires).(sessions := s.sessions[session := Row(user, |s.issued|)])
  }

  function AfterLogin(s: Server, user: nat, expires: int): (Server, Reply) {
    if user !in s.legacy then (s, NotFound)
    else (Rotated(s, user, s.nextSession, expires).(nextSession := s.nextSession + 1), Granted(|s.issued|))
  }

  ghost predicate Holds(s: Server, k: nat, user: nat, t: Token) {
    k in s.sessions && s.sessions[k] == Row(user, t)
  }

  ghost function AfterRefresh(s: Server, t: Token, now: int, expires: int): (Server, Reply) {
    if !Verifies(s, t, now) then (s, Unauthorized)
    else
      var claim := s.issued[t];
      if claim.user !in s.legacy then (s, NotFound)
      else if claim.session.Some? then
        if Holds(s, claim.session.value, claim.user, t)
        then (Rotated(s, claim.user, claim.session.value, expires), Granted(|s.issued|))
        else (s, Unauthorized)
      else if s.legacy[claim.user] == Some(t) then
        (Rotated(s, claim.user, s.nextSession, expires).(
           nextSession := s.nextSession + 1,
           legacy := s.legacy[claim.user := None]), Granted(|s.issued|))
      else if exists k :: Holds(s, k, claim.user, t) then
        var k :| Holds(s, k, claim.user, t);
        (Rotated(s, claim.user, k, expires), Granted(|s.issued|))
      else (s, Unauthorized)
  }

  function AfterLogout(s: Server, t: Token, now: int): Server {
    if !Verifies(s, t, now) then s
    else
      var user := s.issued[t].user;
      s.(sessions := map k | k in s.sessions && s.sessions[k].token != t :: s.sessions[k],
         legacy := if user in s.legacy && s.legacy[user] == Some(t) then s.legacy[user := None] else s.legacy)
  }

  function AfterRevoke(s: Server, user: nat, session: nat, current: Option<nat>): (Server, Reply) {
    if current == Some(session) then (s, Unauthorized)
    else if session in s.sessions && s.sessions[session].user == user
    then (s.(sessions := s.sessions - {session}), Done)
    else (s, NotFound)
  }

  function AfterRevokeOthers(s: Server, user: nat, current: Option<nat>): Server {
    s.(sessions := map k | k in s.sessions && (s.sessions[k].user != user || current == Some(k)) :: s.sessions[k])
  }

  /** Password reset and team invite tokens are signed with the refresh secret too. */
  function AfterResetToken(s: Server, user: nat, expires: int): Server {
    s.(issued := s.issued + [Claim(user, None, expires)],
       resets := if user in s.legacy then s.resets[user := |s.issued|] else s.resets)
  }

  class AuthService {
    var legacy: map<nat, Option<Token>>
    var sessions: map<nat, Row>
    var issued: seq<Claim>
    var nextSession: nat
    var resets: map<nat, Token>

    function State(): Server
      reads this
    {
      Server(legacy, sessions, issued, nextSession, resets)
    }

    method GenerateTokens(user: nat, session: nat, expires: int) returns (token: Token)
      modifies this`issued
      ensures token == |old(issued)|
      ensures issued == old(issued) + [Claim(user, Some(session), expires)]
    {
      token := |issued|;
      issued := issued + [Claim(user, Some(session), expires)];
    }

    method CreateUserSession(user: nat, token: Token) returns (session: nat)
      modifies this`sessions, this`nextSession
      ensures session == old(nextSession) && nextSession == session + 1
      ensures sessions == old(sessions)[session := Row(user, token)]
    {
      session := nextSession;
      nextSession := nextSession + 1;
      sessions := sessions[session := Row(user, token)];
    }

    method RotateUserSession(session: nat, token: Token)
      requires session in sessions
      modifies this`sessions
      ensures sessions == old(sessions)[session := Row(old(sessions)[session].user, token)]
    {
      sessions := sessions[session := sessions[session].(token := token)];
    }

    method IssueSessionTokens(user: nat, placeholder: Token, expires: int) returns (reply: Reply)
      modifies this
      ensures (State(), reply) == AfterLogin(old(State()), user, expires)
    {
      if user !in legacy { return NotFound; }
      var session := CreateUserSession(user, placeholder);
      var token := GenerateTokens(user, session, expires);
      RotateUserSession(session, token);
      assert sessions == old(sessions)[session := Row(user, token)];
      reply := Granted(token);
    }

    method RefreshToken(t: Token, now: int, expires: int) returns (reply: Reply)
      requires Valid(State())
      modifies this
      ensures (State(), reply) == AfterRefresh(old(State()), t, now, expires)
    {
      if t >= |issued| || issued[t].expires <= now { return Unauthorized; }
      var claim := issued[t];
      if claim.user !in legacy { return NotFound; }
      var session: nat;
      if claim.session.Some? {
        session := claim.session.value;
        if session !in sessions || sessions[session] != Row(claim.user, t) { return Unauthorized; }
      } else if legacy[claim.user] == Some(t) {
        session := CreateUserSession(claim.user, t);
        legacy := legacy[claim.user := None];
      } else {
        var found := set k | k in sessions && sessions[k] == Row(claim.user, t);
        if found == {} {
          assert forall k :: Holds(State(), k, claim.user, t) ==> k in found;
          return Unauthorized;
        }
        session :| session in found;
        assert Holds(State(), session, claim.user, t);
      }
      var token := GenerateTokens(claim.user, session, expires);
      RotateUserSession(session, token);
      assert sessions == old(sessions)[session := Row(claim.user, token)];
      reply := Granted(token);
    }

    method Logout(t: Token, now: int)
      modifies this
      ensures State() == AfterLogout(old(State()), t, now)
    {
      if t >= |issued| || issued[t].expires <= now { return; }
      var user := issued[t].user;
      sessions := map k | k in sessions && sessions[k].token != t :: sessions[k];
      if user in legacy && legacy[user] == Some(t) {
        legacy := legacy[user := None];
      }
    }

    method RevokeSession(user: nat, session: nat, current: Option<nat>) returns (reply: Reply)
      modifies this
      ensures (State(), reply) == AfterRevoke(old(State()), user, session, current)
    {
      if current.Some? && session == current.value { return Unauthorized; }
      var doomed := set k | k in sessions && k == session && sessions[k].user == user;
      sessions := sessions - doomed;
      reply := if doomed == {} then NotFound else Done;
      if session in old(sessions) && old(sessions)[session].user == user {
        assert session in doomed;
        assert doomed == {session};
        assert sessions == old(sessions) - {session};
      } else {
        assert doomed == {};
        assert sessions == old(sessions);
      }
    }

    method RevokeOtherSessions(user: nat, current: Option<nat>)
      modifies this
      ensures State() == AfterRevokeOthers(old(State()), user, current)
    {
      if current.Some? {
        sessions := map k | k in sessions && !(sessions[k].user == user && k != current.value) :: sessions[k];
      } else {
        sessions := map k | k in sessions && sessions[k].user != user :: sessions[k];
      }
    }

    method IssuePasswordResetToken(user: nat, expires: int) returns (t: Token)
      modifies this`issued, this`resets
      ensures State() == AfterResetToken(old(State()), user, expires)
      ensures t == |old(issued)|
    {
      t := |issued|;
      issued := issued + [Claim(user, None, expires)];
      if user in legacy { resets := resets[user := t]; }
    }
  }

  // ----- Runs -------------------------------------------------------------------------------

  datatype Call =
    | Login(user: nat, expires: int)
    | Refresh(token: Token, now: int, expires: int)
    | Logout(token: Token, now: int)
    | Revoke(user: nat, session: nat, current: Option<nat>)
    | RevokeOthers(user: nat, current: Option<nat>)
    | ResetToken(user: nat, expires: int)

  ghost function Step(s: Server, c: Call): Server {
    match c
    case Login(u, e) => AfterLogin(s, u, e).0
    case Refresh(t, now, e) => AfterRefresh(s, t, now, e).0
    case Logout(t, now) => AfterLogout(s, t, now)
    case Revoke(u, k, current) => AfterRevoke(s, u, k, current).0
    case RevokeOthers(u, current) => AfterRevokeOthers(s, u, current)
    case ResetToken(u, e) => AfterResetToken(s, u, e)
  }

  ghost function Run(s: Server, calls: seq<Call>): Server
    decreases |calls|
  {
    if calls == [] then s else Run(Step(s, calls[0]), calls[1..])
  }

  /** The newest token signed for a session, read off the issuance log alone. */
  ghost predicate NewestFor(issued: seq<Claim>, session: nat, t: Token) {
    && t < |issued|
    && issued[t].session == Some(session)
    && forall later :: t < later < |issued| ==> issued[later].session != Some(session)
  }

  /** The tokens the server should honour: the newest token of a live session of the token's
      user, or a token without a session id that the user's legacy column or a row of that user
      still holds. */
  ghost predicate Current(s: Server, t: Token) {
    && t < |s.issued|
    && var claim := s.issued[t];
       if claim.session.Some?
       then claim.session.value in s.sessions && NewestFor(s.issued, claim.session.value, t)
       else claim.user in s.legacy && (s.legacy[claim.user] == Some(t) || exists k :: Holds(s, k, claim.user, t))
  }

  lemma RotationKeepsRow(s: Server, n: Server, user: nat, k: nat, expires: int, j: nat)
    requires Valid(s)
    requires user in s.legacy && k <= s.nextSession <= n.nextSession && k < n.nextSession
    requires k in s.sessions ==> s.sessions[k].user == user
    requires n == Rotated(s, user, k, expires).(nextSession := n.nextSession)
    requires j in n.sessions
    ensures RowValid(n, j)
  {
    assert n.issued[..|s.issued|] == s.issued;
    if j != k { assert RowValid(s, j); }
  }

  lemma RotationKeepsLegacy(s: Server, n: Server, user: nat, k: nat, expires: int, u: nat)
    requires Valid(s)
    requires n == Rotated(s, user, k, expires).(nextSession := n.nextSession)
    requires u in s.legacy && s.legacy[u].Some?
    ensures LegacyValid(n, u, n.legacy[u].value)
  {
    assert LegacyValid(s, u, s.legacy[u].value);
  }

  lemma RotationKeepsUnique(s: Server, n: Server, user: nat, k: nat, expires: int, i: nat, j: nat)
    requires Valid(s)
    requires n == Rotated(s, user, k, expires).(nextSession := n.nextSession)
    requires i in n.sessions && j in n.sessions && n.sessions[i].token == n.sessions[j].token
    ensures i == j
  {
    if i != k { assert RowValid(s, i); }
    if j != k { assert RowValid(s, j); }
  }

  /** Re-keying a session of `user`, or opening the next one, keeps the tables consistent. */
  lemma RotationKeepsValid(s: Server, n: Server, user: nat, k: nat, expires: int)
    requires Valid(s)
    requires user in s.legacy && k <= s.nextSession <= n.nextSession && k < n.nextSession
    requires k in s.sessions ==> s.sessions[k].user == user
    requires n == Rotated(s, user, k, expires).(nextSession := n.nextSession)
    ensures Valid(n)
  {
    forall t | 0 <= t < |n.issued| && n.issued[t].session.Some?
      ensures n.issued[t].session.value < n.nextSession
    {
      if t < |s.issued| { assert n.issued[t] == s.issued[t]; }
    }
    forall j | j in n.sessions
      ensures RowValid(n, j)
    {
      RotationKeepsRow(s, n, user, k, expires, j);
    }
    forall u | u in n.legacy && n.legacy[u].Some?
      ensures LegacyValid(n, u, n.legacy[u].value)
    {
      RotationKeepsLegacy(s, n, user, k, expires, u);
    }
    forall i, j | i in n.sessions && j in n.sessions && n.sessions[i].token == n.sessions[j].token
      ensures i == j
    {
      RotationKeepsUnique(s, n, user, k, expires, i, j);
    }
  }

  lemma ShrinkKeepsValid(s: Server, n: Server)
    requires Valid(s)
    requires n.issued == s.issued && n.nextSession == s.nextSession && n.legacy.Keys == s.legacy.Keys
    requires forall k :: k in n.sessions ==> k in s.sessions && n.sessions[k] == s.sessions[k]
    requires forall u :: u in n.legacy && n.legacy[u].Some? ==> n.legacy[u] == s.legacy[u]
    ensures Valid(n)
  {
    forall k | k in n.sessions
      ensures RowValid(n, k)
    {
      assert RowValid(s, k);
    }
    forall u | u in n.legacy && n.legacy[u].Some?
      ensures LegacyValid(n, u, n.legacy[u].value)
    {
      assert LegacyValid(s, u, s.legacy[u].value);
    }
  }

  lemma LoginKeepsValid(s: Server, user: nat, expires: int)
    requires Valid(s)
    ensures Valid(AfterLogin(s, user, expires).0)
  {
    if user in s.legacy {
      assert s.nextSession in s.sessions ==> RowValid(s, s.nextSession);
      RotationKeepsValid(s, AfterLogin(s, user, expires).0, user, s.nextSession, expires);
    }
  }

  lemma LogoutKeepsValid(s: Server, t: Token, now: int)
    requires Valid(s)
    ensures Valid(AfterLogout(s, t, now))
  {
    ShrinkKeepsValid(s, AfterLogout(s, t, now));
  }

  lemma RevokeKeepsValid(s: Server, user: nat, session: nat, current: Option<nat>)
    requires Valid(s)
    ensures Valid(AfterRevoke(s, user, session, current).0)
  {
    ShrinkKeepsValid(s, AfterRevoke(s, user, session, current).0);
  }

  lemma RevokeOthersKeepsValid(s: Server, user: nat, current: Option<nat>)
    requires Valid(s)
    ensures Valid(AfterRevokeOthers(s, user, current))
  {
    ShrinkKeepsValid(s, AfterRevokeOthers(s, user, current));
  }

  lemma RefreshKeepsValid(s: Server, t: Token, now: int, expires: int)
    requires Valid(s)
    ensures Valid(AfterRefresh(s, t, now, expires).0)
  {
    var n := AfterRefresh(s, t, now, expires).0;
    if n != s {
      var claim := s.issued[t];
      if claim.session.Some? {
        var k := claim.session.value;
        assert RowValid(s, k);
        RotationKeepsValid(s, n, claim.user, k, expires);
      } else if s.legacy[claim.user] == Some(t) {
        var cleared := s.(legacy := s.legacy[claim.user := None]);
        ShrinkKeepsValid(s, cleared);
        assert s.nextSession in s.sessions ==> RowValid(s, s.nextSession);
        RotationKeepsValid(cleared, n, claim.user, s.nextSession, expires);
      } else {
        var k :| Holds(s, k, claim.user, t) && n == Rotated(s, claim.user, k, expires);
        assert RowValid(s, k);
        RotationKeepsValid(s, n, claim.user, k, expires);
      }
    }
  }

  lemma ResetTokenKeepsValid(s: Server, user: nat, expires: int)
    requires Valid(s)
    ensures Valid(AfterResetToken(s, user, expires))
  {
    var n := AfterResetToken(s, user, expires);
    assert n.issued[..|s.issued|] == s.issued;
    forall k | k in n.sessions
      ensures RowValid(n, k)
    {
      assert RowValid(s, k);
    }
    forall v | v in n.legacy && n.legacy[v].Some?
      ensures LegacyValid(n, v, n.legacy[v].value)
    {
      assert LegacyValid(s, v, s.legacy[v].value);
    }
  }

  lemma StepKeepsValid(s: Server, c: Call)
    requires Valid(s)
    ensures Valid(Step(s, c))
  {
    match c
    case Login(u, e) => LoginKeepsValid(s, u, e);
    case Refresh(t, now, e) => RefreshKeepsValid(s, t, now, e);
    case Logout(t, now) => LogoutKeepsValid(s, t, now);
    case Revoke(u, k, current) => RevokeKeepsValid(s, u, k, current);
    case RevokeOthers(u, current) => RevokeOthersKeepsValid(s, u, current);
    case ResetToken(u, e) => ResetTokenKeepsValid(s, u, e);
  }

  lemma {:induction false} RunKeepsValid(s: Server, calls: seq<Call>)
    requires Valid(s)
    ensures Valid(Run(s, calls))
    decreases |calls|
  {
    if calls != [] {
      StepKeepsValid(s, calls[0]);
      RunKeepsValid(Step(s, calls[0]), calls[1..]);
    }
  }

  /** A row's token is the newest of its session, and conversely. */
  lemma RowHoldsNewest(s: Server, k: nat, t: Token)
    requires Valid(s) && k in s.sessions
    ensures NewestFor(s.issued, k, t) <==> s.sessions[k].token == t && s.issued[t].session == Some(k)
  {
    assert RowValid(s, k);
  }

  /** A refresh succeeds exactly for the verified tokens that are current. */
  lemma AcceptedIffCurrent(s: Server, t: Token, now: int, expires: int)
    requires Valid(s)
    ensures AfterRefresh(s, t, now, expires).1.Granted? <==> Verifies(s, t, now) && Current(s, t)
  {
    if Verifies(s, t, now) {
      var claim := s.issued[t];
      if claim.session.Some? && claim.session.value in s.sessions {
        assert RowValid(s, claim.session.value);
        RowHoldsNewest(s, claim.session.value, t);
      }
    }
  }

  /** The same equivalence in every state a run can reach. */
  lemma AcceptedIffCurrentInRuns(s: Server, calls: seq<Call>, t: Token, now: int, expires: int)
    requires Valid(s)
    ensures var n := Run(s, calls);
            AfterRefresh(n, t, now, expires).1.Granted? <==> Verifies(n, t, now) && Current(n, t)
  {
    RunKeepsValid(s, calls);
    AcceptedIffCurrent(Run(s, calls), t, now, expires);
  }

  // ----- The set of current tokens as an abstract machine ------------------------------------

  ghost predicate InRow(s: Server, t: Token) {
    exists k :: k in s.sessions && s.sessions[k].token == t
  }

  ghost predicate InColumn(s: Server, t: Token) {
    exists u :: u in s.legacy && s.legacy[u] == Some(t)
  }

  lemma CurrentIffStored(s: Server, t: Token)
    requires Valid(s)
    ensures Current(s, t) <==> InRow(s, t) || InColumn(s, t)
  {
    if u :| u in s.legacy && s.legacy[u] == Some(t) {
      assert LegacyValid(s, u, t);
    }
    if k :| k in s.sessions && s.sessions[k].token == t {
      assert RowValid(s, k);
      RowHoldsNewest(s, k, t);
      assert Holds(s, k, s.issued[t].user, t);
    }
    if t < |s.issued| && s.issued[t].session.Some? && s.issued[t].session.value in s.sessions {
      RowHoldsNewest(s, s.issued[t].session.value, t);
    }
  }

  lemma StoredIsIssued(s: Server, t: Token)
    requires Valid(s)
    requires InRow(s, t) || InColumn(s, t)
    ensures t < |s.issued|
    ensures !(InRow(s, t) && InColumn(s, t))
  {
    if k :| k in s.sessions && s.sessions[k].token == t { assert RowValid(s, k); }
    if u :| u in s.legacy && s.legacy[u] == Some(t) { assert LegacyValid(s, u, t); }
  }

  /** Which tokens one call retires from the current set. */
  ghost predicate Retires(s: Server, c: Call, t: Token) {
    match c
    case Login(_, _) => false
    case Refresh(old_, now, e) => AfterRefresh(s, old_, now, e).1.Granted? && t == old_
    case Logout(old_, now) => Verifies(s, old_, now) && t == old_
    case Revoke(u, k, current) =>
      AfterRevoke(s, u, k, current).1.Done? && k in s.sessions && s.sessions[k].token == t
    case RevokeOthers(u, current) =>
      exists k :: k in s.sessions && s.sessions[k].token == t && s.sessions[k].user == u && current != Some(k)
    case ResetToken(_, _) => false
  }

  /** Whether one call signs a token that becomes current: logins and successful refreshes do,
      password-reset tokens do not although the same secret signs them. */
  ghost predicate Mints(s: Server, c: Call) {
    match c
    case Login(u, e) => AfterLogin(s, u, e).1.Granted?
    case Refresh(t, now, e) => AfterRefresh(s, t, now, e).1.Granted?
    case _ => false
  }

  lemma RotationActsOnRows(s: Server, n: Server, user: nat, k: nat, x: Token)
    requires Valid(s)
    requires n.sessions == s.sessions[k := Row(user, |s.issued|)]
    ensures InRow(n, x) <==> (InRow(s, x) && !(k in s.sessions && s.sessions[k].token == x)) || x == |s.issued|
  {
    if x == |s.issued| {
      assert n.sessions[k].token == x;
    } else if InRow(s, x) {
      var j :| j in s.sessions && s.sessions[j].token == x;
      if j != k { assert n.sessions[j].token == x; }
    }
  }

  lemma RowRotationActsOnCurrent(s: Server, n: Server, user: nat, k: nat, expires: int, x: Token)
    requires Valid(s) && Valid(n)
    requires k in s.sessions && n == Rotated(s, user, k, expires)
    ensures Current(n, x) <==> (Current(s, x) && x != s.sessions[k].token) || x == |s.issued|
  {
    CurrentIffStored(s, x);
    CurrentIffStored(n, x);
    RotationActsOnRows(s, n, user, k, x);
    assert InRow(s, s.sessions[k].token);
    StoredIsIssued(s, s.sessions[k].token);
    if j :| j in s.sessions && s.sessions[j].token == x && x == s.sessions[k].token {
      assert j == k;
    }
    assert InColumn(n, x) <==> InColumn(s, x);
  }

  lemma MigrationActsOnCurrent(s: Server, n: Server, user: nat, expires: int, t: Token, x: Token)
    requires Valid(s) && Valid(n)
    requires user in s.legacy && s.legacy[user] == Some(t)
    requires n.sessions == Rotated(s, user, s.nextSession, expires).sessions
    requires n.legacy == s.legacy[user := None]
    ensures Current(n, x) <==> (Current(s, x) && x != t) || x == |s.issued|
  {
    CurrentIffStored(s, x);
    CurrentIffStored(n, x);
    assert InColumn(s, t);
    StoredIsIssued(s, t);
    assert s.nextSession in s.sessions ==> RowValid(s, s.nextSession);
    RotationActsOnRows(s, n, user, s.nextSession, x);
    MigrationActsOnColumns(s, n, user, t, x);
  }

  lemma MigrationActsOnColumns(s: Server, n: Server, user: nat, t: Token, x: Token)
    requires Valid(s)
    requires user in s.legacy && s.legacy[user] == Some(t)
    requires n.legacy == s.legacy[user := None]
    ensures InColumn(n, x) <==> InColumn(s, x) && x != t
  {
    assert LegacyValid(s, user, t);
    if u :| u in s.legacy && s.legacy[u] == Some(x) {
      assert LegacyValid(s, u, x);
      assert u != user ==> n.legacy[u] == Some(x);
    }
    if u :| u in n.legacy && n.legacy[u] == Some(x) {
      assert LegacyValid(s, u, x);
    }
  }

  lemma RefreshActsOnCurrent(s: Server, t: Token, now: int, expires: int, x: Token)
    requires Valid(s)
    requires AfterRefresh(s, t, now, expires).1.Granted?
    ensures Current(AfterRefresh(s, t, now, expires).0, x) <==> (Current(s, x) && x != t) || x == |s.issued|
  {
    var n := AfterRefresh(s, t, now, expires).0;
    var claim := s.issued[t];
    RefreshKeepsValid(s, t, now, expires);
    if claim.session.Some? {
      RowRotationActsOnCurrent(s, n, claim.user, claim.session.value, expires, x);
    } else if s.legacy[claim.user] == Some(t) {
      MigrationActsOnCurrent(s, n, claim.user, expires, t, x);
    } else {
      var k :| Holds(s, k, claim.user, t) && n == Rotated(s, claim.user, k, expires);
      RowRotationActsOnCurrent(s, n, claim.user, k, expires, x);
    }
  }

  lemma DeletionActsOnCurrent(s: Server, n: Server, doomed: set<nat>, x: Token)
    requires Valid(s)
    requires n == s.(sessions := n.sessions)
    requires n.sessions == s.sessions - doomed
    ensures Current(n, x) <==> Current(s, x) && !exists k :: k in doomed && k in s.sessions && s.sessions[k].token == x
  {
    ShrinkKeepsValid(s, n);
    CurrentIffStored(s, x);
    CurrentIffStored(n, x);
    if InRow(s, x) {
      var j :| j in s.sessions && s.sessions[j].token == x;
      assert j !in doomed ==> j in n.sessions;
      if InColumn(s, x) { StoredIsIssued(s, x); }
    }
  }

  lemma LogoutActsOnCurrent(s: Server, t: Token, now: int, x: Token)
    requires Valid(s)
    requires Verifies(s, t, now)
    ensures Current(AfterLogout(s, t, now), x) <==> Current(s, x) && x != t
  {
    var n := AfterLogout(s, t, now);
    ShrinkKeepsValid(s, n);
    CurrentIffStored(s, x);
    CurrentIffStored(n, x);
    if k :| k in s.sessions && s.sessions[k].token == x && x != t {
      assert k in n.sessions;
    }
    if u :| u in s.legacy && s.legacy[u] == Some(x) {
      assert LegacyValid(s, u, x);
      assert x != t ==> n.legacy[u] == Some(x);
    }
  }

  lemma LoginActsOnCurrent(s: Server, user: nat, expires: int, x: Token)
    requires Valid(s)
    requires user in s.legacy
    ensures Current(AfterLogin(s, user, expires).0, x) <==> Current(s, x) || x == |s.issued|
  {
    var n := AfterLogin(s, user, expires).0;
    StepKeepsValid(s, Login(user, expires));
    CurrentIffStored(s, x);
    CurrentIffStored(n, x);
    assert s.nextSession in s.sessions ==> RowValid(s, s.nextSession);
    RotationActsOnRows(s, n, user, s.nextSession, x);
  }

  lemma RevokeActsOnCurrent(s: Server, user: nat, k: nat, current: Option<nat>, x: Token)
    requires Valid(s)
    ensures Current(AfterRevoke(s, user, k, current).0, x) <==>
              Current(s, x) && !Retires(s, Revoke(user, k, current), x)
  {
    var n := AfterRevoke(s, user, k, current).0;
    if AfterRevoke(s, user, k, current).1.Done? {
      DeletionActsOnCurrent(s, n, {k}, x);
      assert k in {k};
    }
  }

  lemma RevokeOthersActsOnCurrent(s: Server, user: nat, current: Option<nat>, x: Token)
    requires Valid(s)
    ensures Current(AfterRevokeOthers(s, user, current), x) <==>
              Current(s, x) && !Retires(s, RevokeOthers(user, current), x)
  {
    var doomed := Doomed(s, user, current);
    var n := AfterRevokeOthers(s, user, current);
    assert n.sessions == s.sessions - doomed;
    DeletionActsOnCurrent(s, n, doomed, x);
    RetiringOthersIff(s, user, current, x);
  }

  /** The user's sessions other than the current one. */
  function Doomed(s: Server, user: nat, current: Option<nat>): set<nat> {
    set k | k in s.sessions && s.sessions[k].user == user && current != Some(k)
  }

  lemma RetiringOthersIff(s: Server, user: nat, current: Option<nat>, x: Token)
    ensures Retires(s, RevokeOthers(user, current), x) <==>
              exists k :: k in Doomed(s, user, current) && k in s.sessions && s.sessions[k].token == x
  {
    if Retires(s, RevokeOthers(user, current), x) {
      var k :| k in s.sessions && s.sessions[k].token == x && s.sessions[k].user == user && current != Some(k);
      assert k in Doomed(s, user, current);
    }
  }

  lemma ResetTokenActsOnCurrent(s: Server, user: nat, expires: int, x: Token)
    requires Valid(s)
    ensures Current(AfterResetToken(s, user, expires), x) <==> Current(s, x)
  {
    ResetTokenKeepsValid(s, user, expires);
    CurrentIffStored(s, x);
    CurrentIffStored(AfterResetToken(s, user, expires), x);
  }

  /** Every call changes the current set by exactly what it retires and what it mints, so no call
      ever disturbs the tokens of another session. */
  lemma CallActsOnCurrent(s: Server, c: Call, x: Token)
    requires Valid(s)
    ensures Current(Step(s, c), x) <==> (Current(s, x) && !Retires(s, c, x)) || (Mints(s, c) && x == |s.issued|)
  {
    match c
    case Login(u, e) => if u in s.legacy { LoginActsOnCurrent(s, u, e, x); }
    case Refresh(t, now, e) => if AfterRefresh(s, t, now, e).1.Granted? { RefreshActsOnCurrent(s, t, now, e, x); }
    case Logout(t, now) => if Verifies(s, t, now) { LogoutActsOnCurrent(s, t, now, x); }
    case Revoke(u, k, current) => RevokeActsOnCurrent(s, u, k, current, x);
    case RevokeOthers(u, current) => RevokeOthersActsOnCurrent(s, u, current, x);
    case ResetToken(u, e) => ResetTokenActsOnCurrent(s, u, e, x);
  }

  lemma StepGrowsLog(s: Server, c: Call)
    ensures |s.issued| <= |Step(s, c).issued|
    ensures Step(s, c).issued[..|s.issued|] == s.issued
    ensures s.nextSession <= Step(s, c).nextSession
  {
  }

  /** No call opens a session under an old id, and only the exchange of a row's own token rewrites
      the row. */
  lemma StepKeepsOtherRows(s: Server, c: Call, k: nat)
    requires Valid(s)
    requires k in Step(s, c).sessions && k < s.nextSession
    ensures k in s.sessions
    ensures Step(s, c).sessions[k] == s.sessions[k]
            || (c.Refresh? && AfterRefresh(s, c.token, c.now, c.expires).1.Granted? && s.sessions[k].token == c.token)
  {
    if c.Refresh? && AfterRefresh(s, c.token, c.now, c.expires).1.Granted? {
      assert k in s.sessions ==> RowValid(s, k);
    }
  }

  /** A token that was once replaced, logged out, revoked or never current is never accepted again. */
  lemma {:induction false} RetiredForever(s: Server, calls: seq<Call>, t: Token)
    requires Valid(s)
    requires t < |s.issued| && !Current(s, t)
    ensures !Current(Run(s, calls), t)
    decreases |calls|
  {
    if calls != [] {
      CallActsOnCurrent(s, calls[0], t);
      StepGrowsLog(s, calls[0]);
      StepKeepsValid(s, calls[0]);
      RetiredForever(Step(s, calls[0]), calls[1..], t);
    }
  }

  /** Replaying a token that was already exchanged is refused although its session lives on. This
      is why a client must never have two refreshes of one token on their way. */
  lemma ReplayIsRefused(s: Server, t: Token, now: int, expires: int, calls: seq<Call>, later: int, expires2: int)
    requires Valid(s)
    requires AfterRefresh(s, t, now, expires).1.Granted?
    ensures var n := AfterRefresh(s, t, now, expires).0;
            && Current(n, |s.issued|)
            && !AfterRefresh(Run(n, calls), t, later, expires2).1.Granted?
  {
    var c := Refresh(t, now, expires);
    var n := Step(s, c);
    StepKeepsValid(s, c);
    CallActsOnCurrent(s, c, t);
    CallActsOnCurrent(s, c, |s.issued|);
    StepGrowsLog(s, c);
    AcceptedIffCurrent(s, t, now, expires);
    RetiredForever(n, calls, t);
    RunKeepsValid(n, calls);
    AcceptedIffCurrent(Run(n, calls), t, later, expires2);
  }

  /** A user ends exactly the sessions of its own that it names, one or all, and never the one it is in. */
  lemma RevokeDoneIff(s: Server, user: nat, k: nat, current: Option<nat>)
    ensures var (n, reply) := AfterRevoke(s, user, k, current);
            && (reply.Done? <==> current != Some(k) && k in s.sessions && s.sessions[k].user == user)
            && (reply.Unauthorized? <==> current == Some(k))
            && n == (if reply.Done? then s.(sessions := s.sessions - {k}) else s)
    ensures var n := AfterRevokeOthers(s, user, current);
            && n == s.(sessions := n.sessions)
            && (forall j :: j in n.sessions <==> j in s.sessions && (s.sessions[j].user == user ==> current == Some(j)))
            && (forall j :: j in n.sessions ==> n.sessions[j] == s.sessions[j])
  {
  }

  /** A password reset token, though signed with the same secret, opens no session: it is kept with its user
      and refused as a refresh token for ever. */
  lemma ResetTokenNeverRefreshes(s: Server, user: nat, e: int, calls: seq<Call>, now: int, expires: int)
    requires Valid(s)
    ensures var t := |s.issued|;
            var n := Step(s, ResetToken(user, e));
            && (user in s.legacy ==> user in n.resets && n.resets[user] == t)
            && t < |n.issued| && n.issued[t] == Claim(user, None, e)
            && n.sessions == s.sessions && n.legacy == s.legacy
            && !AfterRefresh(Run(n, calls), t, now, expires).1.Granted?
  {
    var n := Step(s, ResetToken(user, e));
    StepKeepsValid(s, ResetToken(user, e));
    NewTokenIsUnknown(s, user, e);
    RetiredForever(n, calls, |s.issued|);
    RunKeepsValid(n, calls);
    AcceptedIffCurrent(Run(n, calls), |s.issued|, now, expires);
  }

  lemma NewTokenIsUnknown(s: Server, user: nat, e: int)
    requires Valid(s)
    ensures !Current(AfterResetToken(s, user, e), |s.issued|)
  {
    forall k | k in s.sessions
      ensures s.sessions[k].token < |s.issued|
    {
      assert RowValid(s, k);
    }
    forall u | u in s.legacy && s.legacy[u].Some?
      ensures s.legacy[u].value < |s.issued|
    {
      assert LegacyValid(s, u, s.legacy[u].value);
    }
  }
}
