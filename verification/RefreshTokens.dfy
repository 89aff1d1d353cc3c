// Staff sign-in: refresh-token families with reuse detection, the lockout
// counter, and the nightly pruning of old token rows. Each request is one step;
// times are seconds.
module RefreshTokens {
  import opened Options

  const MAX_FAILED_LOGINS := 8
  const LOCKOUT_SECONDS := 15 * 60
  const PRUNE_AFTER := 30 * 24 * 60 * 60

  // ---------------------------------------------------------------------------
  // Tables, requests, and what each does
  // ---------------------------------------------------------------------------

  datatype User = User(active: bool, failedLogins: nat, lockedUntil: Option<int>)

  datatype Token = Token(user: string, family: string, expiresAt: int, revokedAt: Option<int>)

  type Tokens = map<string, Token>

  // History: the family every token was minted in, and the families that were
  // ended by a replay or a sign-out.
  datatype Auth = Auth(users: map<string, User>, tokens: Tokens, minted: map<string, string>, ended: set<string>)

  datatype Event =
    | Login(email: string, passwordOk: bool, now: int, family: string, token: string, ttl: int)
    | Refresh(token: string, now: int, next: string, ttl: int)
    | Logout(token: string, now: int)
    | Prune(now: int)
    | SetActive(email: string, active: bool)

  datatype Reply = Done | Issued(token: string) | InvalidCredentials | Locked | InvalidRefresh | Reused | Expired | UserDisabled

  function RevokeFamily(tokens: Tokens, family: string, now: int): Tokens {
    map t | t in tokens ::
      if tokens[t].family == family && tokens[t].revokedAt == None then tokens[t].(revokedAt := Some(now)) else tokens[t]
  }

  predicate Prunable(t: Token, now: int) {
    t.expiresAt < now - PRUNE_AFTER || (t.revokedAt.Some? && t.revokedAt.value < now - PRUNE_AFTER)
  }

  function AfterFailure(u: User, now: int): User {
    u.(failedLogins := u.failedLogins + 1,
       lockedUntil := if u.failedLogins + 1 >= MAX_FAILED_LOGINS then Some(now + LOCKOUT_SECONDS) else None)
  }

  function ReplyTo(a: Auth, e: Event): Reply {
    match e
    case Login(email, passwordOk, now, _, token, _) =>
      if email !in a.users || !a.users[email].active then InvalidCredentials
      else if a.users[email].lockedUntil.Some? && a.users[email].lockedUntil.value > now then Locked
      else if !passwordOk then InvalidCredentials
      else Issued(token)
    case Refresh(token, now, next, _) =>
      if token !in a.tokens then InvalidRefresh
      else if a.tokens[token].revokedAt.Some? then Reused
      else if a.tokens[token].expiresAt <= now then Expired
      else if a.tokens[token].user !in a.users || !a.users[a.tokens[token].user].active then UserDisabled
      else Issued(next)
    case _ => Done
  }

  function Next(a: Auth, e: Event): Auth {
    var reply := ReplyTo(a, e);
    match e
    case Login(email, _, now, family, token, ttl) =>
      if reply.Issued? then
        a.(users := a.users[email := a.users[email].(failedLogins := 0, lockedUntil := None)],
           tokens := a.tokens[token := Token(email, family, now + ttl, None)], minted := a.minted[token := family])
      else if reply == InvalidCredentials && email in a.users && a.users[email].active then
        a.(users := a.users[email := AfterFailure(a.users[email], now)])
      else a
    case Refresh(token, now, next, ttl) =>
      if reply == Reused then
        var family := a.tokens[token].family;
        a.(tokens := RevokeFamily(a.tokens, family, now), ended := a.ended + {family})
      else if reply.Issued? then
        var row := a.tokens[token];
        a.(tokens := a.tokens[token := row.(revokedAt := Some(now))][next := Token(row.user, row.family, now + ttl, None)],
           minted := a.minted[next := row.family])
      else a
    case Logout(token, now) =>
      if token !in a.tokens then a
      else
        var family := a.tokens[token].family;
        a.(tokens := RevokeFamily(a.tokens, family, now), ended := a.ended + {family})
    case Prune(now) => a.(tokens := map t | t in a.tokens && !Prunable(a.tokens[t], now) :: a.tokens[t])
    case SetActive(email, active) => if email in a.users then a.(users := a.users[email := a.users[email].(active := active)]) else a
  }

  // ---- what a request may do, read off the rows --------------------------------------

  // An account that exists, is active and is not locked at that time.
  predicate MayTry(users: map<string, User>, email: string, now: int) {
    email in users && users[email].active && (users[email].lockedUntil == None || users[email].lockedUntil.value <= now)
  }

  // Whether this login attempt is one the lockout counts.
  predicate CountedFailure(a: Auth, e: Event) {
    e.Login? && !e.passwordOk && MayTry(a.users, e.email, e.now)
  }

  // Between two tables: every live row of the family is revoked at that time, and
  // every other row is the row it was.
  predicate FamilyRevoked(was: Tokens, now: Tokens, family: string, at: int) {
    && now.Keys == was.Keys
    && forall t :: t in was ==>
      if was[t].family == family && was[t].revokedAt == None
      then now[t] == Token(was[t].user, family, was[t].expiresAt, Some(at))
      else now[t] == was[t]
  }

  // Only the right password of an account that may be tried gets a token. It also
  // clears the account's counter; a wrong one counts, and the eighth in a row and
  // every later one lock the account for fifteen minutes. Nothing else happens.
  lemma SignInExactlyWhen(a: Auth, e: Event)
    requires e.Login?
    ensures var b := Next(a, e);
      && (ReplyTo(a, e) == Issued(e.token) <==> e.passwordOk && MayTry(a.users, e.email, e.now))
      && (ReplyTo(a, e).Issued? ==> ReplyTo(a, e) == Issued(e.token))
      && b.users.Keys == a.users.Keys && b.ended == a.ended && (forall u :: u in a.users && u != e.email ==> b.users[u] == a.users[u])
      && (if e.passwordOk && MayTry(a.users, e.email, e.now) then
            && b.tokens == a.tokens[e.token := Token(e.email, e.family, e.now + e.ttl, None)]
            && b.minted == a.minted[e.token := e.family]
            && b.users[e.email] == User(true, 0, None)
          else
            && b.tokens == a.tokens && b.minted == a.minted
            && (!MayTry(a.users, e.email, e.now) ==> b.users == a.users)
            && (MayTry(a.users, e.email, e.now) ==>
              var failed := a.users[e.email].failedLogins + 1;
              b.users[e.email] == User(true, failed, if failed >= 8 then Some(e.now + 900) else None)))
  {
  }

  // A refresh hands out a token exactly for a row that is live, not expired and
  // of an active account; a revoked row costs its family everything that is live;
  // anything else changes nothing.
  lemma RefreshExactlyWhen(a: Auth, e: Event)
    requires e.Refresh?
    ensures var b := Next(a, e);
      && b.users == a.users
      && (ReplyTo(a, e).Issued? <==>
        && e.token in a.tokens && a.tokens[e.token].revokedAt == None && e.now < a.tokens[e.token].expiresAt
        && a.tokens[e.token].user in a.users && a.users[a.tokens[e.token].user].active)
      && (ReplyTo(a, e) == Reused <==> e.token in a.tokens && a.tokens[e.token].revokedAt.Some?)
      && (ReplyTo(a, e).Issued? ==>
        var row := a.tokens[e.token];
        && ReplyTo(a, e) == Issued(e.next)
        && b.tokens == a.tokens[e.token := Token(row.user, row.family, row.expiresAt, Some(e.now))]
                               [e.next := Token(row.user, row.family, e.now + e.ttl, None)]
        && b.minted == a.minted[e.next := row.family])
      && (ReplyTo(a, e) == Reused ==> FamilyRevoked(a.tokens, b.tokens, a.tokens[e.token].family, e.now) && b.minted == a.minted)
      && (!ReplyTo(a, e).Issued? && ReplyTo(a, e) != Reused ==> b == a)
  {
  }

  // Minted tokens are new, and so is the family of a sign-in.
  predicate Enabled(a: Auth, e: Event) {
    match e
    case Login(_, _, _, family, token, _) => token !in a.minted && (forall t :: t in a.minted ==> a.minted[t] != family) && family !in a.ended
    case Refresh(_, _, next, _) => next !in a.minted
    case _ => true
  }

  class AuthService {
    var users: map<string, User>
    var tokens: Tokens
    ghost var minted: map<string, string>
    ghost var ended: set<string>

    constructor (users: map<string, User>)
      ensures State() == Auth(users, map[], map[], {})
    {
      this.users := users;
      tokens := map[];
      minted, ended := map[], {};
    }

    ghost function State(): Auth
      reads this
    {
      Auth(users, tokens, minted, ended)
    }

    method SignIn(email: string, passwordOk: bool, now: int, family: string, token: string, ttl: int) returns (r: Reply)
      modifies this
      ensures var e := Login(email, passwordOk, now, family, token, ttl);
        r == ReplyTo(old(State()), e) && State() == Next(old(State()), e)
      ensures r.Issued? <==> passwordOk && MayTry(old(users), email, now)
      ensures r.Issued? ==> r == Issued(token) && tokens == old(tokens)[token := Token(email, family, now + ttl, None)]
      ensures !r.Issued? ==> tokens == old(tokens)
    {
      SignInExactlyWhen(State(), Login(email, passwordOk, now, family, token, ttl));
      if email !in users || !users[email].active {
        return InvalidCredentials;
      }
      var user := users[email];
      if user.lockedUntil.Some? && user.lockedUntil.value > now {
        return Locked;
      }
      if !passwordOk {
        var failed := user.failedLogins + 1;
        var lockedUntil := if failed >= MAX_FAILED_LOGINS then Some(now + LOCKOUT_SECONDS) else None;
        users := users[email := user.(failedLogins := failed, lockedUntil := lockedUntil)];
        return InvalidCredentials;
      }
      users := users[email := user.(failedLogins := 0, lockedUntil := None)];
      IssueTokens(email, family, token, now, ttl);
      r := Issued(token);
    }

    method IssueTokens(user: string, family: string, token: string, now: int, ttl: int)
      modifies this`tokens, this`minted
      ensures tokens == old(tokens)[token := Token(user, family, now + ttl, None)] && minted == old(minted)[token := family]
    {
      tokens := tokens[token := Token(user, family, now + ttl, None)];
      minted := minted[token := family];
    }

    method RevokeAll(family: string, now: int)
      modifies this`tokens
      ensures tokens == RevokeFamily(old(tokens), family, now)
    {
      var all, left := tokens, tokens.Keys;
      while left != {}
        invariant left <= all.Keys && tokens.Keys == all.Keys
        invariant forall t :: t in all ==> tokens[t] == if t in left then all[t] else RevokeFamily(all, family, now)[t]
        decreases |left|
      {
        var t :| t in left;
        if tokens[t].family == family && tokens[t].revokedAt == None {
          tokens := tokens[t := tokens[t].(revokedAt := Some(now))];
        }
        left := left - {t};
      }
    }

    method Rotate(token: string, now: int, next: string, ttl: int) returns (r: Reply)
      modifies this
      ensures var e := Refresh(token, now, next, ttl);
        r == ReplyTo(old(State()), e) && State() == Next(old(State()), e)
      ensures var rows := old(tokens);
        && (r.Issued? <==>
          && token in rows && rows[token].revokedAt == None && now < rows[token].expiresAt
          && rows[token].user in users && users[rows[token].user].active)
        && (r == Reused <==> token in rows && rows[token].revokedAt.Some?)
        && (r == Reused ==> FamilyRevoked(rows, tokens, rows[token].family, now))
        && (!r.Issued? && r != Reused ==> tokens == rows)
    {
      RefreshExactlyWhen(State(), Refresh(token, now, next, ttl));
      if token !in tokens {
        return InvalidRefresh;
      }
      var row := tokens[token];
      if row.revokedAt.Some? {
        RevokeAll(row.family, now);
        ended := ended + {row.family};
        return Reused;
      }
      if row.expiresAt <= now {
        return Expired;
      }
      if row.user !in users || !users[row.user].active {
        return UserDisabled;
      }
      tokens := tokens[token := row.(revokedAt := Some(now))];
      IssueTokens(row.user, row.family, next, now, ttl);
      r := Issued(next);
    }

    method SignOut(token: string, now: int)
      modifies this
      ensures State() == Next(old(State()), Logout(token, now))
      ensures if token in old(tokens) then FamilyRevoked(old(tokens), tokens, old(tokens)[token].family, now) else tokens == old(tokens)
      ensures users == old(users)
    {
      if token in tokens {
        var family := tokens[token].family;
        RevokeAll(family, now);
        ended := ended + {family};
      }
    }

    method PruneTokens(now: int)
      modifies this
      ensures State() == Next(old(State()), Prune(now))
      // Thirty days are 2 592 000 seconds.
      ensures forall t :: t in tokens <==> (
        && t in old(tokens) && old(tokens)[t].expiresAt >= now - 2592000
        && (old(tokens)[t].revokedAt.Some? ==> old(tokens)[t].revokedAt.value >= now - 2592000))
      ensures (forall t :: t in tokens ==> tokens[t] == old(tokens)[t]) && users == old(users)
    {
      tokens := map t | t in tokens && !Prunable(tokens[t], now) :: tokens[t];
    }
  }

  // ---------------------------------------------------------------------------
  // Families
  // ---------------------------------------------------------------------------

  predicate LiveIn(tokens: Tokens, t: string, family: string) {
    t in tokens && tokens[t].family == family && tokens[t].revokedAt == None
  }

  predicate NoneLive(tokens: Tokens, family: string) {
    forall t :: t in tokens && tokens[t].family == family ==> tokens[t].revokedAt.Some?
  }

  // A family never has two live tokens.
  ghost predicate OneLive(tokens: Tokens) {
    forall t, u, f :: LiveIn(tokens, t, f) && LiveIn(tokens, u, f) ==> t == u
  }

  predicate Recorded(tokens: Tokens, minted: map<string, string>) {
    forall t :: t in tokens ==> t in minted && minted[t] == tokens[t].family
  }

  // A family that was ended has none, and never will.
  predicate Over(tokens: Tokens, ended: set<string>) {
    forall f :: f in ended ==> NoneLive(tokens, f)
  }

  ghost predicate Inv(a: Auth) {
    OneLive(a.tokens) && Recorded(a.tokens, a.minted) && Over(a.tokens, a.ended)
  }

  lemma RevokingEnds(tokens: Tokens, minted: map<string, string>, ended: set<string>, family: string, now: int)
    requires OneLive(tokens) && Recorded(tokens, minted) && Over(tokens, ended)
    ensures var after := RevokeFamily(tokens, family, now);
      OneLive(after) && Recorded(after, minted) && Over(after, ended + {family})
  {
    var after := RevokeFamily(tokens, family, now);
    assert forall t, f :: LiveIn(after, t, f) ==> LiveIn(tokens, t, f);
  }

  // A sign-in starts a family with one token.
  lemma SigningInStarts(tokens: Tokens, minted: map<string, string>, ended: set<string>, token: string, row: Token)
    requires OneLive(tokens) && Recorded(tokens, minted) && Over(tokens, ended)
    requires token !in minted && (forall t :: t in minted ==> minted[t] != row.family) && row.family !in ended
    ensures OneLive(tokens[token := row]) && Recorded(tokens[token := row], minted[token := row.family]) && Over(tokens[token := row], ended)
  {
    var after := tokens[token := row];
    forall t, u, f | LiveIn(after, t, f) && LiveIn(after, u, f)
      ensures t == u
    {
      assert t != token ==> LiveIn(tokens, t, f) && f != row.family;
      assert u != token ==> LiveIn(tokens, u, f) && f != row.family;
    }
  }

  // A rotation hands the family's one live place to the next token.
  lemma RotationHandsOver(tokens: Tokens, minted: map<string, string>, ended: set<string>, token: string, next: string, now: int, row: Token)
    requires OneLive(tokens) && Recorded(tokens, minted) && Over(tokens, ended)
    requires token in tokens && tokens[token].revokedAt == None && next !in minted && row.family == tokens[token].family
    ensures var after := tokens[token := tokens[token].(revokedAt := Some(now))][next := row];
      OneLive(after) && Recorded(after, minted[next := row.family]) && Over(after, ended)
  {
    var after := tokens[token := tokens[token].(revokedAt := Some(now))][next := row];
    assert LiveIn(tokens, token, row.family);
    forall t, u, f | LiveIn(after, t, f) && LiveIn(after, u, f)
      ensures t == u
    {
      assert t != next ==> LiveIn(tokens, t, f) && t != token && f != row.family;
      assert u != next ==> LiveIn(tokens, u, f) && u != token && f != row.family;
    }
  }

  lemma PruningKeeps(tokens: Tokens, rest: Tokens, minted: map<string, string>, ended: set<string>)
    requires OneLive(tokens) && Recorded(tokens, minted) && Over(tokens, ended)
    requires forall t :: t in rest ==> t in tokens && rest[t] == tokens[t]
    ensures OneLive(rest) && Recorded(rest, minted) && Over(rest, ended)
  {
    assert forall t, f :: LiveIn(rest, t, f) ==> LiveIn(tokens, t, f);
  }

  lemma StepKeepsInv(a: Auth, e: Event)
    requires Inv(a) && Enabled(a, e)
    ensures Inv(Next(a, e)) && a.ended <= Next(a, e).ended
  {
    hide OneLive, Recorded, Over, RevokeFamily, Prunable, AfterFailure;
    match e
    case Login(email, _, now, family, token, ttl) => SigningInStarts(a.tokens, a.minted, a.ended, token, Token(email, family, now + ttl, None));
    case Refresh(token, now, next, ttl) =>
      if ReplyTo(a, e) == Reused {
        RevokingEnds(a.tokens, a.minted, a.ended, a.tokens[token].family, now);
      } else if ReplyTo(a, e).Issued? {
        var row := a.tokens[token];
        RotationHandsOver(a.tokens, a.minted, a.ended, token, next, now, Token(row.user, row.family, now + ttl, None));
      }
    case Logout(token, now) =>
      if token in a.tokens {
        RevokingEnds(a.tokens, a.minted, a.ended, a.tokens[token].family, now);
      }
    case Prune(now) => PruningKeeps(a.tokens, Next(a, e).tokens, a.minted, a.ended);
    case SetActive(_, _) =>
  }

  ghost function After(a: Auth, run: seq<Event>): Auth {
    if run == [] then a else Next(After(a, run[..|run| - 1]), run[|run| - 1])
  }

  ghost predicate Run(a: Auth, run: seq<Event>) {
    forall i :: 0 <= i < |run| ==> Enabled(After(a, run[..i]), run[i])
  }

  lemma {:induction false} RunKeepsInv(a: Auth, run: seq<Event>)
    requires Inv(a) && Run(a, run)
    ensures Inv(After(a, run)) && a.ended <= After(a, run).ended
  {
    if run != [] {
      var n := |run| - 1;
      assert forall i :: 0 <= i < n ==> run[..n][..i] == run[..i];
      hide Inv, Next, Enabled;
      RunKeepsInv(a, run[..n]);
      StepKeepsInv(After(a, run[..n]), run[n]);
    }
  }

  // ---- where families come from --------------------------------------------------------

  // The i-th event of the run is a sign-in with the right password, to an account
  // that could be tried then, and it started this family.
  ghost predicate StartedBy(a: Auth, run: seq<Event>, i: nat, email: string, family: string) {
    && i < |run| && run[i].Login? && run[i].passwordOk && run[i].email == email && run[i].family == family
    && MayTry(After(a, run[..i]).users, email, run[i].now)
  }

  ghost predicate Traced(a: Auth, run: seq<Event>) {
    var tokens := After(a, run).tokens;
    forall t :: t in tokens ==> exists i :: StartedBy(a, run, i, tokens[t].user, tokens[t].family)
  }

  lemma StillStarted(a: Auth, run: seq<Event>, e: Event, i: nat, email: string, family: string)
    requires StartedBy(a, run, i, email, family)
    ensures StartedBy(a, run + [e], i, email, family)
  {
    assert (run + [e])[..i] == run[..i];
  }

  // An event leaves only rows of users and families there were, unless it is a
  // sign-in that passes.
  lemma RowsComeFromRows(a: Auth, e: Event, t: string)
    requires t in Next(a, e).tokens
    ensures var row := Next(a, e).tokens[t];
      || (exists u :: u in a.tokens && a.tokens[u].user == row.user && a.tokens[u].family == row.family)
      || (e.Login? && e.passwordOk && e.email == row.user && e.family == row.family && MayTry(a.users, row.user, e.now))
  {
    var row := Next(a, e).tokens[t];
    if t in a.tokens && a.tokens[t].user == row.user && a.tokens[t].family == row.family {
    } else if e.Refresh? {
      RefreshExactlyWhen(a, e);
      assert e.token in a.tokens && a.tokens[e.token].user == row.user && a.tokens[e.token].family == row.family;
    } else if e.Login? {
      SignInExactlyWhen(a, e);
    }
  }

  // Over any run from an empty table, every token there is belongs to a family
  // that a right password of its own account started.
  lemma {:induction false} EveryFamilyBeganWithAPassword(a: Auth, run: seq<Event>)
    requires a.tokens == map[]
    ensures Traced(a, run)
  {
    if run != [] {
      hide *;
      var before, e := run[..|run| - 1], run[|run| - 1];
      assert before + [e] == run;
      EveryFamilyBeganWithAPassword(a, before);
      TracedOneMore(a, before, e);
    }
  }

  lemma TracedOneMore(a: Auth, run: seq<Event>, e: Event)
    requires Traced(a, run)
    ensures Traced(a, run + [e])
  {
    var more, tokens := run + [e], After(a, run).tokens;
    assert more[..|run|] == run;
    hide Next, MayTry;
    forall t | t in After(a, more).tokens
      ensures exists i :: StartedBy(a, more, i, After(a, more).tokens[t].user, After(a, more).tokens[t].family)
    {
      var row := After(a, more).tokens[t];
      RowsComeFromRows(After(a, run), e, t);
      if u :| u in tokens && tokens[u].user == row.user && tokens[u].family == row.family {
        var i :| StartedBy(a, run, i, row.user, row.family);
        StillStarted(a, run, e, i, row.user, row.family);
      } else {
        assert StartedBy(a, more, |run|, row.user, row.family);
      }
    }
  }

  // Once a family has been ended, nothing that comes later makes a token of it
  // live, and no refresh with a token of that family succeeds.
  lemma EndedFamilyStaysDead(a: Auth, run: seq<Event>, family: string, token: string, now: int, next: string, ttl: int)
    requires Inv(a) && Run(a, run) && family in a.ended
    requires token in After(a, run).minted ==> After(a, run).minted[token] == family
    ensures NoneLive(After(a, run).tokens, family)
    ensures ReplyTo(After(a, run), Refresh(token, now, next, ttl)) in {Reused, InvalidRefresh}
  {
    RunKeepsInv(a, run);
  }

  // Replaying a token that has been used up ends its family exactly when its row
  // is still there, or there was nothing left to end.
  lemma ReplayEndsFamilyExactlyWhen(a: Auth, token: string, now: int, next: string, ttl: int)
    requires Inv(a) && token in a.minted && !LiveIn(a.tokens, token, a.minted[token])
    ensures NoneLive(Next(a, Refresh(token, now, next, ttl)).tokens, a.minted[token])
      <==> token in a.tokens || NoneLive(a.tokens, a.minted[token])
    ensures ReplyTo(a, Refresh(token, now, next, ttl)) == if token in a.tokens then Reused else InvalidRefresh
  {
  }

  // Pruning may take the row of a rotated token while its family lives on; the
  // replay is then answered as an unknown token and ends nothing.
  lemma PrunedReplayGoesUnnoticed()
    ensures var day := 24 * 60 * 60;
      var a0 := Auth(map["u" := User(true, 0, None)], map[], map[], {});
      var signIn, first := Login("u", true, 0, "f", "t0", 30 * day), Refresh("t0", day, "t1", 30 * day);
      var second, prune := Refresh("t1", 20 * day, "t2", 30 * day), Prune(32 * day);
      var replay := Refresh("t0", 32 * day, "t3", 30 * day);
      var a1 := Next(a0, signIn); var a2 := Next(a1, first); var a3 := Next(a2, second); var a4 := Next(a3, prune);
      && Inv(a0) && Enabled(a0, signIn) && Enabled(a1, first) && Enabled(a2, second) && Enabled(a4, replay)
      && ReplyTo(a4, replay) == InvalidRefresh && LiveIn(Next(a4, replay).tokens, "t2", "f")
  {
    hide OneLive, Over, Recorded, RevokeFamily, AfterFailure;
    var day := 24 * 60 * 60;
    var a0 := Auth(map["u" := User(true, 0, None)], map[], map[], {});
    NothingYet();
    var a2 := Next(Next(a0, Login("u", true, 0, "f", "t0", 30 * day)), Refresh("t0", day, "t1", 30 * day));
    var t0, t1 := Token("u", "f", 30 * day, Some(day)), Token("u", "f", 31 * day, None);
    assert a2.tokens == map["t0" := t0, "t1" := t1];
    assert a2.minted == map["t0" := "f", "t1" := "f"];
    var a3 := Next(a2, Refresh("t1", 20 * day, "t2", 30 * day));
    var t2 := Token("u", "f", 50 * day, None);
    assert a3.tokens == map["t0" := t0, "t1" := t1.(revokedAt := Some(20 * day)), "t2" := t2];
    var a4 := Next(a3, Prune(32 * day));
    assert "t0" !in a4.tokens && a4.tokens["t2"] == t2;
  }

  lemma NothingYet()
    ensures OneLive(map[]) && Recorded(map[], map[]) && Over(map[], {})
  {
  }

  // For thirty days after it was revoked, and thirty after it would have run out,
  // no pruning takes a row.
  lemma {:induction false} RowSurvives(a: Auth, run: seq<Event>, token: string)
    requires Inv(a) && Run(a, run) && token in a.tokens && a.tokens[token].revokedAt.Some?
    requires forall i :: 0 <= i < |run| && run[i].Prune? ==>
      run[i].now <= PRUNE_AFTER + a.tokens[token].revokedAt.value && run[i].now <= PRUNE_AFTER + a.tokens[token].expiresAt
    ensures token in After(a, run).tokens && After(a, run).tokens[token] == a.tokens[token]
  {
    if run != [] {
      var n := |run| - 1;
      assert forall i :: 0 <= i < n ==> run[..n][..i] == run[..i];
      RowSurvives(a, run[..n], token);
      RunKeepsInv(a, run[..n]);
      RevokedRowStays(After(a, run[..n]), run[n], token);
    }
  }

  lemma RevokedRowStays(a: Auth, e: Event, token: string)
    requires Inv(a) && Enabled(a, e) && token in a.tokens && a.tokens[token].revokedAt.Some?
    requires e.Prune? ==> !Prunable(a.tokens[token], e.now)
    ensures token in Next(a, e).tokens && Next(a, e).tokens[token] == a.tokens[token]
  {
  }

  // So within that time a replay ends the family, whatever happened in between.
  lemma ReplayInTimeEndsFamily(a: Auth, run: seq<Event>, token: string, now: int, next: string, ttl: int)
    requires Inv(a) && Run(a, run) && token in a.tokens && a.tokens[token].revokedAt.Some?
    requires forall i :: 0 <= i < |run| && run[i].Prune? ==>
      run[i].now <= 2592000 + a.tokens[token].revokedAt.value && run[i].now <= 2592000 + a.tokens[token].expiresAt
    ensures var replay := Refresh(token, now, next, ttl);
      ReplyTo(After(a, run), replay) == Reused && a.tokens[token].family in Next(After(a, run), replay).ended
      && NoneLive(Next(After(a, run), replay).tokens, a.tokens[token].family)
  {
    RowSurvives(a, run, token);
    RunKeepsInv(a, run);
    hide After, Run;
  }

  // ---------------------------------------------------------------------------
  // The lockout
  // ---------------------------------------------------------------------------

  // The attempts on one active account that reached the counter, none of them
  // right, each at its own time.
  function AfterFailures(u: User, times: seq<int>): User {
    if times == [] then u else AfterFailure(AfterFailures(u, times[..|times| - 1]), times[|times| - 1])
  }

  predicate Counted(u: User, times: seq<int>) {
    forall i :: 0 <= i < |times| ==>
      var before := AfterFailures(u, times[..i]);
      before.lockedUntil == None || before.lockedUntil.value <= times[i]
  }

  lemma {:induction false} FailuresAddUp(u: User, times: seq<int>)
    ensures AfterFailures(u, times).failedLogins == u.failedLogins + |times|
    ensures times != [] ==>
      var last := AfterFailures(u, times);
      last.lockedUntil == if u.failedLogins + |times| >= MAX_FAILED_LOGINS then Some(times[|times| - 1] + LOCKOUT_SECONDS) else None
  {
    if times != [] {
      FailuresAddUp(u, times[..|times| - 1]);
    }
  }

  // From the eighth wrong password on, a quarter of an hour lies between one that
  // is counted and the next; n of them take at least n - 8 quarters.
  lemma {:induction false} GuessingIsSlow(u: User, times: seq<int>)
    requires u.failedLogins == 0 && Counted(u, times) && |times| >= MAX_FAILED_LOGINS
    ensures times[|times| - 1] - times[MAX_FAILED_LOGINS - 1] >= LOCKOUT_SECONDS * (|times| - MAX_FAILED_LOGINS)
  {
    hide Counted, AfterFailures;
    var n := |times| - 1;
    if n >= MAX_FAILED_LOGINS {
      var before := times[..n];
      CountedBefore(u, times, n);
      GuessingIsSlow(u, before);
      FailuresAddUp(u, before);
      assert before[n - 1] == times[n - 1];
    }
  }

  lemma CountedBefore(u: User, times: seq<int>, n: nat)
    requires Counted(u, times) && n < |times|
    ensures Counted(u, times[..n])
    ensures var before := AfterFailures(u, times[..n]); before.lockedUntil == None || before.lockedUntil.value <= times[n]
  {
    hide AfterFailures;
    assert forall i :: 0 <= i < n ==> times[..n][..i] == times[..i];
  }

  // When this account's failures were counted in a run.
  ghost function FailureTimes(a: Auth, run: seq<Event>, email: string): seq<int> {
    if run == [] then []
    else
      var n := |run| - 1;
      var earlier := FailureTimes(a, run[..n], email);
      if CountedFailure(After(a, run[..n]), run[n]) && run[n].email == email then earlier + [run[n].now] else earlier
  }

  predicate SignsIn(a: Auth, e: Event, email: string) {
    e.Login? && e.email == email && e.passwordOk && MayTry(a.users, email, e.now)
  }

  // What is kept of an account is what its counted failures make of it.
  predicate Follows(u: User, times: seq<int>, v: User) {
    && Counted(u, times)
    && v.failedLogins == AfterFailures(u, times).failedLogins && v.lockedUntil == AfterFailures(u, times).lockedUntil
  }

  ghost predicate NoSignIn(a: Auth, run: seq<Event>, email: string) {
    forall i :: 0 <= i < |run| ==> !SignsIn(After(a, run[..i]), run[i], email)
  }

  lemma NoSignInBefore(a: Auth, run: seq<Event>, email: string, n: nat)
    requires NoSignIn(a, run, email) && n < |run|
    ensures NoSignIn(a, run[..n], email) && !SignsIn(After(a, run[..n]), run[n], email)
  {
    hide After, SignsIn;
    assert forall i :: 0 <= i < n ==> run[..n][..i] == run[..i];
  }

  lemma {:induction false} CountersFollow(a: Auth, run: seq<Event>, email: string)
    requires email in a.users && NoSignIn(a, run, email)
    ensures email in After(a, run).users && Follows(a.users[email], FailureTimes(a, run, email), After(a, run).users[email])
  {
    hide NoSignIn, SignsIn, Next, CountedFailure;
    if run != [] {
      hide Follows;
      var n := |run| - 1;
      NoSignInBefore(a, run, email, n);
      CountersFollow(a, run[..n], email);
      EventFollows(a.users[email], FailureTimes(a, run[..n], email), After(a, run[..n]), run[n], email);
    }
  }

  lemma EventFollows(u: User, times: seq<int>, a: Auth, e: Event, email: string)
    requires email in a.users && Follows(u, times, a.users[email]) && !SignsIn(a, e, email)
    ensures email in Next(a, e).users
    ensures Follows(u, if CountedFailure(a, e) && e.email == email then times + [e.now] else times, Next(a, e).users[email])
  {
    OneMoreEvent(a, e, email);
    if CountedFailure(a, e) && e.email == email {
      OneMoreFailure(u, times, e.now);
    }
    hide Next, CountedFailure, AfterFailures, Counted;
  }

  lemma OneMoreEvent(a: Auth, e: Event, email: string)
    requires email in a.users && !SignsIn(a, e, email)
    ensures email in Next(a, e).users
    ensures var u, v := a.users[email], Next(a, e).users[email];
      if CountedFailure(a, e) && e.email == email then
        v == AfterFailure(u, e.now) && (u.lockedUntil == None || u.lockedUntil.value <= e.now)
      else v.failedLogins == u.failedLogins && v.lockedUntil == u.lockedUntil
  {
  }

  lemma OneMoreFailure(u: User, times: seq<int>, now: int)
    requires Counted(u, times)
    requires var last := AfterFailures(u, times); last.lockedUntil == None || last.lockedUntil.value <= now
    ensures Counted(u, times + [now]) && AfterFailures(u, times + [now]) == AfterFailure(AfterFailures(u, times), now)
  {
    var more := times + [now];
    assert more[..|times|] == times;
    forall i | 0 <= i < |more|
      ensures var before := AfterFailures(u, more[..i]); before.lockedUntil == None || before.lockedUntil.value <= more[i]
    {
      assert i < |times| ==> more[..i] == times[..i];
    }
  }

  // In any run without a sign-in to the account, whatever else goes on, n counted
  // wrong passwords take at least n - 8 quarters of an hour.
  lemma GuessingAnAccountIsSlow(a: Auth, run: seq<Event>, email: string)
    requires email in a.users && a.users[email].failedLogins == 0 && NoSignIn(a, run, email)
    requires |FailureTimes(a, run, email)| >= 8
    ensures var times := FailureTimes(a, run, email);
      times[|times| - 1] - times[7] >= 900 * (|times| - 8)
  {
    hide NoSignIn, FailureTimes, After, Counted, AfterFailures;
    CountersFollow(a, run, email);
    GuessingIsSlow(a.users[email], FailureTimes(a, run, email));
  }

  // While the lock lasts even the right password is refused and nothing changes.
  lemma LockHolds(a: Auth, e: Event)
    requires e.Login? && e.email in a.users && a.users[e.email].active
    requires a.users[e.email].lockedUntil.Some? && e.now < a.users[e.email].lockedUntil.value
    ensures ReplyTo(a, e) == Locked && Next(a, e) == a
  {
  }
}
