// Who may act for one tracking session: its row, its devices, the claim code,
// and the two kinds of token, with each request taken as one step. A live claim
// code names one session, so one session is enough to tell the story.
module Custody {
  import opened Options

  datatype Status = DRAFT | ASSIGNED | CLAIMED | ACTIVE | PAUSED | COMPLETED | CANCELLED | EXPIRED

  predicate Closed(s: Status) { s == COMPLETED || s == CANCELLED || s == EXPIRED }
  predicate Live(s: Status) { s == CLAIMED || s == ACTIVE || s == PAUSED }

  datatype Session = Session(status: Status, tokenVersion: int, claimCode: Option<string>, codeExpiresAt: Option<int>, expiresAt: int)

  // The token stands for its own hash.
  datatype Device = Device(refreshToken: string, refreshExpiresAt: int, revoked: bool)

  type Devices = map<string, Device>

  // What the guard reads, and what Redis may keep of it for a while.
  datatype Auth = Auth(status: Status, tokenVersion: int, deviceId: Option<string>)

  datatype AccessToken = AccessToken(deviceId: string, tokenVersion: int)

  // History: `custody` counts claims and re-issues, `issued` is the custody each
  // refresh token was made under, `access` every access token signed.
  datatype Ledger = Ledger(
    session: Session, devices: Devices, cache: Option<Auth>,
    custody: nat, issued: map<string, nat>, access: set<AccessToken>)

  datatype Refusal =
    | SessionClosed | CodeInvalid | RefreshInvalid | RefreshExpired | InvalidTransition | TokenRevoked | DeviceMismatch

  datatype Reply = Done | Code(code: string) | Credentials(access: AccessToken, refreshToken: string) | Access(access: AccessToken) | Refused(why: Refusal)

  datatype Event =
    | RegenerateClaimCode(code: string, now: int, ttlMin: int)
    | Claim(code: string, deviceId: string, refreshToken: string, now: int, refreshTtlSec: int)
    | RefreshDriverToken(refreshToken: string, deviceId: string, now: int)
    | Pause
    | Resume
    | Finalize(cancel: bool)
    | Started
    | Ingested(accepted: int)
    | ExpireStale(now: int)
    | DriverRequest(token: AccessToken)
    | CacheLapses

  function Minutes(m: int): int { 60 * m }

  // ---- what each request does -----------------------------------------------------

  function Revoked(devices: Devices): Devices {
    map d | d in devices :: devices[d].(revoked := true)
  }

  // Every device that was known, but for these, is known and revoked, and otherwise
  // what it was.
  predicate NobodyElse(was: Devices, now: Devices, but: set<string>) {
    forall d :: d in was && d !in but ==>
      d in now && now[d] == Device(was[d].refreshToken, was[d].refreshExpiresAt, true)
  }

  predicate OneBound(devices: Devices) {
    forall d, e :: d in devices && e in devices && !devices[d].revoked && !devices[e].revoked ==> d == e
  }

  // The device the join finds.
  ghost function Bound(devices: Devices): (b: Option<string>)
    ensures b.Some? ==> b.value in devices && !devices[b.value].revoked
    ensures b.None? ==> forall d :: d in devices ==> devices[d].revoked
  {
    if d :| d in devices && !devices[d].revoked then Some(d) else None
  }

  ghost function AuthOf(s: Ledger): Auth { Auth(s.session.status, s.session.tokenVersion, Bound(s.devices)) }

  ghost function Resolved(s: Ledger): Auth { if s.cache.Some? then s.cache.value else AuthOf(s) }

  function Guard(auth: Auth, token: AccessToken): Reply {
    if !Live(auth.status) then Refused(SessionClosed)
    else if auth.tokenVersion != token.tokenVersion then Refused(TokenRevoked)
    else if auth.deviceId == None then Refused(TokenRevoked)
    else if auth.deviceId.value != token.deviceId then Refused(DeviceMismatch)
    else Done
  }

  predicate Claimable(session: Session, code: string, now: int) {
    && session.claimCode == Some(code) && session.status == ASSIGNED
    && (session.codeExpiresAt == None || session.codeExpiresAt.value > now) && session.expiresAt > now
  }

  predicate Holds(devices: Devices, refreshToken: string, deviceId: string) {
    deviceId in devices && devices[deviceId].refreshToken == refreshToken && !devices[deviceId].revoked
  }

  predicate Stale(session: Session, now: int) {
    && (session.status == ASSIGNED || Live(session.status))
    && ((session.status == ASSIGNED && session.codeExpiresAt.Some? && session.codeExpiresAt.value < now) || session.expiresAt < now)
  }

  ghost function ReplyTo(s: Ledger, e: Event): Reply {
    match e
    case RegenerateClaimCode(code, _, _) => if Closed(s.session.status) then Refused(SessionClosed) else Code(code)
    case Claim(code, deviceId, refreshToken, now, _) =>
      if !Claimable(s.session, code, now) then Refused(CodeInvalid)
      else Credentials(AccessToken(deviceId, s.session.tokenVersion + 1), refreshToken)
    case RefreshDriverToken(refreshToken, deviceId, now) =>
      if !Holds(s.devices, refreshToken, deviceId) then Refused(RefreshInvalid)
      else if s.devices[deviceId].refreshExpiresAt <= now then Refused(RefreshExpired)
      else if !Live(s.session.status) then Refused(SessionClosed)
      else Access(AccessToken(deviceId, s.session.tokenVersion))
    case Pause => if s.session.status == ACTIVE then Done else Refused(InvalidTransition)
    case Resume => if s.session.status == PAUSED then Done else Refused(InvalidTransition)
    case DriverRequest(token) => Guard(Resolved(s), token)
    case _ => Done
  }

  ghost function Next(s: Ledger, e: Event): Ledger {
    var session, version := s.session, s.session.tokenVersion + 1;
    var reply := ReplyTo(s, e);
    match e
    case RegenerateClaimCode(code, now, ttlMin) =>
      if reply.Refused? then s
      else s.(session := session.(claimCode := Some(code), codeExpiresAt := Some(now + Minutes(ttlMin)), status := ASSIGNED, tokenVersion := version),
              devices := Revoked(s.devices), cache := None, custody := s.custody + 1)
    case Claim(_, deviceId, refreshToken, now, ttl) =>
      if reply.Refused? then s
      else s.(session := session.(status := CLAIMED, claimCode := None, tokenVersion := version),
              devices := Revoked(s.devices)[deviceId := Device(refreshToken, now + ttl, false)], cache := None,
              custody := s.custody + 1, issued := s.issued[refreshToken := s.custody + 1], access := s.access + {reply.access})
    case RefreshDriverToken(_, _, _) => if reply.Refused? then s else s.(access := s.access + {reply.access})
    case Pause => if reply.Refused? then s else s.(session := session.(status := PAUSED), cache := None)
    case Resume => if reply.Refused? then s else s.(session := session.(status := ACTIVE), cache := None)
    case Finalize(cancel) =>
      s.(session := session.(status := if cancel then CANCELLED else COMPLETED, claimCode := None, tokenVersion := version),
         devices := Revoked(s.devices), cache := None)
    case Started => s.(session := session.(status := if session.status == CLAIMED then ACTIVE else session.status), cache := None)
    // The ingest function refuses a session that is not live, and does not touch the cache.
    case Ingested(accepted) =>
      s.(session := session.(status := if session.status == CLAIMED && accepted > 0 then ACTIVE else session.status))
    case ExpireStale(now) =>
      if !Stale(session, now) then s
      else s.(session := session.(status := EXPIRED, claimCode := None, tokenVersion := version), cache := None)
    case DriverRequest(_) => s.(cache := Some(Resolved(s)))
    case CacheLapses => s.(cache := None)
  }

  // Minted refresh tokens are new.
  predicate Enabled(s: Ledger, e: Event) {
    e.Claim? ==> e.refreshToken !in s.issued
  }

  function Created(code: string, codeExpiresAt: int, expiresAt: int): Ledger {
    Ledger(Session(ASSIGNED, 1, Some(code), Some(codeExpiresAt), expiresAt), map[], None, 0, map[], {})
  }

  // ---------------------------------------------------------------------------
  // The service
  // ---------------------------------------------------------------------------

  class SessionsService {
    var session: Session
    var devices: Devices
    var cache: Option<Auth>
    ghost var custody: nat
    ghost var issued: map<string, nat>
    ghost var access: set<AccessToken>

    constructor (code: string, codeExpiresAt: int, expiresAt: int)
      ensures State() == Created(code, codeExpiresAt, expiresAt)
    {
      session := Session(ASSIGNED, 1, Some(code), Some(codeExpiresAt), expiresAt);
      devices, cache := map[], None;
      custody, issued, access := 0, map[], {};
    }

    ghost function State(): Ledger
      reads this
    {
      Ledger(session, devices, cache, custody, issued, access)
    }

    method Regenerate(code: string, now: int, ttlMin: int) returns (r: Reply)
      modifies this
      ensures r == ReplyTo(old(State()), RegenerateClaimCode(code, now, ttlMin))
      ensures State() == Next(old(State()), RegenerateClaimCode(code, now, ttlMin))
      ensures r.Code? <==> old(session.status) !in {COMPLETED, CANCELLED, EXPIRED}
      ensures r.Code? ==>
        && session == Session(ASSIGNED, old(session.tokenVersion) + 1, Some(code), Some(now + 60 * ttlMin), old(session.expiresAt))
        && NobodyElse(old(devices), devices, {})
      ensures !r.Code? ==> session == old(session) && devices == old(devices)
    {
      if session.status in {COMPLETED, CANCELLED, EXPIRED} {
        return Refused(SessionClosed);
      }
      session := session.(claimCode := Some(code), codeExpiresAt := Some(now + Minutes(ttlMin)), status := ASSIGNED,
                          tokenVersion := session.tokenVersion + 1);
      RevokeDevices();
      cache := None;
      custody := custody + 1;
      r := Code(code);
    }

    method RevokeDevices()
      modifies this`devices
      ensures devices == Revoked(old(devices))
    {
      var left := devices.Keys;
      var all := devices;
      while left != {}
        invariant left <= all.Keys && devices.Keys == all.Keys
        invariant forall d :: d in all ==> devices[d] == if d in left then all[d] else all[d].(revoked := true)
        decreases |left|
      {
        var d :| d in left;
        if !devices[d].revoked {
          devices := devices[d := devices[d].(revoked := true)];
        }
        left := left - {d};
      }
    }

    method ClaimSession(code: string, deviceId: string, refreshToken: string, now: int, refreshTtlSec: int) returns (r: Reply)
      modifies this
      ensures r == ReplyTo(old(State()), Claim(code, deviceId, refreshToken, now, refreshTtlSec))
      ensures State() == Next(old(State()), Claim(code, deviceId, refreshToken, now, refreshTtlSec))
      // The code of an assigned session, before it and the session run out, and only that.
      ensures r.Credentials? <==> (
        var was := old(session);
        && was.status == ASSIGNED && was.claimCode == Some(code)
        && (was.codeExpiresAt.Some? ==> now < was.codeExpiresAt.value) && now < was.expiresAt)
      ensures r.Credentials? ==>
        && r == Credentials(AccessToken(deviceId, old(session.tokenVersion) + 1), refreshToken)
        && session == Session(CLAIMED, old(session.tokenVersion) + 1, None, old(session.codeExpiresAt), old(session.expiresAt))
        && devices.Keys == old(devices.Keys) + {deviceId} && devices[deviceId] == Device(refreshToken, now + refreshTtlSec, false)
        && NobodyElse(old(devices), devices, {deviceId})
      ensures !r.Credentials? ==> session == old(session) && devices == old(devices)
    {
      if !Claimable(session, code, now) {
        return Refused(CodeInvalid);
      }
      RevokeDevices();
      devices := devices[deviceId := Device(refreshToken, now + refreshTtlSec, false)];
      session := session.(status := CLAIMED, claimCode := None, tokenVersion := session.tokenVersion + 1);
      cache := None;
      var token := AccessToken(deviceId, session.tokenVersion);
      custody := custody + 1;
      issued := issued[refreshToken := custody];
      access := access + {token};
      r := Credentials(token, refreshToken);
    }

    method RefreshToken(refreshToken: string, deviceId: string, now: int) returns (r: Reply)
      modifies this`access
      ensures r == ReplyTo(old(State()), RefreshDriverToken(refreshToken, deviceId, now))
      ensures State() == Next(old(State()), RefreshDriverToken(refreshToken, deviceId, now))
      ensures r.Access? <==>
        && deviceId in devices && devices[deviceId].refreshToken == refreshToken && !devices[deviceId].revoked
        && now < devices[deviceId].refreshExpiresAt && session.status in {CLAIMED, ACTIVE, PAUSED}
      ensures r.Access? ==> r == Access(AccessToken(deviceId, session.tokenVersion))
    {
      if !(deviceId in devices && devices[deviceId].refreshToken == refreshToken && !devices[deviceId].revoked) {
        return Refused(RefreshInvalid);
      }
      if devices[deviceId].refreshExpiresAt <= now {
        return Refused(RefreshExpired);
      }
      if session.status !in {CLAIMED, ACTIVE, PAUSED} {
        return Refused(SessionClosed);
      }
      var token := AccessToken(deviceId, session.tokenVersion);
      access := access + {token};
      r := Access(token);
    }

    method Transition(e: Event) returns (r: Reply)
      requires e.Pause? || e.Resume? || e.Finalize?
      modifies this
      ensures r == ReplyTo(old(State()), e) && State() == Next(old(State()), e)
      ensures e.Pause? ==> (r == Done <==> old(session.status) == ACTIVE) && (r == Done ==> session.status == PAUSED)
      ensures e.Resume? ==> (r == Done <==> old(session.status) == PAUSED) && (r == Done ==> session.status == ACTIVE)
      ensures e.Finalize? ==>
        && session.status == (if e.cancel then CANCELLED else COMPLETED) && session.claimCode == None
        && session.tokenVersion == old(session.tokenVersion) + 1 && NobodyElse(old(devices), devices, {})
      ensures !e.Finalize? ==> session == old(session).(status := session.status) && devices == old(devices)
      ensures r != Done ==> session == old(session)
    {
      if e.Finalize? {
        session := session.(status := if e.cancel then CANCELLED else COMPLETED, claimCode := None,
                            tokenVersion := session.tokenVersion + 1);
        RevokeDevices();
        cache := None;
        return Done;
      }
      var target := if e.Pause? then PAUSED else ACTIVE;
      var from := if e.Pause? then ACTIVE else PAUSED;
      if session.status != from {
        return Refused(InvalidTransition);
      }
      session := session.(status := target);
      cache := None;
      r := Done;
    }

    // A STARTED event. What is broadcast is ACTIVE, whatever the status is.
    method RecordStarted() returns (broadcast: Status)
      modifies this
      ensures State() == Next(old(State()), Started)
      ensures session == old(session).(status := if old(session.status) == CLAIMED then ACTIVE else old(session.status))
      ensures broadcast == session.status <==> old(session.status) == CLAIMED || old(session.status) == ACTIVE
    {
      if session.status == CLAIMED {
        session := session.(status := ACTIVE);
      }
      cache := None;
      broadcast := ACTIVE;
    }

    // The guard in front of every driver request.
    method CanActivate(token: AccessToken) returns (r: Reply)
      requires OneBound(devices)
      modifies this`cache
      ensures r == ReplyTo(old(State()), DriverRequest(token))
      ensures State() == Next(old(State()), DriverRequest(token))
    {
      if cache == None {
        var bound := FindBound();
        cache := Some(Auth(session.status, session.tokenVersion, bound));
      }
      r := Guard(cache.value, token);
    }

    method FindBound() returns (b: Option<string>)
      requires OneBound(devices)
      ensures b == Bound(devices)
    {
      var left := devices.Keys;
      while left != {}
        invariant left <= devices.Keys && forall d :: d in devices.Keys - left ==> devices[d].revoked
        decreases |left|
      {
        var d :| d in left;
        if !devices[d].revoked {
          return Some(d);
        }
        left := left - {d};
      }
      b := None;
    }

    method Expire(now: int)
      modifies this
      ensures State() == Next(old(State()), ExpireStale(now))
      // An unused code or a whole session that has run out, and nothing closed or drafted.
      ensures session.status == EXPIRED <==> (
        var was := old(session);
        || was.status == EXPIRED
        || (was.status in {ASSIGNED, CLAIMED, ACTIVE, PAUSED} && was.expiresAt < now)
        || (was.status == ASSIGNED && was.codeExpiresAt.Some? && was.codeExpiresAt.value < now))
      ensures session.status != EXPIRED || old(session.status) == EXPIRED ==> session == old(session)
      ensures devices == old(devices)
    {
      if Stale(session, now) {
        session := session.(status := EXPIRED, claimCode := None, tokenVersion := session.tokenVersion + 1);
        cache := None;
      }
    }
  }

  // ---------------------------------------------------------------------------
  // What every run keeps
  // ---------------------------------------------------------------------------

  ghost predicate Inv(s: Ledger) {
    && OneBound(s.devices)
    // A device that is bound was bound by the latest change of custody.
    && (forall d :: d in s.devices ==> s.devices[d].refreshToken in s.issued)
    && (forall d :: d in s.devices && !s.devices[d].revoked ==> s.issued[s.devices[d].refreshToken] == s.custody)
    && (forall t :: t in s.issued ==> s.issued[t] <= s.custody)
    && (forall a :: a in s.access ==> a.tokenVersion <= s.session.tokenVersion)
    && (s.session.claimCode.Some? ==> s.session.status == ASSIGNED)
    && (s.cache.Some? ==> Truthful(s.cache.value, AuthOf(s)))
  }

  // A cached view may still say CLAIMED when the first fixes have made it ACTIVE.
  predicate Truthful(cached: Auth, auth: Auth) {
    && cached.tokenVersion == auth.tokenVersion && cached.deviceId == auth.deviceId
    && (cached.status == auth.status || (cached.status == CLAIMED && auth.status == ACTIVE))
  }

  lemma BoundIsUnique(devices: Devices, d: string)
    requires OneBound(devices) && d in devices && !devices[d].revoked
    ensures Bound(devices) == Some(d)
  {
  }

  lemma StepKeepsInv(s: Ledger, e: Event)
    requires Inv(s) && Enabled(s, e)
    ensures Inv(Next(s, e))
  {
  }

  // The guard decides from the cache as it would from the database.
  lemma CacheIsTransparent(s: Ledger, token: AccessToken)
    requires Inv(s)
    ensures ReplyTo(s, DriverRequest(token)) == Guard(AuthOf(s), token)
  {
  }

  // ---------------------------------------------------------------------------
  // Runs
  // ---------------------------------------------------------------------------

  ghost function After(s: Ledger, run: seq<Event>): Ledger {
    if run == [] then s else Next(After(s, run[..|run| - 1]), run[|run| - 1])
  }

  ghost predicate Run(s: Ledger, run: seq<Event>) {
    forall i :: 0 <= i < |run| ==> Enabled(After(s, run[..i]), run[i])
  }

  // What time does to a ledger.
  predicate Later(s: Ledger, t: Ledger) {
    && s.session.tokenVersion <= t.session.tokenVersion && s.custody <= t.custody
    && (Closed(s.session.status) ==> Closed(t.session.status))
    && s.access <= t.access
    && forall k :: k in s.issued ==> k in t.issued && t.issued[k] == s.issued[k]
  }

  // Versions never fall, and rise with every claim, re-issue and closing.
  lemma StepIsLater(s: Ledger, e: Event)
    requires Enabled(s, e)
    ensures Later(s, Next(s, e))
    ensures var t := Next(s, e);
      t.session.tokenVersion == s.session.tokenVersion +
        if !ReplyTo(s, e).Refused? && (e.Claim? || e.RegenerateClaimCode? || e.Finalize? || (e.ExpireStale? && Stale(s.session, e.now))) then 1 else 0
    ensures Next(s, e).custody == s.custody + if !ReplyTo(s, e).Refused? && (e.Claim? || e.RegenerateClaimCode?) then 1 else 0
  {
  }

  lemma {:induction false} RunKeepsInv(s: Ledger, run: seq<Event>)
    requires Inv(s) && Run(s, run)
    ensures Inv(After(s, run)) && Later(s, After(s, run))
  {
    if run != [] {
      var n := |run| - 1;
      assert forall i :: 0 <= i < n ==> run[..n][..i] == run[..i];
      hide Inv, Later, Next, Enabled;
      RunKeepsInv(s, run[..n]);
      StepKeepsInv(After(s, run[..n]), run[n]);
      StepIsLater(After(s, run[..n]), run[n]);
      LaterIsTransitive(s, After(s, run[..n]), After(s, run));
    } else {
      LaterIsReflexive(s);
    }
  }

  lemma LaterIsReflexive(s: Ledger)
    ensures Later(s, s)
  {
  }

  lemma LaterIsTransitive(a: Ledger, b: Ledger, c: Ledger)
    requires Later(a, b) && Later(b, c)
    ensures Later(a, c)
  {
  }

  lemma CreatedIsSound(code: string, codeExpiresAt: int, expiresAt: int)
    ensures Inv(Created(code, codeExpiresAt, expiresAt))
  {
  }

  // ---- what that means for tokens ---------------------------------------------------

  lemma OnlyTheLatestCustodyRefreshes(s: Ledger, refreshToken: string, deviceId: string, now: int)
    requires Inv(s) && refreshToken in s.issued && s.issued[refreshToken] < s.custody
    ensures ReplyTo(s, RefreshDriverToken(refreshToken, deviceId, now)) == Refused(RefreshInvalid)
  {
  }

  // Once a session changes hands, by a claim or a re-issue, no refresh token made
  // before is honoured again, for any device, at any time.
  lemma SupersededRefreshTokenIsDead(s: Ledger, e: Event, more: seq<Event>, refreshToken: string, deviceId: string, now: int)
    requires Inv(s) && Enabled(s, e) && (e.Claim? || e.RegenerateClaimCode?) && !ReplyTo(s, e).Refused?
    requires refreshToken in s.issued && Run(Next(s, e), more)
    ensures ReplyTo(After(Next(s, e), more), RefreshDriverToken(refreshToken, deviceId, now)) == Refused(RefreshInvalid)
  {
    StepKeepsInv(s, e);
    StepIsLater(s, e);
    RunKeepsInv(Next(s, e), more);
    assert s.issued[refreshToken] <= s.custody < Next(s, e).custody <= After(Next(s, e), more).custody;
    hide Next, After, ReplyTo, Run;
    assert refreshToken in After(Next(s, e), more).issued;
    OnlyTheLatestCustodyRefreshes(After(Next(s, e), more), refreshToken, deviceId, now);
  }

  lemma OldVersionIsRefused(s: Ledger, token: AccessToken)
    requires Inv(s) && token.tokenVersion < s.session.tokenVersion
    ensures ReplyTo(s, DriverRequest(token)).Refused?
  {
    CacheIsTransparent(s, token);
  }

  // After a claim, a re-issue or any closing, no access token signed before is
  // let through again, whether the guard asks Redis or the database.
  lemma SupersededAccessTokenIsDead(s: Ledger, e: Event, more: seq<Event>, token: AccessToken)
    requires Inv(s) && Enabled(s, e) && Next(s, e).session.tokenVersion > s.session.tokenVersion
    requires token in s.access && Run(Next(s, e), more)
    ensures ReplyTo(After(Next(s, e), more), DriverRequest(token)).Refused?
  {
    StepKeepsInv(s, e);
    RunKeepsInv(Next(s, e), more);
    assert token.tokenVersion <= s.session.tokenVersion;
    hide Next, After, ReplyTo, Run;
    OldVersionIsRefused(After(Next(s, e), more), token);
  }

  // A closed session never opens again: it stays closed and answers every claim,
  // every refresh, every re-issue and every driver request with a refusal.
  lemma ClosedStaysClosed(s: Ledger, more: seq<Event>, e: Event)
    requires Inv(s) && Closed(s.session.status) && Run(s, more)
    requires e.Claim? || e.RefreshDriverToken? || e.RegenerateClaimCode? || e.DriverRequest? || e.Pause? || e.Resume?
    ensures Closed(After(s, more).session.status) && ReplyTo(After(s, more), e).Refused?
  {
    RunKeepsInv(s, more);
    hide After, Run;
    if e.DriverRequest? {
      CacheIsTransparent(After(s, more), e.token);
    }
  }

  // One device at most may act, and a request is let through exactly when its
  // token carries the current version and the bound device's name.
  lemma OnlyTheBoundDeviceActs(s: Ledger, run: seq<Event>, token: AccessToken)
    requires Inv(s) && Run(s, run)
    ensures var t := After(s, run);
      (forall d, e :: d in t.devices && e in t.devices && !t.devices[d].revoked && !t.devices[e].revoked ==> d == e)
      && (ReplyTo(t, DriverRequest(token)) == Done <==>
        Live(t.session.status) && token.tokenVersion == t.session.tokenVersion
        && token.deviceId in t.devices && !t.devices[token.deviceId].revoked)
  {
    RunKeepsInv(s, run);
    var t := After(s, run);
    CacheIsTransparent(t, token);
    if token.deviceId in t.devices && !t.devices[token.deviceId].revoked {
      BoundIsUnique(t.devices, token.deviceId);
    }
  }

  // ---- what a claim is good for ------------------------------------------------------

  // Anything but a re-issue, a dispatcher's closing, or the sweep after the end of
  // the session.
  predicate LeavesCustody(e: Event, expiresAt: int) {
    match e
    case RegenerateClaimCode(_, _, _) => false
    case Finalize(_) => false
    case ExpireStale(now) => now <= expiresAt
    case _ => true
  }

  // The session is held by this device, under this version and refresh token.
  ghost predicate HeldBy(s: Ledger, deviceId: string, refreshToken: string, refreshExpiresAt: int, version: int, expiresAt: int) {
    && Inv(s) && Live(s.session.status) && s.session.tokenVersion == version && s.session.expiresAt == expiresAt
    && deviceId in s.devices && s.devices[deviceId] == Device(refreshToken, refreshExpiresAt, false)
  }

  lemma StepKeepsHolder(s: Ledger, e: Event, deviceId: string, refreshToken: string, until: int, version: int, expiresAt: int)
    requires HeldBy(s, deviceId, refreshToken, until, version, expiresAt) && Enabled(s, e) && LeavesCustody(e, expiresAt)
    ensures HeldBy(Next(s, e), deviceId, refreshToken, until, version, expiresAt)
  {
    StepKeepsInv(s, e);
    hide Inv;
    assert s.session.claimCode == None by { CodeOnlyWhileAssigned(s); }
  }

  lemma CodeOnlyWhileAssigned(s: Ledger)
    requires Inv(s) && s.session.status != ASSIGNED
    ensures s.session.claimCode == None
  {
  }

  lemma {:induction false} RunKeepsHolder(s: Ledger, run: seq<Event>, deviceId: string, refreshToken: string, until: int, version: int, expiresAt: int)
    requires HeldBy(s, deviceId, refreshToken, until, version, expiresAt)
    requires Run(s, run) && forall i :: 0 <= i < |run| ==> LeavesCustody(run[i], expiresAt)
    ensures HeldBy(After(s, run), deviceId, refreshToken, until, version, expiresAt)
  {
    if run != [] {
      var n := |run| - 1;
      assert forall i :: 0 <= i < n ==> run[..n][..i] == run[..i];
      hide HeldBy, Next, Enabled, LeavesCustody;
      RunKeepsHolder(s, run[..n], deviceId, refreshToken, until, version, expiresAt);
      StepKeepsHolder(After(s, run[..n]), run[n], deviceId, refreshToken, until, version, expiresAt);
    }
  }

  // What a claim hands out works: through pauses, starts, fixes, other people's
  // claims and lapses of the cache, until the session is re-issued, closed or
  // runs out, the access token passes the guard and the refresh token buys the
  // same access until its own time is up.
  lemma ClaimGivesUse(s: Ledger, claim: Event, more: seq<Event>, now: int)
    requires Inv(s) && Enabled(s, claim) && claim.Claim? && ReplyTo(s, claim).Credentials?
    requires Run(Next(s, claim), more) && forall i :: 0 <= i < |more| ==> LeavesCustody(more[i], s.session.expiresAt)
    ensures var t, granted := After(Next(s, claim), more), ReplyTo(s, claim).access;
      && granted == AccessToken(claim.deviceId, s.session.tokenVersion + 1)
      && ReplyTo(t, DriverRequest(granted)) == Done
      && ReplyTo(t, RefreshDriverToken(claim.refreshToken, claim.deviceId, now)) ==
        if now < claim.now + claim.refreshTtlSec then Access(granted) else Refused(RefreshExpired)
  {
    StepKeepsInv(s, claim);
    var t := After(Next(s, claim), more);
    assert HeldBy(Next(s, claim), claim.deviceId, claim.refreshToken, claim.now + claim.refreshTtlSec,
                  s.session.tokenVersion + 1, s.session.expiresAt);
    RunKeepsHolder(Next(s, claim), more, claim.deviceId, claim.refreshToken, claim.now + claim.refreshTtlSec,
                   s.session.tokenVersion + 1, s.session.expiresAt);
    hide After, Run, Next;
    HolderIsServed(t, claim.deviceId, claim.refreshToken, claim.now + claim.refreshTtlSec,
                   s.session.tokenVersion + 1, s.session.expiresAt, now);
  }

  lemma HolderIsServed(s: Ledger, deviceId: string, refreshToken: string, until: int, version: int, expiresAt: int, now: int)
    requires HeldBy(s, deviceId, refreshToken, until, version, expiresAt)
    ensures ReplyTo(s, DriverRequest(AccessToken(deviceId, version))) == Done
    ensures ReplyTo(s, RefreshDriverToken(refreshToken, deviceId, now)) ==
      if now < until then Access(AccessToken(deviceId, version)) else Refused(RefreshExpired)
  {
    CacheIsTransparent(s, AccessToken(deviceId, version));
    BoundIsUnique(s.devices, deviceId);
  }

  // A re-issued code can be claimed exactly before its own minutes and the
  // session are up.
  lemma ReissuedCodeIsGoodUntil(s: Ledger, reissue: Event, claim: Event)
    requires reissue.RegenerateClaimCode? && claim.Claim? && claim.code == reissue.code
    ensures !ReplyTo(Next(s, reissue), claim).Refused? && ReplyTo(s, reissue).Code? <==>
      && s.session.status !in {COMPLETED, CANCELLED, EXPIRED}
      && claim.now < reissue.now + 60 * reissue.ttlMin && claim.now < s.session.expiresAt
  {
  }

  // A code is good for one claim.
  lemma CodeIsSpentByItsClaim(s: Ledger, e: Event, again: Event)
    requires Inv(s) && e.Claim? && !ReplyTo(s, e).Refused? && again.Claim?
    ensures ReplyTo(Next(s, e), again) == Refused(CodeInvalid)
  {
  }

  // Closing by a dispatcher revokes the device; expiry leaves it bound, and only
  // the status keeps it out.
  lemma WhichClosingRevokes(s: Ledger, e: Event, deviceId: string)
    requires Inv(s) && !Closed(s.session.status) && Closed(Next(s, e).session.status)
    requires deviceId in s.devices && !s.devices[deviceId].revoked
    ensures Next(s, e).devices[deviceId].revoked <==> e.Finalize?
    ensures e.Finalize? || e.ExpireStale?
  {
  }
}
