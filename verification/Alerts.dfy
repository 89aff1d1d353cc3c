// The exception desk: detectors that raise alerts on a schedule, the passes that
// clear them, and what is announced. Times are seconds.
module Alerts {
  import opened Options
  import C = Custody

  const SILENCE_MINUTES := 15
  const NOT_STARTED_MINUTES := 90
  const PAUSED_MINUTES := 10
  const OUTDATED_GRACE_HOURS := 24
  const BATTERY_LOW_PCT := 15
  const BATTERY_RECOVERED_PCT := 25

  // The kinds with a detector here.
  datatype Kind = SIGNAL_LOST | BATTERY_LOW | PAUSED_TOO_LONG | NOT_STARTED | APP_OUTDATED

  // What the detectors read of a session, its order and its bound device.
  datatype Facts = Facts(
    status: C.Status, lastPointAt: Option<int>, batteryPct: Option<int>, charging: Option<bool>,
    startedAt: Option<int>, createdAt: int, pausedAt: int, orderOver: bool, appBuild: Option<int>)

  datatype Release = Release(versionCode: int, announcedAt: int)

  // ---- when a detector acts -----------------------------------------------------

  predicate GraceIsOver(release: Option<Release>, now: int) {
    release.Some? && now - release.value.announcedAt >= OUTDATED_GRACE_HOURS * 3600
  }

  predicate Alarming(kind: Kind, f: Facts, release: Option<Release>, now: int) {
    match kind
    case SIGNAL_LOST => f.status == C.ACTIVE && f.lastPointAt.Some? && f.lastPointAt.value < now - SILENCE_MINUTES * 60
    case BATTERY_LOW =>
      && f.status == C.ACTIVE && f.batteryPct.Some? && f.batteryPct.value <= BATTERY_LOW_PCT && f.charging != Some(true)
      && f.lastPointAt.Some? && f.lastPointAt.value > now - SILENCE_MINUTES * 60
    case PAUSED_TOO_LONG =>
      f.status == C.PAUSED && f.startedAt.Some? && !f.orderOver && f.pausedAt < now - PAUSED_MINUTES * 60
    case NOT_STARTED =>
      (f.status == C.ASSIGNED || f.status == C.CLAIMED) && f.startedAt.None? && f.createdAt < now - NOT_STARTED_MINUTES * 60
    case APP_OUTDATED =>
      GraceIsOver(release, now) && f.status == C.ACTIVE && f.appBuild.Some? && f.appBuild.value < release.value.versionCode
  }

  predicate Recovered(kind: Kind, f: Facts, release: Option<Release>, now: int) {
    match kind
    case SIGNAL_LOST => f.lastPointAt.Some? && f.lastPointAt.value > now - SILENCE_MINUTES * 60
    case BATTERY_LOW => f.charging == Some(true) || (f.batteryPct.Some? && f.batteryPct.value >= BATTERY_RECOVERED_PCT)
    case PAUSED_TOO_LONG => f.status != C.PAUSED || f.orderOver
    case NOT_STARTED => f.startedAt.Some?
    case APP_OUTDATED =>
      GraceIsOver(release, now) && (f.status != C.ACTIVE || (if f.appBuild.Some? then f.appBuild.value else 0) >= release.value.versionCode)
  }

  // No condition both raises and clears: what a tick opens, the same tick does
  // not close unless the session has changed.
  lemma NeverBoth(kind: Kind, f: Facts, release: Option<Release>, now: int)
    ensures !(Alarming(kind, f, release, now) && Recovered(kind, f, release, now))
    ensures Alarming(kind, f, release, now) ==> !C.Closed(f.status)
  {
  }

  // An ACTIVE session that has reported is silent or recovered at every moment
  // except the one exactly fifteen minutes after its last fix.
  lemma SilenceHasNoBand(f: Facts, release: Option<Release>, now: int)
    requires f.status == C.ACTIVE && f.lastPointAt.Some?
    ensures Alarming(SIGNAL_LOST, f, release, now) || Recovered(SIGNAL_LOST, f, release, now)
      <==> f.lastPointAt.value + SILENCE_MINUTES * 60 != now
  {
  }

  // ---------------------------------------------------------------------------
  // The table and what is announced
  // ---------------------------------------------------------------------------

  datatype Row = Row(session: string, kind: Kind, raisedAt: int, resolvedAt: Option<int>)

  type Rows = seq<Row>

  datatype Note = Note(session: string, kind: Kind, raised: bool)

  datatype Desk = Desk(sessions: map<string, Facts>, release: Option<Release>, rows: Rows, log: seq<Note>)

  predicate OpenAt(rows: Rows, i: int, session: string, kind: Kind) {
    0 <= i < |rows| && rows[i].session == session && rows[i].kind == kind && rows[i].resolvedAt == None
  }

  predicate IsOpen(rows: Rows, session: string, kind: Kind) {
    exists i :: 0 <= i < |rows| && OpenAt(rows, i, session, kind)
  }

  // INSERT ... ON CONFLICT DO NOTHING, announced only if it inserted.
  function Raised(d: Desk, session: string, kind: Kind, now: int): Desk {
    if IsOpen(d.rows, session, kind) then d
    else d.(rows := d.rows + [Row(session, kind, now, None)], log := d.log + [Note(session, kind, true)])
  }

  function Resolve(rows: Rows, session: string, kind: Kind, now: int): Rows {
    seq(|rows|, i requires 0 <= i < |rows| => if OpenAt(rows, i, session, kind) then rows[i].(resolvedAt := Some(now)) else rows[i])
  }

  // UPDATE ... RETURNING, announced only if it returned a row.
  function Cleared(d: Desk, session: string, kind: Kind, now: int): Desk {
    if !IsOpen(d.rows, session, kind) then d
    else d.(rows := Resolve(d.rows, session, kind, now), log := d.log + [Note(session, kind, false)])
  }

  function RaisedAll(d: Desk, kind: Kind, ids: seq<string>, now: int): Desk {
    if ids == [] then d else Raised(RaisedAll(d, kind, ids[..|ids| - 1], now), ids[|ids| - 1], kind, now)
  }

  function ClearedAll(d: Desk, alerts: seq<(string, Kind)>, now: int): Desk {
    if alerts == [] then d
    else
      var last := alerts[|alerts| - 1];
      Cleared(ClearedAll(d, alerts[..|alerts| - 1], now), last.0, last.1, now)
  }

  // ---- the events of a desk ------------------------------------------------------------

  datatype Event =
    // Anything that happens to a session, and a new release.
    | Report(session: string, facts: Facts)
    | Announce(release: Release)
    // The two halves of a detector's tick, and the sweep over finished sessions.
    | RaisePass(kind: Kind, ids: seq<string>, now: int)
    | ClearPass(kind: Kind, ids: seq<string>, now: int)
    | ClosePass(alerts: seq<(string, Kind)>, now: int)

  function OfKind(ids: seq<string>, kind: Kind): seq<(string, Kind)> {
    seq(|ids|, i requires 0 <= i < |ids| => (ids[i], kind))
  }

  function Next(d: Desk, e: Event): Desk {
    match e
    case Report(session, facts) => d.(sessions := d.sessions[session := facts])
    case Announce(release) => d.(release := Some(release))
    case RaisePass(kind, ids, now) => RaisedAll(d, kind, ids, now)
    case ClearPass(kind, ids, now) => ClearedAll(d, OfKind(ids, kind), now)
    case ClosePass(alerts, now) => ClearedAll(d, alerts, now)
  }

  // What a pass's query asks: alarming and not yet open, or open and recovered.
  predicate Selected(d: Desk, kind: Kind, s: string, now: int, toRaise: bool) {
    && s in d.sessions && IsOpen(d.rows, s, kind) == !toRaise
    && (if toRaise then Alarming(kind, d.sessions[s], d.release, now) else Recovered(kind, d.sessions[s], d.release, now))
  }

  // An open alert of a finished session.
  predicate Leftover(d: Desk, i: nat)
    requires i < |d.rows|
  {
    && d.rows[i].resolvedAt == None && d.rows[i].session in d.sessions
    && C.Closed(d.sessions[d.rows[i].session].status)
  }

  // A pass works through what its query returned. A closed session stays closed.
  predicate Enabled(d: Desk, e: Event) {
    match e
    case Report(session, facts) => session in d.sessions && C.Closed(d.sessions[session].status) ==> C.Closed(facts.status)
    case Announce(_) => true
    case RaisePass(kind, ids, now) =>
      forall s :: s in ids ==> Selected(d, kind, s, now, true)
    case ClearPass(kind, ids, now) =>
      forall s :: s in ids ==> Selected(d, kind, s, now, false)
    case ClosePass(alerts, _) =>
      && (forall a :: a in alerts ==> a.0 in d.sessions && C.Closed(d.sessions[a.0].status) && IsOpen(d.rows, a.0, a.1))
      && (forall i :: 0 <= i < |d.rows| && Leftover(d, i) ==> (d.rows[i].session, d.rows[i].kind) in alerts)
  }

  class MaintenanceService {
    var sessions: map<string, Facts>
    var release: Option<Release>
    var rows: Rows
    ghost var log: seq<Note>

    constructor ()
      ensures State() == Desk(map[], None, [], [])
    {
      sessions, release, rows, log := map[], None, [], [];
    }

    ghost function State(): Desk
      reads this
    {
      Desk(sessions, release, rows, log)
    }

    method FindOpen(session: string, kind: Kind) returns (found: Option<nat>)
      ensures found.Some? ==> OpenAt(rows, found.value, session, kind)
      ensures found.None? ==> !IsOpen(rows, session, kind)
    {
      for i := 0 to |rows|
        invariant forall j :: 0 <= j < i ==> !OpenAt(rows, j, session, kind)
      {
        if OpenAt(rows, i, session, kind) {
          return Some(i);
        }
      }
      found := None;
    }

    method RaiseAlert(session: string, kind: Kind, now: int) returns (isNew: bool)
      modifies this`rows, this`log
      ensures State() == Raised(old(State()), session, kind, now) && isNew == !IsOpen(old(rows), session, kind)
    {
      var found := FindOpen(session, kind);
      if found.Some? {
        return false;
      }
      rows := rows + [Row(session, kind, now, None)];
      log := log + [Note(session, kind, true)];
      isNew := true;
    }

    method ClearAlert(session: string, kind: Kind, now: int) returns (resolved: bool)
      modifies this`rows, this`log
      ensures State() == Cleared(old(State()), session, kind, now) && resolved == IsOpen(old(rows), session, kind)
    {
      resolved := false;
      var was := rows;
      for i := 0 to |was|
        invariant |rows| == |was| && log == old(log)
        invariant resolved <==> exists j :: 0 <= j < i && OpenAt(was, j, session, kind)
        invariant forall j :: 0 <= j < |was| ==> rows[j] == if j < i then Resolve(was, session, kind, now)[j] else was[j]
      {
        if OpenAt(was, i, session, kind) {
          rows := rows[i := was[i].(resolvedAt := Some(now))];
          resolved := true;
        }
      }
      if resolved {
        log := log + [Note(session, kind, false)];
        assert rows == Resolve(was, session, kind, now);
      } else {
        assert rows == was;
      }
    }

    // A detector's tick.
    method Detect(kind: Kind, now: int) returns (ghost raise: Event, ghost clear: Event)
      modifies this`rows, this`log
      ensures raise.RaisePass? && raise.kind == kind && raise.now == now && Enabled(old(State()), raise)
      ensures clear.ClearPass? && clear.kind == kind && clear.now == now && Enabled(Next(old(State()), raise), clear)
      ensures State() == Next(Next(old(State()), raise), clear)
      // Both queries return exactly the sessions they describe.
      ensures forall s :: Selected(old(State()), kind, s, now, true) ==> s in raise.ids
      ensures forall s :: Selected(Next(old(State()), raise), kind, s, now, false) ==> s in clear.ids
    {
      var ids := Select(kind, now, true);
      raise := RaisePass(kind, ids, now);
      for i := 0 to |ids|
        invariant State() == RaisedAll(old(State()), kind, ids[..i], now)
      {
        var isNew := RaiseAlert(ids[i], kind, now);
        assert ids[..i + 1][..i] == ids[..i];
      }
      assert ids[..|ids|] == ids;
      ghost var middle := State();
      ids := Select(kind, now, false);
      clear := ClearPass(kind, ids, now);
      for i := 0 to |ids|
        invariant State() == ClearedAll(middle, OfKind(ids, kind)[..i], now)
      {
        var resolved := ClearAlert(ids[i], kind, now);
        assert OfKind(ids, kind)[..i + 1][..i] == OfKind(ids, kind)[..i];
      }
      assert OfKind(ids, kind)[..|ids|] == OfKind(ids, kind);
    }

    method Select(kind: Kind, now: int, toRaise: bool) returns (ids: seq<string>)
      ensures forall s :: s in ids <==> Selected(State(), kind, s, now, toRaise)
    {
      ids := [];
      var left := sessions.Keys;
      while left != {}
        invariant left <= sessions.Keys
        invariant forall s :: s in ids <==> s !in left && Selected(State(), kind, s, now, toRaise)
        decreases |left|
      {
        var s :| s in left;
        var found := FindOpen(s, kind);
        if found.None? == toRaise {
          if if toRaise then Alarming(kind, sessions[s], release, now) else Recovered(kind, sessions[s], release, now) {
            ids := ids + [s];
          }
        }
        left := left - {s};
      }
    }

    method CloseAlertsOnFinishedSessions(now: int) returns (ghost close: Event)
      modifies this`rows, this`log
      ensures close.ClosePass? && close.now == now && Enabled(old(State()), close) && State() == Next(old(State()), close)
    {
      var alerts: seq<(string, Kind)> := [];
      for i := 0 to |rows|
        invariant forall a :: a in alerts ==> a.0 in sessions && C.Closed(sessions[a.0].status) && IsOpen(rows, a.0, a.1)
        invariant forall j :: 0 <= j < i && Leftover(State(), j) ==> (rows[j].session, rows[j].kind) in alerts
      {
        var row := rows[i];
        if row.resolvedAt == None && row.session in sessions && C.Closed(sessions[row.session].status) {
          assert OpenAt(rows, i, row.session, row.kind);
          alerts := alerts + [(row.session, row.kind)];
        }
      }
      close := ClosePass(alerts, now);
      for i := 0 to |alerts|
        invariant State() == ClearedAll(old(State()), alerts[..i], now)
      {
        var resolved := ClearAlert(alerts[i].0, alerts[i].1, now);
        assert alerts[..i + 1][..i] == alerts[..i];
      }
      assert alerts[..|alerts|] == alerts;
    }
  }

  // ---------------------------------------------------------------------------
  // Announcements
  // ---------------------------------------------------------------------------

  // What was announced about one alert: true for raised, false for resolved.
  function About(log: seq<Note>, session: string, kind: Kind): seq<bool> {
    if log == [] then []
    else
      var last := log[|log| - 1];
      About(log[..|log| - 1], session, kind) + if last.session == session && last.kind == kind then [last.raised] else []
  }

  // Raised, resolved, raised, resolved, ...
  predicate Alternates(said: seq<bool>) {
    forall i :: 0 <= i < |said| ==> said[i] == (i % 2 == 0)
  }

  predicate OneOpen(rows: Rows, session: string, kind: Kind) {
    forall i, j :: 0 <= i < j < |rows| ==> !(OpenAt(rows, i, session, kind) && OpenAt(rows, j, session, kind))
  }

  // One open row at most, and the last word said matches the table.
  predicate Told(d: Desk, session: string, kind: Kind) {
    && OneOpen(d.rows, session, kind)
    && Alternates(About(d.log, session, kind))
    && (|About(d.log, session, kind)| % 2 == 1 <==> IsOpen(d.rows, session, kind))
  }

  lemma AboutOneMore(log: seq<Note>, note: Note, session: string, kind: Kind)
    ensures var said := About(log, session, kind);
      About(log + [note], session, kind) == if note.session == session && note.kind == kind then said + [note.raised] else said
  {
    assert (log + [note])[..|log|] == log;
  }

  lemma AlternatesOneMore(said: seq<bool>, raised: bool)
    requires Alternates(said) && raised == (|said| % 2 == 0)
    ensures Alternates(said + [raised]) && (|said + [raised]| % 2 == 1 <==> raised)
  {
  }

  lemma OpenAfterRaise(rows: Rows, session: string, kind: Kind, now: int, s: string, k: Kind)
    requires OneOpen(rows, s, k) && !IsOpen(rows, session, kind)
    ensures var after := rows + [Row(session, kind, now, None)];
      OneOpen(after, s, k) && (IsOpen(after, s, k) <==> IsOpen(rows, s, k) || (s == session && k == kind))
  {
    var grown := rows + [Row(session, kind, now, None)];
    assert forall i :: 0 <= i < |rows| ==> (OpenAt(grown, i, s, k) <==> OpenAt(rows, i, s, k));
    assert OpenAt(grown, |rows|, session, kind);
  }

  lemma OpenAfterResolve(rows: Rows, session: string, kind: Kind, now: int, s: string, k: Kind)
    requires OneOpen(rows, s, k)
    ensures var after := Resolve(rows, session, kind, now);
      OneOpen(after, s, k) && (IsOpen(after, s, k) <==> IsOpen(rows, s, k) && !(s == session && k == kind))
  {
    var after := Resolve(rows, session, kind, now);
    assert forall i :: 0 <= i < |rows| ==> (OpenAt(after, i, s, k) <==> OpenAt(rows, i, s, k) && !(s == session && k == kind));
  }

  lemma RaiseKeepsTold(d: Desk, session: string, kind: Kind, now: int, s: string, k: Kind)
    requires Told(d, s, k)
    ensures Told(Raised(d, session, kind, now), s, k)
    ensures IsOpen(Raised(d, session, kind, now).rows, s, k) <==> IsOpen(d.rows, s, k) || (s == session && k == kind)
  {
    hide About, IsOpen, OneOpen, Alternates, OpenAt;
    if !IsOpen(d.rows, session, kind) {
      OpenAfterRaise(d.rows, session, kind, now, s, k);
      AboutOneMore(d.log, Note(session, kind, true), s, k);
      if s == session && k == kind {
        AlternatesOneMore(About(d.log, s, k), true);
      }
    }
  }

  lemma ClearKeepsTold(d: Desk, session: string, kind: Kind, now: int, s: string, k: Kind)
    requires Told(d, s, k)
    ensures Told(Cleared(d, session, kind, now), s, k)
    ensures IsOpen(Cleared(d, session, kind, now).rows, s, k) <==> IsOpen(d.rows, s, k) && !(s == session && k == kind)
  {
    hide About, IsOpen, OneOpen, Alternates, OpenAt, Resolve;
    if IsOpen(d.rows, session, kind) {
      OpenAfterResolve(d.rows, session, kind, now, s, k);
      AboutOneMore(d.log, Note(session, kind, false), s, k);
      if s == session && k == kind {
        AlternatesOneMore(About(d.log, s, k), false);
      }
    }
  }

  lemma {:induction false} RaisingAll(d: Desk, kind: Kind, ids: seq<string>, now: int, s: string, k: Kind)
    requires Told(d, s, k)
    ensures var after := RaisedAll(d, kind, ids, now);
      Told(after, s, k) && after.sessions == d.sessions && after.release == d.release
      && (IsOpen(after.rows, s, k) <==> IsOpen(d.rows, s, k) || (k == kind && s in ids))
  {
    if ids != [] {
      var n := |ids| - 1;
      RaisingAll(d, kind, ids[..n], now, s, k);
      RaiseKeepsTold(RaisedAll(d, kind, ids[..n], now), ids[n], kind, now, s, k);
      assert s in ids <==> s in ids[..n] || s == ids[n];
      hide Told, IsOpen;
    }
  }

  lemma {:induction false} ClearingAll(d: Desk, alerts: seq<(string, Kind)>, now: int, s: string, k: Kind)
    requires Told(d, s, k)
    ensures var after := ClearedAll(d, alerts, now);
      Told(after, s, k) && after.sessions == d.sessions && after.release == d.release
      && (IsOpen(after.rows, s, k) <==> IsOpen(d.rows, s, k) && (s, k) !in alerts)
  {
    if alerts != [] {
      var n := |alerts| - 1;
      ClearingAll(d, alerts[..n], now, s, k);
      ClearKeepsTold(ClearedAll(d, alerts[..n], now), alerts[n].0, alerts[n].1, now, s, k);
      assert (s, k) in alerts <==> (s, k) in alerts[..n] || (s, k) == alerts[n];
      hide Told, IsOpen;
    }
  }

  // What each event does to one alert.
  lemma StepOnOneAlert(d: Desk, e: Event, s: string, k: Kind)
    requires Told(d, s, k)
    ensures var after := Next(d, e);
      && Told(after, s, k)
      && (IsOpen(after.rows, s, k) <==>
        if e.RaisePass? then IsOpen(d.rows, s, k) || (k == e.kind && s in e.ids)
        else if e.ClearPass? then IsOpen(d.rows, s, k) && !(k == e.kind && s in e.ids)
        else if e.ClosePass? then IsOpen(d.rows, s, k) && (s, k) !in e.alerts
        else IsOpen(d.rows, s, k))
      && (!e.Report? ==> after.sessions == d.sessions)
  {
    match e
    case RaisePass(kind, ids, now) => RaisingAll(d, kind, ids, now, s, k);
    case ClearPass(kind, ids, now) =>
      ClearingAll(d, OfKind(ids, kind), now, s, k);
      InOfKind(ids, kind, s, k);
    case ClosePass(alerts, now) => ClearingAll(d, alerts, now, s, k);
    case _ =>
  }

  lemma InOfKind(ids: seq<string>, kind: Kind, s: string, k: Kind)
    ensures (s, k) in OfKind(ids, kind) <==> k == kind && s in ids
  {
    if k == kind && s in ids {
      var i :| 0 <= i < |ids| && ids[i] == s;
      assert OfKind(ids, kind)[i] == (s, k);
    }
  }

  // ---- runs ---------------------------------------------------------------------------

  ghost function After(d: Desk, run: seq<Event>): Desk {
    if run == [] then d else Next(After(d, run[..|run| - 1]), run[|run| - 1])
  }

  ghost predicate Run(d: Desk, run: seq<Event>) {
    forall i :: 0 <= i < |run| ==> Enabled(After(d, run[..i]), run[i])
  }

  lemma RunPrefix(d: Desk, run: seq<Event>, n: nat)
    requires Run(d, run) && n <= |run|
    ensures Run(d, run[..n])
  {
    assert forall i :: 0 <= i < n ==> run[..n][..i] == run[..i];
  }

  function Empty(): Desk { Desk(map[], None, [], []) }

  // Over every run, whatever the passes and in whatever order, the announcements
  // about one alert go raised, resolved, raised, ..., and the last one said is
  // what the table holds.
  lemma {:induction false} AnnouncementsAlternate(d: Desk, run: seq<Event>, s: string, k: Kind)
    requires Told(d, s, k)
    ensures Told(After(d, run), s, k)
  {
    if run != [] {
      AnnouncementsAlternate(d, run[..|run| - 1], s, k);
      StepOnOneAlert(After(d, run[..|run| - 1]), run[|run| - 1], s, k);
    }
  }

  lemma EmptyIsTold(s: string, k: Kind)
    ensures Told(Empty(), s, k)
  {
  }

  // ---- one tick ---------------------------------------------------------------------------

  // What a detector's whole tick leaves of its alert on one session: open, closed,
  // or, between the two thresholds, as it was.
  lemma TickDecides(d: Desk, raise: Event, clear: Event, kind: Kind, s: string, now: int)
    requires Told(d, s, kind) && s in d.sessions
    requires raise.RaisePass? && raise.kind == kind && (s in raise.ids <==> Selected(d, kind, s, now, true))
    requires clear.ClearPass? && clear.kind == kind && (s in clear.ids <==> Selected(Next(d, raise), kind, s, now, false))
    ensures var was, f := IsOpen(d.rows, s, kind), d.sessions[s];
      IsOpen(Next(Next(d, raise), clear).rows, s, kind) <==>
      match kind
      case SIGNAL_LOST =>
        if f.lastPointAt.None? then was
        else if now - f.lastPointAt.value < 900 then false
        else was || (f.status == C.ACTIVE && now - f.lastPointAt.value > 900)
      case BATTERY_LOW =>
        if f.charging == Some(true) then false
        else if f.batteryPct.None? then was
        else if f.batteryPct.value >= 25 then false
        else was || (f.batteryPct.value <= 15 && f.status == C.ACTIVE && f.lastPointAt.Some? && now - f.lastPointAt.value < 900)
      case PAUSED_TOO_LONG =>
        if f.status != C.PAUSED || f.orderOver then false
        else was || (f.startedAt.Some? && now - f.pausedAt > 600)
      case NOT_STARTED =>
        if f.startedAt.Some? then false
        else was || (f.status in {C.ASSIGNED, C.CLAIMED} && now - f.createdAt > 5400)
      case APP_OUTDATED =>
        if d.release.None? || now - d.release.value.announcedAt < 86400 then was
        else if f.status != C.ACTIVE then false
        else if f.appBuild.None? then was && d.release.value.versionCode > 0
        else f.appBuild.value < d.release.value.versionCode
  {
    StepOnOneAlert(d, raise, s, kind);
    StepOnOneAlert(Next(d, raise), clear, s, kind);
    SameRelease(d, raise);
    hide IsOpen, Told, Next;
  }

  lemma {:induction false} SameReleaseAfter(d: Desk, kind: Kind, ids: seq<string>, now: int)
    ensures RaisedAll(d, kind, ids, now).release == d.release
  {
    if ids != [] {
      SameReleaseAfter(d, kind, ids[..|ids| - 1], now);
      hide IsOpen;
    }
  }

  lemma SameRelease(d: Desk, raise: Event)
    requires raise.RaisePass?
    ensures Next(d, raise).release == d.release
  {
    SameReleaseAfter(d, raise.kind, raise.ids, raise.now);
  }

  // ---- hysteresis -----------------------------------------------------------------------

  // A pass that opens a new alert of this kind on this session.
  ghost predicate Opens(d: Desk, e: Event, s: string, k: Kind) {
    e.RaisePass? && e.kind == k && s in e.ids
  }

  ghost predicate SawRecovery(d: Desk, e: Event, s: string, k: Kind) {
    e.ClearPass? && e.kind == k && s in e.ids && s in d.sessions && Recovered(k, d.sessions[s], d.release, e.now)
  }

  ghost predicate OpenOrOver(d: Desk, s: string, k: Kind) {
    IsOpen(d.rows, s, k) || (s in d.sessions && C.Closed(d.sessions[s].status))
  }

  lemma StaysOpenOrOver(d: Desk, e: Event, s: string, k: Kind)
    requires Told(d, s, k) && Enabled(d, e) && OpenOrOver(d, s, k) && !SawRecovery(d, e, s, k)
    ensures OpenOrOver(Next(d, e), s, k) && !Opens(d, e, s, k)
  {
    StepOnOneAlert(d, e, s, k);
    hide IsOpen, Told, RaisedAll, ClearedAll;
    if e.RaisePass? && e.kind == k && s in e.ids {
      NeverBoth(k, d.sessions[s], d.release, e.now);
    }
  }

  lemma {:induction false} StillOpenOrOver(d: Desk, run: seq<Event>, s: string, k: Kind, n: nat)
    requires Told(d, s, k) && Run(d, run) && OpenOrOver(d, s, k) && n <= |run|
    requires forall m :: 0 <= m < n ==> !SawRecovery(After(d, run[..m]), run[m], s, k)
    ensures Told(After(d, run[..n]), s, k) && OpenOrOver(After(d, run[..n]), s, k)
    decreases n
  {
    if n > 0 {
      hide Told, OpenOrOver, SawRecovery, Enabled, Next;
      StillOpenOrOver(d, run, s, k, n - 1);
      assert run[..n][..n - 1] == run[..n - 1];
      StaysOpenOrOver(After(d, run[..n - 1]), run[n - 1], s, k);
      StepOnOneAlert(After(d, run[..n - 1]), run[n - 1], s, k);
    } else {
      assert run[..0] == [];
    }
  }

  // Once open, an alert of any kind is not opened again until a clearing pass has
  // seen the session recovered: for BATTERY_LOW, charging or at 25 % or more.
  lemma NoReopeningWithoutRecovery(d: Desk, run: seq<Event>, s: string, k: Kind, n: nat)
    requires Told(d, s, k) && Run(d, run) && IsOpen(d.rows, s, k)
    requires n < |run| && Opens(After(d, run[..n]), run[n], s, k)
    ensures exists m :: 0 <= m < n && SawRecovery(After(d, run[..m]), run[m], s, k)
  {
    hide Told, Opens, Enabled, Next, SawRecovery;
    if forall m :: 0 <= m < n ==> !SawRecovery(After(d, run[..m]), run[m], s, k) {
      StillOpenOrOver(d, run, s, k, n);
      OpensOnlyWhenClear(After(d, run[..n]), run[n], s, k);
    }
  }

  lemma OpensOnlyWhenClear(d: Desk, e: Event, s: string, k: Kind)
    requires Enabled(d, e) && Opens(d, e, s, k)
    ensures !OpenOrOver(d, s, k)
  {
    NeverBoth(k, d.sessions[s], d.release, e.now);
  }

  // ---- finished sessions -------------------------------------------------------------------

  // After the sweep a finished session has no open alert, and no detector ever
  // gives it one again, whatever reports come in.
  lemma {:induction false} FinishedSessionsStayQuiet(d: Desk, sweep: Event, run: seq<Event>, s: string, k: Kind)
    requires Told(d, s, k) && s in d.sessions && C.Closed(d.sessions[s].status)
    requires sweep.ClosePass? && Enabled(d, sweep) && Run(Next(d, sweep), run)
    ensures var after := After(Next(d, sweep), run);
      Told(after, s, k) && !IsOpen(after.rows, s, k) && s in after.sessions && C.Closed(after.sessions[s].status)
    decreases |run|
  {
    if run == [] {
      StepOnOneAlert(d, sweep, s, k);
      if IsOpen(d.rows, s, k) {
        SweepIsComplete(d, sweep, s, k);
      }
    } else {
      var n := |run| - 1;
      RunPrefix(Next(d, sweep), run, n);
      hide Told, Enabled, Next;
      FinishedSessionsStayQuiet(d, sweep, run[..n], s, k);
      QuietStep(After(Next(d, sweep), run[..n]), run[n], s, k);
    }
  }

  lemma SweepIsComplete(d: Desk, sweep: Event, s: string, k: Kind)
    requires sweep.ClosePass? && Enabled(d, sweep) && s in d.sessions && C.Closed(d.sessions[s].status) && IsOpen(d.rows, s, k)
    ensures (s, k) in sweep.alerts
  {
    var i :| 0 <= i < |d.rows| && OpenAt(d.rows, i, s, k);
    assert Leftover(d, i);
  }

  lemma QuietStep(d: Desk, e: Event, s: string, k: Kind)
    requires Told(d, s, k) && Enabled(d, e) && s in d.sessions && C.Closed(d.sessions[s].status) && !IsOpen(d.rows, s, k)
    ensures var after := Next(d, e);
      Told(after, s, k) && !IsOpen(after.rows, s, k) && s in after.sessions && C.Closed(after.sessions[s].status)
  {
    StepOnOneAlert(d, e, s, k);
    hide Told, IsOpen, RaisedAll, ClearedAll;
    if e.RaisePass? && s in e.ids {
      NeverBoth(e.kind, d.sessions[s], d.release, e.now);
    }
  }
}
