// The session state: a key/value table, the snapshot the screen reads, and the
// write-through accessor between them.
module SessionStore {
  import opened Options
  import opened Decimal
  import opened SqliteDatabase

  datatype Key =
    | DeviceId | SessionId | Reference
    | OrderNumber | CustomerName | Destination | CargoSummary
    | TrackingIntent | EngineRunning
    | PingIntervalSec | IdleIntervalSec | MinDistanceM
    | StartedAt | LastFixAt | LastSyncAt | ClockOffsetMs
    | DeviceSeq | EvictedTotal | EvictedFirstAt | EvictedLastAt

  type State = map<Key, string>

  function Lookup(state: State, key: Key): Option<string> {
    if key in state then Some(state[key]) else None
  }

  function Number(state: State, key: Key): Option<int> {
    match Lookup(state, key) case Some(text) => ParseInt64(text) case None => None
  }

  // Cadence texts are kept as stored; clamping them is not part of this model.
  datatype Snapshot = Snapshot(
    deviceId: string, sessionId: Option<string>, reference: Option<string>,
    orderNumber: Option<string>, customerName: Option<string>, destination: Option<string>, cargoSummary: Option<string>,
    pingIntervalSec: Option<string>, idleIntervalSec: Option<string>, minDistanceM: Option<string>,
    trackingIntent: bool, engineRunning: bool,
    startedAt: Option<int>, lastFixAt: Option<int>, lastSyncAt: Option<int>,
    evictedTotal: int, evictedLastAt: Option<int>)
  {
    predicate ShouldBeTracking() { trackingIntent && sessionId.Some? }
  }

  const EMPTY := Snapshot("", None, None, None, None, None, None, None, None, None, false, false, None, None, None, 0, None)

  // What a cold launch rebuilds from the rows.
  function Load(state: State): Snapshot {
    Snapshot(
      match Lookup(state, DeviceId) { case Some(text) => text case None => "" },
      Lookup(state, SessionId), Lookup(state, Reference),
      Lookup(state, OrderNumber), Lookup(state, CustomerName), Lookup(state, Destination), Lookup(state, CargoSummary),
      Lookup(state, PingIntervalSec), Lookup(state, IdleIntervalSec), Lookup(state, MinDistanceM),
      Lookup(state, TrackingIntent) == Some("1"), Lookup(state, EngineRunning) == Some("1"),
      Number(state, StartedAt), Number(state, LastFixAt), Number(state, LastSyncAt),
      match Number(state, EvictedTotal) { case Some(n) => n case None => 0 },
      Number(state, EvictedLastAt))
  }

  function DeviceSeqOf(state: State): int {
    match Number(state, DeviceSeq) case Some(n) => n case None => 0
  }

  // ---------------------------------------------------------------------------
  // The writer handed to every mutator
  // ---------------------------------------------------------------------------

  // A change to None is a deletion, which is not the same as no change.
  datatype Writer = Writer(changes: map<Key, Option<string>>, existing: State) {
    function Get(key: Key): Option<string> {
      if key in changes then changes[key] else Lookup(existing, key)
    }

    function Set(key: Key, value: Option<string>): Writer {
      Writer(changes[key := value], existing)
    }
  }

  // The table a set of changes asks for.
  function Overlay(state: State, changes: map<Key, Option<string>>): State {
    map k | k in state.Keys + changes.Keys && (k in changes ==> changes[k].Some?)
      :: if k in changes then changes[k].value else state[k]
  }

  // The changes already applied when `left` are still to come.
  function Part(changes: map<Key, Option<string>>, left: set<Key>): map<Key, Option<string>> {
    map k | k in changes && k !in left :: changes[k]
  }

  lemma EmptyOverlay(state: State)
    ensures Overlay(state, map[]) == state
  {
  }

  lemma OverlayOneMore(state: State, changes: map<Key, Option<string>>, left: set<Key>, key: Key)
    requires key in left && left <= changes.Keys
    ensures var so := Overlay(state, Part(changes, left));
      Overlay(state, Part(changes, left - {key})) == match changes[key] { case Some(text) => so[key := text] case None => so - {key} }
  {
  }

  // Reading through the writer is reading the table it will leave.
  lemma GetReadsTheOverlay(w: Writer, key: Key)
    ensures w.Get(key) == Lookup(Overlay(w.existing, w.changes), key)
  {
  }

  datatype Mutation =
    | GenerateDeviceId(id: string)
    | SaveSession(session: string, ref: string, ping: string, idle: string, distance: string, shipment: seq<Option<string>>)
    | SavePolicy(ping: string, idle: string, distance: string)
    | SaveShipment(shipment: seq<Option<string>>)
    | ClearSession
    | SetTrackingIntent(active: bool, now: int)
    | SetEngineRunning(running: bool)
    | MarkFix(at: int)
    | MarkSynced(at: int)
    | RecordServerTime(offsetMs: int)
    | RecordEviction(total: int, at: int)

  function Flag(b: bool): Option<string> { Some(if b then "1" else "0") }

  function ShipmentField(shipment: seq<Option<string>>, i: nat): Option<string> {
    if i < |shipment| then shipment[i] else None
  }

  function SetPolicy(w: Writer, ping: string, idle: string, distance: string): Writer {
    w.Set(PingIntervalSec, Some(ping)).Set(IdleIntervalSec, Some(idle)).Set(MinDistanceM, Some(distance))
  }

  function SetShipment(w: Writer, shipment: seq<Option<string>>): Writer {
    w.Set(OrderNumber, ShipmentField(shipment, 0)).Set(CustomerName, ShipmentField(shipment, 1))
     .Set(Destination, ShipmentField(shipment, 2)).Set(CargoSummary, ShipmentField(shipment, 3))
  }

  // The closure each mutator passes to `write`.
  function Body(m: Mutation, w: Writer): Writer {
    match m
    case GenerateDeviceId(id) => w.Set(DeviceId, Some(id))
    case SaveSession(session, ref, ping, idle, distance, shipment) =>
      SetShipment(SetPolicy(w.Set(SessionId, Some(session)).Set(Reference, Some(ref)), ping, idle, distance), shipment)
    case SavePolicy(ping, idle, distance) => SetPolicy(w, ping, idle, distance)
    case SaveShipment(shipment) => SetShipment(w, shipment)
    case ClearSession =>
      SetShipment(w.Set(SessionId, None).Set(Reference, None), [])
        .Set(StartedAt, None).Set(TrackingIntent, Flag(false)).Set(EngineRunning, Flag(false))
    case SetTrackingIntent(active, now) =>
      var w1 := w.Set(TrackingIntent, Flag(active));
      if active then (if w1.Get(StartedAt) == None then w1.Set(StartedAt, Some(Render(now))) else w1)
      else w1.Set(StartedAt, None)
    case SetEngineRunning(running) => w.Set(EngineRunning, Flag(running))
    case MarkFix(at) => w.Set(LastFixAt, Some(Render(at)))
    case MarkSynced(at) => w.Set(LastSyncAt, Some(Render(at)))
    case RecordServerTime(offsetMs) => w.Set(ClockOffsetMs, Some(Render(offsetMs)))
    case RecordEviction(total, at) =>
      var w1 := w.Set(EvictedTotal, Some(Render(total))).Set(EvictedLastAt, Some(Render(at)));
      if w1.Get(EvictedFirstAt) == None then w1.Set(EvictedFirstAt, Some(Render(at))) else w1
  }

  function Changes(m: Mutation, state: State): map<Key, Option<string>> {
    Body(m, Writer(map[], state)).changes
  }

  function Mutated(m: Mutation, state: State): State {
    Overlay(state, Changes(m, state))
  }

  // ---------------------------------------------------------------------------
  // The store
  // ---------------------------------------------------------------------------

  // One buffered fix as it sits on disk.
  datatype Row = Row(session: string, recordedAt: int, deviceSeq: int, inFlight: bool, batch: Option<nat>, claimedAt: int, attempts: nat)

  // The two tables that share the connection.
  datatype Tables = Tables(points: map<string, Row>, state: State)

  class Store {
    const database: Database<Tables>
    var cache: Snapshot

    ghost predicate Valid()
      reads this, database
    {
      database.Valid()
    }

    // No reader can tell the cache from a fresh load.
    ghost predicate Coherent()
      reads this, database
    {
      cache == Load(database.tables.state)
    }

    constructor (database: Database<Tables>, readable: bool)
      requires database.Valid()
      ensures this.database == database && Valid()
      ensures cache == if readable then Load(database.tables.state) else EMPTY
    {
      this.database := database;
      cache := if readable then Load(database.tables.state) else EMPTY;
    }

    // Apply a mutation in one transaction and refresh the cache. `failAt` is the
    // statement that throws, counted from zero, if any does; `readable` says
    // whether the refresh could read the table.
    method Write(changes: map<Key, Option<string>>, failAt: Option<nat>, fault: Fault, readable: bool) returns (ok: bool)
      requires Valid()
      modifies this`cache, database
      ensures Valid() && database.savepointDepth == old(database.savepointDepth) && database.saved == old(database.saved)
      ensures ok ==> database.tables == old(database.tables).(state := Overlay(old(database.tables.state), changes))
      ensures !ok ==> database.tables == old(database.tables) && cache == old(cache)
      ensures ok && changes == map[] ==> cache == old(cache)
      ensures ok && changes != map[] ==> cache == if readable then Load(database.tables.state) else EMPTY
      ensures fault == NoFault && failAt == None ==> ok
    {
      ghost var before := database.tables;
      if changes == map[] {
        EmptyOverlay(before.state);
        return true;
      }
      hide Overlay, Load, Database.Valid;
      ok := database.Begin(fault);
      if ok {
        Popped(old(database.saved), database.saved[|database.saved| - 1]);
        ok := ApplyAll(changes, failAt);
        ok := database.Finish(ok, fault);
      }
      if ok {
        cache := if readable then Load(database.tables.state) else EMPTY;
      }
    }

    // One statement per change, in whatever order the dictionary yields them.
    method ApplyAll(changes: map<Key, Option<string>>, failAt: Option<nat>) returns (ok: bool)
      requires database.Valid() && database.saved != []
      modifies database
      ensures database.Valid() && database.saved == old(database.saved)
      ensures database.savepointDepth == old(database.savepointDepth)
      ensures database.durable == old(database.durable) && database.disk == old(database.disk)
      ensures ok ==> database.tables == old(database.tables).(state := Overlay(old(database.tables.state), changes))
      ensures failAt == None ==> ok
    {
      var left := changes.Keys;
      var done := 0;
      ok := true;
      ghost var before := database.tables;
      assert Overlay(before.state, Part(changes, left)) == before.state;
      hide Overlay;
      while left != {}
        invariant left <= changes.Keys
        invariant database.Valid() && database.saved == old(database.saved)
        invariant database.savepointDepth == old(database.savepointDepth)
        invariant database.durable == old(database.durable) && database.disk == old(database.disk)
        invariant database.tables == before.(state := Overlay(before.state, Part(changes, left)))
        decreases |left|
      {
        var key :| key in left;
        var throws := failAt == Some(done);
        var value := changes[key];
        ok := database.Run(KeyStatement(key, value, throws));
        if !ok {
          return;
        }
        OverlayOneMore(before.state, changes, left, key);
        left := left - {key};
        done := done + 1;
      }
      assert Part(changes, left) == changes;
    }

    // A mutator, whole: read through the writer, write, refresh.
    method Mutate(m: Mutation, failAt: Option<nat>, fault: Fault, readable: bool) returns (ok: bool)
      requires Valid()
      modifies this`cache, database
      ensures Valid() && database.savepointDepth == old(database.savepointDepth) && database.saved == old(database.saved)
      ensures ok ==> database.tables == old(database.tables).(state := Mutated(m, old(database.tables.state)))
      ensures !ok ==> database.tables == old(database.tables)
      ensures old(Coherent()) && readable ==> Coherent()
      ensures ok && readable && Fits(m) && old(Coherent()) ==> cache == Shown(m, old(database.tables.state))
      ensures fault == NoFault && failAt == None ==> ok
    {
      if Fits(m) {
        MutationShows(m, database.tables.state);
      }
      hide Overlay, Load, Changes, Shown;
      EmptyOverlay(database.tables.state);
      ok := Write(Changes(m, database.tables.state), failAt, fault, readable);
    }
  }

  // The upsert or the delete of one key; the table is unchanged when it throws.
  function KeyStatement(key: Key, value: Option<string>, throws: bool): Tables -> Option<Tables> {
    (t: Tables) =>
      if throws then None
      else match value
        case Some(text) => Some(t.(state := t.state[key := text]))
        case None => Some(t.(state := t.state - {key}))
  }

  // The sequence number's own statement, which passes the cache by.
  function WithDeviceSeq(state: State, value: int): State {
    state[DeviceSeq := Render(value)]
  }

  // ---------------------------------------------------------------------------
  // Histories
  // ---------------------------------------------------------------------------

  datatype Event =
    | Mutate(m: Mutation, committed: bool, readable: bool)
    | SequenceWrite(value: int, committed: bool)
    | Reopen(readable: bool)

  // The table and the cached snapshot.
  datatype Session = Session(state: State, cache: Snapshot)

  function Refreshed(state: State, readable: bool): Session {
    Session(state, if readable then Load(state) else EMPTY)
  }

  function Next(s: Session, e: Event): Session {
    match e
    case Mutate(m, committed, readable) => if committed then Refreshed(Mutated(m, s.state), readable) else s
    case SequenceWrite(value, committed) => if committed then s.(state := WithDeviceSeq(s.state, value)) else s
    case Reopen(readable) => Refreshed(s.state, readable)
  }

  function After(s: Session, events: seq<Event>): Session {
    if events == [] then s else Next(After(s, events[..|events| - 1]), events[|events| - 1])
  }

  predicate Consistent(s: Session) { s.cache == Load(s.state) }

  lemma SequenceIsNotInTheSnapshot(state: State, value: int)
    ensures Load(WithDeviceSeq(state, value)) == Load(state)
  {
  }

  // Whether the newest refresh of the cache could read the table: the refresh of
  // the last committed write, or of the last launch, whichever came later.
  function LastRefreshRead(events: seq<Event>): bool {
    if events == [] then true
    else
      match events[|events| - 1]
      case Mutate(_, true, readable) => readable
      case Reopen(readable) => readable
      case _ => LastRefreshRead(events[..|events| - 1])
  }

  // After any writes, committed or rolled back, any appends and any launches, the
  // cached snapshot is what a launch would rebuild, or the empty one; and it is
  // right exactly when its newest refresh could read the table, or the table
  // holds nothing a snapshot would show.
  lemma {:induction false} CacheIsRightExactlyWhen(s: Session, events: seq<Event>)
    requires Consistent(s)
    ensures After(s, events).cache == if LastRefreshRead(events) then Load(After(s, events).state) else EMPTY
    ensures Consistent(After(s, events)) <==> LastRefreshRead(events) || Load(After(s, events).state) == EMPTY
  {
    if events != [] {
      var earlier, e := events[..|events| - 1], events[|events| - 1];
      CacheIsRightExactlyWhen(s, earlier);
      hide Load, Mutated, WithDeviceSeq;
      if e.SequenceWrite? {
        SequenceIsNotInTheSnapshot(After(s, earlier).state, e.value);
      }
    }
  }

  // A launch that cannot read the table hides a session that is on disk, and
  // resumes nothing.
  lemma UnreadableLaunchHidesTheSession(state: State)
    requires SessionId in state
    ensures var s := After(Session(state, Load(state)), [Reopen(false)]);
      && !Consistent(s) && s.cache.sessionId == None && Load(s.state).sessionId == Some(state[SessionId])
      && !s.cache.trackingIntent && s.state == state
  {
    assert [Reopen(false)][..0] == [];
  }

  // The driver's own decisions, and the end of a session, which withdraws them.
  function LastDecision(before: bool, events: seq<Event>): bool {
    if events == [] then before
    else
      match events[|events| - 1]
      case Mutate(SetTrackingIntent(active, _), true, _) => active
      case Mutate(ClearSession, true, _) => false
      case _ => LastDecision(before, events[..|events| - 1])
  }

  lemma MutatedLookup(m: Mutation, state: State, key: Key)
    ensures Lookup(Mutated(m, state), key) == Writer(Changes(m, state), state).Get(key)
  {
    GetReadsTheOverlay(Writer(Changes(m, state), state), key);
  }

  // What each row of the table holds after a mutation: the texts it was given for
  // the keys it names, and for every other key what was there.
  function TextAfter(m: Mutation, state: State, key: Key): Option<string> {
    var was := Lookup(state, key);
    match m
    case GenerateDeviceId(id) => if key == DeviceId then Some(id) else was
    case SaveSession(session, ref, ping, idle, distance, shipment) =>
      var named := if key == SessionId then Some(session) else if key == Reference then Some(ref) else was;
      OfShipment(shipment, key, OfPolicy(ping, idle, distance, key, named))
    case SavePolicy(ping, idle, distance) => OfPolicy(ping, idle, distance, key, was)
    case SaveShipment(shipment) => OfShipment(shipment, key, was)
    case ClearSession => AfterClearing(key, was)
    case SetTrackingIntent(active, now) => (
      match key
      case TrackingIntent => Some(if active then "1" else "0")
      case StartedAt => if !active then None else if was == None then Some(Render(now)) else was
      case _ => was)
    case SetEngineRunning(running) => if key == EngineRunning then Some(if running then "1" else "0") else was
    case MarkFix(at) => if key == LastFixAt then Some(Render(at)) else was
    case MarkSynced(at) => if key == LastSyncAt then Some(Render(at)) else was
    case RecordServerTime(offsetMs) => if key == ClockOffsetMs then Some(Render(offsetMs)) else was
    case RecordEviction(total, at) =>
      if key == EvictedTotal then Some(Render(total))
      else if key == EvictedLastAt || (key == EvictedFirstAt && was == None) then Some(Render(at))
      else was
  }

  function AfterClearing(key: Key, was: Option<string>): Option<string> {
    match key
    case TrackingIntent => Some("0")
    case EngineRunning => Some("0")
    case SessionId => None
    case Reference => None
    case OrderNumber => None
    case CustomerName => None
    case Destination => None
    case CargoSummary => None
    case StartedAt => None
    case _ => was
  }

  function OfPolicy(ping: string, idle: string, distance: string, key: Key, otherwise: Option<string>): Option<string> {
    match key
    case PingIntervalSec => Some(ping)
    case IdleIntervalSec => Some(idle)
    case MinDistanceM => Some(distance)
    case _ => otherwise
  }

  function OfShipment(shipment: seq<Option<string>>, key: Key, otherwise: Option<string>): Option<string> {
    match key
    case OrderNumber => ShipmentField(shipment, 0)
    case CustomerName => ShipmentField(shipment, 1)
    case Destination => ShipmentField(shipment, 2)
    case CargoSummary => ShipmentField(shipment, 3)
    case _ => otherwise
  }

  lemma PolicyGets(w: Writer, ping: string, idle: string, distance: string, key: Key)
    ensures SetPolicy(w, ping, idle, distance).Get(key) == OfPolicy(ping, idle, distance, key, w.Get(key))
    ensures SetPolicy(w, ping, idle, distance).existing == w.existing
  {
  }

  lemma ShipmentGets(w: Writer, shipment: seq<Option<string>>, key: Key)
    ensures SetShipment(w, shipment).Get(key) == OfShipment(shipment, key, w.Get(key))
    ensures SetShipment(w, shipment).existing == w.existing
  {
    hide ShipmentField;
  }

  lemma ClearingGets(w: Writer, key: Key)
    ensures Body(ClearSession, w).existing == w.existing
    ensures Body(ClearSession, w).Get(key) == AfterClearing(key, w.Get(key))
  {
    var named := w.Set(SessionId, None).Set(Reference, None);
    ShipmentGets(named, [], key);
    hide SetShipment;
  }

  lemma SavingGets(m: Mutation, w: Writer, key: Key)
    requires m.SaveSession?
    ensures Body(m, w).existing == w.existing
    ensures Body(m, w).Get(key) == OfShipment(m.shipment, key, OfPolicy(m.ping, m.idle, m.distance, key,
      if key == SessionId then Some(m.session) else if key == Reference then Some(m.ref) else w.Get(key)))
  {
    var named := w.Set(SessionId, Some(m.session)).Set(Reference, Some(m.ref));
    PolicyGets(named, m.ping, m.idle, m.distance, key);
    ShipmentGets(SetPolicy(named, m.ping, m.idle, m.distance), m.shipment, key);
    hide SetPolicy, SetShipment, OfPolicy, OfShipment;
  }

  lemma BodyWrites(m: Mutation, state: State, key: Key)
    ensures Body(m, Writer(map[], state)).Get(key) == TextAfter(m, state, key)
    ensures Body(m, Writer(map[], state)).existing == state
  {
    hide Render, ShipmentField, SetPolicy, SetShipment, OfPolicy, OfShipment, AfterClearing;
    var w := Writer(map[], state);
    assert w.Get(key) == Lookup(state, key);
    match m
    case SaveSession(_, _, _, _, _, _) =>
      SavingGets(m, w, key);
      hide Body, Writer.Get;
    case SavePolicy(ping, idle, distance) =>
      PolicyGets(w, ping, idle, distance, key);
      hide Writer.Get;
    case SaveShipment(shipment) =>
      ShipmentGets(w, shipment, key);
      hide Writer.Get;
    case ClearSession =>
      ClearingGets(w, key);
      hide Body, Writer.Get;
    case _ =>
  }

  lemma MutationWrites(m: Mutation, state: State, key: Key)
    ensures Lookup(Mutated(m, state), key) == TextAfter(m, state, key)
  {
    MutatedLookup(m, state, key);
    BodyWrites(m, state, key);
    hide Overlay, Mutated, TextAfter, Body;
  }

  // 64-bit milliseconds, and a 64-bit tally.
  predicate Fits(m: Mutation) {
    match m
    case SetTrackingIntent(_, now) => InInt64(now)
    case MarkFix(at) => InInt64(at)
    case MarkSynced(at) => InInt64(at)
    case RecordServerTime(offsetMs) => InInt64(offsetMs)
    case RecordEviction(total, at) => InInt64(total) && InInt64(at)
    case _ => true
  }

  // The screen after a mutation: the fields it is about show its arguments, and
  // every other field shows what it did.
  function Shown(m: Mutation, state: State): Snapshot {
    var was := Load(state);
    match m
    case GenerateDeviceId(id) => was.(deviceId := id)
    case SaveSession(session, ref, ping, idle, distance, shipment) =>
      was.(sessionId := Some(session), reference := Some(ref),
           pingIntervalSec := Some(ping), idleIntervalSec := Some(idle), minDistanceM := Some(distance),
           orderNumber := ShipmentField(shipment, 0), customerName := ShipmentField(shipment, 1),
           destination := ShipmentField(shipment, 2), cargoSummary := ShipmentField(shipment, 3))
    case SavePolicy(ping, idle, distance) =>
      was.(pingIntervalSec := Some(ping), idleIntervalSec := Some(idle), minDistanceM := Some(distance))
    case SaveShipment(shipment) =>
      was.(orderNumber := ShipmentField(shipment, 0), customerName := ShipmentField(shipment, 1),
           destination := ShipmentField(shipment, 2), cargoSummary := ShipmentField(shipment, 3))
    case ClearSession =>
      was.(sessionId := None, reference := None, orderNumber := None, customerName := None, destination := None,
           cargoSummary := None, startedAt := None, trackingIntent := false, engineRunning := false)
    case SetTrackingIntent(active, now) =>
      was.(trackingIntent := active,
           startedAt := if !active then None else if StartedAt in state then was.startedAt else Some(now))
    case SetEngineRunning(running) => was.(engineRunning := running)
    case MarkFix(at) => was.(lastFixAt := Some(at))
    case MarkSynced(at) => was.(lastSyncAt := Some(at))
    case RecordServerTime(_) => was
    case RecordEviction(total, at) => was.(evictedTotal := total, evictedLastAt := Some(at))
  }

  lemma TimesReadBack(m: Mutation)
    requires Fits(m)
    ensures m.SetTrackingIntent? ==> ParseInt64(Render(m.now)) == Some(m.now)
    ensures m.MarkFix? || m.MarkSynced? || m.RecordEviction? ==> ParseInt64(Render(m.at)) == Some(m.at)
    ensures m.RecordServerTime? ==> ParseInt64(Render(m.offsetMs)) == Some(m.offsetMs)
    ensures m.RecordEviction? ==> ParseInt64(Render(m.total)) == Some(m.total)
  {
    match m
    case SetTrackingIntent(_, now) => RoundTrip(now);
    case MarkFix(at) => RoundTrip(at);
    case MarkSynced(at) => RoundTrip(at);
    case RecordServerTime(offsetMs) => RoundTrip(offsetMs);
    case RecordEviction(total, at) =>
      RoundTrip(total);
      RoundTrip(at);
    case _ =>
  }

  lemma ShowsTheSession(m: Mutation, state: State)
    ensures var now, shown := Load(Mutated(m, state)), Shown(m, state);
      && now.deviceId == shown.deviceId && now.sessionId == shown.sessionId && now.reference == shown.reference
  {
    MutationWrites(m, state, DeviceId);
    MutationWrites(m, state, SessionId);
    MutationWrites(m, state, Reference);
    hide Mutated, Lookup, Render, Number, ShipmentField;
  }

  lemma ShowsTheDelivery(m: Mutation, state: State)
    ensures var now, shown := Load(Mutated(m, state)), Shown(m, state);
      && now.orderNumber == shown.orderNumber && now.customerName == shown.customerName
      && now.destination == shown.destination && now.cargoSummary == shown.cargoSummary
  {
    MutationWrites(m, state, OrderNumber);
    MutationWrites(m, state, CustomerName);
    MutationWrites(m, state, Destination);
    MutationWrites(m, state, CargoSummary);
    hide Mutated, Lookup, Render, Number, ShipmentField;
  }

  lemma ShowsThePolicy(m: Mutation, state: State)
    ensures var now, shown := Load(Mutated(m, state)), Shown(m, state);
      && now.pingIntervalSec == shown.pingIntervalSec && now.idleIntervalSec == shown.idleIntervalSec
      && now.minDistanceM == shown.minDistanceM
  {
    MutationWrites(m, state, PingIntervalSec);
    MutationWrites(m, state, IdleIntervalSec);
    MutationWrites(m, state, MinDistanceM);
    hide Mutated, Lookup, Render, Number, ShipmentField;
  }

  lemma ShowsTheFlags(m: Mutation, state: State)
    ensures var now, shown := Load(Mutated(m, state)), Shown(m, state);
      && now.trackingIntent == shown.trackingIntent && now.engineRunning == shown.engineRunning
  {
    MutationWrites(m, state, TrackingIntent);
    MutationWrites(m, state, EngineRunning);
    hide Mutated, Lookup, Render, Number, ShipmentField;
  }

  lemma TextOfTimes(m: Mutation, state: State)
    ensures TextAfter(m, state, StartedAt) ==
      if m.ClearSession? || (m.SetTrackingIntent? && !m.active) then None
      else if m.SetTrackingIntent? && StartedAt !in state then Some(Render(m.now))
      else Lookup(state, StartedAt)
    ensures TextAfter(m, state, LastFixAt) == if m.MarkFix? then Some(Render(m.at)) else Lookup(state, LastFixAt)
    ensures TextAfter(m, state, LastSyncAt) == if m.MarkSynced? then Some(Render(m.at)) else Lookup(state, LastSyncAt)
  {
    hide Render, ShipmentField;
  }

  lemma TextOfBooks(m: Mutation, state: State)
    ensures TextAfter(m, state, EvictedTotal) == if m.RecordEviction? then Some(Render(m.total)) else Lookup(state, EvictedTotal)
    ensures TextAfter(m, state, EvictedLastAt) == if m.RecordEviction? then Some(Render(m.at)) else Lookup(state, EvictedLastAt)
    ensures TextAfter(m, state, EvictedFirstAt) ==
      if m.RecordEviction? && EvictedFirstAt !in state then Some(Render(m.at)) else Lookup(state, EvictedFirstAt)
    ensures TextAfter(m, state, ClockOffsetMs) ==
      if m.RecordServerTime? then Some(Render(m.offsetMs)) else Lookup(state, ClockOffsetMs)
    ensures TextAfter(m, state, DeviceSeq) == Lookup(state, DeviceSeq)
  {
    hide Render, ShipmentField;
  }

  lemma ShowsTheTimes(m: Mutation, state: State)
    requires Fits(m)
    ensures var now, shown := Load(Mutated(m, state)), Shown(m, state);
      && now.startedAt == shown.startedAt && now.lastFixAt == shown.lastFixAt && now.lastSyncAt == shown.lastSyncAt
  {
    TimesReadBack(m);
    MutationWrites(m, state, StartedAt);
    MutationWrites(m, state, LastFixAt);
    MutationWrites(m, state, LastSyncAt);
    TextOfTimes(m, state);
    hide Mutated, Render, ParseInt64, ShipmentField, TextAfter;
  }

  lemma ShowsTheTally(m: Mutation, state: State)
    requires Fits(m)
    ensures var now, shown := Load(Mutated(m, state)), Shown(m, state);
      && now.evictedTotal == shown.evictedTotal && now.evictedLastAt == shown.evictedLastAt
  {
    TimesReadBack(m);
    MutationWrites(m, state, EvictedTotal);
    MutationWrites(m, state, EvictedLastAt);
    TextOfBooks(m, state);
    hide Mutated, Render, ParseInt64, ShipmentField, TextAfter;
  }

  // What a launch after a mutation would show.
  lemma MutationShows(m: Mutation, state: State)
    requires Fits(m)
    ensures Load(Mutated(m, state)) == Shown(m, state)
  {
    ShowsTheSession(m, state);
    ShowsTheDelivery(m, state);
    ShowsThePolicy(m, state);
    ShowsTheFlags(m, state);
    ShowsTheTimes(m, state);
    ShowsTheTally(m, state);
    hide Mutated, Load, Shown;
  }

  // The rows no screen shows: the clock offset, the first eviction and the
  // sequence number.
  lemma MutationKeepsBooks(m: Mutation, state: State)
    requires Fits(m)
    ensures Number(Mutated(m, state), ClockOffsetMs) == if m.RecordServerTime? then Some(m.offsetMs) else Number(state, ClockOffsetMs)
    ensures Number(Mutated(m, state), EvictedFirstAt) ==
      if m.RecordEviction? && EvictedFirstAt !in state then Some(m.at) else Number(state, EvictedFirstAt)
    ensures Lookup(Mutated(m, state), DeviceSeq) == Lookup(state, DeviceSeq)
  {
    TimesReadBack(m);
    MutationWrites(m, state, ClockOffsetMs);
    MutationWrites(m, state, EvictedFirstAt);
    MutationWrites(m, state, DeviceSeq);
    TextOfBooks(m, state);
    hide Mutated, Render, ParseInt64, ShipmentField, TextAfter;
  }

  // Whatever the engine reports, however often the process dies, and whichever
  // writes fail: the stored intent is the last one the driver committed.
  lemma {:induction false} IntentIsTheDriversLastDecision(s: Session, events: seq<Event>)
    ensures Load(After(s, events).state).trackingIntent == LastDecision(Load(s.state).trackingIntent, events)
  {
    if events != [] {
      var earlier, e := events[..|events| - 1], events[|events| - 1];
      IntentIsTheDriversLastDecision(s, earlier);
      hide Mutated, Load;
      match e
      case Mutate(m, true, readable) => IntentAndSession(m, After(s, earlier).state);
      case SequenceWrite(value, committed) => SequenceIsNotInTheSnapshot(After(s, earlier).state, value);
      case _ =>
    }
  }

  lemma IntentAndSession(m: Mutation, state: State)
    ensures Load(Mutated(m, state)).trackingIntent == match m {
      case SetTrackingIntent(active, _) => active
      case ClearSession => false
      case _ => Load(state).trackingIntent }
    ensures Load(Mutated(m, state)).sessionId == match m {
      case SaveSession(session, _, _, _, _, _) => Some(session)
      case ClearSession => None
      case _ => Load(state).sessionId }
    ensures Load(Mutated(m, state)).reference == match m {
      case SaveSession(_, ref, _, _, _, _) => Some(ref)
      case ClearSession => None
      case _ => Load(state).reference }
  {
    MutationWrites(m, state, TrackingIntent);
    MutationWrites(m, state, SessionId);
    MutationWrites(m, state, Reference);
    hide Mutated, Lookup, Render;
  }

  // The session a phone belongs to, with the reference its driver reads out: those
  // of the last claim it recorded, until it is told the session is over.
  function LastClaim(before: (Option<string>, Option<string>), events: seq<Event>): (Option<string>, Option<string>) {
    if events == [] then before
    else
      match events[|events| - 1]
      case Mutate(SaveSession(session, ref, _, _, _, _), true, _) => (Some(session), Some(ref))
      case Mutate(ClearSession, true, _) => (None, None)
      case _ => LastClaim(before, events[..|events| - 1])
  }

  // Over any writes, failed writes, appends and launches, the stored session and
  // reference are those of the last recorded claim.
  lemma {:induction false} SessionIsTheLastClaim(s: Session, events: seq<Event>)
    ensures var shown := Load(After(s, events).state);
      (shown.sessionId, shown.reference) == LastClaim((Load(s.state).sessionId, Load(s.state).reference), events)
  {
    if events != [] {
      var earlier, e := events[..|events| - 1], events[|events| - 1];
      SessionIsTheLastClaim(s, earlier);
      hide Mutated, Load;
      match e
      case Mutate(m, true, readable) => IntentAndSession(m, After(s, earlier).state);
      case SequenceWrite(value, committed) => SequenceIsNotInTheSnapshot(After(s, earlier).state, value);
      case _ =>
    }
  }

  // Ending a session keeps what must outlive it, and its last recorded cadence.
  lemma ClearSessionKeeps(state: State, key: Key)
    requires key !in {SessionId, Reference, OrderNumber, CustomerName, Destination, CargoSummary, StartedAt, TrackingIntent, EngineRunning}
    ensures Lookup(Mutated(ClearSession, state), key) == Lookup(state, key)
  {
    MutationWrites(ClearSession, state, key);
  }

  // And it forgets the session: no launch after it resumes tracking.
  lemma ClearSessionForgets(state: State)
    ensures var after := Load(Mutated(ClearSession, state));
      !after.ShouldBeTracking() && after.sessionId == None && after.startedAt == None
  {
    MutationShows(ClearSession, state);
    hide Mutated;
  }

  // The start of tracking is stamped once and survives a repeated press.
  lemma StartIsStampedOnce(state: State, now: int, later: int)
    requires InInt64(now) && StartedAt !in state
    ensures var once := Mutated(SetTrackingIntent(true, now), state);
      Load(once).startedAt == Some(now)
      && Load(Mutated(SetTrackingIntent(true, later), once)).startedAt == Some(now)
  {
    hide Overlay, Mutated;
    RoundTrip(now);
    hide ParseInt64, Render;
    var once := Mutated(SetTrackingIntent(true, now), state);
    MutatedLookup(SetTrackingIntent(true, now), state, StartedAt);
    assert Lookup(once, StartedAt) == Some(Render(now));
    MutatedLookup(SetTrackingIntent(true, later), once, StartedAt);
  }
}
