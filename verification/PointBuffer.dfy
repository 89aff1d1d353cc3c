// The offline buffer as the app runs it: a class over the connection, with its
// two row counters and its sequence number in memory. Each method is tied to
// the step BufferSteps.dfy gives it; the environment's choices (ids, batch ids,
// clocks, which statement throws) are parameters.
module PointBuffer {
  import opened Options
  import opened SqliteDatabase
  import opened SessionStore
  import opened Numbers
  import opened Decimal
  import opened BufferSteps

  datatype ClaimFault = ClaimSound | ClaimBeginFails | UpdateFails | QueryFails | ClaimReleaseFails

  // How long an upload may take before its rows are taken for orphans.
  const ORPHAN_AGE := 300 * 1000

  datatype Batch = Batch(batchId: nat, points: seq<(string, Row)>, pendingRemaining: int)

  // ---- the statements ------------------------------------------------------------

  // Replace the point table, or throw.
  function Rewrite(points: Points, throws: bool): Tables -> Option<Tables> {
    (t: Tables) => if throws then None else Some(t.(points := points))
  }

  function PersistSequence(value: int, throws: bool): Tables -> Option<Tables> {
    (t: Tables) => if throws then None else Some(t.(state := WithDeviceSeq(t.state, value)))
  }

  // ---- the ordered read --------------------------------------------------------------

  method PickOldest(points: Points, left: set<string>) returns (id: string)
    requires left != {} && left <= points.Keys
    ensures id in left && forall o :: o in left ==> points[id].recordedAt <= points[o].recordedAt
  {
    id :| id in left;
    var rest := left - {id};
    while rest != {}
      invariant id in left && rest <= left
      invariant forall o :: o in left - rest ==> points[id].recordedAt <= points[o].recordedAt
      decreases |rest|
    {
      var other :| other in rest;
      rest := rest - {other};
      if points[other].recordedAt < points[id].recordedAt {
        id := other;
      }
    }
  }

  ghost predicate InTimeOrder(points: Points, order: seq<string>) {
    && (forall i :: 0 <= i < |order| ==> order[i] in points)
    && (forall i, j :: 0 <= i < j < |order| ==> order[i] != order[j] && points[order[i]].recordedAt <= points[order[j]].recordedAt)
  }

  function Ids(read: seq<(string, Row)>): seq<string> {
    seq(|read|, i requires 0 <= i < |read| => read[i].0)
  }

  // What a query over some rows returns: each of them once, whole, in time order.
  ghost predicate Reads(points: Points, read: seq<(string, Row)>, rows: set<string>) {
    && |read| == |rows| && InTimeOrder(points, Ids(read))
    && forall i :: 0 <= i < |read| ==> read[i].0 in rows && read[i].0 in points && read[i].1 == points[read[i].0]
  }

  lemma Later(points: Points, order: seq<string>, id: string)
    requires InTimeOrder(points, order) && id in points && id !in order
    requires forall o :: o in order ==> points[o].recordedAt <= points[id].recordedAt
    ensures InTimeOrder(points, order + [id]) && forall o :: o in order + [id] <==> o in order || o == id
  {
    assert forall i :: 0 <= i < |order| ==> order[i] in order;
  }

  // ORDER BY recorded_at ASC LIMIT n over some of the rows.
  method SelectOldest(points: Points, candidates: set<string>, n: nat) returns (order: seq<string>, chosen: set<string>)
    requires candidates <= points.Keys
    ensures InTimeOrder(points, order) && forall id :: id in order <==> id in chosen
    ensures chosen <= candidates && |order| == |chosen| == Min(n, |candidates|)
    ensures forall c, o :: c in chosen && o in candidates - chosen ==> points[c].recordedAt <= points[o].recordedAt
  {
    order, chosen := [], {};
    var left := candidates;
    assert InTimeOrder(points, order);
    hide InTimeOrder;
    while |order| < n && left != {}
      invariant left <= candidates && chosen == candidates - left && |chosen| == |order| <= n
      invariant InTimeOrder(points, order) && forall id :: id in order <==> id in chosen
      invariant forall c, o :: c in chosen && o in left ==> points[c].recordedAt <= points[o].recordedAt
      decreases |left|
    {
      var id := PickOldest(points, left);
      assert forall o :: o in order ==> o in chosen;
      Later(points, order, id);
      order := order + [id];
      chosen := chosen + {id};
      left := left - {id};
    }
    SubsetSize(left, candidates);
  }

  // MAX(device_seq), zero over an empty table.
  method SelectMaxSeq(points: Points) returns (m: int)
    ensures m == MaxSeq(points)
  {
    m := 0;
    var left := points.Keys;
    while left != {}
      invariant left <= points.Keys
      invariant left == points.Keys ==> m == 0
      invariant left != points.Keys ==> exists id :: id in points.Keys - left && points[id].deviceSeq == m
      invariant left != points.Keys ==> forall id :: id in points.Keys - left ==> points[id].deviceSeq <= m
      decreases |left|
    {
      var id :| id in left;
      if left == points.Keys || points[id].deviceSeq > m {
        m := points[id].deviceSeq;
      }
      left := left - {id};
    }
    assert IsMaxSeq(points, m);
  }

  class PointBuffer {
    const database: Database<Tables>
    const session: Store
    const maxRows: int
    var cachedTotal: int
    var cachedPending: int
    var sequence: int

    // Between calls no savepoint is open, so what memory shows is on disk.
    ghost predicate Valid()
      reads this, database, session
    {
      && database.Valid() && database.saved == [] && session.database == database
      && Counted(State())
    }

    ghost function State(): Buffer
      reads this, database
    {
      Buffer(database.tables, cachedTotal, cachedPending, sequence, maxRows)
    }

    // Opening: count the rows, then hand back everything a dead process held.
    constructor (database: Database<Tables>, session: Store, maxRows: int, throws: bool)
      requires database.Valid() && database.saved == [] && session.database == database
      requires Marked(database.tables.points)
      modifies database
      ensures this.database == database && this.session == session && this.maxRows == Max(maxRows, 1)
      ensures Valid()
      ensures State() == Step(Buffer(old(database.tables), 0, 0, -1, Max(maxRows, 1)), Relaunch(throws))
    {
      this.database := database;
      this.session := session;
      this.maxRows := Max(maxRows, 1);
      this.sequence := -1;
      this.cachedTotal := 0;
      this.cachedPending := 0;
      new;
      ghost var before := Resynced(State());
      ResyncCounts();
      StepKeepsCounts(before, Relaunch(throws));
      var reclaimed := ReclaimRows(InFlight(database.tables.points), throws);
    }

    method ResyncCounts()
      modifies this`cachedTotal, this`cachedPending
      ensures State() == Resynced(old(State()))
    {
      cachedTotal := |database.tables.points|;
      cachedPending := |Pending(database.tables.points)|;
    }

    // ---- capture --------------------------------------------------------------------

    // The entry point of the location engine: the session comes from the store.
    method AppendFix(id: string, recordedAt: int, readOk: bool, fault: AppendFault) returns (r: AppendResult, ghost op: Op)
      requires Valid() && InInt64(NextSequence(State(), readOk))
      modifies this, database
      ensures Valid()
      ensures session.cache.sessionId.None? ==> r == NoSession && State() == old(State())
      ensures old(session.Coherent()) ==> session.Coherent()
      ensures session.cache.sessionId.Some? ==>
        && op.Append? && op.id == id && op.capture == Capture(session.cache.sessionId.value, recordedAt)
        && op.readOk == readOk && op.fault == fault && Possible(old(State()), op)
        && r == ResultOf(old(State()), op) && State() == Step(old(State()), op)
      ensures var rows := database.tables.points;
        r.Stored? && id in rows ==> rows[id] == Row(old(session.cache.sessionId.value), recordedAt, r.deviceSeq, false, None, 0, 0)
    {
      op := WriteState(ClearSession, false);
      if session.cache.sessionId.None? {
        return NoSession, op;
      }
      ghost var before := State();
      r, op := Append(id, Capture(session.cache.sessionId.value, recordedAt), readOk, fault);
      if r.Stored? {
        AppendRowByRow(before, op);
      }
    }

    // Store one fix: number, row and eviction commit together or not at all.
    method Append(id: string, capture: Capture, readOk: bool, fault: AppendFault) returns (r: AppendResult, ghost op: Op)
      requires Valid() && InInt64(NextSequence(State(), readOk))
      modifies this, database
      ensures Valid()
      ensures op.Append? && op.id == id && op.capture == capture && op.readOk == readOk && op.fault == fault
      ensures Possible(old(State()), op)
      ensures r == ResultOf(old(State()), op)
      ensures State() == Step(old(State()), op)
      ensures database.disk == old(database.disk) || database.disk == old(database.disk) + [database.tables]
      ensures old(session.Coherent()) ==> session.Coherent()
      ensures fault == AppendSound ==> (if id in old(database.tables.points) then r == Duplicate(id) else r.Stored? && r.id == id)
      ensures fault in {BeginFails, PersistFails, InsertFails, CommitFails} ==> r == Failed
      ensures r == Failed ==> database.tables == old(database.tables)
      ensures r.Duplicate? ==> database.tables.points == old(database.tables.points)
      ensures r.Stored? && old(sequence) >= 0 ==> r.deviceSeq == old(sequence) + 1
    {
      hide NextSequence, InInt64, Possible, Pending, Counted, Database.Valid, AfterAppend, ResultOf, Load;
      ghost var before := State();
      var ok, inserted, number, evict := AppendInside(id, capture, readOk, fault);
      op := Op.Append(id, capture, readOk, fault, evict);
      AppendKeepsCounts(before, op);
      AppendAnswers(before, op);
      AppendCounters(before, op);
      AppendKeepsSnapshot(before, op);
      if !ok {
        ResyncCounts();
        r := Failed;
      } else if !inserted {
        r := Duplicate(id);
      } else {
        cachedTotal := cachedTotal + (1 - |evict|);
        cachedPending := cachedPending + (1 - |evict|);
        r := Stored(id, number, |evict|);
      }
    }

    // The transaction of an append.
    method AppendInside(id: string, capture: Capture, readOk: bool, fault: AppendFault)
        returns (ok: bool, inserted: bool, number: int, evict: set<string>)
      requires Valid() && InInt64(NextSequence(State(), readOk))
      modifies this`sequence, database
      ensures database.Valid() && database.saved == []
      ensures database.disk == old(database.disk) || database.disk == old(database.disk) + [database.tables]
      ensures var b, op := old(State()), Op.Append(id, capture, readOk, fault, evict);
        && Possible(b, op)
        && ok == !ResultOf(b, op).Failed?
        && (ok ==> inserted == (id !in b.tables.points) && number == NextSequence(b, readOk))
        && database.tables == AfterAppend(b, op).tables && sequence == AfterAppend(b, op).sequence
    {
      hide NextSequence, WithDeviceSeq, InInt64, Oldest, Counted, Pending, Database.Valid, NewRow;
      hide Possible, AfterAppend, ResultOf, InBody;
      ghost var b := State();
      evict := {};
      inserted := false;
      number := 0;
      ok := database.Begin(if fault == BeginFails then SavepointFails else NoFault);
      if !ok {
        AppendNeverBegan(b, Op.Append(id, capture, readOk, fault, evict));
        return;
      }
      ok, inserted, number, evict := AppendBody(id, capture, readOk, fault);
      ghost var op, body, after := Op.Append(id, capture, readOk, fault, evict), ok, database.tables;
      ok := database.Finish(ok, if fault == CommitFails then ReleaseFails else NoFault);
      AppendClosed(b, op, body, inserted, number, after, sequence);
    }

    // What runs inside it.
    method AppendBody(id: string, capture: Capture, readOk: bool, fault: AppendFault)
        returns (ok: bool, inserted: bool, number: int, evict: set<string>)
      requires database.Valid() && database.saved != []
      modifies this`sequence, database
      ensures database.Valid() && database.saved == old(database.saved)
      ensures database.disk == old(database.disk) && database.durable == old(database.durable)
      ensures InBody(old(State()), Op.Append(id, capture, readOk, fault, evict), ok, inserted, number, database.tables, sequence)
    {
      hide NextSequence, WithDeviceSeq, InInt64, Oldest, Pending, Database.Valid, NewRow;
      evict := {};
      inserted := false;
      ok, number := AllocateSequence(readOk, fault);
      if ok {
        ok, inserted, evict := InsertAndEvict(id, NewRow(capture, number), fault);
      }
    }

    // INSERT OR IGNORE, then back under the cap.
    method InsertAndEvict(id: string, row: Row, fault: AppendFault) returns (ok: bool, inserted: bool, evict: set<string>)
      requires database.Valid() && database.saved != []
      modifies database
      ensures database.Valid() && database.saved == old(database.saved)
      ensures database.disk == old(database.disk) && database.durable == old(database.durable)
      ensures inserted ==> id !in old(database.tables.points)
      ensures ok == (fault != InsertFails
        && (id !in old(database.tables.points) && fault == EvictFails ==> cachedTotal + 1 - maxRows <= 0))
      ensures ok ==> (inserted <==> id !in old(database.tables.points))
      ensures ok && inserted ==> (
        var grown := old(database.tables.points)[id := row];
        && database.tables == old(database.tables).(points := grown - evict)
        && if cachedTotal + 1 - maxRows > 0 then Oldest(grown, evict, cachedTotal + 1 - maxRows) else evict == {})
      ensures ok && !inserted ==> database.tables == old(database.tables)
    {
      evict := {};
      inserted := false;
      ok := fault != InsertFails;
      if ok && id !in database.tables.points {
        ok := database.Run(Rewrite(database.tables.points[id := row], false));
        inserted := true;
        var overflow := (cachedTotal + 1) - maxRows;
        if overflow > 0 {
          ok, evict := EvictOldestPending(overflow, fault == EvictFails);
        } else {
          assert database.tables.points - evict == database.tables.points;
        }
      }
    }

    // The next number, seeded on first use; the counter moves even if the write
    // that persists it throws.
    method AllocateSequence(readOk: bool, fault: AppendFault) returns (ok: bool, number: int)
      requires database.Valid() && database.saved != []
      modifies this`sequence, database
      ensures database.Valid() && database.saved == old(database.saved)
      ensures database.disk == old(database.disk) && database.durable == old(database.durable)
      ensures ok == !((fault == SeedFails && old(sequence) < 0) || fault == PersistFails)
      ensures fault == SeedFails && old(sequence) < 0 ==> sequence == old(sequence)
      ensures !(fault == SeedFails && old(sequence) < 0) ==> sequence == number == NextSequence(old(State()), readOk)
      ensures !ok ==> database.tables == old(database.tables)
      ensures ok ==> database.tables == old(database.tables).(state := WithDeviceSeq(old(database.tables.state), number))
    {
      number := 0;
      if sequence < 0 {
        if fault == SeedFails {
          return false, number;
        }
        var highestBuffered := SelectMaxSeq(database.tables.points);
        var persisted := if readOk then DeviceSeqOf(database.tables.state) else 0;
        sequence := Max(persisted, highestBuffered);
      }
      sequence := sequence + 1;
      number := sequence;
      ok := database.Run(PersistSequence(sequence, fault == PersistFails));
    }

    // Drop the oldest pending rows; rows in flight are never among them.
    method EvictOldestPending(count: nat, throws: bool) returns (ok: bool, evict: set<string>)
      requires database.Valid() && database.saved != []
      modifies database
      ensures database.Valid() && database.saved == old(database.saved)
      ensures database.disk == old(database.disk) && database.durable == old(database.durable)
      ensures ok == !throws
      ensures Oldest(old(database.tables.points), evict, count)
      ensures ok ==> database.tables == old(database.tables).(points := old(database.tables.points) - evict)
      ensures !ok ==> database.tables == old(database.tables)
    {
      var points := database.tables.points;
      var order;
      order, evict := SelectOldest(points, Pending(points), count);
      ok := database.Run(Rewrite(points - evict, throws));
    }

    // ---- claim, acknowledge, hand back ------------------------------------------------------

    // Move the oldest pending rows in flight and read them, in one transaction.
    method ClaimBatch(limit: int, batchId: nat, now: int, fault: ClaimFault) returns (r: Option<Batch>, ghost op: Op)
      requires Valid() && InBatch(database.tables.points, batchId) == {}
      modifies this, database
      ensures Valid()
      ensures op.Claim? && op.limit == limit && op.batch == batchId && op.now == now && Possible(old(State()), op)
      ensures State() == Step(old(State()), op)
      ensures op.throws ==> r == None
      ensures fault == ClaimSound ==> !op.throws
      ensures !op.throws ==> (r == None <==> Pending(old(database.tables.points)) == {})
      ensures r.Some? ==>
        && r.value.batchId == batchId && r.value.pendingRemaining == |Pending(database.tables.points)|
        && Reads(database.tables.points, r.value.points, op.chosen)
      ensures var was, rows := old(database.tables.points), database.tables.points;
        && rows.Keys == was.Keys
        && (forall id :: id in was ==>
          if !op.throws && id in op.chosen then SentOut(was[id], rows[id], batchId, now) else rows[id] == was[id])
        && |op.chosen| <= Max(limit, 1)
    {
      ghost var before := State();
      var ok, chosen, read := ClaimInside(limit, batchId, now, fault);
      op := Claim(limit, batchId, now, chosen, !ok);
      ClaimRowByRow(before, Claim(limit, batchId, now, chosen, false));
      StepKeepsCounts(before, op);
      ChosenSome(before.tables.points, chosen, Max(limit, 1));
      CountedPending(Step(before, op));
      hide Oldest, Counted, Reads, Claimed, InBatch, Pending;
      if !ok {
        ResyncCounts();
        return None, op;
      }
      cachedPending := cachedPending - |chosen|;
      if chosen == {} {
        return None, op;
      }
      r := Some(Batch(batchId, read, cachedPending));
    }

    // The transaction of a claim.
    method ClaimInside(limit: int, batchId: nat, now: int, fault: ClaimFault)
        returns (ok: bool, chosen: set<string>, read: seq<(string, Row)>)
      requires Valid() && InBatch(database.tables.points, batchId) == {}
      modifies database
      ensures database.Valid() && database.saved == []
      ensures fault == ClaimSound ==> ok
      ensures Oldest(old(database.tables.points), chosen, Max(limit, 1))
      ensures !ok ==> database.tables == old(database.tables)
      ensures ok ==> database.tables == old(database.tables).(points := Claimed(old(database.tables.points), chosen, batchId, now))
      ensures ok && chosen != {} ==> Reads(database.tables.points, read, chosen)
    {
      var points := database.tables.points;
      var order;
      order, chosen := SelectOldest(points, Pending(points), Max(limit, 1));
      assert Oldest(points, chosen, Max(limit, 1));
      assert chosen <= points.Keys;
      hide Oldest, Counted, Reads, Claimed, InBatch, Pending;
      read := [];
      ok := database.Begin(if fault == ClaimBeginFails then SavepointFails else NoFault);
      if ok {
        ok, read := MarkAndRead(chosen, batchId, now, fault);
        ok := database.Finish(ok, if fault == ClaimReleaseFails then ReleaseFails else NoFault);
      }
    }

    // The mark and the read.
    method MarkAndRead(chosen: set<string>, batchId: nat, now: int, fault: ClaimFault) returns (ok: bool, read: seq<(string, Row)>)
      requires database.Valid() && database.saved != [] && chosen <= database.tables.points.Keys
      requires InBatch(database.tables.points, batchId) == {}
      modifies database
      ensures database.Valid() && database.saved == old(database.saved)
      ensures database.disk == old(database.disk) && database.durable == old(database.durable)
      ensures fault == ClaimSound ==> ok
      ensures ok ==> database.tables == old(database.tables).(points := Claimed(old(database.tables.points), chosen, batchId, now))
      ensures ok && chosen != {} ==> Reads(database.tables.points, read, chosen)
    {
      var points := database.tables.points;
      read := [];
      ok := database.Run(Rewrite(Claimed(points, chosen, batchId, now), fault == UpdateFails));
      if ok && chosen != {} {
        ClaimedBatch(points, chosen, batchId, now);
        ok := fault != QueryFails;
        if ok {
          read := ReadBatch(batchId);
        }
      }
    }

    method ReadBatch(batchId: nat) returns (read: seq<(string, Row)>)
      ensures Reads(database.tables.points, read, InBatch(database.tables.points, batchId))
    {
      var points := database.tables.points;
      var rows := InBatch(points, batchId);
      var order, all := SelectOldest(points, rows, |rows|);
      AllChosen(all, rows);
      read := seq(|order|, i requires 0 <= i < |order| => (order[i], points[order[i]]));
      assert Ids(read) == order;
    }

    // The only delete on the sync path.
    method Acknowledge(batchId: nat, throws: bool) returns (deleted: nat)
      requires Valid()
      modifies this, database
      ensures Valid()
      ensures State() == Step(old(State()), Op.Acknowledge(batchId, throws))
      ensures deleted == if throws then 0 else |InBatch(old(database.tables.points), batchId)|
      ensures var was, rows := old(database.tables.points), database.tables.points;
        && (forall id :: id in rows <==> id in was && (throws || was[id].batch != Some(batchId)))
        && forall id :: id in rows ==> rows[id] == was[id]
    {
      AcknowledgeRowByRow(State(), batchId);
      hide Counted, Pending, InBatch, Database.Valid;
      StepKeepsCounts(State(), Op.Acknowledge(batchId, throws));
      var points := database.tables.points;
      var ok := database.Run(Rewrite(points - InBatch(points, batchId), throws));
      if !ok {
        ResyncCounts();
        return 0;
      }
      deleted := |InBatch(points, batchId)|;
      cachedTotal := cachedTotal - deleted;
    }

    method Release(batchId: nat, throws: bool) returns (released: nat)
      requires Valid()
      modifies this, database
      ensures Valid()
      ensures State() == Step(old(State()), Op.Release(batchId, throws))
      ensures released == if throws then 0 else |InBatch(old(database.tables.points), batchId)|
      ensures var was, rows := old(database.tables.points), database.tables.points;
        && rows.Keys == was.Keys
        && forall id :: id in was ==>
          if !throws && was[id].batch == Some(batchId) then Freed(was[id], rows[id]) else rows[id] == was[id]
    {
      HandBackRowByRow(State(), Op.Release(batchId, false));
      StepKeepsCounts(State(), Op.Release(batchId, throws));
      released := ReclaimRows(InBatch(database.tables.points, batchId), throws);
    }

    // Uploads that never came back: rows claimed longer ago than `age` (five minutes
    // unless the caller says otherwise) are handed back. Times are milliseconds.
    method RecoverOrphanedClaims(now: int, age: int, throws: bool) returns (recovered: nat)
      requires Valid()
      modifies this, database
      ensures Valid()
      ensures State() == Step(old(State()), Recover(now - age, throws))
      ensures var was, rows := old(database.tables.points), database.tables.points;
        && rows.Keys == was.Keys
        && forall id :: id in was ==>
          if !throws && was[id].inFlight && now - was[id].claimedAt > age then Freed(was[id], rows[id]) else rows[id] == was[id]
      ensures throws ==> recovered == 0
      ensures cachedPending == old(cachedPending) + recovered
    {
      ghost var before := State();
      var cutoff := now - age;
      StepKeepsCounts(before, Recover(cutoff, throws));
      RecoverRowByRow(before, cutoff);
      recovered := ReclaimRows(Orphans(database.tables.points, cutoff), throws);
      if throws {
        CountedTotals(before);
      }
    }

    method ReclaimRows(who: set<string>, throws: bool) returns (recovered: nat)
      requires database.Valid() && database.saved == []
      modifies this, database
      ensures database.Valid() && database.saved == []
      ensures State() == Reclaim(old(State()), who, throws)
      ensures recovered == if throws then 0 else |who|
    {
      var points := database.tables.points;
      var ok := database.Run(Rewrite(HandedBack(points, who), throws));
      if !ok {
        ResyncCounts();
        return 0;
      }
      cachedPending := cachedPending + |who|;
      recovered := |who|;
    }

    // ---- overflow bookkeeping ------------------------------------------------------------

    // The tally of lost rows, written after the append has committed.
    method NoteOverflow(evicted: nat, at: int, failAt: Option<nat>, fault: Fault, readable: bool)
        returns (total: int, ok: bool)
      requires Valid()
      modifies session`cache, database
      ensures Valid()
      ensures total == old(session.cache.evictedTotal) + evicted
      ensures State() == Step(old(State()), WriteState(RecordEviction(total, at), ok))
      ensures old(session.Coherent()) && readable ==> session.Coherent()
    {
      StepKeepsCounts(State(), WriteState(RecordEviction(session.cache.evictedTotal + evicted, at), true));
      total := session.cache.evictedTotal + evicted;
      ok := session.Mutate(RecordEviction(total, at), failAt, fault, readable);
    }
  }

  // Where the statements of an append leave the tables and the sequence, before
  // the transaction is closed.
  ghost predicate InBody(b: Buffer, op: Op, ok: bool, inserted: bool, number: int, tables: Tables, sequence: int)
    requires op.Append?
  {
    var points, next, overflow := b.tables.points, NextSequence(b, op.readOk), Overflow(b);
    var unseeded := op.fault == SeedFails && b.sequence < 0;
    var unseen := op.id !in points;
    && ok == !(unseeded || op.fault == PersistFails || op.fault == InsertFails || (op.fault == EvictFails && unseen && overflow > 0))
    && sequence == (if unseeded then b.sequence else next)
    && (ok ==> inserted == unseen && number == next && tables.state == WithDeviceSeq(b.tables.state, next))
    && (ok && !unseen ==> tables.points == points)
    && (ok && unseen ==>
      var grown := points[op.id := NewRow(op.capture, next)];
      tables.points == grown - op.evict && if overflow > 0 then Oldest(grown, op.evict, overflow) else op.evict == {})
  }

  // Whatever an append leaves of the session state, a launch would load the same
  // snapshot from it.
  lemma AppendKeepsSnapshot(b: Buffer, op: Op)
    requires op.Append?
    ensures Load(AfterAppend(b, op).tables.state) == Load(b.tables.state)
  {
    hide Load, WithDeviceSeq, AfterAppend, ResultOf, NextSequence;
    AppendShape(b, op);
    SequenceIsNotInTheSnapshot(b.tables.state, NextSequence(b, op.readOk));
  }

  // What each answer says about the counters.
  lemma AppendCounters(b: Buffer, op: Op)
    requires op.Append?
    ensures var a, r := AfterAppend(b, op), ResultOf(b, op);
      && a.maxRows == b.maxRows && !r.NoSession?
      && (r.Failed? ==> a.total == |a.tables.points| && a.pending == |Pending(a.tables.points)|)
      && (r.Duplicate? ==> r.id == op.id && op.id in b.tables.points && a.total == b.total && a.pending == b.pending)
      && (r.Stored? ==> r == Stored(op.id, NextSequence(b, op.readOk), |op.evict|) && op.id !in b.tables.points)
      && (r.Stored? ==> a.total == b.total + (1 - |op.evict|) && a.pending == b.pending + (1 - |op.evict|))
  {
    hide NextSequence, Pending;
  }

  lemma AppendNeverBegan(b: Buffer, op: Op)
    requires op.Append? && op.fault == BeginFails && InInt64(NextSequence(b, op.readOk))
    ensures Possible(b, op) && ResultOf(b, op) == Failed
    ensures AfterAppend(b, op).tables == b.tables && AfterAppend(b, op).sequence == b.sequence
  {
    hide NextSequence;
  }

  // The close commits what the body did, or none of it.
  lemma AppendClosed(b: Buffer, op: Op, ok: bool, inserted: bool, number: int, tables: Tables, sequence: int)
    requires op.Append? && op.fault != BeginFails && InInt64(NextSequence(b, op.readOk))
    requires InBody(b, op, ok, inserted, number, tables, sequence)
    ensures Possible(b, op) && ResultOf(b, op).Failed? == !(ok && op.fault != CommitFails)
    ensures AfterAppend(b, op).tables == (if ok && op.fault != CommitFails then tables else b.tables)
    ensures AfterAppend(b, op).sequence == sequence
    ensures ok ==> inserted == (op.id !in b.tables.points) && number == NextSequence(b, op.readOk)
  {
    hide NextSequence, WithDeviceSeq, Oldest, NewRow;
  }

  // The session a capture is filed under. After any writes, appends and launches
  // whose newest refresh could read the table, that is the session of the last
  // recorded claim.
  lemma FixIsFiledUnderTheLastClaim(s: Session, events: seq<Event>, b: Buffer, op: Op)
    requires Consistent(s) && LastRefreshRead(events)
    requires op.Append? && Possible(b, op) && Counted(b) && ResultOf(b, op).Stored? && op.id in Step(b, op).tables.points
    requires var cache := SessionStore.After(s, events).cache;
      cache.sessionId.Some? && op.capture.session == cache.sessionId.value
    ensures var claim := LastClaim((Load(s.state).sessionId, Load(s.state).reference), events);
      claim.0 == Some(Step(b, op).tables.points[op.id].session)
  {
    SessionIsTheLastClaim(s, events);
    CacheIsRightExactlyWhen(s, events);
    AppendRowByRow(b, op);
    hide SessionStore.After, LastClaim, LastRefreshRead, Possible, Counted, ResultOf, Step, Load;
  }

  lemma ChosenSome(points: Points, chosen: set<string>, n: nat)
    requires Oldest(points, chosen, n) && n > 0
    ensures chosen == {} <==> Pending(points) == {}
    ensures chosen <= points.Keys
  {
  }

  lemma CountedTotals(b: Buffer)
    requires Counted(b)
    ensures Resynced(b) == b
  {
  }

  lemma CountedPending(b: Buffer)
    requires Counted(b)
    ensures b.pending == |Pending(b.tables.points)|
  {
  }

  lemma AllChosen(chosen: set<string>, candidates: set<string>)
    requires chosen <= candidates && |chosen| == |candidates|
    ensures chosen == candidates
  {
    SubsetSize(chosen, candidates);
    assert candidates == chosen + (candidates - chosen);
  }

  lemma ClaimedBatch(points: Points, chosen: set<string>, batchId: nat, now: int)
    requires chosen <= points.Keys && InBatch(points, batchId) == {}
    ensures InBatch(Claimed(points, chosen, batchId, now), batchId) == chosen
  {
    assert forall id :: id in points ==> id !in InBatch(points, batchId);
  }
}
