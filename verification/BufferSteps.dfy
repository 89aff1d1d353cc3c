// What each operation of the offline buffer does to the tables, the two
// in-memory counters and the sequence number, stated on values. The class that
// performs the operations is in PointBuffer.dfy; whole histories are below.
module BufferSteps {
  import opened Options
  import opened Numbers
  import opened Decimal
  import opened SessionStore

  type Points = map<string, Row>

  // The tables at rest, and what the process holds in memory.
  datatype Buffer = Buffer(tables: Tables, total: int, pending: int, sequence: int, maxRows: int)

  datatype Capture = Capture(session: string, recordedAt: int)

  datatype AppendResult = Stored(id: string, deviceSeq: int, evicted: nat) | Duplicate(id: string) | NoSession | Failed

  // The statement of an append that throws, if one does.
  datatype AppendFault = AppendSound | BeginFails | SeedFails | PersistFails | InsertFails | EvictFails | CommitFails

  function Pending(points: Points): set<string> {
    set id | id in points && !points[id].inFlight
  }

  function InFlight(points: Points): set<string> {
    set id | id in points && points[id].inFlight
  }

  function InBatch(points: Points, batch: nat): set<string> {
    set id | id in points && points[id].batch == Some(batch)
  }

  // `ORDER BY recorded_at ASC LIMIT n` over the pending rows; ties are the
  // engine's to break.
  ghost predicate Oldest(points: Points, chosen: set<string>, n: nat) {
    && chosen <= Pending(points)
    && |chosen| == Min(n, |Pending(points)|)
    && forall c, o :: c in chosen && o in Pending(points) - chosen ==> points[c].recordedAt <= points[o].recordedAt
  }

  // ---- the sequence number ------------------------------------------------------

  ghost predicate IsMaxSeq(points: Points, m: int) {
    if points == map[] then m == 0
    else (exists id :: id in points && points[id].deviceSeq == m) && forall id :: id in points ==> points[id].deviceSeq <= m
  }

  lemma MaxSeqExists(points: Points)
    ensures exists m :: IsMaxSeq(points, m)
    decreases |points|
  {
    if points == map[] {
      assert IsMaxSeq(points, 0);
    } else {
      var id :| id in points;
      var rest := points - {id};
      MaxSeqExists(rest);
      var m :| IsMaxSeq(rest, m);
      if rest == map[] || points[id].deviceSeq > m {
        assert forall other :: other in points ==> other == id || other in rest;
        assert IsMaxSeq(points, points[id].deviceSeq);
      } else {
        var top :| top in rest && rest[top].deviceSeq == m;
        assert points[top].deviceSeq == m;
        assert forall other :: other in points ==> other == id || other in rest;
        assert IsMaxSeq(points, m);
      }
    }
  }

  // MAX(device_seq), and zero over an empty table.
  ghost function MaxSeq(points: Points): (m: int)
    ensures IsMaxSeq(points, m)
  {
    MaxSeqExists(points);
    var m :| IsMaxSeq(points, m);
    m
  }

  // The number the next append takes. Seeded on first use from the larger of the
  // persisted counter and the table's maximum; a counter that cannot be read
  // counts as zero.
  ghost function NextSequence(b: Buffer, readOk: bool): int {
    1 + if b.sequence < 0 then Max(if readOk then DeviceSeqOf(b.tables.state) else 0, MaxSeq(b.tables.points)) else b.sequence
  }

  // ---- the operations -----------------------------------------------------------

  datatype Op =
    | Append(id: string, capture: Capture, readOk: bool, fault: AppendFault, evict: set<string>)
    | Claim(limit: int, batch: nat, now: int, chosen: set<string>, throws: bool)
    | Acknowledge(batch: nat, throws: bool)
    | Release(batch: nat, throws: bool)
    | Recover(cutoff: int, throws: bool)
    | WriteState(m: Mutation, committed: bool)
    | Relaunch(throws: bool)

  function NewRow(capture: Capture, deviceSeq: int): Row {
    Row(capture.session, capture.recordedAt, deviceSeq, false, None, 0, 0)
  }

  // The counters recounted from the table.
  function Resynced(b: Buffer): Buffer {
    b.(total := |b.tables.points|, pending := |Pending(b.tables.points)|)
  }

  function Overflow(b: Buffer): int { b.total + 1 - b.maxRows }

  // The rows a choice of victims may be, for an append that stores its row.
  ghost predicate Victims(b: Buffer, op: Op)
    requires op.Append?
  {
    if !ResultOf(b, op).Stored? then true
    else if Overflow(b) > 0 then Oldest(b.tables.points[op.id := NewRow(op.capture, NextSequence(b, op.readOk))], op.evict, Overflow(b))
    else op.evict == {}
  }

  ghost function ResultOf(b: Buffer, op: Op): AppendResult
    requires op.Append?
  {
    if op.fault == BeginFails || (op.fault == SeedFails && b.sequence < 0) || op.fault == PersistFails
       || op.fault == InsertFails || op.fault == CommitFails then Failed
    else if op.id in b.tables.points then Duplicate(op.id)
    else if op.fault == EvictFails && Overflow(b) > 0 then Failed
    else Stored(op.id, NextSequence(b, op.readOk), |op.evict|)
  }

  ghost function AfterAppend(b: Buffer, op: Op): Buffer
    requires op.Append?
  {
    var next := NextSequence(b, op.readOk);
    var state := WithDeviceSeq(b.tables.state, next);
    if op.fault == BeginFails || (op.fault == SeedFails && b.sequence < 0) then Resynced(b)
    else match ResultOf(b, op)
      case Failed => Resynced(b.(sequence := next))
      case Duplicate(_) => b.(sequence := next, tables := b.tables.(state := state))
      case Stored(id, _, evicted) =>
        b.(sequence := next,
           tables := Tables(b.tables.points[id := NewRow(op.capture, next)] - op.evict, state),
           total := b.total + (1 - evicted),
           pending := b.pending + (1 - evicted))
      case NoSession => b
  }

  function Claimed(points: Points, chosen: set<string>, batch: nat, now: int): Points {
    map id | id in points ::
      if id in chosen then points[id].(inFlight := true, batch := Some(batch), claimedAt := now) else points[id]
  }

  // Rows handed back to the queue, with the try remembered.
  function HandedBack(points: Points, who: set<string>): Points {
    map id | id in points ::
      if id in who then points[id].(inFlight := false, batch := None, claimedAt := 0, attempts := points[id].attempts + 1)
      else points[id]
  }

  function WithPoints(b: Buffer, points: Points): Buffer {
    b.(tables := b.tables.(points := points))
  }

  function Orphans(points: Points, cutoff: int): set<string> {
    set id | id in points && points[id].inFlight && points[id].claimedAt < cutoff
  }

  function Reclaim(b: Buffer, who: set<string>, throws: bool): Buffer {
    if throws then Resynced(b)
    else WithPoints(b, HandedBack(b.tables.points, who)).(pending := b.pending + |who|)
  }

  ghost function Step(b: Buffer, op: Op): Buffer {
    var points := b.tables.points;
    match op
    case Append(_, _, _, _, _) => AfterAppend(b, op)
    case Claim(_, batch, now, chosen, throws) =>
      if throws then Resynced(b)
      else WithPoints(b, Claimed(points, chosen, batch, now)).(pending := b.pending - |chosen|)
    case Acknowledge(batch, throws) =>
      if throws then Resynced(b)
      else WithPoints(b, points - InBatch(points, batch)).(total := b.total - |InBatch(points, batch)|)
    case Release(batch, throws) => Reclaim(b, InBatch(points, batch), throws)
    case Recover(cutoff, throws) => Reclaim(b, Orphans(points, cutoff), throws)
    case WriteState(m, committed) => if committed then b.(tables := b.tables.(state := Mutated(m, b.tables.state))) else b
    // The process dies and a new one opens the file: memory is gone, the tables are not.
    case Relaunch(throws) => Reclaim(Resynced(b.(sequence := -1)), InFlight(points), throws)
  }

  // What the environment owes an operation: the engine's choices are oldest
  // first, batch ids are new, and the 64-bit counter has room.
  ghost predicate Possible(b: Buffer, op: Op) {
    match op
    case Append(_, _, _, _, _) => Victims(b, op) && InInt64(NextSequence(b, op.readOk))
    case Claim(limit, batch, _, chosen, _) => Oldest(b.tables.points, chosen, Max(limit, 1)) && InBatch(b.tables.points, batch) == {}
    case _ => true
  }

  // ---------------------------------------------------------------------------
  // The counters
  // ---------------------------------------------------------------------------

  // A row carries a batch id exactly when it is in flight.
  predicate Marked(points: Points) {
    forall id :: id in points ==> (points[id].inFlight <==> points[id].batch.Some?)
  }

  // The counters agree with the table.
  predicate Counted(b: Buffer) {
    && Marked(b.tables.points)
    && b.total == |b.tables.points|
    && b.pending == |Pending(b.tables.points)|
    && b.maxRows >= 1
  }

  lemma PendingPlusInFlight(points: Points)
    ensures |points| == |Pending(points)| + |InFlight(points)|
  {
    assert points.Keys == Pending(points) + InFlight(points);
    assert Pending(points) !! InFlight(points);
    assert |points| == |points.Keys|;
  }

  lemma RemovedRows(points: Points, who: set<string>)
    requires who <= points.Keys
    ensures |points - who| == |points| - |who|
    ensures Pending(points - who) == Pending(points) - who && InFlight(points - who) == InFlight(points) - who
  {
    assert (points - who).Keys == points.Keys - who;
    assert |points - who| == |(points - who).Keys|;
    assert |points| == |points.Keys|;
  }

  lemma InsertedRow(points: Points, id: string, row: Row)
    requires id !in points && !row.inFlight
    ensures |points[id := row]| == |points| + 1
    ensures Pending(points[id := row]) == Pending(points) + {id} && |Pending(points[id := row])| == |Pending(points)| + 1
    ensures InFlight(points[id := row]) == InFlight(points)
  {
    assert points[id := row].Keys == points.Keys + {id};
    assert |points[id := row]| == |points[id := row].Keys|;
    assert |points| == |points.Keys|;
  }

  lemma SubsetSize(a: set<string>, b: set<string>)
    requires a <= b
    ensures |b - a| == |b| - |a|
  {
  }

  lemma ClaimedRows(points: Points, chosen: set<string>, batch: nat, now: int)
    requires chosen <= Pending(points)
    ensures var after := Claimed(points, chosen, batch, now);
      after.Keys == points.Keys && |after| == |points|
      && Pending(after) == Pending(points) - chosen && InFlight(after) == InFlight(points) + chosen
      && |Pending(after)| == |Pending(points)| - |chosen|
  {
    var after := Claimed(points, chosen, batch, now);
    assert after.Keys == points.Keys;
    assert |after| == |after.Keys| && |points| == |points.Keys|;
    SubsetSize(chosen, Pending(points));
  }

  lemma HandedBackRows(points: Points, who: set<string>)
    requires who <= InFlight(points)
    ensures var after := HandedBack(points, who);
      after.Keys == points.Keys && |after| == |points|
      && Pending(after) == Pending(points) + who && InFlight(after) == InFlight(points) - who
      && |Pending(after)| == |Pending(points)| + |who|
  {
    var after := HandedBack(points, who);
    assert after.Keys == points.Keys;
    assert |after| == |after.Keys| && |points| == |points.Keys|;
    assert Pending(points) !! who;
  }

  lemma BatchIsInFlight(points: Points, batch: nat)
    requires Marked(points)
    ensures InBatch(points, batch) <= InFlight(points)
  {
  }

  lemma InsertThenEvict(points: Points, id: string, row: Row, evict: set<string>)
    requires Marked(points) && id !in points && !row.inFlight && row.batch == None
    requires evict <= Pending(points[id := row])
    ensures var after := points[id := row] - evict;
      Marked(after) && |after| == |points| + 1 - |evict| && |Pending(after)| == |Pending(points)| + 1 - |evict|
  {
    var grown := points[id := row];
    InsertedRow(points, id, row);
    RemovedRows(grown, evict);
    SubsetSize(evict, Pending(grown));
  }

  lemma AppendKeepsCounts(b: Buffer, op: Op)
    requires op.Append? && Counted(b) && Possible(b, op)
    ensures Counted(AfterAppend(b, op))
  {
    hide WithDeviceSeq, NextSequence, InInt64, Pending, Marked;
    if ResultOf(b, op).Stored? {
      var row := NewRow(op.capture, NextSequence(b, op.readOk));
      assert op.evict <= Pending(b.tables.points[op.id := row]) by { VictimsArePending(b, op); }
      InsertThenEvict(b.tables.points, op.id, row, op.evict);
    }
  }

  lemma VictimsArePending(b: Buffer, op: Op)
    requires op.Append? && Victims(b, op) && ResultOf(b, op).Stored?
    ensures op.evict <= Pending(b.tables.points[op.id := NewRow(op.capture, NextSequence(b, op.readOk))])
  {
    hide NextSequence;
  }

  lemma AppendKeepsCap(b: Buffer, op: Op)
    requires op.Append?
    ensures AfterAppend(b, op).maxRows == b.maxRows
  {
    hide NextSequence;
  }

  lemma AcknowledgedRows(points: Points, batch: nat)
    requires Marked(points)
    ensures var after := points - InBatch(points, batch);
      Marked(after) && |after| == |points| - |InBatch(points, batch)| && |Pending(after)| == |Pending(points)|
  {
    BatchIsInFlight(points, batch);
    RemovedRows(points, InBatch(points, batch));
    assert Pending(points) - InBatch(points, batch) == Pending(points);
  }

  lemma OrphansAreInFlight(points: Points, cutoff: int)
    ensures Orphans(points, cutoff) <= InFlight(points)
  {
  }

  lemma ClaimMarks(points: Points, chosen: set<string>, batch: nat, now: int)
    requires Marked(points)
    ensures Marked(Claimed(points, chosen, batch, now))
  {
  }

  lemma HandingBackMarks(points: Points, who: set<string>)
    requires Marked(points)
    ensures Marked(HandedBack(points, who))
  {
  }

  lemma RestartKeepsCounts(b: Buffer)
    requires Counted(b)
    ensures Counted(Resynced(b.(sequence := -1)))
  {
  }

  lemma ReclaimKeepsCounts(b: Buffer, who: set<string>, throws: bool)
    requires Counted(b) && who <= InFlight(b.tables.points)
    ensures Counted(Reclaim(b, who, throws))
  {
    HandedBackRows(b.tables.points, who);
    HandingBackMarks(b.tables.points, who);
    hide Marked, Pending, InFlight, HandedBack;
  }

  lemma ClaimKeepsCounts(b: Buffer, op: Op)
    requires Counted(b) && op.Claim? && op.chosen <= Pending(b.tables.points)
    ensures Counted(Step(b, op))
  {
    ClaimedRows(b.tables.points, op.chosen, op.batch, op.now);
    ClaimMarks(b.tables.points, op.chosen, op.batch, op.now);
    hide Marked, Pending, InFlight, Claimed;
  }

  lemma AcknowledgeKeepsCounts(b: Buffer, op: Op)
    requires Counted(b) && op.Acknowledge?
    ensures Counted(Step(b, op))
  {
    AcknowledgedRows(b.tables.points, op.batch);
    hide Marked, Pending, InFlight, InBatch;
  }

  lemma WritingKeepsCounts(b: Buffer, op: Op)
    requires Counted(b) && op.WriteState?
    ensures Counted(Step(b, op))
  {
    hide Mutated, Pending, Marked;
  }

  // After every operation, thrown or not, the counters are the table's counts.
  lemma StepKeepsCounts(b: Buffer, op: Op)
    requires Counted(b) && Possible(b, op)
    ensures Counted(Step(b, op)) && Step(b, op).maxRows == b.maxRows
  {
    var points := b.tables.points;
    assert Marked(points);
    hide Counted, AfterAppend, Pending, InFlight, InBatch, Claimed, HandedBack, Mutated, NextSequence, Victims, Marked;
    match op
    case Append(_, _, _, _, _) =>
      AppendKeepsCounts(b, op);
      AppendKeepsCap(b, op);
    case Claim(_, _, _, chosen, _) =>
      assert chosen <= Pending(points);
      ClaimKeepsCounts(b, op);
    case Acknowledge(_, _) =>
      AcknowledgeKeepsCounts(b, op);
    case Release(batch, throws) =>
      BatchIsInFlight(points, batch);
      ReclaimKeepsCounts(b, InBatch(points, batch), throws);
    case Recover(cutoff, throws) =>
      OrphansAreInFlight(points, cutoff);
      ReclaimKeepsCounts(b, Orphans(points, cutoff), throws);
    case Relaunch(throws) =>
      RestartKeepsCounts(b);
      ReclaimKeepsCounts(Resynced(b.(sequence := -1)), InFlight(points), throws);
    case WriteState(_, _) => WritingKeepsCounts(b, op);
  }

  // ---------------------------------------------------------------------------
  // The cap
  // ---------------------------------------------------------------------------

  // An append that overflows leaves exactly as many rows as the cap, or as many
  // as are in flight when those alone exceed it. Only pending rows go, none of
  // them newer than a pending row that stays, and no row in flight is touched.
  lemma OverflowLandsOnTheCap(b: Buffer, op: Op)
    requires op.Append? && Counted(b) && Possible(b, op) && ResultOf(b, op).Stored? && Overflow(b) > 0
    ensures var after := AfterAppend(b, op).tables.points;
      && |after| == Max(b.maxRows, |InFlight(b.tables.points)|)
      && InFlight(after) == InFlight(b.tables.points)
      && (forall id :: id in InFlight(after) ==> after[id] == b.tables.points[id])
      && var grown := b.tables.points[op.id := NewRow(op.capture, NextSequence(b, op.readOk))];
         op.evict <= Pending(grown) && (forall gone, stays :: gone in op.evict && stays in Pending(after) ==>
           grown[gone].recordedAt <= after[stays].recordedAt)
  {
    var points := b.tables.points;
    var row := NewRow(op.capture, NextSequence(b, op.readOk));
    var grown := points[op.id := row];
    InsertedRow(points, op.id, row);
    RemovedRows(grown, op.evict);
    PendingPlusInFlight(points);
    assert op.evict !! InFlight(grown);
  }

  // No operation takes a buffer that is within the cap beyond it.
  lemma StepKeepsCap(b: Buffer, op: Op)
    requires Counted(b) && Possible(b, op) && |b.tables.points| <= b.maxRows
    ensures |Step(b, op).tables.points| <= b.maxRows
  {
    hide AfterAppend, Victims, NextSequence, InInt64, Mutated, Claimed, HandedBack;
    var points := b.tables.points;
    match op
    case Append(_, _, _, _, _) => AppendKeepsWithin(b, op);
    case Claim(_, batch, now, chosen, throws) => ClaimedRows(points, chosen, batch, now);
    case Acknowledge(batch, throws) => RemovedRows(points, InBatch(points, batch));
    case Release(batch, throws) =>
      BatchIsInFlight(points, batch);
      HandedBackRows(points, InBatch(points, batch));
    case Recover(cutoff, throws) => HandedBackRows(points, Orphans(points, cutoff));
    case Relaunch(throws) => HandedBackRows(points, InFlight(points));
    case WriteState(_, _) =>
  }

  lemma AppendKeepsWithin(b: Buffer, op: Op)
    requires op.Append? && Counted(b) && Possible(b, op) && |b.tables.points| <= b.maxRows
    ensures |AfterAppend(b, op).tables.points| <= b.maxRows
  {
    if ResultOf(b, op).Stored? && Overflow(b) > 0 {
      OverflowLandsOnTheCap(b, op);
      PendingPlusInFlight(b.tables.points);
    } else {
      AppendKeepsCounts(b, op);
      hide NextSequence, WithDeviceSeq, Oldest;
    }
  }

  // ---------------------------------------------------------------------------
  // Row by row
  // ---------------------------------------------------------------------------

  // A row handed back: pending again, one try older, and otherwise the row it was.
  predicate Freed(was: Row, row: Row) {
    && !row.inFlight && row.batch == None && row.claimedAt == 0 && row.attempts == was.attempts + 1
    && row.session == was.session && row.recordedAt == was.recordedAt && row.deviceSeq == was.deviceSeq
  }

  // A row sent out: in flight under the batch since `now`, and otherwise the row it was.
  predicate SentOut(was: Row, row: Row, batch: nat, now: int) {
    && !was.inFlight && row.inFlight && row.batch == Some(batch) && row.claimedAt == now && row.attempts == was.attempts
    && row.session == was.session && row.recordedAt == was.recordedAt && row.deviceSeq == was.deviceSeq
  }

  // A sound age-out frees exactly the rows in flight claimed before the cutoff.
  lemma RecoverRowByRow(b: Buffer, cutoff: int)
    ensures var was, now := b.tables.points, Step(b, Recover(cutoff, false)).tables.points;
      && now.Keys == was.Keys
      && forall id :: id in was ==>
        if was[id].inFlight && was[id].claimedAt < cutoff then Freed(was[id], now[id]) else now[id] == was[id]
  {
    assert forall id :: id in b.tables.points ==>
      (id in Orphans(b.tables.points, cutoff) <==> b.tables.points[id].inFlight && b.tables.points[id].claimedAt < cutoff);
  }

  // A sound hand-back frees exactly the rows of the batch, a relaunch all rows in flight.
  lemma HandBackRowByRow(b: Buffer, op: Op)
    requires (op.Release? || op.Relaunch?) && !op.throws
    ensures var was, now := b.tables.points, Step(b, op).tables.points;
      && now.Keys == was.Keys
      && forall id :: id in was ==>
        if (if op.Release? then was[id].batch == Some(op.batch) else was[id].inFlight) then Freed(was[id], now[id])
        else now[id] == was[id]
  {
    var points := b.tables.points;
    assert op.Release? ==> forall id :: id in points ==> (id in InBatch(points, op.batch) <==> points[id].batch == Some(op.batch));
    assert forall id :: id in points ==> (id in InFlight(points) <==> points[id].inFlight);
  }

  // A sound acknowledgement removes exactly the rows of the batch.
  lemma AcknowledgeRowByRow(b: Buffer, batch: nat)
    ensures var was, now := b.tables.points, Step(b, Acknowledge(batch, false)).tables.points;
      && (forall id :: id in now <==> id in was && was[id].batch != Some(batch))
      && forall id :: id in now ==> now[id] == was[id]
  {
    assert forall id :: id in b.tables.points ==> (id in InBatch(b.tables.points, batch) <==> b.tables.points[id].batch == Some(batch));
  }

  // A sound claim sends out pending rows, as many as asked for (one at least) or as
  // there are, none later than a pending row it leaves.
  lemma ClaimRowByRow(b: Buffer, op: Op)
    requires op.Claim? && !op.throws && Possible(b, op) && Counted(b)
    ensures var was, now := b.tables.points, Step(b, op).tables.points;
      && now.Keys == was.Keys
      && (forall id :: id in was ==> if id in op.chosen then SentOut(was[id], now[id], op.batch, op.now) else now[id] == was[id])
      && (forall c, o :: c in op.chosen && o in was && !now[o].inFlight ==> was[c].recordedAt <= was[o].recordedAt)
      && op.chosen <= was.Keys
      && |op.chosen| == if b.pending < (if op.limit > 1 then op.limit else 1) then b.pending else if op.limit > 1 then op.limit else 1
  {
    var points := b.tables.points;
    assert forall id :: id in points ==> (id in Pending(points) <==> !points[id].inFlight);
  }

  // A stored append brings one pending row of the capture, never sent before, under
  // the number it reports; what it evicts was pending, and every other row is as it was.
  lemma AppendRowByRow(b: Buffer, op: Op)
    requires op.Append? && Possible(b, op) && Counted(b) && ResultOf(b, op).Stored?
    ensures var was, now := b.tables.points, Step(b, op).tables.points;
      && op.id !in was
      && (op.id in now ==>
        now[op.id] == Row(op.capture.session, op.capture.recordedAt, ResultOf(b, op).deviceSeq, false, None, 0, 0))
      && (forall id :: id in now && id != op.id ==> id in was && now[id] == was[id])
      && (forall id :: id in was && id !in now ==> !was[id].inFlight)
      && (b.total + 1 <= b.maxRows ==> now.Keys == was.Keys + {op.id})
  {
    AppendShape(b, op);
    VictimsArePending(b, op);
    hide AfterAppend, NextSequence, WithDeviceSeq, Counted;
    var points, next := b.tables.points, NextSequence(b, op.readOk);
    assert forall id :: id in op.evict && id in points ==> !points[id].inFlight;
  }

  // A sound append stores an id it has not got, under the number after the last
  // one handed out, and answers a duplicate for one it has; one whose statement
  // throws leaves the tables as they were.
  lemma AppendAnswers(b: Buffer, op: Op)
    requires op.Append?
    ensures var r, was, now := ResultOf(b, op), b.tables, Step(b, op).tables;
      && (op.fault == AppendSound ==> r == if op.id in was.points then Duplicate(op.id) else Stored(op.id, r.deviceSeq, |op.evict|))
      && (op.fault in {BeginFails, PersistFails, InsertFails, CommitFails} ==> r == Failed)
      && (r == Failed ==> now == was)
      && (r.Duplicate? ==> op.id in was.points && now.points == was.points)
      && (r.Stored? ==> Step(b, op).sequence == r.deviceSeq && (b.sequence >= 0 ==> r.deviceSeq == b.sequence + 1))
  {
    hide MaxSeq, DeviceSeqOf, WithDeviceSeq, Pending;
  }

  // ---- how long a claim is held ------------------------------------------------------

  // An operation that may not free or remove a row claimed at `at` under `batch`:
  // any but the resolution of that batch, a relaunch, and an age-out that has
  // reached its time; and those too if their statement throws.
  predicate Spares(op: Op, batch: nat, at: int) {
    match op
    case Acknowledge(other, throws) => throws || other != batch
    case Release(other, throws) => throws || other != batch
    case Recover(cutoff, throws) => throws || cutoff <= at
    case Relaunch(throws) => throws
    case _ => true
  }

  lemma ClaimedRowStays(b: Buffer, op: Op, id: string, batch: nat, at: int)
    requires Counted(b) && Possible(b, op) && Spares(op, batch, at)
    requires id in b.tables.points && b.tables.points[id].inFlight
    requires b.tables.points[id].batch == Some(batch) && b.tables.points[id].claimedAt == at
    ensures id in Step(b, op).tables.points && Step(b, op).tables.points[id] == b.tables.points[id]
  {
    match op
    case Append(_, _, _, _, _) => AppendSparesInFlight(b, op, id);
    case Claim(_, _, _, _, throws) =>
      if !throws {
        ClaimRowByRow(b, op);
      }
    case Acknowledge(other, throws) =>
      if !throws {
        AcknowledgeRowByRow(b, other);
      }
    case Release(_, throws) =>
      if !throws {
        HandBackRowByRow(b, op);
      }
    case Recover(cutoff, throws) =>
      if !throws {
        RecoverRowByRow(b, cutoff);
      }
    case _ =>
  }

  lemma AppendSparesInFlight(b: Buffer, op: Op, id: string)
    requires op.Append? && Counted(b) && Possible(b, op) && id in b.tables.points && b.tables.points[id].inFlight
    ensures id in Step(b, op).tables.points && Step(b, op).tables.points[id] == b.tables.points[id]
  {
    AppendShape(b, op);
    if ResultOf(b, op).Stored? {
      AppendRowByRow(b, op);
    }
    hide AfterAppend, NextSequence, WithDeviceSeq, Counted, Victims, ResultOf;
  }

  // ---------------------------------------------------------------------------
  // Identity
  // ---------------------------------------------------------------------------

  // The key a fix is sent and deduplicated under never changes while it is buffered.
  lemma StepKeepsIdentity(b: Buffer, op: Op, id: string)
    requires id in b.tables.points && id in Step(b, op).tables.points
    ensures var was, now := b.tables.points[id], Step(b, op).tables.points[id];
      was.session == now.session && was.recordedAt == now.recordedAt && was.deviceSeq == now.deviceSeq
  {
  }

  // ---------------------------------------------------------------------------
  // Histories
  // ---------------------------------------------------------------------------

  // A buffer together with the sequence numbers of all rows ever committed, in
  // commit order.
  datatype History = History(buffer: Buffer, committed: seq<int>)

  ghost function Advance(h: History, op: Op): History {
    History(Step(h.buffer, op),
            if op.Append? && ResultOf(h.buffer, op).Stored? then h.committed + [ResultOf(h.buffer, op).deviceSeq] else h.committed)
  }

  ghost function After(h: History, ops: seq<Op>): History {
    if ops == [] then h else Advance(After(h, ops[..|ops| - 1]), ops[|ops| - 1])
  }

  ghost predicate Run(h: History, ops: seq<Op>) {
    forall i :: 0 <= i < |ops| ==> Possible(After(h, ops[..i]).buffer, ops[i])
  }

  lemma RunPrefix(h: History, ops: seq<Op>, n: nat)
    requires Run(h, ops) && n <= |ops|
    ensures Run(h, ops[..n])
  {
    forall i | 0 <= i < n
      ensures Possible(After(h, ops[..n][..i]).buffer, ops[..n][i])
    {
      assert ops[..n][..i] == ops[..i];
    }
  }

  lemma {:induction false} RunKeepsCountsAndCap(h: History, ops: seq<Op>)
    requires Run(h, ops) && Counted(h.buffer)
    ensures Counted(After(h, ops).buffer) && After(h, ops).buffer.maxRows == h.buffer.maxRows
    ensures |h.buffer.tables.points| <= h.buffer.maxRows ==> |After(h, ops).buffer.tables.points| <= h.buffer.maxRows
  {
    if ops != [] {
      var n := |ops| - 1;
      RunPrefix(h, ops, n);
      RunKeepsCountsAndCap(h, ops[..n]);
      StepKeepsCounts(After(h, ops[..n]).buffer, ops[n]);
      if |h.buffer.tables.points| <= h.buffer.maxRows {
        StepKeepsCap(After(h, ops[..n]).buffer, ops[n]);
      }
    }
  }

  lemma RunUnfold(h: History, ops: seq<Op>, n: nat)
    requires Run(h, ops) && n < |ops|
    ensures Run(h, ops[..n]) && Possible(After(h, ops[..n]).buffer, ops[n])
  {
    RunPrefix(h, ops, n);
  }

  lemma {:induction false} ClaimedRowIsHeld(h: History, ops: seq<Op>, id: string, batch: nat, at: int)
    requires Counted(h.buffer) && Run(h, ops) && forall i :: 0 <= i < |ops| ==> Spares(ops[i], batch, at)
    requires id in h.buffer.tables.points && h.buffer.tables.points[id].inFlight
    requires h.buffer.tables.points[id].batch == Some(batch) && h.buffer.tables.points[id].claimedAt == at
    ensures var points := After(h, ops).buffer.tables.points;
      id in points && points[id] == h.buffer.tables.points[id]
  {
    hide Run, Possible, Counted, Spares, Step;
    if ops != [] {
      var n := |ops| - 1;
      RunUnfold(h, ops, n);
      ClaimedRowIsHeld(h, ops[..n], id, batch, at);
      RunKeepsCountsAndCap(h, ops[..n]);
      ClaimedRowStays(After(h, ops[..n]).buffer, ops[n], id, batch, at);
    }
  }

  // A row claimed at `now` and not resolved keeps everything it had through any
  // captures, other claims and resolutions and all age-outs with a cutoff up to
  // `now`; the first sound one with a later cutoff frees it.
  lemma ClaimIsHeldUntilItsAge(h: History, claim: Op, ops: seq<Op>, id: string, cutoff: int)
    requires Counted(h.buffer) && claim.Claim? && !claim.throws && Possible(h.buffer, claim) && id in claim.chosen
    requires Run(Advance(h, claim), ops) && forall i :: 0 <= i < |ops| ==> Spares(ops[i], claim.batch, claim.now)
    ensures var claimed, held := Step(h.buffer, claim).tables.points, After(Advance(h, claim), ops).buffer;
      && id in claimed && id in held.tables.points && id in Step(held, Recover(cutoff, false)).tables.points
      && SentOut(h.buffer.tables.points[id], claimed[id], claim.batch, claim.now)
      && held.tables.points[id] == claimed[id]
      && var row := Step(held, Recover(cutoff, false)).tables.points[id];
         if cutoff > claim.now then Freed(claimed[id], row) else row == claimed[id]
  {
    ClaimRowByRow(h.buffer, claim);
    StepKeepsCounts(h.buffer, claim);
    hide Run, Possible, Counted, Spares, Step;
    ClaimedRowIsHeld(Advance(h, claim), ops, id, claim.batch, claim.now);
    RecoverRowByRow(After(Advance(h, claim), ops).buffer, cutoff);
  }

  predicate Ascending(s: seq<int>) {
    forall i, j :: 0 <= i < j < |s| ==> s[i] < s[j]
  }

  // Neither the persisted counter nor the one in memory is behind a committed
  // number, and buffered rows are committed rows.
  predicate Numbered(h: History) {
    var b := h.buffer;
    && Ascending(h.committed)
    && (forall i :: 0 <= i < |h.committed| ==> 0 < h.committed[i] <= DeviceSeqOf(b.tables.state))
    && (b.sequence < 0 || forall i :: 0 <= i < |h.committed| ==> h.committed[i] <= b.sequence)
    && DeviceSeqOf(b.tables.state) >= 0
    && AllCommitted(b.tables.points, h.committed)
  }

  // Seeding is safe when the counter could be read, or the newest number ever
  // committed is still on a buffered row.
  ghost predicate SeedSafe(h: History, op: Op) {
    op.Append? && h.buffer.sequence < 0 && !op.readOk && h.committed != [] ==>
      exists id :: id in h.buffer.tables.points && h.buffer.tables.points[id].deviceSeq == h.committed[|h.committed| - 1]
  }

  lemma MutationKeepsDeviceSeq(m: Mutation, state: State)
    ensures DeviceSeqOf(Mutated(m, state)) == DeviceSeqOf(state)
  {
    MutatedLookup(m, state, DeviceSeq);
    hide Overlay;
  }

  lemma PersistedDeviceSeq(state: State, next: int)
    requires InInt64(next)
    ensures DeviceSeqOf(WithDeviceSeq(state, next)) == next
  {
    RoundTrip(next);
  }

  // A first append numbers its row above everything ever committed exactly when
  // its seed was safe: read or buffered.
  lemma SeedingIsSafeExactlyWhen(h: History, op: Op)
    requires Numbered(h) && op.Append? && h.buffer.sequence < 0
    ensures (forall i :: 0 <= i < |h.committed| ==> h.committed[i] < NextSequence(h.buffer, op.readOk)) <==> SeedSafe(h, op)
  {
    var points, m := h.buffer.tables.points, MaxSeq(h.buffer.tables.points);
    if h.committed != [] {
      var last := h.committed[|h.committed| - 1];
      assert forall i :: 0 <= i < |h.committed| ==> h.committed[i] <= last;
      if !op.readOk && !SeedSafe(h, op) && points != map[] {
        var top :| top in points && points[top].deviceSeq == m;
        assert m in h.committed && m < last;
      }
    }
  }

  // The number taken beats every committed one.
  lemma NextIsNew(h: History, op: Op)
    requires Numbered(h) && op.Append? && SeedSafe(h, op)
    ensures forall i :: 0 <= i < |h.committed| ==> h.committed[i] < NextSequence(h.buffer, op.readOk)
    ensures NextSequence(h.buffer, op.readOk) > 0
  {
    if h.buffer.sequence < 0 {
      SeedingIsSafeExactlyWhen(h, op);
      var points := h.buffer.tables.points;
      if points != map[] {
        var top :| top in points && points[top].deviceSeq == MaxSeq(points);
        assert points[top].deviceSeq in h.committed;
      }
    }
  }

  lemma CommittedOneMore(committed: seq<int>, next: int)
    requires Ascending(committed) && forall i :: 0 <= i < |committed| ==> committed[i] < next
    ensures Ascending(committed + [next])
  {
  }

  predicate AllCommitted(points: Points, committed: seq<int>) {
    forall id :: id in points ==> points[id].deviceSeq in committed
  }

  lemma RowsOneMore(points: Points, committed: seq<int>, id: string, row: Row, evict: set<string>)
    requires AllCommitted(points, committed)
    ensures AllCommitted(points[id := row] - evict, committed + [row.deviceSeq])
  {
    assert (committed + [row.deviceSeq])[|committed|] == row.deviceSeq;
    assert forall n :: n in committed ==> n in committed + [row.deviceSeq];
  }

  // Where an append can leave the number and the rows.
  lemma AppendShape(b: Buffer, op: Op)
    requires op.Append?
    ensures var after, next := AfterAppend(b, op), NextSequence(b, op.readOk);
      && (after.sequence == b.sequence || after.sequence == next)
      && (after.tables.state == b.tables.state || after.tables.state == WithDeviceSeq(b.tables.state, next))
      && (if ResultOf(b, op).Stored? then
            && ResultOf(b, op).deviceSeq == next == after.sequence && after.tables.state == WithDeviceSeq(b.tables.state, next)
            && after.tables.points == b.tables.points[op.id := NewRow(op.capture, next)] - op.evict
          else after.tables.points == b.tables.points)
  {
    hide NextSequence, WithDeviceSeq, Pending;
  }

  lemma AppendStaysNumbered(h: History, op: Op)
    requires Numbered(h) && op.Append? && Possible(h.buffer, op) && SeedSafe(h, op)
    ensures Numbered(Advance(h, op))
  {
    var b, next := h.buffer, NextSequence(h.buffer, op.readOk);
    assert InInt64(next);
    hide AfterAppend, ResultOf, DeviceSeqOf, WithDeviceSeq, NextSequence, Ascending, AllCommitted, SeedSafe, Possible;
    NextIsNew(h, op);
    PersistedDeviceSeq(b.tables.state, next);
    CommittedOneMore(h.committed, next);
    RowsOneMore(b.tables.points, h.committed, op.id, NewRow(op.capture, next), op.evict);
    AppendShape(b, op);
  }

  lemma StepStaysNumbered(h: History, op: Op)
    requires Numbered(h) && Possible(h.buffer, op) && SeedSafe(h, op)
    ensures Numbered(Advance(h, op))
  {
    if op.Append? {
      AppendStaysNumbered(h, op);
    } else {
      hide DeviceSeqOf, NextSequence, AfterAppend, ResultOf, Mutated, SeedSafe, Possible, Ascending;
      if op.WriteState? {
        MutationKeepsDeviceSeq(op.m, h.buffer.tables.state);
      }
      forall id | id in Step(h.buffer, op).tables.points
        ensures id in h.buffer.tables.points
        ensures Step(h.buffer, op).tables.points[id].deviceSeq == h.buffer.tables.points[id].deviceSeq
      {
      }
    }
  }

  // Through rollbacks, evictions, full drains, kills and relaunches: no two rows
  // ever committed share a number, and numbers rise in commit order.
  lemma {:induction false} NumbersNeverRepeat(h: History, ops: seq<Op>)
    requires Run(h, ops) && Numbered(h)
    requires forall i :: 0 <= i < |ops| ==> SeedSafe(After(h, ops[..i]), ops[i])
    ensures Numbered(After(h, ops))
  {
    hide Numbered, SeedSafe, Possible, Advance;
    if ops != [] {
      var n := |ops| - 1;
      RunPrefix(h, ops, n);
      SeedsPrefix(h, ops, n);
      NumbersNeverRepeat(h, ops[..n]);
      StepStaysNumbered(After(h, ops[..n]), ops[n]);
    }
  }

  lemma SeedsPrefix(h: History, ops: seq<Op>, n: nat)
    requires n <= |ops| && forall i :: 0 <= i < |ops| ==> SeedSafe(After(h, ops[..i]), ops[i])
    ensures forall i :: 0 <= i < n ==> SeedSafe(After(h, ops[..n][..i]), ops[..n][i])
  {
    hide SeedSafe, After;
    forall i | 0 <= i < n
      ensures SeedSafe(After(h, ops[..n][..i]), ops[..n][i])
    {
      assert ops[..n][..i] == ops[..i];
    }
  }

  // Without a safe seed the promise fails: number 1 was committed, its row
  // acknowledged, the app relaunched, and the first append cannot read the
  // counter; it hands out 1 again.
  lemma UnreadableSeedRepeats()
    ensures var h := History(Buffer(Tables(map[], WithDeviceSeq(map[], 1)), 0, 0, -1, 10), [1]);
      var op := Append("B", Capture("s", 0), false, AppendSound, {});
      Numbered(h) && Possible(h.buffer, op) && !SeedSafe(h, op) && Advance(h, op).committed == [1, 1]
  {
    PersistedDeviceSeq(map[], 1);
    hide DeviceSeqOf, WithDeviceSeq;
  }
}
