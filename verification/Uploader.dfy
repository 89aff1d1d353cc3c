// The upload actor: who may run a pass, which wakes a pass answers, and what one
// pass does to the buffer and to the backoff.
module Uploader {
  import opened Options
  import opened BufferSteps
  import B = PointBuffer
  import S = SessionStore
  import U = UploadBackoff

  // ---------------------------------------------------------------------------
  // The actor's sections
  // ---------------------------------------------------------------------------

  // `passes` maps each running drainOnce to the upload it is waiting for, if any;
  // `queued` counts drains that wake() asked for and that have not started. Times
  // are positions in the run: of the latest wake, and of the latest pass start.
  datatype Actor = Actor(
    draining: bool, wakeAgain: bool, queued: nat, passes: map<nat, Option<nat>>, now: nat, lastWake: nat, lastPass: nat)

  // One uninterrupted stretch of actor code, or an upload's beginning and end.
  datatype Section =
    | Wake
    | Drain(fromQueue: bool)
    | PassEnds(pass: nat)
    | UploadBegins(pass: nat, batch: nat)
    | UploadEnds(pass: nat)

  // A pass is named by the moment it started; starting one recovers orphans first.
  function StartPass(a: Actor): Actor {
    a.(passes := a.passes[a.now := None], lastPass := a.now, wakeAgain := false, draining := true)
  }

  function Next(a: Actor, s: Section): Actor {
    var a := a.(now := a.now + 1);
    match s
    case Wake =>
      if a.draining then a.(wakeAgain := true, lastWake := a.now) else a.(queued := a.queued + 1, lastWake := a.now)
    case Drain(fromQueue) =>
      var a := if fromQueue && a.queued > 0 then a.(queued := a.queued - 1) else a;
      if a.draining then a.(wakeAgain := true) else StartPass(a)
    case PassEnds(pass) =>
      var a := a.(passes := a.passes - {pass});
      if a.wakeAgain then StartPass(a) else a.(draining := false)
    case UploadBegins(pass, batch) => a.(passes := a.passes[pass := Some(batch)])
    case UploadEnds(pass) => a.(passes := a.passes[pass := None])
  }

  predicate Enabled(a: Actor, s: Section) {
    match s
    case Drain(fromQueue) => fromQueue ==> a.queued > 0
    case PassEnds(pass) => pass in a.passes && a.passes[pass] == None
    case UploadBegins(pass, _) => pass in a.passes && a.passes[pass] == None
    case UploadEnds(pass) => pass in a.passes && a.passes[pass].Some?
    case Wake => true
  }

  predicate Orderly(a: Actor) {
    && (if a.draining then a.passes.Keys == {a.lastPass} else a.passes == map[])
    // A wake no pass has answered yet still has one coming.
    && (0 < a.lastWake && a.lastPass <= a.lastWake ==> a.queued > 0 || (a.draining && a.wakeAgain))
    && a.lastWake <= a.now && a.lastPass <= a.now
  }

  function Idle(): Actor { Actor(false, false, 0, map[], 0, 0, 0) }

  // Whether this section begins a pass, and so recovers orphaned claims.
  predicate StartsPass(a: Actor, s: Section) {
    (s.Drain? && !a.draining) || (s.PassEnds? && a.wakeAgain)
  }

  // When a pass starts, no other pass runs and no upload is live: what recovery
  // takes back belongs to nobody.
  lemma RecoveryFindsNoLiveUpload(a: Actor, s: Section)
    requires Orderly(a) && Enabled(a, s) && StartsPass(a, s)
    ensures Next(a, s).passes == map[Next(a, s).lastPass := None] && Next(a, s).lastPass == Next(a, s).now > a.lastWake
  {
    if s.PassEnds? {
      assert (a.passes - {s.pass}).Keys == {};
      assert a.passes - {s.pass} == map[];
    }
  }

  lemma SectionStaysOrderly(a: Actor, s: Section)
    requires Orderly(a) && Enabled(a, s)
    ensures Orderly(Next(a, s))
  {
    if StartsPass(a, s) {
      RecoveryFindsNoLiveUpload(a, s);
    } else if s.PassEnds? {
      assert (a.passes - {s.pass}).Keys == {};
    }
  }

  ghost function After(a: Actor, run: seq<Section>): Actor {
    if run == [] then a else Next(After(a, run[..|run| - 1]), run[|run| - 1])
  }

  ghost predicate Run(a: Actor, run: seq<Section>) {
    forall i :: 0 <= i < |run| ==> Enabled(After(a, run[..i]), run[i])
  }

  lemma {:induction false} RunsStayOrderly(a: Actor, run: seq<Section>)
    requires Orderly(a) && Run(a, run)
    ensures Orderly(After(a, run)) && After(a, run).now == a.now + |run|
  {
    if run != [] {
      var n := |run| - 1;
      assert Run(a, run[..n]) by {
        assert forall i :: 0 <= i < n ==> run[..n][..i] == run[..i];
      }
      hide Next, Enabled, Orderly;
      RunsStayOrderly(a, run[..n]);
      SectionStaysOrderly(After(a, run[..n]), run[n]);
      NowCounts(a, run);
    }
  }

  lemma {:induction false} WakeIsRemembered(a: Actor, run: seq<Section>, i: nat)
    requires i < |run| && run[i] == Wake
    ensures After(a, run).lastWake >= a.now + i + 1
    decreases |run|
  {
    var n := |run| - 1;
    NowCounts(a, run[..n]);
    if i < n {
      WakeIsRemembered(a, run[..n], i);
      LastWakeGrows(After(a, run[..n]), run[n], a.now + i + 1);
    }
  }

  lemma {:induction false} NowCounts(a: Actor, run: seq<Section>)
    ensures After(a, run).now == a.now + |run|
  {
    if run != [] {
      NowCounts(a, run[..|run| - 1]);
    }
  }

  lemma LastWakeGrows(a: Actor, s: Section, t: nat)
    requires a.lastWake >= t && a.now + 1 >= t
    ensures Next(a, s).lastWake >= t
  {
  }

  // At most one pass at any moment of any run; and when everything is quiet
  // again, a pass began after every wake there was. The i-th section of a run is
  // at time i + 1.
  lemma NoWakeIsLost(run: seq<Section>, i: nat)
    requires Run(Idle(), run) && i < |run| && run[i] == Wake
    ensures var a := After(Idle(), run);
      |a.passes| <= 1 && (!a.draining && a.queued == 0 ==> a.lastPass > i + 1)
  {
    var a := After(Idle(), run);
    RunsStayOrderly(Idle(), run);
    WakeIsRemembered(Idle(), run, i);
    assert |a.passes| == |a.passes.Keys|;
  }

  // ---------------------------------------------------------------------------
  // The passes and the rows
  // ---------------------------------------------------------------------------

  // The actor together with the buffer it drives.
  datatype App = App(actor: Actor, buffer: Buffer)

  datatype Move =
    // A wake, a drain or the end of a pass; a pass that starts recovers first.
    | Runs(section: Section, cutoff: int, throws: bool)
    // A running pass claims, and uploads what it got.
    | Claims(pass: nat, op: Op)
    // Its upload is over: acknowledged, or handed back.
    | Resolves(pass: nat, acknowledged: bool, throws: bool)
    // A capture or a session write, at any moment.
    | Meanwhile(op: Op)

  ghost function Moved(p: App, m: Move): App {
    match m
    case Runs(section, cutoff, throws) =>
      App(Next(p.actor, section), if StartsPass(p.actor, section) then Step(p.buffer, Recover(cutoff, throws)) else p.buffer)
    case Claims(pass, op) =>
      App(if op.Claim? && !op.throws && op.chosen != {} then Next(p.actor, UploadBegins(pass, op.batch)) else p.actor, Step(p.buffer, op))
    case Resolves(pass, acknowledged, throws) =>
      if pass !in p.actor.passes || p.actor.passes[pass].None? then p
      else
        var batch := p.actor.passes[pass].value;
        App(Next(p.actor, UploadEnds(pass)), Step(p.buffer, if acknowledged then Acknowledge(batch, throws) else Release(batch, throws)))
    case Meanwhile(op) => p.(buffer := Step(p.buffer, op))
  }

  ghost predicate CanMove(p: App, m: Move) {
    match m
    case Runs(section, _, _) => (section.Wake? || section.Drain? || section.PassEnds?) && Enabled(p.actor, section)
    case Claims(pass, op) => pass in p.actor.passes && p.actor.passes[pass] == None && op.Claim? && Possible(p.buffer, op)
    case Resolves(pass, _, _) => pass in p.actor.passes && p.actor.passes[pass].Some?
    case Meanwhile(op) => (op.Append? || op.WriteState?) && Possible(p.buffer, op)
  }

  ghost predicate InStep(p: App) { Orderly(p.actor) && Counted(p.buffer) }

  lemma MoveStaysInStep(p: App, m: Move)
    requires InStep(p) && CanMove(p, m)
    ensures InStep(Moved(p, m))
  {
    hide Step, Counted, Possible;
    match m
    case Runs(section, cutoff, throws) =>
      SectionStaysOrderly(p.actor, section);
      PossibleAlways(p.buffer, Recover(cutoff, throws));
      StepKeepsCounts(p.buffer, Recover(cutoff, throws));
    case Claims(pass, op) =>
      SectionStaysOrderly(p.actor, UploadBegins(pass, op.batch));
      StepKeepsCounts(p.buffer, op);
    case Resolves(pass, acknowledged, throws) =>
      var batch := p.actor.passes[pass].value;
      var op := if acknowledged then Acknowledge(batch, throws) else Release(batch, throws);
      SectionStaysOrderly(p.actor, UploadEnds(pass));
      PossibleAlways(p.buffer, op);
      StepKeepsCounts(p.buffer, op);
    case Meanwhile(op) => StepKeepsCounts(p.buffer, op);
  }

  lemma PossibleAlways(b: Buffer, op: Op)
    requires op.Acknowledge? || op.Release? || op.Recover?
    ensures Possible(b, op)
  {
  }

  // A capture or a session write leaves every batch as it is: what it adds or
  // evicts carries no batch id.
  lemma CaptureKeepsBatch(b: Buffer, op: Op, batch: nat)
    requires Counted(b) && (op.Append? || op.WriteState?) && Possible(b, op)
    ensures InBatch(Step(b, op).tables.points, batch) == InBatch(b.tables.points, batch)
  {
    if op.Append? {
      AppendShape(b, op);
      if ResultOf(b, op).Stored? {
        VictimsArePending(b, op);
        NewcomerHasNoBatch(b.tables.points, op.id, NewRow(op.capture, NextSequence(b, op.readOk)), op.evict, batch);
        assert op.id !in b.tables.points;
      }
      hide AfterAppend, ResultOf, NextSequence, Victims, Counted, Pending, InBatch;
    }
  }

  lemma NewcomerHasNoBatch(points: Points, id: string, row: S.Row, evict: set<string>, batch: nat)
    requires Marked(points) && row.batch == None && id !in points && evict <= Pending(points[id := row])
    ensures InBatch(points[id := row] - evict, batch) == InBatch(points, batch)
  {
    var after := points[id := row] - evict;
    assert forall other :: other in InBatch(points, batch) ==> other in after && after[other] == points[other];
  }

  // While an upload is live, no step but its own resolution touches its rows: not a
  // capture, not an eviction, not another claim, and not the recovery of orphans.
  lemma LiveUploadKeepsItsRows(p: App, m: Move, pass: nat, batch: nat)
    requires InStep(p) && CanMove(p, m) && pass in p.actor.passes && p.actor.passes[pass] == Some(batch)
    requires !(m.Resolves? && m.pass == pass)
    ensures var after := Moved(p, m);
      && InBatch(after.buffer.tables.points, batch) == InBatch(p.buffer.tables.points, batch)
      && pass in after.actor.passes && after.actor.passes[pass] == Some(batch)
  {
    assert p.actor.draining && p.actor.passes.Keys == {p.actor.lastPass};
    assert forall q :: q in p.actor.passes ==> q == pass;
    hide Step, Counted, Possible, InBatch;
    match m
    case Runs(section, cutoff, throws) =>
      assert !StartsPass(p.actor, section);
    case Meanwhile(op) => CaptureKeepsBatch(p.buffer, op, batch);
    case _ =>
  }

  ghost function MovedAll(p: App, run: seq<Move>): App {
    if run == [] then p else Moved(MovedAll(p, run[..|run| - 1]), run[|run| - 1])
  }

  // A run in which this pass's upload is not resolved.
  ghost predicate Underway(p: App, run: seq<Move>, pass: nat) {
    forall i :: 0 <= i < |run| ==> CanMove(MovedAll(p, run[..i]), run[i]) && !(run[i].Resolves? && run[i].pass == pass)
  }

  lemma UnderwayBefore(p: App, run: seq<Move>, pass: nat, n: nat)
    requires Underway(p, run, pass) && n < |run|
    ensures Underway(p, run[..n], pass) && CanMove(MovedAll(p, run[..n]), run[n]) && !(run[n].Resolves? && run[n].pass == pass)
  {
    hide CanMove, MovedAll;
    assert forall i :: 0 <= i < n ==> run[..n][..i] == run[..i];
  }

  lemma {:induction false} RowsStayWithTheirUpload(p: App, run: seq<Move>, pass: nat, batch: nat)
    requires InStep(p) && Underway(p, run, pass) && pass in p.actor.passes && p.actor.passes[pass] == Some(batch)
    ensures var after := MovedAll(p, run);
      && InStep(after) && pass in after.actor.passes && after.actor.passes[pass] == Some(batch)
      && InBatch(after.buffer.tables.points, batch) == InBatch(p.buffer.tables.points, batch)
  {
    hide InStep, CanMove, Moved, InBatch, Underway;
    if run != [] {
      var n := |run| - 1;
      UnderwayBefore(p, run, pass, n);
      RowsStayWithTheirUpload(p, run[..n], pass, batch);
      LiveUploadKeepsItsRows(MovedAll(p, run[..n]), run[n], pass, batch);
      MoveStaysInStep(MovedAll(p, run[..n]), run[n]);
    }
  }

  // However long an upload takes and whatever happens meanwhile, what its answer
  // deletes, or its failure hands back, is exactly what it claimed.
  lemma UploadResolvesWhatItClaimed(p: App, claim: Move, run: seq<Move>)
    requires InStep(p) && claim.Claims? && CanMove(p, claim) && !claim.op.throws && claim.op.chosen != {}
    requires Underway(Moved(p, claim), run, claim.pass)
    ensures var after := MovedAll(Moved(p, claim), run);
      && CanMove(after, Resolves(claim.pass, true, false))
      && InBatch(after.buffer.tables.points, claim.op.batch) == claim.op.chosen
      && Moved(after, Resolves(claim.pass, true, false)).buffer.tables.points == after.buffer.tables.points - claim.op.chosen
      && Moved(after, Resolves(claim.pass, false, false)).buffer.tables.points == HandedBack(after.buffer.tables.points, claim.op.chosen)
  {
    var q := Moved(p, claim);
    MoveStaysInStep(p, claim);
    assert claim.op.chosen <= p.buffer.tables.points.Keys;
    B.ClaimedBatch(p.buffer.tables.points, claim.op.chosen, claim.op.batch, claim.op.now);
    assert InBatch(q.buffer.tables.points, claim.op.batch) == claim.op.chosen;
    hide InBatch, InStep, Underway, MovedAll, Claimed;
    RowsStayWithTheirUpload(q, run, claim.pass, claim.op.batch);
  }

  // ---------------------------------------------------------------------------
  // One pass
  // ---------------------------------------------------------------------------

  datatype Outcome =
    | Answered(accepted: nat)
    | Transient
    | RateLimited(retryAfterSec: Option<int>)
    | BatchTooLarge
    | TokenExpired
    | SessionClosed
    | Unauthorised
    | Permanent
    | OtherError

  // What the world does during one turn of the loop.
  datatype Turn = Turn(
    cancelled: bool, askedAt: real, online: bool,
    claimFault: B.ClaimFault, batch: nat, claimedAt: int,
    outcome: Outcome, resolveThrows: bool, failedAt: real, random: real)

  const BATCH_SIZE := 200

  // The delay a failure names to the backoff.
  function HintOf(outcome: Outcome): Option<int> {
    match outcome
    case RateLimited(retryAfterSec) => retryAfterSec
    case BatchTooLarge => Some(5)
    case TokenExpired => Some(60)
    case SessionClosed => Some(300)
    case Unauthorised => Some(300)
    case Permanent => Some(60)
    case _ => None
  }

  // These leave the pass before driver events are sent.
  predicate SkipsEvents(outcome: Outcome) {
    outcome.BatchTooLarge? || outcome.TokenExpired? || outcome.SessionClosed? || outcome.Unauthorised? || outcome.Permanent?
  }

  function TotalAccepted(turns: nat -> Turn, n: nat): nat {
    if n == 0 then 0
    else TotalAccepted(turns, n - 1) + if turns(n - 1).outcome.Answered? then turns(n - 1).outcome.accepted else 0
  }

  predicate Clear(t: Turn, until: real) {
    !t.cancelled && !(t.askedAt < until) && t.online
  }

  predicate Within(wait: real, asked: real) { asked <= wait < 1.2 * asked }

  // What each way a turn can end does to the gate: an answer opens it; a delay the
  // server names, or the one each refusal stands for, is kept and stretched by
  // less than a fifth; any other failure costs at least the first step of the schedule.
  predicate Honours(t: Turn, until: real) {
    var wait := until - t.failedAt;
    match t.outcome
    case Answered(_) => until == 0.0
    case RateLimited(Some(n)) => if n > 0 then Within(wait, n as real) else 15.0 <= wait < 360.0
    case RateLimited(None) => 15.0 <= wait < 360.0
    case BatchTooLarge => Within(wait, 5.0)
    case TokenExpired => Within(wait, 60.0)
    case SessionClosed => Within(wait, 300.0)
    case Unauthorised => Within(wait, 300.0)
    case Permanent => Within(wait, 60.0)
    case Transient => 15.0 <= wait < 360.0
    case OtherError => 15.0 <= wait < 360.0
  }

  lemma GateHonoursTheOutcome(b: U.Backoff, t: Turn)
    requires 0.0 <= t.random < 1.0
    ensures Honours(t, AfterSent(b, t).until)
  {
    U.FailureCosts(U.BASE, U.CAP, b, HintOf(t.outcome), t.failedAt, t.random);
    hide U.AfterFailure;
  }

  // The table after a turn that sent `chosen`: an answer deletes the rows, any
  // failure hands them back one try older, and a statement that throws leaves
  // them in flight.
  ghost function AfterTurn(points: Points, t: Turn, chosen: set<string>): Points {
    if t.resolveThrows then Claimed(points, chosen, t.batch, t.claimedAt)
    else if t.outcome.Answered? then points - chosen
    else HandedBack(points, chosen)
  }

  // The ids a turn removes.
  function Gone(t: Turn, chosen: set<string>): set<string> {
    if t.outcome.Answered? && !t.resolveThrows then chosen else {}
  }

  lemma ClaimThenResolve(points: Points, t: Turn, chosen: set<string>)
    requires InBatch(points, t.batch) == {} && chosen <= points.Keys
    ensures var claimed := Claimed(points, chosen, t.batch, t.claimedAt);
      && InBatch(claimed, t.batch) == chosen
      && claimed - chosen == points - chosen
      && HandedBack(claimed, chosen) == HandedBack(points, chosen)
  {
    B.ClaimedBatch(points, chosen, t.batch, t.claimedAt);
  }

  // What a claim may choose, and that one which chooses nothing changes nothing.
  lemma ClaimOutcome(b: Buffer, op: Op)
    requires op.Claim? && Possible(b, op)
    ensures op.chosen <= Pending(b.tables.points) <= b.tables.points.Keys && (op.chosen == {} <==> Pending(b.tables.points) == {})
    ensures op.throws || op.chosen == {} ==> Step(b, op).tables.points == b.tables.points
  {
    assert Claimed(b.tables.points, {}, op.batch, op.now) == b.tables.points;
  }

  function Resolution(t: Turn): Op {
    if t.outcome.Answered? then Acknowledge(t.batch, t.resolveThrows) else Release(t.batch, t.resolveThrows)
  }

  lemma TurnIsTwoSteps(b: Buffer, op: Op, t: Turn)
    requires op.Claim? && !op.throws && op.batch == t.batch && op.now == t.claimedAt
    requires InBatch(b.tables.points, t.batch) == {} && op.chosen <= b.tables.points.Keys
    ensures Step(Step(b, op), Resolution(t)).tables.points == AfterTurn(b.tables.points, t, op.chosen)
  {
    ClaimThenResolve(b.tables.points, t, op.chosen);
    hide Claimed, HandedBack, InBatch, Pending;
  }

  lemma TurnKeys(points: Points, t: Turn, chosen: set<string>)
    requires chosen <= points.Keys
    ensures AfterTurn(points, t, chosen).Keys == points.Keys - Gone(t, chosen)
  {
  }

  // Batch ids of later turns stay unused.
  lemma TurnKeepsUnused(points: Points, t: Turn, chosen: set<string>, other: nat)
    requires InBatch(points, other) == {} && other != t.batch
    ensures InBatch(AfterTurn(points, t, chosen), other) == {}
  {
    assert forall id :: id in points ==> id !in InBatch(points, other);
  }

  // Every answered turn leaves strictly fewer rows to send.
  lemma TurnShrinksQueue(points: Points, t: Turn, chosen: set<string>)
    requires chosen <= Pending(points) && chosen != {} && t.outcome.Answered?
    ensures |Pending(AfterTurn(points, t, chosen))| < |Pending(points)|
  {
    assert Pending(AfterTurn(points, t, chosen)) == Pending(points) - chosen;
    SubsetSize(chosen, Pending(points));
  }

  class Uploader {
    const buffer: B.PointBuffer
    const backoff: U.UploadBackoff
    var draining: bool
    var wakeAgain: bool
    var queued: nat
    ghost var passes: map<nat, Option<nat>>
    ghost var now: nat
    ghost var lastWake: nat
    ghost var lastPass: nat

    constructor (buffer: B.PointBuffer, backoff: U.UploadBackoff)
      ensures this.buffer == buffer && this.backoff == backoff && State() == Idle()
    {
      this.buffer := buffer;
      this.backoff := backoff;
      draining, wakeAgain, queued := false, false, 0;
      passes, now, lastWake, lastPass := map[], 0, 0, 0;
    }

    ghost function State(): Actor
      reads this
    {
      Actor(draining, wakeAgain, queued, passes, now, lastWake, lastPass)
    }

    ghost function Rows(): Points
      reads buffer, buffer.database
    {
      buffer.database.tables.points
    }

    method Wake()
      modifies this
      ensures State() == Next(old(State()), Section.Wake)
    {
      now := now + 1;
      lastWake := now;
      if draining {
        wakeAgain := true;
        return;
      }
      queued := queued + 1;
    }

    // drain() up to the point where its first pass waits, if it gets one.
    method Drain(fromQueue: bool) returns (runs: bool)
      requires Enabled(State(), Section.Drain(fromQueue))
      modifies this
      ensures State() == Next(old(State()), Section.Drain(fromQueue)) && runs == !old(draining)
    {
      now := now + 1;
      if fromQueue {
        queued := queued - 1;
      }
      if draining {
        wakeAgain := true;
        return false;
      }
      draining := true;
      BeginPass();
      runs := true;
    }

    // The head of the repeat loop.
    method BeginPass()
      modifies this`wakeAgain, this`passes, this`lastPass
      ensures !wakeAgain && passes == old(passes)[now := None] && lastPass == now
    {
      wakeAgain := false;
      passes := passes[now := None];
      lastPass := now;
    }

    // The tail of the repeat loop, and the deferred reset after it.
    method PassReturned(ghost pass: nat) returns (again: bool)
      requires draining && Enabled(State(), PassEnds(pass))
      modifies this
      ensures State() == Next(old(State()), PassEnds(pass))
      ensures again == old(wakeAgain)
    {
      now := now + 1;
      passes := passes - {pass};
      again := wakeAgain;
      if again {
        BeginPass();
      } else {
        draining := false;
      }
    }

    // One turn of the loop. Nothing is sent unless the gate is open and there is
    // a row to send.
    method TakeTurn(t: Turn) returns (sent: bool, ghost chosen: set<string>)
      requires buffer.Valid() && backoff.base == U.BASE && backoff.cap == U.CAP
      requires InBatch(Rows(), t.batch) == {}
      modifies buffer, buffer.database, backoff
      ensures buffer.Valid()
      ensures var points := old(Rows());
        && (sent ==> Clear(t, old(backoff.until)) && chosen != {} && chosen <= Pending(points) <= points.Keys)
        && (!sent ==> !Clear(t, old(backoff.until)) || t.claimFault != B.ClaimSound || Pending(points) == {})
        && Rows() == if sent then AfterTurn(points, t, chosen) else points
      ensures backoff.State() == if sent then AfterSent(old(backoff.State()), t) else old(backoff.State())
      // Before the gate opens, off line or cancelled, nothing is sent and nothing
      // changes; what is sent is at most two hundred rows, and the gate afterwards
      // honours how it ended.
      ensures t.cancelled || !t.online || t.askedAt < old(backoff.until) ==>
        !sent && buffer.State() == old(buffer.State()) && backoff.State() == old(backoff.State())
      ensures sent ==> |chosen| <= 200 && (0.0 <= t.random < 1.0 ==> Honours(t, backoff.until))
    {
      hide Step, Possible, Pending, InBatch, B.Reads, AfterTurn, AfterSent, Resolution, B.PointBuffer.Valid, Honours, SentOut;
      ghost var b := buffer.State();
      sent, chosen := false, {};
      if t.cancelled || backoff.ShouldWait(t.askedAt) || !t.online {
        return;
      }
      var claim, op := buffer.ClaimBatch(BATCH_SIZE, t.batch, t.claimedAt, t.claimFault);
      ClaimOutcome(b, op);
      if claim == None {
        return;
      }
      sent, chosen := true, op.chosen;
      TurnIsTwoSteps(b, op, t);
      Resolve(t);
    }

    // How the upload ended: an answer deletes the batch and clears the backoff, a
    // failure hands the batch back and closes the gate for a while.
    method Resolve(t: Turn)
      requires buffer.Valid() && backoff.base == U.BASE && backoff.cap == U.CAP
      modifies buffer, buffer.database, backoff
      ensures buffer.Valid() && buffer.State() == Step(old(buffer.State()), Resolution(t))
      ensures backoff.State() == AfterSent(old(backoff.State()), t)
      ensures 0.0 <= t.random < 1.0 ==> Honours(t, backoff.until)
    {
      hide Step, B.PointBuffer.Valid, Freed, Honours;
      if 0.0 <= t.random < 1.0 {
        GateHonoursTheOutcome(backoff.State(), t);
      }
      if t.outcome.Answered? {
        var deleted := buffer.Acknowledge(t.batch, t.resolveThrows);
        backoff.OnSuccess();
      } else {
        var released := buffer.Release(t.batch, t.resolveThrows);
        backoff.OnFailure(HintOf(t.outcome), t.failedAt, t.random);
      }
    }

    // One pass with nothing else touching the buffer: orphans are handed back,
    // then batches are sent until something stops it.
    method DrainOnce(now: int, recoverThrows: bool, turns: nat -> Turn)
        returns (accepted: nat, sendEvents: bool, ghost log: Log)
      requires buffer.Valid() && backoff.base == U.BASE && backoff.cap == U.CAP
      requires FreshBatches(Rows(), turns, 0)
      modifies buffer, buffer.database, backoff
      ensures buffer.Valid()
      ensures var before := old(Rows());
        var start := if recoverThrows then before else HandedBack(before, Orphans(before, now - 300000));
        Passed(start, old(backoff.State()), turns, log, accepted, sendEvents, Rows(), backoff.State())
    {
      ghost var b := buffer.State();
      var recovered := buffer.RecoverOrphanedClaims(now, B.ORPHAN_AGE, recoverThrows);
      RecoveryOutcome(b, now - B.ORPHAN_AGE, recoverThrows, turns);
      hide Step, Counted, HandedBack, Orphans, FreshBatches, Passed;
      accepted, sendEvents, log := SendWhileClear(turns);
    }

    // The loop of a pass.
    method SendWhileClear(turns: nat -> Turn) returns (accepted: nat, sendEvents: bool, ghost log: Log)
      requires buffer.Valid() && backoff.base == U.BASE && backoff.cap == U.CAP
      requires FreshBatches(Rows(), turns, 0)
      modifies buffer, buffer.database, backoff
      ensures buffer.Valid()
      ensures Passed(old(Rows()), old(backoff.State()), turns, log, accepted, sendEvents, Rows(), backoff.State())
    {
      hide Pending, AfterTurn, AfterSent, Sending, Passed, FreshBatches, Clear, InBatch, B.PointBuffer.Valid;
      ghost var start, b := Rows(), backoff.State();
      accepted, sendEvents := 0, true;
      log := Log(0, false, {}, {});
      var done := 0;
      SendingBegins(start, b, turns);
      while true
        invariant done == log.uploads && buffer.Valid() && sendEvents
        invariant Sending(start, b, turns, log, accepted, Rows(), backoff.State())
        decreases |Pending(Rows())|
      {
        var t := turns(done);
        ghost var points, last := Rows(), backoff.State();
        FreshNow(start, b, turns, log, accepted, points, last);
        var sent, chosen := TakeTurn(t);
        if !sent {
          SendingStops(start, b, turns, log, accepted, points, last);
          break;
        }
        if !t.outcome.Answered? {
          SendingFails(start, b, turns, log, accepted, points, last, chosen);
          log := log.(failed := true, refused := chosen);
          sendEvents := !SkipsEvents(t.outcome);
          break;
        }
        SendingGoesOn(start, b, turns, log, accepted, points, last, chosen);
        TurnShrinksQueue(points, t, chosen);
        log := log.(uploads := done + 1, answered := log.answered + Gone(t, chosen));
        accepted := accepted + t.outcome.accepted;
        done := done + 1;
      }
    }
  }

  // What a pass did: `uploads` turns were answered and `answered` rows deleted; if
  // `failed`, the turn after them was sent and went wrong, with `refused` handed
  // back; otherwise that turn is why the pass stopped.
  datatype Log = Log(uploads: nat, failed: bool, answered: set<string>, refused: set<string>)

  ghost predicate Passed(start: Points, b: U.Backoff, turns: nat -> Turn, log: Log, accepted: nat, sendEvents: bool,
                         points: Points, backoff: U.Backoff)
  {
    var last := turns(log.uploads);
    var lastUntil := if log.uploads == 0 then b.until else 0.0;
    && accepted == TotalAccepted(turns, log.uploads)
    // Requests leave only when the gate is open, and a failure is the last of them.
    && (forall i :: 0 <= i < log.uploads ==> turns(i).outcome.Answered? && Clear(turns(i), if i == 0 then b.until else 0.0))
    && (log.failed ==> !last.outcome.Answered? && Clear(last, lastUntil))
    && (!log.failed ==> log.refused == {})
    && (!log.failed ==> !Clear(last, lastUntil) || last.claimFault != B.ClaimSound || Pending(points) == {})
    && (sendEvents <==> !log.failed || last.outcome.Transient? || last.outcome.RateLimited? || last.outcome.OtherError?)
    && backoff == AfterPass(b, turns, log.uploads, log.failed)
    && (log.failed && 0.0 <= last.random < 1.0 ==> Honours(last, backoff.until))
    // Rows leave the buffer by an answer and in no other way.
    && log.answered <= start.Keys && points.Keys == start.Keys - log.answered && (log.uploads == 0 ==> log.answered == {})
    // If every resolution commits, answered rows are gone, refused rows are
    // pending one try older, and every other row is as it was.
    && log.answered + log.refused <= Pending(start)
    && (NoneThrows(turns) ==> points == HandedBack(start - log.answered, log.refused) && (log.answered == {} ==> log.uploads == 0))
  }

  ghost predicate NoneThrows(turns: nat -> Turn) {
    forall i: nat :: !turns(i).resolveThrows
  }

  // A pass in the middle.
  ghost predicate Sending(start: Points, b: U.Backoff, turns: nat -> Turn, log: Log, accepted: nat,
                          points: Points, backoff: U.Backoff)
  {
    && !log.failed && log.refused == {}
    && accepted == TotalAccepted(turns, log.uploads)
    && (forall i :: 0 <= i < log.uploads ==> turns(i).outcome.Answered? && Clear(turns(i), if i == 0 then b.until else 0.0))
    && backoff == AfterPass(b, turns, log.uploads, false)
    && log.answered <= start.Keys && points.Keys == start.Keys - log.answered && (log.uploads == 0 ==> log.answered == {})
    && FreshBatches(points, turns, log.uploads)
    && log.answered <= Pending(start) && Pending(points) <= Pending(start)
    && (NoneThrows(turns) ==> points == start - log.answered && (log.answered == {} ==> log.uploads == 0))
  }

  lemma SendingBegins(start: Points, b: U.Backoff, turns: nat -> Turn)
    requires FreshBatches(start, turns, 0)
    ensures Sending(start, b, turns, Log(0, false, {}, {}), 0, start, b)
  {
    hide FreshBatches;
  }

  lemma FreshNow(start: Points, b: U.Backoff, turns: nat -> Turn, log: Log, accepted: nat, points: Points, backoff: U.Backoff)
    requires Sending(start, b, turns, log, accepted, points, backoff)
    ensures InBatch(points, turns(log.uploads).batch) == {}
  {
  }

  lemma SendingStops(start: Points, b: U.Backoff, turns: nat -> Turn, log: Log, accepted: nat, points: Points, backoff: U.Backoff)
    requires Sending(start, b, turns, log, accepted, points, backoff)
    requires var t := turns(log.uploads);
      !Clear(t, backoff.until) || t.claimFault != B.ClaimSound || Pending(points) == {}
    ensures Passed(start, b, turns, log, accepted, true, points, backoff)
  {
    hide Pending, Clear, FreshBatches;
    HandedBackNothing(start - log.answered);
  }

  lemma SendingFails(start: Points, b: U.Backoff, turns: nat -> Turn, log: Log, accepted: nat, points: Points, backoff: U.Backoff,
                     chosen: set<string>)
    requires Sending(start, b, turns, log, accepted, points, backoff)
    requires var t := turns(log.uploads);
      !t.outcome.Answered? && Clear(t, backoff.until) && chosen <= Pending(points) <= points.Keys
    ensures var t := turns(log.uploads);
      Passed(start, b, turns, log.(failed := true, refused := chosen), accepted, !SkipsEvents(t.outcome),
             AfterTurn(points, t, chosen), AfterSent(backoff, t))
  {
    TurnKeys(points, turns(log.uploads), chosen);
    if 0.0 <= turns(log.uploads).random < 1.0 {
      GateHonoursTheOutcome(backoff, turns(log.uploads));
    }
    hide Honours, AfterSent, Pending, Clear, FreshBatches, HandedBack, Claimed;
  }

  lemma SendingGoesOn(start: Points, b: U.Backoff, turns: nat -> Turn, log: Log, accepted: nat, points: Points, backoff: U.Backoff,
                      chosen: set<string>)
    requires Sending(start, b, turns, log, accepted, points, backoff)
    requires var t := turns(log.uploads);
      t.outcome.Answered? && Clear(t, backoff.until) && chosen != {} && chosen <= Pending(points) <= points.Keys
    ensures var t := turns(log.uploads);
      Sending(start, b, turns, log.(uploads := log.uploads + 1, answered := log.answered + Gone(t, chosen)),
              accepted + t.outcome.accepted, AfterTurn(points, t, chosen), AfterSent(backoff, t))
  {
    var t := turns(log.uploads);
    TurnKeys(points, t, chosen);
    TurnKeepsFresh(points, turns, log.uploads, chosen);
    assert Pending(AfterTurn(points, t, chosen)) <= Pending(points);
    hide Pending, Clear, FreshBatches, Claimed;
    if NoneThrows(turns) {
      assert start - log.answered - chosen == start - (log.answered + chosen);
    }
  }

  // With the network up and every statement sound, one pass sends everything it
  // found: the rows that were pending, recovered ones included, are gone, nothing
  // else has changed, and the backoff is clear.
  lemma QuietPassSendsEverything(start: Points, b: U.Backoff, turns: nat -> Turn, log: Log, accepted: nat, sendEvents: bool,
                                 points: Points, backoff: U.Backoff)
    requires Passed(start, b, turns, log, accepted, sendEvents, points, backoff) && NoneThrows(turns)
    requires forall i: nat :: turns(i).outcome.Answered? && turns(i).claimFault == B.ClaimSound
    requires forall i: nat :: Clear(turns(i), 0.0) && Clear(turns(i), b.until)
    ensures points == start - Pending(start) && sendEvents
    ensures backoff == if Pending(start) == {} then b else U.Backoff(0.0, 0)
  {
    assert !log.failed && Pending(points) == {};
    HandedBackNothing(start - log.answered);
    assert Pending(start - log.answered) == Pending(start) - log.answered;
  }

  // ---- an outage -------------------------------------------------------------------

  function AttemptOf(t: Turn): U.Attempt { U.Attempt(t.askedAt, t.failedAt, HintOf(t.outcome), t.random) }

  function Attempts(turns: seq<Turn>): seq<U.Attempt> {
    seq(|turns|, i requires 0 <= i < |turns| => AttemptOf(turns[i]))
  }

  // The backoff after turns that were all sent.
  function AfterAll(turns: seq<Turn>): U.Backoff {
    if turns == [] then U.Backoff(0.0, 0) else AfterSent(AfterAll(turns[..|turns| - 1]), turns[|turns| - 1])
  }

  // Turns that were sent, each because its gate was open.
  predicate Gated(turns: seq<Turn>) {
    forall i :: 0 <= i < |turns| ==>
      && Clear(turns[i], AfterAll(turns[..i]).until)
      && turns[i].askedAt <= turns[i].failedAt && 0.0 <= turns[i].random < 1.0
  }

  // Whatever the turns came to: between a request and the next lies at least the
  // delay its end calls for, and after an answer nothing.
  lemma RequestsKeepTheirDistance(turns: seq<Turn>, i: nat)
    requires Gated(turns) && i + 1 < |turns|
    ensures turns[i].outcome.Answered? || exists until :: Honours(turns[i], until) && turns[i + 1].askedAt >= until
    ensures var gap := turns[i + 1].askedAt - turns[i].askedAt;
      match turns[i].outcome
      case Answered(_) => true
      case RateLimited(Some(n)) => if n > 0 then gap >= n as real else gap >= 15.0
      case BatchTooLarge => gap >= 5.0
      case TokenExpired => gap >= 60.0
      case SessionClosed => gap >= 300.0
      case Unauthorised => gap >= 300.0
      case Permanent => gap >= 60.0
      case _ => gap >= 15.0
  {
    assert turns[..i + 1][..i] == turns[..i];
    assert Clear(turns[i + 1], AfterAll(turns[..i + 1]).until);
    GateHonoursTheOutcome(AfterAll(turns[..i]), turns[i]);
    hide AfterSent, AfterAll, HintOf;
  }

  // An outage: no answer, and no delay named.
  predicate Outage(turns: seq<Turn>) {
    && Gated(turns)
    && forall i :: 0 <= i < |turns| ==>
      match turns[i].outcome
      case Transient => true
      case OtherError => true
      case RateLimited(retryAfterSec) => retryAfterSec == None || retryAfterSec.value <= 0
      case _ => false
  }

  lemma {:induction false} BackoffFollows(turns: seq<Turn>)
    requires Outage(turns)
    ensures AfterAll(turns) == U.AfterFailures(U.Backoff(0.0, 0), Attempts(turns))
  {
    if turns != [] {
      var before := turns[..|turns| - 1];
      assert forall i :: 0 <= i < |before| ==> before[..i] == turns[..i];
      BackoffFollows(before);
      assert Attempts(turns)[..|before|] == Attempts(before);
    }
  }

  // However the pump is woken, n requests into an outage take at least
  // 300 n - 1335 seconds.
  lemma OutagePacesThePump(turns: seq<Turn>)
    requires turns != [] && Outage(turns)
    ensures turns[|turns| - 1].askedAt - turns[0].askedAt >= 300.0 * |turns| as real - 1335.0
  {
    var attempts := Attempts(turns);
    forall i | 0 <= i < |turns|
      ensures U.AfterFailures(U.Backoff(0.0, 0), attempts[..i]).until <= attempts[i].start
    {
      GateOfAttempt(turns, i);
    }
    hide U.AfterFailures, AfterAll;
    U.OutageIsSlow(attempts);
  }

  // What keeps an attempt waiting is what kept its turn waiting.
  lemma GateOfAttempt(turns: seq<Turn>, i: nat)
    requires Outage(turns) && i < |turns|
    ensures U.AfterFailures(U.Backoff(0.0, 0), Attempts(turns)[..i]).until <= turns[i].askedAt
  {
    assert Outage(turns[..i]) by {
      assert forall k :: 0 <= k < i ==> turns[..i][..k] == turns[..k];
    }
    assert Clear(turns[i], AfterAll(turns[..i]).until);
    hide U.AfterFailures, AfterAll, Outage;
    BackoffFollows(turns[..i]);
    assert Attempts(turns)[..i] == Attempts(turns[..i]);
  }

  // ---- a batch the server calls too large -------------------------------------------

  // What the next claim takes after a refused batch is handed back: as many rows
  // as before, and the same rows when no two fixes share a time. The batch does
  // not get smaller.
  lemma SameBiteAgain(b: Buffer, limit: int, first: Op, second: Op)
    requires first.Claim? && !first.throws && Possible(b, first) && first.limit == limit
    requires var back := Step(Step(b, first), Release(first.batch, false));
      second.Claim? && Possible(back, second) && second.limit == limit
    ensures |second.chosen| == |first.chosen|
    ensures TimesDiffer(b.tables.points) ==> second.chosen == first.chosen
  {
    var points := b.tables.points;
    ClaimThenResolve(points, Turn(false, 0.0, true, B.ClaimSound, first.batch, first.now, BatchTooLarge, false, 0.0, 0.0), first.chosen);
    assert Pending(HandedBack(points, first.chosen)) == Pending(points);
    if TimesDiffer(points) {
      OldestIsUnique(points, first.chosen, second.chosen);
    }
  }

  ghost predicate TimesDiffer(points: Points) {
    forall p, q :: p in Pending(points) && q in Pending(points) && p != q ==> points[p].recordedAt != points[q].recordedAt
  }

  lemma OldestIsUnique(points: Points, a: set<string>, b: set<string>)
    requires |a| == |b| && TimesDiffer(points)
    requires Oldest(points, a, |a|) && Oldest(points, b, |b|)
    ensures a == b
  {
    forall p, q | p in a - b && q in b - a
      ensures points[p].recordedAt == points[q].recordedAt
    {
      NeitherIsOlder(points, a, b, p, q);
    }
    if a != b {
      SameSizeDiffer(a, b);
    }
  }

  lemma NeitherIsOlder(points: Points, a: set<string>, b: set<string>, p: string, q: string)
    requires Oldest(points, a, |a|) && Oldest(points, b, |b|) && p in a - b && q in b - a
    ensures points[p].recordedAt == points[q].recordedAt
  {
  }

  lemma SameSizeDiffer(a: set<string>, b: set<string>)
    requires |a| == |b| && a != b
    ensures a - b != {} && b - a != {}
  {
    if a - b == {} {
      InsideOfSameSize(a, b);
    }
    if b - a == {} {
      InsideOfSameSize(b, a);
    }
  }

  lemma InsideOfSameSize(a: set<string>, b: set<string>)
    requires |a| == |b| && a - b == {}
    ensures a == b
  {
    assert forall x :: x in a ==> x in b || x in a - b;
    B.AllChosen(a, b);
  }

  // From turn `from` on, batch ids are new and all different.
  ghost predicate FreshBatches(points: Points, turns: nat -> Turn, from: nat) {
    && (forall i: nat :: i >= from ==> InBatch(points, turns(i).batch) == {})
    && forall i: nat, j: nat :: i < j ==> turns(i).batch != turns(j).batch
  }

  lemma TurnKeepsFresh(points: Points, turns: nat -> Turn, i: nat, chosen: set<string>)
    requires FreshBatches(points, turns, i)
    ensures FreshBatches(AfterTurn(points, turns(i), chosen), turns, i + 1)
  {
    forall j: nat | j > i
      ensures InBatch(AfterTurn(points, turns(i), chosen), turns(j).batch) == {}
    {
      TurnKeepsUnused(points, turns(i), chosen, turns(j).batch);
    }
  }

  lemma RecoveryOutcome(b: Buffer, cutoff: int, throws: bool, turns: nat -> Turn)
    requires FreshBatches(b.tables.points, turns, 0)
    ensures var points := Step(b, Recover(cutoff, throws)).tables.points;
      && points == (if throws then b.tables.points else HandedBack(b.tables.points, Orphans(b.tables.points, cutoff)))
      && points.Keys == b.tables.points.Keys && FreshBatches(points, turns, 0)
  {
    forall i: nat
      ensures InBatch(HandedBack(b.tables.points, Orphans(b.tables.points, cutoff)), turns(i).batch) == {}
    {
      assert InBatch(b.tables.points, turns(i).batch) == {};
      RecoveryClaimsNothing(b.tables.points, cutoff, turns(i).batch);
    }
  }

  function AfterSent(b: U.Backoff, t: Turn): U.Backoff {
    if t.outcome.Answered? then U.Backoff(0.0, 0)
    else U.AfterFailure(U.BASE, U.CAP, b, HintOf(t.outcome), t.failedAt, t.random)
  }

  // An answer clears the backoff; the failure that ended the pass sets it.
  function AfterPass(b: U.Backoff, turns: nat -> Turn, uploads: nat, failed: bool): U.Backoff {
    var last := if uploads == 0 then b else U.Backoff(0.0, 0);
    if failed then AfterSent(last, turns(uploads)) else last
  }

  lemma RecoveryClaimsNothing(points: Points, cutoff: int, batch: nat)
    requires InBatch(points, batch) == {}
    ensures InBatch(HandedBack(points, Orphans(points, cutoff)), batch) == {}
  {
    assert forall id :: id in points ==> id !in InBatch(points, batch);
  }

  lemma HandedBackNothing(points: Points)
    ensures HandedBack(points, {}) == points
  {
  }
}
