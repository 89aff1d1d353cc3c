// The buffer, the network and the server together: what survives every run of
// captures, claims, uploads, losses, refusals, age-outs, kills, relaunches,
// changes of credentials and disposals.
module Protocol {
  import opened Options
  import opened BufferSteps
  import I = Ingest
  import S = SessionStore

  type Keys = set<I.PointKey>

  // What the wire carries of a point's identity: not the session.
  datatype Fix = Fix(id: string, recordedAt: int)

  function FixOf(k: I.PointKey): Fix { Fix(k.id, k.recordedAt) }

  function Fixes(keys: Keys): set<Fix> {
    set k | k in keys :: FixOf(k)
  }

  // The key of a buffered row is under the session that recorded it.
  function KeyOf(id: string, row: S.Row): I.PointKey { I.PointKey(row.session, id, row.recordedAt) }

  function KeysOf(points: Points): Keys {
    set id | id in points :: KeyOf(id, points[id])
  }

  function KeysAmong(points: Points, ids: set<string>): Keys {
    set id | id in ids && id in points :: KeyOf(id, points[id])
  }

  // The server files every point of a request under the session of its token.
  function Refiled(session: string, keys: Keys): Keys {
    set k | k in keys :: I.PointKey(session, k.id, k.recordedAt)
  }

  // A batch on its way, with the session its token names.
  datatype Request = Request(batch: nat, session: string)

  // `token` is the session of the phone's credentials, `claims` the rows of every
  // batch ever claimed. `held` is the server's table, `refused` what it counted as
  // invalid. `stored`, `evicted` and `disposed` are history: every fix reported
  // stored, every fix the cap dropped, every fix a disposal deleted.
  datatype World = World(
    buffer: Buffer,
    token: Option<string>,
    claims: map<nat, Keys>,
    requests: set<Request>,
    responses: set<nat>,
    held: Keys,
    refused: Keys,
    stored: Keys,
    evicted: Keys,
    disposed: Keys)
  {
    function Points(): Points { buffer.tables.points }

    function Answered(): Keys { held + refused }

    // The fixes the server has answered for, under whatever session.
    function Heard(): set<Fix> { Fixes(Answered()) }
  }

  datatype Event =
    // What the buffer does: capture, claim, age-out, session writes, hand-back
    // after any failure, kill and relaunch.
    | Phone(op: Op)
    // A claim code accepted, and credentials cleared.
    | TakeCredentials(session: string)
    | DropCredentials
    // deleteSession; a DELETE that throws changes nothing.
    | Dispose(session: string)
    | Send(batch: nat)
    // The request or the response is gone for good.
    | LoseRequest(request: Request)
    | LoseResponse(batch: nat)
    // The server took the payload and a 2xx is on its way; the request may still
    // be delivered again.
    | Ingest(request: Request, items: seq<I.Item>, created: int, now: int, again: bool)
    // Any answer that is not a 2xx: nothing was written.
    | Refuse(request: Request)
    // A 2xx that names the batch has reached the phone.
    | Answer(batch: nat, throws: bool)

  function Grown(b: Buffer, op: Op, deviceSeq: int): Points
    requires op.Append?
  {
    b.tables.points[op.id := NewRow(op.capture, deviceSeq)]
  }

  function OfSession(points: Points, session: string): set<string> {
    set id | id in points && points[id].session == session
  }

  function Filed(session: string, items: seq<I.Item>): Keys {
    set p | p in I.Normalised(items) :: I.KeyOf(session, p)
  }

  ghost function Next(w: World, e: Event): World {
    match e
    case Phone(op) =>
      var w1 := w.(buffer := Step(w.buffer, op));
      if op.Append? && ResultOf(w.buffer, op).Stored? then
        w1.(stored := w.stored + {I.PointKey(op.capture.session, op.id, op.capture.recordedAt)},
            evicted := w.evicted + KeysAmong(Grown(w.buffer, op, NextSequence(w.buffer, op.readOk)), op.evict))
      else if op.Claim? && !op.throws && op.chosen != {} then
        w1.(claims := w.claims[op.batch := KeysAmong(w.Points(), op.chosen)])
      else w1
    case TakeCredentials(session) => w.(token := Some(session))
    case DropCredentials => w.(token := None)
    case Dispose(session) =>
      var who := OfSession(w.Points(), session);
      w.(buffer := Resynced(WithPoints(w.buffer, w.Points() - who)), disposed := w.disposed + KeysAmong(w.Points(), who))
    case Send(batch) => if w.token.None? then w else w.(requests := w.requests + {Request(batch, w.token.value)})
    case LoseRequest(request) => w.(requests := w.requests - {request})
    case LoseResponse(batch) => w.(responses := w.responses - {batch})
    case Ingest(request, items, created, now, again) =>
      var valid := I.ValidKeys(request.session, I.Normalised(items), created, now);
      w.(held := w.held + valid,
         refused := w.refused + (Filed(request.session, items) - valid),
         requests := if again then w.requests else w.requests - {request},
         responses := w.responses + {request.batch})
    case Refuse(request) => w.(requests := w.requests - {request})
    case Answer(batch, throws) => w.(buffer := Step(w.buffer, Acknowledge(batch, throws)))
  }

  // The payload of a request: the fixes of its claim, each at least once.
  ghost predicate Carries(items: seq<I.Item>, keys: Keys) {
    && (forall i :: 0 <= i < |items| ==> items[i].Parsed? && Fix(items[i].id, items[i].recordedAt) in Fixes(keys))
    && (forall f :: f in Fixes(keys) ==> exists i :: 0 <= i < |items| && items[i].Parsed? && Fix(items[i].id, items[i].recordedAt) == f)
  }

  // The only delete on the sync path needs the server's answer; a claim takes a
  // batch id nobody has used; a point id fits the server's column, as the
  // twenty-six characters of a ULID do.
  ghost predicate Enabled(w: World, e: Event) {
    match e
    case Phone(op) =>
      && Possible(w.buffer, op) && !op.Acknowledge?
      && (op.Claim? ==> op.batch !in w.claims) && (op.Append? ==> |op.id| <= I.ID_CHARS)
    case Send(batch) => batch in w.claims && w.token.Some?
    case Ingest(request, items, _, _, _) => request in w.requests && request.batch in w.claims && Carries(items, w.claims[request.batch])
    case Refuse(request) => request in w.requests
    case Answer(batch, _) => batch in w.responses
    case _ => true
  }

  // ---------------------------------------------------------------------------
  // Nothing is lost, nothing is made up
  // ---------------------------------------------------------------------------

  // Buffered, dropped by the cap, deleted by a disposal, or answered for.
  predicate Accounted(w: World, k: I.PointKey) {
    k in KeysOf(w.Points()) || k in w.evicted || k in w.disposed || FixOf(k) in w.Heard()
  }

  predicate Sound(w: World) {
    && (forall k :: k in w.stored ==> Accounted(w, k))
    // The server has answered only for fixes the phone stored.
    && w.Heard() <= Fixes(w.stored)
    && KeysOf(w.Points()) <= w.stored && w.evicted <= w.stored && w.disposed <= w.stored
    && (forall k :: k in w.stored ==> |k.id| <= I.ID_CHARS)
    && (forall b :: b in w.claims ==> w.claims[b] <= w.stored)
    // Requests are for claims, and a 2xx means the whole claim was answered for.
    && (forall r :: r in w.requests ==> r.batch in w.claims)
    && (forall b :: b in w.responses ==> b in w.claims && Fixes(w.claims[b]) <= w.Heard())
    // A row that carries a batch id was in that claim.
    && BatchesAreClaims(w.Points(), w.claims)
  }

  predicate BatchesAreClaims(points: Points, claims: map<nat, Keys>) {
    forall id :: id in points && points[id].batch.Some? ==>
      points[id].batch.value in claims && KeyOf(id, points[id]) in claims[points[id].batch.value]
  }

  lemma KeysOfMap(points: Points, id: string)
    requires id in points
    ensures KeyOf(id, points[id]) in KeysOf(points)
  {
  }

  // Same ids, same sessions, same times: same keys.
  lemma SameKeys(before: Points, after: Points)
    requires before.Keys == after.Keys
    requires forall id :: id in before ==> KeyOf(id, before[id]) == KeyOf(id, after[id])
    ensures KeysOf(before) == KeysOf(after)
  {
    forall k | k in KeysOf(before)
      ensures k in KeysOf(after)
    {
      var id :| id in before && k == KeyOf(id, before[id]);
      KeysOfMap(after, id);
    }
    forall k | k in KeysOf(after)
      ensures k in KeysOf(before)
    {
      var id :| id in after && k == KeyOf(id, after[id]);
      KeysOfMap(before, id);
    }
  }

  // Removing rows removes their keys and no others, since a key names its row.
  lemma KeysWithout(points: Points, who: set<string>)
    ensures KeysOf(points - who) == KeysOf(points) - KeysAmong(points, who)
  {
    forall k | k in KeysOf(points) - KeysAmong(points, who)
      ensures k in KeysOf(points - who)
    {
      var id :| id in points && k == KeyOf(id, points[id]);
      assert id !in who;
      KeysOfMap(points - who, id);
    }
    forall k | k in KeysOf(points - who)
      ensures k in KeysOf(points) - KeysAmong(points, who)
    {
      var id :| id in points - who && k == KeyOf(id, (points - who)[id]);
      KeysOfMap(points, id);
    }
  }

  lemma KeysWithNew(points: Points, id: string, row: S.Row)
    requires id !in points
    ensures KeysOf(points[id := row]) == KeysOf(points) + {KeyOf(id, row)}
  {
    var grown := points[id := row];
    forall k | k in KeysOf(points)
      ensures k in KeysOf(grown)
    {
      var other :| other in points && k == KeyOf(other, points[other]);
      KeysOfMap(grown, other);
    }
    KeysOfMap(grown, id);
  }

  // A new row comes in, victims go out: the keys and the claims that result.
  lemma InsertAndEvictKeys(points: Points, claims: map<nat, Keys>, id: string, row: S.Row, evict: set<string>)
    requires BatchesAreClaims(points, claims) && id !in points && row.batch == None
    ensures var grown := points[id := row];
      && KeysOf(grown - evict) == KeysOf(points) + {KeyOf(id, row)} - KeysAmong(grown, evict)
      && KeysAmong(grown, evict) <= KeysOf(points) + {KeyOf(id, row)}
      && BatchesAreClaims(grown - evict, claims)
  {
    KeysWithNew(points, id, row);
    KeysWithout(points[id := row], evict);
  }

  lemma CaptureStaysSound(w: World, op: Op)
    requires Sound(w) && op.Append? && Enabled(w, Phone(op))
    ensures Sound(Next(w, Phone(op)))
  {
    hide NextSequence, S.WithDeviceSeq, Victims, KeysOf, KeysAmong, BatchesAreClaims, Fixes;
    if ResultOf(w.buffer, op).Stored? {
      var row := NewRow(op.capture, NextSequence(w.buffer, op.readOk));
      InsertAndEvictKeys(w.Points(), w.claims, op.id, row, op.evict);
      FixesGrow(w.stored, {KeyOf(op.id, row)});
      assert Next(w, Phone(op)).Points() == Grown(w.buffer, op, NextSequence(w.buffer, op.readOk)) - op.evict;
    } else {
      assert Next(w, Phone(op)).Points() == w.Points();
    }
  }

  lemma FixesGrow(a: Keys, b: Keys)
    ensures Fixes(a + b) == Fixes(a) + Fixes(b)
  {
  }

  // Any change of the table that keeps its keys and its claims leaves the world sound.
  lemma SameKeysStaysSound(w: World, b: Buffer)
    requires Sound(w) && KeysOf(b.tables.points) == KeysOf(w.Points()) && BatchesAreClaims(b.tables.points, w.claims)
    ensures Sound(w.(buffer := b))
  {
    hide KeysOf, BatchesAreClaims;
  }

  lemma ClaimKeepsKeys(points: Points, claims: map<nat, Keys>, chosen: set<string>, batch: nat, now: int)
    requires BatchesAreClaims(points, claims) && batch !in claims && chosen <= points.Keys
    ensures KeysOf(Claimed(points, chosen, batch, now)) == KeysOf(points)
    ensures BatchesAreClaims(Claimed(points, chosen, batch, now), claims[batch := KeysAmong(points, chosen)])
    ensures chosen == {} ==> Claimed(points, chosen, batch, now) == points
    ensures KeysAmong(points, chosen) <= KeysOf(points)
  {
    SameKeys(points, Claimed(points, chosen, batch, now));
  }

  lemma HandBackKeepsKeys(points: Points, claims: map<nat, Keys>, who: set<string>)
    requires BatchesAreClaims(points, claims)
    ensures KeysOf(HandedBack(points, who)) == KeysOf(points) && BatchesAreClaims(HandedBack(points, who), claims)
  {
    SameKeys(points, HandedBack(points, who));
  }

  lemma ClaimStaysSound(w: World, op: Op)
    requires Sound(w) && op.Claim? && Enabled(w, Phone(op))
    ensures Sound(Next(w, Phone(op)))
  {
    assert op.chosen <= w.Points().Keys;
    ClaimKeepsKeys(w.Points(), w.claims, op.chosen, op.batch, op.now);
    hide KeysOf, KeysAmong, BatchesAreClaims, Claimed, Oldest, InBatch, Fixes;
  }

  // Handing rows back, writing session state, or reopening changes no key.
  lemma QuietStepStaysSound(w: World, op: Op)
    requires Sound(w) && (op.Release? || op.Recover? || op.WriteState? || op.Relaunch?)
    ensures Sound(Next(w, Phone(op)))
  {
    hide KeysOf, BatchesAreClaims, HandedBack, InBatch, InFlight, Orphans, Sound;
    var points := w.Points();
    assert BatchesAreClaims(points, w.claims) by { SoundBatches(w); }
    match op {
      case Release(batch, _) => HandBackKeepsKeys(points, w.claims, InBatch(points, batch));
      case Recover(cutoff, _) => HandBackKeepsKeys(points, w.claims, Orphans(points, cutoff));
      case Relaunch(_) => HandBackKeepsKeys(points, w.claims, InFlight(points));
      case WriteState(_, _) =>
    }
    SameKeysStaysSound(w, Step(w.buffer, op));
  }

  lemma SoundBatches(w: World)
    requires Sound(w)
    ensures BatchesAreClaims(w.Points(), w.claims)
  {
    hide BatchesAreClaims;
  }

  // Rows leave the table for a reason that accounts for each of them.
  lemma RemovalStaysSound(w: World, b: Buffer, who: set<string>, disposed: Keys)
    requires Sound(w) && b.tables.points == w.Points() - who && disposed <= w.stored
    requires forall k :: k in KeysAmong(w.Points(), who) ==> k in disposed || FixOf(k) in w.Heard()
    ensures Sound(w.(buffer := b, disposed := w.disposed + disposed))
  {
    KeysWithout(w.Points(), who);
    hide KeysOf, KeysAmong, Fixes;
  }

  lemma AnswerStaysSound(w: World, batch: nat, throws: bool)
    requires Sound(w) && batch in w.responses
    ensures Sound(Next(w, Answer(batch, throws)))
  {
    var after := Next(w, Answer(batch, throws));
    if !throws {
      var who := InBatch(w.Points(), batch);
      assert KeysAmong(w.Points(), who) <= w.claims[batch];
      assert Fixes(w.claims[batch]) <= w.Heard();
      RemovalStaysSound(w, after.buffer, who, {});
      assert w.(buffer := after.buffer, disposed := w.disposed + {}) == after;
    } else {
      assert KeysOf(after.Points()) == KeysOf(w.Points());
      SameKeysStaysSound(w, after.buffer);
    }
  }

  lemma DisposalStaysSound(w: World, session: string)
    requires Sound(w)
    ensures Sound(Next(w, Dispose(session)))
  {
    var who := OfSession(w.Points(), session);
    assert KeysAmong(w.Points(), who) <= KeysOf(w.Points());
    RemovalStaysSound(w, Next(w, Dispose(session)).buffer, who, KeysAmong(w.Points(), who));
  }

  // ---- what the server makes of a payload -----------------------------------------------

  lemma {:induction false} NormalisedFixes(items: seq<I.Item>)
    requires forall i :: 0 <= i < |items| ==> items[i].Parsed? && |items[i].id| <= I.ID_CHARS
    ensures |I.Normalised(items)| == |items|
    ensures forall i :: 0 <= i < |items| ==> I.Normalised(items)[i] == I.Point(items[i].id, items[i].recordedAt, items[i].plausible)
  {
    if items != [] {
      NormalisedFixes(items[..|items| - 1]);
    }
  }

  // The session of the token replaces the session of every row, and nothing else
  // is lost or added.
  lemma PayloadIsRefiled(session: string, items: seq<I.Item>, keys: Keys)
    requires Carries(items, keys) && forall k :: k in keys ==> |k.id| <= I.ID_CHARS
    ensures Filed(session, items) == Refiled(session, keys)
  {
    var points := I.Normalised(items);
    NormalisedFixes(items);
    forall f | f in Filed(session, items)
      ensures f in Refiled(session, keys)
    {
      var p :| p in points && f == I.KeyOf(session, p);
      var i :| 0 <= i < |points| && points[i] == p;
      var k :| k in keys && FixOf(k) == Fix(items[i].id, items[i].recordedAt);
      assert f == I.PointKey(session, k.id, k.recordedAt);
    }
    forall f | f in Refiled(session, keys)
      ensures f in Filed(session, items)
    {
      var k :| k in keys && f == I.PointKey(session, k.id, k.recordedAt);
      assert FixOf(k) in Fixes(keys);
      var i :| 0 <= i < |items| && items[i].Parsed? && Fix(items[i].id, items[i].recordedAt) == FixOf(k);
      assert points[i] in points;
    }
  }

  lemma RefiledFixes(session: string, keys: Keys)
    ensures Fixes(Refiled(session, keys)) == Fixes(keys)
  {
    forall f | f in Fixes(keys)
      ensures f in Fixes(Refiled(session, keys))
    {
      var k :| k in keys && f == FixOf(k);
      var r := I.PointKey(session, k.id, k.recordedAt);
      assert r in Refiled(session, keys) && FixOf(r) == f;
    }
  }

  // What an ingest adds to the answers: the batch, filed under the token's session.
  lemma IngestAnswersTheBatch(w: World, e: Event)
    requires Sound(w) && e.Ingest? && Enabled(w, e)
    ensures var claim := w.claims[e.request.batch];
      && Next(w, e).Answered() == w.Answered() + Refiled(e.request.session, claim)
      && Next(w, e).Heard() == w.Heard() + Fixes(claim)
  {
    var claim := w.claims[e.request.batch];
    PayloadIsRefiled(e.request.session, e.items, claim);
    RefiledFixes(e.request.session, claim);
    FixesGrow(w.Answered(), Refiled(e.request.session, claim));
    var valid := I.ValidKeys(e.request.session, I.Normalised(e.items), e.created, e.now);
    assert valid <= Filed(e.request.session, e.items);
    hide Fixes, Refiled, Filed;
    assert Next(w, e).Answered() == w.Answered() + Filed(e.request.session, e.items);
  }

  lemma IngestStaysSound(w: World, e: Event)
    requires Sound(w) && e.Ingest? && Enabled(w, e)
    ensures Sound(Next(w, e))
  {
    IngestAnswersTheBatch(w, e);
    assert Fixes(w.claims[e.request.batch]) <= Fixes(w.stored);
    var after := Next(w, e);
    assert after.Points() == w.Points() && after.stored == w.stored && after.claims == w.claims;
    hide KeysOf, Fixes, BatchesAreClaims, Refiled, Filed, I.ValidKeys;
  }

  lemma StepStaysSound(w: World, e: Event)
    requires Sound(w) && Enabled(w, e)
    ensures Sound(Next(w, e))
  {
    match e
    case Phone(op) =>
      if op.Append? {
        CaptureStaysSound(w, op);
      } else if op.Claim? {
        ClaimStaysSound(w, op);
      } else {
        QuietStepStaysSound(w, op);
      }
    case Dispose(session) => DisposalStaysSound(w, session);
    case Answer(batch, throws) => AnswerStaysSound(w, batch, throws);
    case Ingest(_, _, _, _, _) => IngestStaysSound(w, e);
    case _ => NetworkStepStaysSound(w, e);
  }

  // What only moves requests, responses or credentials.
  lemma NetworkStepStaysSound(w: World, e: Event)
    requires Sound(w) && Enabled(w, e)
    requires e.TakeCredentials? || e.DropCredentials? || e.Send? || e.LoseRequest? || e.LoseResponse? || e.Refuse?
    ensures Sound(Next(w, e))
  {
    hide KeysOf, Fixes, BatchesAreClaims;
  }

  // ---------------------------------------------------------------------------
  // Runs
  // ---------------------------------------------------------------------------

  ghost function After(w: World, run: seq<Event>): World {
    if run == [] then w else Next(After(w, run[..|run| - 1]), run[|run| - 1])
  }

  ghost predicate Run(w: World, run: seq<Event>) {
    forall i :: 0 <= i < |run| ==> Enabled(After(w, run[..i]), run[i])
  }

  lemma RunPrefix(w: World, run: seq<Event>, n: nat)
    requires Run(w, run) && n <= |run|
    ensures Run(w, run[..n])
  {
    forall i | 0 <= i < n
      ensures Enabled(After(w, run[..n][..i]), run[..n][i])
    {
      assert run[..n][..i] == run[..i];
    }
  }

  // A phone with an empty buffer and no credentials that has never talked to anybody.
  function Fresh(state: S.State, maxRows: int): World {
    World(Buffer(S.Tables(map[], state), 0, 0, -1, maxRows), None, map[], {}, {}, {}, {}, {}, {}, {})
  }

  lemma FreshIsSound(state: S.State, maxRows: int)
    ensures Sound(Fresh(state, maxRows))
  {
    assert KeysOf(map[]) == {};
  }

  // In every run, every fix reported stored is still buffered, was evicted by the
  // cap or deleted by a disposal, or has been answered for by the server; and the
  // server has answered for nothing the phone did not store.
  lemma {:induction false} EveryRunIsSound(w: World, run: seq<Event>)
    requires Sound(w) && Run(w, run)
    ensures Sound(After(w, run))
  {
    if run != [] {
      var n := |run| - 1;
      RunPrefix(w, run, n);
      hide Sound, Enabled, Next;
      EveryRunIsSound(w, run[..n]);
      StepStaysSound(After(w, run[..n]), run[n]);
    }
  }

  // ---- every crash leaves everything claimable --------------------------------------

  // After a relaunch nothing is in flight, so the next claims can reach every row.
  lemma RelaunchFreesEverything(b: Buffer)
    ensures InFlight(Step(b, Relaunch(false)).tables.points) == {}
    ensures Step(b, Relaunch(false)).tables.points.Keys == b.tables.points.Keys
  {
  }

  // ---------------------------------------------------------------------------
  // Under which session
  // ---------------------------------------------------------------------------

  // Everything the server has answered for is filed under the session that
  // recorded it.
  predicate FiledRight(w: World) { w.Answered() <= w.stored }

  // A request whose token is of the session that recorded every row it carries.
  predicate OwnBatch(w: World, e: Event) {
    e.Ingest? && e.request.batch in w.claims ==> forall k :: k in w.claims[e.request.batch] ==> k.session == e.request.session
  }

  // No point id was ever given to two different fixes, nor to one under two sessions.
  predicate OneKeyPerId(keys: Keys) {
    forall k, l :: k in keys && l in keys && k.id == l.id ==> k == l
  }

  // An append either repeats an id that is still buffered or brings a new one,
  // which is what the ULID generator is for.
  predicate IdIsNew(w: World, e: Event) {
    e.Phone? && e.op.Append? && e.op.id !in w.Points() ==> forall k :: k in w.stored ==> k.id != e.op.id
  }

  // An ingest files its batch right exactly when the token's session recorded
  // every row of it.
  lemma IngestFilesRightExactlyWhen(w: World, e: Event)
    requires Sound(w) && OneKeyPerId(w.stored) && FiledRight(w) && e.Ingest? && Enabled(w, e)
    ensures FiledRight(Next(w, e)) <==> OwnBatch(w, e)
  {
    IngestAnswersTheBatch(w, e);
    var claim, session := w.claims[e.request.batch], e.request.session;
    assert claim <= w.stored;
    assert Next(w, e).stored == w.stored;
    hide KeysOf, Fixes, BatchesAreClaims;
    if OwnBatch(w, e) {
      forall f | f in Refiled(session, claim)
        ensures f in w.stored
      {
        var k :| k in claim && f == I.PointKey(session, k.id, k.recordedAt);
      }
    } else {
      var k :| k in claim && k.session != session;
      assert I.PointKey(session, k.id, k.recordedAt) in Refiled(session, claim);
    }
  }

  lemma OneMoreFix(w: World, e: Event)
    requires OneKeyPerId(w.stored) && IdIsNew(w, e)
    ensures OneKeyPerId(Next(w, e).stored)
  {
    hide AfterAppend, NextSequence, KeysOf, KeysAmong, Step, Filed, Refiled;
  }

  // What is filed wrong stays wrong: its fix was stored before, so no later append
  // gives the key to a row.
  lemma WrongStaysWrong(w: World, e: Event)
    requires Sound(w) && IdIsNew(w, e) && !FiledRight(w)
    ensures !FiledRight(Next(w, e))
  {
    hide AfterAppend, NextSequence, KeysOf, KeysAmong, Step, Filed, BatchesAreClaims;
    var k :| k in w.Answered() && k !in w.stored;
    assert FixOf(k) in w.Heard();
    var l :| l in w.stored && FixOf(l) == FixOf(k);
    assert k in Next(w, e).Answered();
  }

  lemma FilingStep(w: World, e: Event)
    requires Sound(w) && OneKeyPerId(w.stored) && Enabled(w, e) && IdIsNew(w, e)
    ensures FiledRight(Next(w, e)) <==> FiledRight(w) && OwnBatch(w, e)
  {
    if !FiledRight(w) {
      WrongStaysWrong(w, e);
    } else if e.Ingest? {
      IngestFilesRightExactlyWhen(w, e);
    } else {
      hide KeysOf, KeysAmong, Step, Sound, Enabled;
      assert Next(w, e).Answered() == w.Answered() && w.stored <= Next(w, e).stored;
    }
  }

  ghost predicate NewIds(w: World, run: seq<Event>) {
    forall i :: 0 <= i < |run| ==> IdIsNew(After(w, run[..i]), run[i])
  }

  lemma NewIdsBefore(w: World, run: seq<Event>, n: nat)
    requires NewIds(w, run) && n < |run|
    ensures NewIds(w, run[..n]) && IdIsNew(After(w, run[..n]), run[n])
  {
    hide IdIsNew, After;
    assert forall i :: 0 <= i < n ==> run[..n][..i] == run[..i];
  }

  ghost predicate OwnBatches(w: World, run: seq<Event>) {
    forall i :: 0 <= i < |run| ==> OwnBatch(After(w, run[..i]), run[i])
  }

  lemma OwnBatchesUnfold(w: World, run: seq<Event>, n: nat)
    requires |run| == n + 1
    ensures OwnBatches(w, run) <==> OwnBatches(w, run[..n]) && OwnBatch(After(w, run[..n]), run[n])
  {
    hide OwnBatch, After;
    assert forall i :: 0 <= i < n ==> run[..n][..i] == run[..i] && run[..n][i] == run[i];
    if OwnBatches(w, run[..n]) && OwnBatch(After(w, run[..n]), run[n]) {
      forall i | 0 <= i < |run|
        ensures OwnBatch(After(w, run[..i]), run[i])
      {
        assert i < n ==> OwnBatch(After(w, run[..n][..i]), run[..n][i]);
      }
    }
  }

  lemma {:induction false} IdsStayUnique(w: World, run: seq<Event>)
    requires OneKeyPerId(w.stored) && NewIds(w, run)
    ensures OneKeyPerId(After(w, run).stored)
  {
    if run != [] {
      hide NewIds, IdIsNew, OneKeyPerId, Next;
      NewIdsBefore(w, run, |run| - 1);
      IdsStayUnique(w, run[..|run| - 1]);
      OneMoreFix(After(w, run[..|run| - 1]), run[|run| - 1]);
    }
  }

  // Over every run: the server's table is filed under the recording sessions if
  // and only if each batch it took came under a token of its rows' own session.
  lemma {:induction false} FiledRightExactlyWhen(w: World, run: seq<Event>)
    requires Sound(w) && OneKeyPerId(w.stored) && FiledRight(w) && Run(w, run) && NewIds(w, run)
    ensures FiledRight(After(w, run)) <==> OwnBatches(w, run)
  {
    if run != [] {
      var n := |run| - 1;
      RunPrefix(w, run, n);
      NewIdsBefore(w, run, n);
      assert Enabled(After(w, run[..n]), run[n]);
      hide Sound, OneKeyPerId, FiledRight, NewIds, IdIsNew, OwnBatch, OwnBatches, Enabled, Next, Run;
      FiledRightExactlyWhen(w, run[..n]);
      EveryRunIsSound(w, run[..n]);
      IdsStayUnique(w, run[..n]);
      FilingStep(After(w, run[..n]), run[n]);
      OwnBatchesUnfold(w, run, n);
    }
  }

  // What the phone could check before a send: the session of its credentials
  // recorded every row of the batch.
  predicate OwnSend(w: World, e: Event) {
    e.Send? && w.token.Some? && e.batch in w.claims ==> forall k :: k in w.claims[e.batch] ==> k.session == w.token.value
  }

  predicate OwnRequests(w: World) {
    forall r :: r in w.requests ==> r.batch in w.claims && forall k :: k in w.claims[r.batch] ==> k.session == r.session
  }

  lemma OwnSendStep(w: World, e: Event)
    requires OwnRequests(w) && Enabled(w, e) && OwnSend(w, e)
    ensures OwnRequests(Next(w, e)) && OwnBatch(w, e)
  {
    hide Step, KeysOf, KeysAmong, Filed, I.ValidKeys, Possible, Carries, NextSequence, ResultOf;
  }

  // If every send passes that check, everything is filed right.
  lemma {:induction false} OwnSendsFileRight(w: World, run: seq<Event>)
    requires Sound(w) && OneKeyPerId(w.stored) && FiledRight(w) && OwnRequests(w) && Run(w, run) && NewIds(w, run)
    requires forall i :: 0 <= i < |run| ==> OwnSend(After(w, run[..i]), run[i])
    ensures OwnRequests(After(w, run)) && OwnBatches(w, run) && FiledRight(After(w, run))
  {
    if run != [] {
      var n := |run| - 1;
      RunPrefix(w, run, n);
      NewIdsBefore(w, run, n);
      assert Enabled(After(w, run[..n]), run[n]) && OwnSend(After(w, run[..n]), run[n]);
      assert forall i :: 0 <= i < n ==> run[..n][..i] == run[..i];
      hide Sound, OneKeyPerId, FiledRight, NewIds, IdIsNew, OwnBatch, OwnBatches, Enabled, Next, Run, OwnSend, OwnRequests;
      OwnSendsFileRight(w, run[..n]);
      OwnSendStep(After(w, run[..n]), run[n]);
      OwnBatchesUnfold(w, run, n);
    }
    FiledRightExactlyWhen(w, run);
  }

  // However often batches are resent, the server holds a fix at most once under
  // one session; and at most once at all if every batch it took came under its
  // rows' own session.
  lemma HeldAtMostOnce(w: World, run: seq<Event>)
    requires Sound(w) && OneKeyPerId(w.stored) && FiledRight(w) && Run(w, run) && NewIds(w, run)
    ensures var held := After(w, run).held;
      (forall k, l :: k in held && l in held && k.id == l.id && k.session == l.session ==> k == l)
      && (OwnBatches(w, run) ==> OneKeyPerId(held))
  {
    EveryRunIsSound(w, run);
    IdsStayUnique(w, run);
    FiledRightExactlyWhen(w, run);
    var after := After(w, run);
    forall k, l | k in after.held && l in after.held && k.id == l.id
      ensures k.recordedAt == l.recordedAt
    {
      assert FixOf(k) in after.Heard() && FixOf(l) in after.Heard();
      var i :| i in after.stored && FixOf(i) == FixOf(k);
      var j :| j in after.stored && FixOf(j) == FixOf(l);
    }
  }

  // An ingest gives the server a second copy of a fix exactly when it already
  // holds a valid point of the batch under another session.
  lemma SecondCopyExactlyWhen(w: World, e: Event)
    requires Sound(w) && OneKeyPerId(w.stored) && OneKeyPerId(w.held) && e.Ingest? && Enabled(w, e)
    ensures var valid := I.ValidKeys(e.request.session, I.Normalised(e.items), e.created, e.now);
      OneKeyPerId(Next(w, e).held) <==> forall v, h :: v in valid && h in w.held && v.id == h.id ==> h.session == e.request.session
  {
    StepStaysSound(w, e);
    var after := Next(w, e);
    var valid := I.ValidKeys(e.request.session, I.Normalised(e.items), e.created, e.now);
    assert forall v :: v in valid ==> v.session == e.request.session;
    assert after.held == w.held + valid && after.stored == w.stored;
    forall k, l | k in after.held && l in after.held && k.id == l.id
      ensures k.recordedAt == l.recordedAt
    {
      assert FixOf(k) in after.Heard() && FixOf(l) in after.Heard();
      var i :| i in after.stored && FixOf(i) == FixOf(k);
      var j :| j in after.stored && FixOf(j) == FixOf(l);
    }
    hide I.ValidKeys, Sound, Next;
  }

  // ---------------------------------------------------------------------------
  // Disposal
  // ---------------------------------------------------------------------------

  // What the phone promises, disposal or not.
  predicate NothingLost(w: World) {
    forall k :: k in w.stored ==> k in KeysOf(w.Points()) || k in w.evicted || FixOf(k) in w.Heard()
  }

  // While every disposal finds no row of its session, nothing is ever lost.
  lemma {:induction false} EmptyHandedDisposalsLoseNothing(w: World, run: seq<Event>)
    requires Sound(w) && w.disposed == {} && Run(w, run)
    requires forall i :: 0 <= i < |run| && run[i].Dispose? ==> OfSession(After(w, run[..i]).Points(), run[i].session) == {}
    ensures After(w, run).disposed == {} && NothingLost(After(w, run))
  {
    EveryRunIsSound(w, run);
    if run != [] {
      var n := |run| - 1;
      RunPrefix(w, run, n);
      assert forall i :: 0 <= i < n ==> run[..n][..i] == run[..i];
      EmptyHandedDisposalsLoseNothing(w, run[..n]);
      hide Run, Enabled, Sound, KeysOf, Step;
      DisposedUnlessEmptyHanded(After(w, run[..n]), run[n]);
    }
  }

  lemma DisposedUnlessEmptyHanded(w: World, e: Event)
    requires e.Dispose? ==> OfSession(w.Points(), e.session) == {}
    ensures Next(w, e).disposed == w.disposed
  {
    hide KeysOf, Step;
  }

  // The world in which nothing of this buffer has reached the server yet.
  function Unheard(b: Buffer): World {
    var keys := KeysOf(b.tables.points);
    var batches := set id | id in b.tables.points && b.tables.points[id].batch.Some? :: b.tables.points[id].batch.value;
    World(b, None, map n | n in batches :: keys, {}, {}, {}, {}, keys, {}, {})
  }

  lemma UnheardIsSound(b: Buffer)
    requires forall id :: id in b.tables.points ==> |id| <= I.ID_CHARS
    ensures Sound(Unheard(b)) && NothingLost(Unheard(b))
  {
    var w := Unheard(b);
    forall id | id in b.tables.points
      ensures KeyOf(id, b.tables.points[id]) in w.stored
    {
      KeysOfMap(b.tables.points, id);
    }
  }

  // The phone cannot know what has been answered for. From all it can see, its own
  // buffer, disposing of a session is safe exactly when none of its rows is left.
  lemma DisposalIsSafeExactlyWhen(b: Buffer, session: string)
    requires forall id :: id in b.tables.points ==> |id| <= I.ID_CHARS
    ensures (forall w :: Sound(w) && w.buffer == b && NothingLost(w) ==> NothingLost(Next(w, Dispose(session))))
      <==> OfSession(b.tables.points, session) == {}
  {
    hide Sound, NothingLost, Next;
    if OfSession(b.tables.points, session) == {} {
      forall w | Sound(w) && w.buffer == b && NothingLost(w)
        ensures NothingLost(Next(w, Dispose(session)))
      {
        DisposalOfNothing(w, session);
      }
    } else {
      UnheardIsSound(b);
      DisposalOfTheUnheard(b, session);
    }
  }

  lemma DisposalOfNothing(w: World, session: string)
    requires NothingLost(w) && OfSession(w.Points(), session) == {}
    ensures NothingLost(Next(w, Dispose(session)))
  {
    assert w.Points() - {} == w.Points();
    hide KeysOf, Fixes;
  }

  lemma DisposalOfTheUnheard(b: Buffer, session: string)
    requires OfSession(b.tables.points, session) != {}
    ensures !NothingLost(Next(Unheard(b), Dispose(session)))
  {
    var points, who := b.tables.points, OfSession(b.tables.points, session);
    var id :| id in who;
    KeysWithout(points, who);
    KeysOfMap(points, id);
    var gone := Next(Unheard(b), Dispose(session));
    assert KeyOf(id, points[id]) in KeysAmong(points, who) && KeyOf(id, points[id]) in gone.stored && gone.Heard() == {};
  }

  // With nothing pending, which is what is checked before it, disposal is safe
  // exactly when none of the session's rows is in flight.
  lemma WithNothingPendingSafeExactlyWhen(b: Buffer, session: string)
    requires Counted(b) && b.pending == 0 && forall id :: id in b.tables.points ==> |id| <= I.ID_CHARS
    ensures (forall w :: Sound(w) && w.buffer == b && NothingLost(w) ==> NothingLost(Next(w, Dispose(session))))
      <==> OfSession(b.tables.points, session) * InFlight(b.tables.points) == {}
  {
    DisposalIsSafeExactlyWhen(b, session);
    assert Pending(b.tables.points) == {};
    assert forall id :: id in b.tables.points ==> b.tables.points[id].inFlight by {
      forall id | id in b.tables.points
        ensures b.tables.points[id].inFlight
      {
        assert id !in Pending(b.tables.points);
      }
    }
    assert OfSession(b.tables.points, session) * InFlight(b.tables.points) == OfSession(b.tables.points, session);
  }

  // ---------------------------------------------------------------------------
  // Two runs of a new phone
  // ---------------------------------------------------------------------------

  const ID := "0123456789"

  // One fix of session "s1", as a row with this batch and this many tries.
  function OneRow(batch: Option<nat>, attempts: nat): Points {
    map[ID := S.Row("s1", 7, 1, batch.Some?, batch, 0, attempts)]
  }

  function OneFix(): Keys { {I.PointKey("s1", ID, 7)} }

  // The buffer that holds it.
  ghost function Holding(batch: Option<nat>, attempts: nat): Buffer {
    Buffer(S.Tables(OneRow(batch, attempts), S.WithDeviceSeq(map[], 1)), 1, if batch.Some? then 0 else 1, 1, 10)
  }

  // A world in which nothing but that fix was ever stored.
  ghost function Scene(batch: Option<nat>, attempts: nat, token: Option<string>, claims: map<nat, Keys>,
                       requests: set<Request>, responses: set<nat>, held: Keys): World
  {
    World(Holding(batch, attempts), token, claims, requests, responses, held, {}, OneFix(), {}, {})
  }

  function Capturing(): Op { Append(ID, Capture("s1", 7), true, AppendSound, {}) }
  function Claiming(batch: nat): Op { Claim(200, batch, 0, {ID}, false) }
  function Payload(): seq<I.Item> { [I.Parsed(ID, 7, true)] }
  function Taken(batch: nat, session: string): Event { Ingest(Request(batch, session), Payload(), 0, 7, false) }

  lemma OneRowCounts(batch: Option<nat>, attempts: nat)
    ensures var points := OneRow(batch, attempts);
      && KeysOf(points) == KeysAmong(points, {ID}) == OneFix()
      && Pending(points) == (if batch.Some? then {} else {ID})
      && forall b: nat :: InBatch(points, b) == (if batch == Some(b) then {ID} else {})
  {
    var points := OneRow(batch, attempts);
    KeysOfMap(points, ID);
    assert KeysAmong(points, {ID}) == KeysOf(points);
  }

  lemma CaptureScene(w: World)
    requires w == Fresh(map[], 10).(token := Some("s1"))
    ensures Enabled(w, Phone(Capturing()))
    ensures Next(w, Phone(Capturing())) == Scene(None, 0, Some("s1"), map[], {}, {}, {})
  {
    var b := w.buffer;
    assert MaxSeq(map[]) == 0;
    assert NextSequence(b, true) == 1;
    hide S.WithDeviceSeq, NextSequence;
    var row := NewRow(Capture("s1", 7), 1);
    assert map[][ID := row] - {} == OneRow(None, 0);
    assert ResultOf(b, Capturing()) == Stored(ID, 1, 0);
    assert KeysAmong(Grown(b, Capturing(), 1), {}) == {};
  }

  lemma ClaimScene(batch: nat, attempts: nat, token: Option<string>, claims: map<nat, Keys>,
                   requests: set<Request>, responses: set<nat>, held: Keys)
    requires batch !in claims
    ensures var w := Scene(None, attempts, token, claims, requests, responses, held);
      Enabled(w, Phone(Claiming(batch)))
      && Next(w, Phone(Claiming(batch))) == Scene(Some(batch), attempts, token, claims[batch := OneFix()], requests, responses, held)
  {
    var points := OneRow(None, attempts);
    OneRowCounts(None, attempts);
    hide S.WithDeviceSeq;
    assert Claimed(points, {ID}, batch, 0) == OneRow(Some(batch), attempts);
    assert |{ID}| == 1;
  }

  lemma ReleaseScene(batch: nat, token: Option<string>, claims: map<nat, Keys>,
                     requests: set<Request>, responses: set<nat>, held: Keys)
    ensures var w := Scene(Some(batch), 0, token, claims, requests, responses, held);
      Enabled(w, Phone(Release(batch, false)))
      && Next(w, Phone(Release(batch, false))) == Scene(None, 1, token, claims, requests, responses, held)
  {
    OneRowCounts(Some(batch), 0);
    hide S.WithDeviceSeq;
    assert HandedBack(OneRow(Some(batch), 0), {ID}) == OneRow(None, 1);
    assert |{ID}| == 1;
  }

  lemma PayloadIsCarried()
    ensures Carries(Payload(), OneFix())
  {
    var items, k := Payload(), I.PointKey("s1", ID, 7);
    assert Fixes(OneFix()) == {Fix(ID, 7)} by {
      assert k in OneFix() && FixOf(k) == Fix(ID, 7);
    }
    assert items[0].Parsed? && Fix(items[0].id, items[0].recordedAt) == Fix(ID, 7);
  }

  lemma PayloadIsOnePoint()
    ensures I.Normalised(Payload()) == [I.Point(ID, 7, true)] && I.Valid(I.Point(ID, 7, true), 0, 7)
  {
    NormalisedFixes(Payload());
  }

  lemma OnePointKeys(session: string, p: I.Point, created: int, now: int)
    requires I.Valid(p, created, now)
    ensures I.ValidKeys(session, [p], created, now) == {I.KeyOf(session, p)}
  {
    hide I.Valid;
    assert p in [p];
  }

  lemma PayloadIsTheFix(session: string)
    ensures Carries(Payload(), OneFix())
    ensures I.ValidKeys(session, I.Normalised(Payload()), 0, 7) == Filed(session, Payload()) == {I.PointKey(session, ID, 7)}
  {
    hide Carries, I.Valid, I.Normalised, I.ValidKeys;
    PayloadIsCarried();
    PayloadIsOnePoint();
    OnePointKeys(session, I.Point(ID, 7, true), 0, 7);
    assert I.Point(ID, 7, true) in I.Normalised(Payload());
  }

  lemma IngestScene(w: World, batch: nat, session: string)
    requires Request(batch, session) in w.requests && batch in w.claims && w.claims[batch] == OneFix()
    ensures Enabled(w, Taken(batch, session))
    ensures Next(w, Taken(batch, session)) ==
      w.(held := w.held + {I.PointKey(session, ID, 7)}, requests := w.requests - {Request(batch, session)}, responses := w.responses + {batch})
  {
    PayloadIsTheFix(session);
    hide I.ValidKeys, Filed, Carries;
    assert w.refused + ({I.PointKey(session, ID, 7)} - {I.PointKey(session, ID, 7)}) == w.refused;
  }

  lemma Longer(w: World, run: seq<Event>, v: World, e: Event, more: seq<Event>)
    requires Run(w, run) && After(w, run) == v && Enabled(v, e) && more == run + [e]
    ensures Run(w, more) && After(w, more) == Next(v, e)
  {
    hide Enabled, Next;
    assert more[..|run|] == run && more[|run|] == e;
    forall i | 0 <= i < |more|
      ensures Enabled(After(w, more[..i]), more[i])
    {
      assert i < |run| ==> more[..i] == run[..i] && more[i] == run[i];
    }
  }

  lemma Four(w: World, e0: Event, w1: World, e1: Event, w2: World, e2: Event, w3: World, e3: Event)
    requires Enabled(w, e0) && Next(w, e0) == w1 && Enabled(w1, e1) && Next(w1, e1) == w2
    requires Enabled(w2, e2) && Next(w2, e2) == w3 && Enabled(w3, e3)
    ensures Run(w, [e0, e1, e2, e3]) && After(w, [e0, e1, e2, e3]) == Next(w3, e3)
  {
    hide Enabled, Next, Run;
    assert Run(w, []) by { NothingRuns(w); }
    Longer(w, [], w, e0, [e0]);
    Longer(w, [e0], w1, e1, [e0, e1]);
    Longer(w, [e0, e1], w2, e2, [e0, e1, e2]);
    Longer(w, [e0, e1, e2], w3, e3, [e0, e1, e2, e3]);
  }

  lemma NothingRuns(w: World)
    ensures Run(w, [])
  {
  }

  lemma {:induction false} OneAfterAnother(w: World, run: seq<Event>, v: World, more: seq<Event>)
    requires Run(w, run) && After(w, run) == v && Run(v, more)
    ensures Run(w, run + more) && After(w, run + more) == After(v, more)
    decreases |more|
  {
    hide Enabled, Next;
    if more == [] {
      assert run + more == run;
    } else {
      hide *;
      var n := |more| - 1;
      LastOfRun(v, more);
      OneAfterAnother(w, run, v, more[..n]);
      assert run + more == run + more[..n] + [more[n]];
      Longer(w, run + more[..n], After(v, more[..n]), more[n], run + more);
    }
  }

  lemma LastOfRun(w: World, run: seq<Event>)
    requires run != [] && Run(w, run)
    ensures var n := |run| - 1;
      && Run(w, run[..n]) && Enabled(After(w, run[..n]), run[n]) && After(w, run) == Next(After(w, run[..n]), run[n])
  {
    hide *;
    RunPrefix(w, run, |run| - 1);
    LastIsEnabled(w, run, |run| - 1);
    AfterLast(w, run);
  }

  lemma LastIsEnabled(w: World, run: seq<Event>, n: nat)
    requires n < |run| && Run(w, run)
    ensures Enabled(After(w, run[..n]), run[n])
  {
    hide Enabled, After;
  }

  lemma AfterLast(w: World, run: seq<Event>)
    requires run != []
    ensures After(w, run) == Next(After(w, run[..|run| - 1]), run[|run| - 1])
  {
    hide Next;
  }

  // A fix captured, claimed and sent under session "s1".
  function Sent(): seq<Event> { [TakeCredentials("s1"), Phone(Capturing()), Phone(Claiming(0)), Send(0)] }

  lemma SentScene()
    ensures Run(Fresh(map[], 10), Sent())
    ensures After(Fresh(map[], 10), Sent()) == Scene(Some(0), 0, Some("s1"), map[0 := OneFix()], {Request(0, "s1")}, {}, {})
  {
    var w := Fresh(map[], 10);
    var w1 := w.(token := Some("s1"));
    var w2, w3 := Scene(None, 0, Some("s1"), map[], {}, {}, {}), Scene(Some(0), 0, Some("s1"), map[0 := OneFix()], {}, {}, {});
    assert Enabled(w, TakeCredentials("s1")) && Next(w, TakeCredentials("s1")) == w1;
    CaptureScene(w1);
    ClaimScene(0, 0, Some("s1"), map[], {}, {}, {});
    assert Enabled(w3, Send(0)) && Next(w3, Send(0)) == w3.(requests := {Request(0, "s1")});
    Four(w, TakeCredentials("s1"), w1, Phone(Capturing()), w2, Phone(Claiming(0)), w3, Send(0));
  }

  // The check before disposal asks only that nothing is pending: one fix captured
  // and claimed, its request lost, and disposal drops what the server never saw.
  lemma NothingPendingIsNotEnough()
    ensures var w, run := Fresh(map[], 10), Sent() + [LoseRequest(Request(0, "s1"))];
      && Run(w, run) && NothingLost(After(w, run)) && Counted(After(w, run).buffer) && After(w, run).buffer.pending == 0
      && !NothingLost(Next(After(w, run), Dispose("s1")))
  {
    hide *;
    SentScene();
    OneSceneDisposed();
    RequestLost();
    var before := Scene(Some(0), 0, Some("s1"), map[0 := OneFix()], {Request(0, "s1")}, {}, {});
    Longer(Fresh(map[], 10), Sent(), before, LoseRequest(Request(0, "s1")), Sent() + [LoseRequest(Request(0, "s1"))]);
  }

  lemma RequestLost()
    ensures var before, lose := Scene(Some(0), 0, Some("s1"), map[0 := OneFix()], {Request(0, "s1")}, {}, {}), LoseRequest(Request(0, "s1"));
      Enabled(before, lose) && Next(before, lose) == Scene(Some(0), 0, Some("s1"), map[0 := OneFix()], {}, {}, {})
  {
    hide Holding, OneFix;
  }

  lemma OneSceneDisposed()
    ensures var w := Scene(Some(0), 0, Some("s1"), map[0 := OneFix()], {}, {}, {});
      NothingLost(w) && Counted(w.buffer) && w.buffer.pending == 0 && !NothingLost(Next(w, Dispose("s1")))
  {
    var w := Scene(Some(0), 0, Some("s1"), map[0 := OneFix()], {}, {}, {});
    OneRowCounts(Some(0), 0);
    hide S.WithDeviceSeq;
    assert OfSession(w.Points(), "s1") == {ID};
    var gone := Next(w, Dispose("s1"));
    assert gone.Points() == map[] && KeysOf(map[]) == {} && gone.Heard() == {};
    assert I.PointKey("s1", ID, 7) in gone.stored;
  }

  // The response to that batch is lost, the batch handed back, the session ended
  // with a DELETE that failed, and another session claimed.
  function UnderTheFirst(): seq<Event> { [Taken(0, "s1"), LoseResponse(0), Phone(Release(0, false)), DropCredentials] }
  function UnderTheSecond(): seq<Event> { [TakeCredentials("s2"), Phone(Claiming(1)), Send(1), Taken(1, "s2")] }
  function TakenTwice(): seq<Event> { Sent() + UnderTheFirst() + UnderTheSecond() }

  // Then the row of "s1" goes out under "s2": the server files a fix the phone never
  // recorded there, and holds it twice.
  lemma AnotherSessionsTokenFilesItTwice()
    ensures var w, after := Fresh(map[], 10), After(Fresh(map[], 10), TakenTwice());
      && Run(w, TakenTwice()) && after.stored == OneFix()
      && after.held == {I.PointKey("s1", ID, 7), I.PointKey("s2", ID, 7)}
      && !FiledRight(after) && !OneKeyPerId(after.held)
  {
    hide Scene, Fresh, Sent, UnderTheFirst, UnderTheSecond, Run, After, Next, Enabled, OneFix, FiledRight, OneKeyPerId;
    var claims, held := map[0 := OneFix()], {I.PointKey("s1", ID, 7)};
    SentScene();
    FirstTaken(claims, held);
    SecondTaken(claims, held);
    HeldTwice(claims[1 := OneFix()]);
    var w4, w8 := Scene(Some(0), 0, Some("s1"), claims, {Request(0, "s1")}, {}, {}), Scene(None, 1, None, claims, {}, {}, held);
    OneAfterAnother(Fresh(map[], 10), Sent(), w4, UnderTheFirst());
    OneAfterAnother(Fresh(map[], 10), Sent() + UnderTheFirst(), w8, UnderTheSecond());
  }

  lemma HeldTwice(claims: map<nat, Keys>)
    ensures var last := Scene(Some(1), 1, Some("s2"), claims, {}, {1}, {I.PointKey("s1", ID, 7)} + {I.PointKey("s2", ID, 7)});
      && last.stored == OneFix() && last.held == {I.PointKey("s1", ID, 7), I.PointKey("s2", ID, 7)}
      && !FiledRight(last) && !OneKeyPerId(last.held)
  {
    var last := Scene(Some(1), 1, Some("s2"), claims, {}, {1}, {I.PointKey("s1", ID, 7)} + {I.PointKey("s2", ID, 7)});
    assert I.PointKey("s2", ID, 7) in last.Answered() && I.PointKey("s2", ID, 7) !in last.stored;
    assert I.PointKey("s1", ID, 7) in last.held && I.PointKey("s2", ID, 7) in last.held;
  }

  lemma FirstTaken(claims: map<nat, Keys>, held: Keys)
    requires claims == map[0 := OneFix()] && held == {I.PointKey("s1", ID, 7)}
    ensures var w, run := Scene(Some(0), 0, Some("s1"), claims, {Request(0, "s1")}, {}, {}), UnderTheFirst();
      Run(w, run) && After(w, run) == Scene(None, 1, None, claims, {}, {}, held)
  {
    var w4 := Scene(Some(0), 0, Some("s1"), claims, {Request(0, "s1")}, {}, {});
    var w5, w6 := Scene(Some(0), 0, Some("s1"), claims, {}, {0}, held), Scene(Some(0), 0, Some("s1"), claims, {}, {}, held);
    var w7 := Scene(None, 1, Some("s1"), claims, {}, {}, held);
    IngestScene(w4, 0, "s1");
    hide Holding, Taken;
    assert w5 == w4.(held := held, requests := {}, responses := {0});
    QuietScenes(claims, held);
    ReleaseScene(0, Some("s1"), claims, {}, {}, held);
    hide Enabled, Next, Scene;
    Four(w4, Taken(0, "s1"), w5, LoseResponse(0), w6, Phone(Release(0, false)), w7, DropCredentials);
  }

  lemma SecondTaken(claims: map<nat, Keys>, held: Keys)
    requires claims == map[0 := OneFix()] && held == {I.PointKey("s1", ID, 7)}
    ensures var w, run := Scene(None, 1, None, claims, {}, {}, held), UnderTheSecond();
      Run(w, run)
      && After(w, run) == Scene(Some(1), 1, Some("s2"), claims[1 := OneFix()], {}, {1}, held + {I.PointKey("s2", ID, 7)})
  {
    var w8, w9 := Scene(None, 1, None, claims, {}, {}, held), Scene(None, 1, Some("s2"), claims, {}, {}, held);
    var w10 := Scene(Some(1), 1, Some("s2"), claims[1 := OneFix()], {}, {}, held);
    var w11 := Scene(Some(1), 1, Some("s2"), claims[1 := OneFix()], {Request(1, "s2")}, {}, held);
    IngestScene(w11, 1, "s2");
    hide Holding, Taken, Claiming;
    QuietScenes(claims, held);
    ClaimScene(1, 1, Some("s2"), claims, {}, {}, held);
    assert w11.(held := held + {I.PointKey("s2", ID, 7)}, requests := {}, responses := {1})
      == Scene(Some(1), 1, Some("s2"), claims[1 := OneFix()], {}, {1}, held + {I.PointKey("s2", ID, 7)});
    hide Enabled, Next, Scene;
    Four(w8, TakeCredentials("s2"), w9, Phone(Claiming(1)), w10, Send(1), w11, Taken(1, "s2"));
  }

  // The steps that move no row.
  lemma QuietScenes(claims: map<nat, Keys>, held: Keys)
    ensures var w := Scene(Some(0), 0, Some("s1"), claims, {}, {0}, held);
      Enabled(w, LoseResponse(0)) && Next(w, LoseResponse(0)) == Scene(Some(0), 0, Some("s1"), claims, {}, {}, held)
    ensures var w := Scene(None, 1, Some("s1"), claims, {}, {}, held);
      Enabled(w, DropCredentials) && Next(w, DropCredentials) == Scene(None, 1, None, claims, {}, {}, held)
    ensures var w := Scene(None, 1, None, claims, {}, {}, held);
      Enabled(w, TakeCredentials("s2")) && Next(w, TakeCredentials("s2")) == Scene(None, 1, Some("s2"), claims, {}, {}, held)
    ensures var w := Scene(Some(1), 1, Some("s2"), claims[1 := OneFix()], {}, {}, held);
      Enabled(w, Send(1)) && Next(w, Send(1)) == Scene(Some(1), 1, Some("s2"), claims[1 := OneFix()], {Request(1, "s2")}, {}, held)
  {
    hide Holding, OneFix;
  }
}
