// The connection: nested transactions built on SQLite savepoints, and the
// prepared-statement cache. The SQL engine is a value of all tables, a stack of
// saved images and the image that survives the process.
module SqliteDatabase {
  import opened Options

  datatype Savepoint<T> = Saved(name: nat, image: T)

  // What can go wrong with the two statements that bracket a transaction.
  datatype Fault = NoFault | SavepointFails | ReleaseFails

  // A unit of work against the tables. A statement that answers None threw and
  // changed nothing; Absorb is a caller that swallows the error of its body.
  datatype Work<!T> =
    | Skip
    | Statement(effect: T -> Option<T>)
    | Throw
    | Then(first: Work<T>, second: Work<T>)
    | Transaction(body: Work<T>, fault: Fault)
    | Absorb(body: Work<T>)

  datatype Outcome<T> = Outcome(tables: T, ok: bool)

  // The reference: a transaction is all or nothing, with no stack anywhere.
  function Meaning<T>(w: Work<T>, t: T): Outcome<T> {
    match w
    case Skip => Outcome(t, true)
    case Statement(effect) => (match effect(t) case Some(u) => Outcome(u, true) case None => Outcome(t, false))
    case Throw => Outcome(t, false)
    case Then(first, second) =>
      var a := Meaning(first, t);
      if a.ok then Meaning(second, a.tables) else a
    case Transaction(body, fault) =>
      var a := Meaning(body, t);
      if fault == NoFault && a.ok then a else Outcome(t, false)
    case Absorb(body) => Outcome(Meaning(body, t).tables, true)
  }

  // The table images that reach the disk when the work runs with no savepoint
  // open: one per statement on its own, one per outermost transaction.
  function Commits<T>(w: Work<T>, t: T): seq<T> {
    match w
    case Skip => []
    case Statement(effect) => (match effect(t) case Some(u) => [u] case None => [])
    case Throw => []
    case Then(first, second) =>
      var a := Meaning(first, t);
      Commits(first, t) + if a.ok then Commits(second, a.tables) else []
    case Transaction(body, fault) => if fault == SavepointFails then [] else [Meaning(w, t).tables]
    case Absorb(body) => Commits(body, t)
  }

  // ---- a second reading, for work in which nothing goes wrong ----------------------

  // No throw, and no bracket that fails.
  predicate Unbroken<T>(w: Work<T>) {
    match w
    case Throw => false
    case Then(first, second) => Unbroken(first) && Unbroken(second)
    case Transaction(body, fault) => fault == NoFault && Unbroken(body)
    case Absorb(body) => Unbroken(body)
    case _ => true
  }

  // The statements of a unit of work in the order they are written, brackets forgotten.
  function Effects<T>(w: Work<T>): seq<T -> Option<T>> {
    match w
    case Statement(effect) => [effect]
    case Then(first, second) => Effects(first) + Effects(second)
    case Transaction(body, _) => Effects(body)
    case Absorb(body) => Effects(body)
    case _ => []
  }

  // The tables after all of them, if none throws.
  function ApplyAll<T>(effects: seq<T -> Option<T>>, t: T): Option<T> {
    if effects == [] then Some(t)
    else match effects[0](t)
      case None => None
      case Some(u) => ApplyAll(effects[1..], u)
  }

  lemma {:induction false} ApplyAllAppends<T>(a: seq<T -> Option<T>>, b: seq<T -> Option<T>>, t: T)
    ensures ApplyAll(a + b, t) == match ApplyAll(a, t) case None => None case Some(u) => ApplyAll(b, u)
  {
    if a == [] {
      assert a + b == b;
    } else {
      assert (a + b)[1..] == a[1..] + b;
      match a[0](t)
      case None =>
      case Some(u) => ApplyAllAppends(a[1..], b, u);
    }
  }

  // Work that goes well keeps all of its statements, wherever its brackets stand
  // and however deep.
  lemma {:induction false} WorkThatGoesWellIsKept<T>(w: Work<T>, t: T)
    requires Unbroken(w) && ApplyAll(Effects(w), t).Some?
    ensures Meaning(w, t) == Outcome(ApplyAll(Effects(w), t).value, true)
  {
    match w
    case Statement(effect) =>
      assert Effects(w)[1..] == [];
    case Then(first, second) =>
      ApplyAllAppends(Effects(first), Effects(second), t);
      WorkThatGoesWellIsKept(first, t);
      WorkThatGoesWellIsKept(second, ApplyAll(Effects(first), t).value);
    case Transaction(body, _) => WorkThatGoesWellIsKept(body, t);
    case Absorb(body) => WorkThatGoesWellIsKept(body, t);
    case _ =>
  }

  lemma BracketsMean<T>(body: Work<T>, fault: Fault, t: T)
    ensures Meaning(Transaction(body, fault), t) == (
      if fault == NoFault && Meaning(body, t).ok then Meaning(body, t) else Outcome(t, false))
    ensures Commits(Transaction(body, fault), t) == if fault == SavepointFails then [] else [Meaning(Transaction(body, fault), t).tables]
  {
  }

  // Work that throws as soon as it is reached with these tables.
  predicate Raises<T>(w: Work<T>, t: T) {
    w.Throw? || (w.Statement? && w.effect(t).None?) || (w.Transaction? && w.fault != NoFault)
  }

  // After any work that went well, a throw ends everything up to whoever absorbs
  // it: what follows never runs, a transaction around it is undone, and without
  // one the work before it stays.
  lemma WhatAThrowLeaves<T>(before: Work<T>, thrower: Work<T>, rest: Work<T>, fault: Fault, t: T)
    requires Unbroken(before) && ApplyAll(Effects(before), t).Some? && Raises(thrower, ApplyAll(Effects(before), t).value)
    ensures var kept, broken := ApplyAll(Effects(before), t).value, Then(before, Then(thrower, rest));
      && Meaning(broken, t) == Outcome(kept, false)
      && Meaning(Absorb(broken), t) == Outcome(kept, true)
      && Meaning(Transaction(broken, fault), t) == Outcome(t, false)
      && Meaning(Absorb(Transaction(broken, fault)), t) == Outcome(t, true)
  {
    WorkThatGoesWellIsKept(before, t);
    var kept, broken := ApplyAll(Effects(before), t).value, Then(before, Then(thrower, rest));
    assert Meaning(Then(thrower, rest), kept) == Outcome(kept, false);
    assert Meaning(broken, t) == Outcome(kept, false);
    assert Meaning(Transaction(broken, fault), t) == Outcome(t, false);
  }

  // The most recent savepoint of that name, which is the one SQLite means.
  ghost predicate LastNamed<T>(saved: seq<Savepoint<T>>, name: nat, k: int) {
    0 <= k < |saved| && saved[k].name == name && forall i :: k < i < |saved| ==> saved[i].name != name
  }

  lemma Popped<T>(saved: seq<Savepoint<T>>, top: Savepoint<T>)
    ensures (saved + [top])[..|saved|] == saved
  {
  }

  class Database<T> {
    var tables: T
    var saved: seq<Savepoint<T>>
    var durable: T
    var savepointDepth: nat
    // Every image the disk ever held, oldest first: what a kill can expose.
    ghost var disk: seq<T>

    // Between calls the stack mirrors the depth, names are positions, and with
    // no savepoint open the disk holds the tables.
    ghost predicate Valid()
      reads this
    {
      && |saved| == savepointDepth
      && (forall i :: 0 <= i < |saved| ==> saved[i].name == i + 1)
      && disk != [] && disk[|disk| - 1] == durable
      && (saved == [] ==> durable == tables)
    }

    constructor (image: T)
      ensures Valid() && savepointDepth == 0 && tables == image && disk == [image]
    {
      tables, durable, saved, savepointDepth := image, image, [], 0;
      disk := [image];
    }

    // ---- the three statements, as SQLite defines them --------------------------

    method Savepoint(name: nat)
      modifies this`saved
      ensures saved == old(saved) + [Saved(name, tables)]
    {
      saved := saved + [Saved(name, tables)];
    }

    method Find(name: nat) returns (k: int)
      requires exists i :: 0 <= i < |saved| && saved[i].name == name
      ensures LastNamed(saved, name, k)
    {
      k := |saved| - 1;
      while saved[k].name != name
        invariant 0 <= k < |saved|
        invariant exists i :: 0 <= i <= k && saved[i].name == name
        invariant forall i :: k < i < |saved| ==> saved[i].name != name
        decreases k
      {
        k := k - 1;
      }
    }

    // RELEASE forgets the savepoint and those above it; the outermost one commits.
    method Release(name: nat)
      requires exists i :: 0 <= i < |saved| && saved[i].name == name
      modifies this
      ensures tables == old(tables) && savepointDepth == old(savepointDepth)
      ensures exists k :: LastNamed(old(saved), name, k) && saved == old(saved)[..k]
      ensures if saved == [] then durable == tables && disk == old(disk) + [tables]
              else durable == old(durable) && disk == old(disk)
    {
      var k := Find(name);
      saved := saved[..k];
      if saved == [] {
        durable := tables;
        disk := disk + [tables];
      }
    }

    // ROLLBACK TO restores the image and keeps the savepoint itself.
    method RollbackTo(name: nat)
      requires exists i :: 0 <= i < |saved| && saved[i].name == name
      modifies this`tables, this`saved
      ensures exists k :: LastNamed(old(saved), name, k) && saved == old(saved)[..k + 1] && tables == old(saved)[k].image
    {
      var k := Find(name);
      tables := saved[k].image;
      saved := saved[..k + 1];
    }

    // One statement; on its own it commits at once.
    method Run(effect: T -> Option<T>) returns (ok: bool)
      requires Valid()
      modifies this`tables, this`durable, this`disk
      ensures Valid()
      ensures Outcome(tables, ok) == Meaning(Statement(effect), old(tables))
      ensures saved != [] || !ok ==> durable == old(durable) && disk == old(disk)
      ensures saved == [] ==> disk == old(disk) + Commits(Statement(effect), old(tables))
      ensures ok == effect(old(tables)).Some? && (ok ==> tables == effect(old(tables)).value)
    {
      match effect(tables)
      case None => ok := false;
      case Some(next) =>
        tables, ok := next, true;
        if saved == [] {
          durable := next;
          disk := disk + [next];
        }
    }

    // ---- a transaction, opened and closed ---------------------------------------

    // Opening: false when SAVEPOINT itself threw, in which case nothing happened.
    method Begin(fault: Fault) returns (ok: bool)
      requires Valid()
      modifies this`saved, this`savepointDepth
      ensures ok == (fault != SavepointFails)
      ensures Valid() && savepointDepth == old(savepointDepth) + if ok then 1 else 0
      ensures !ok ==> saved == old(saved)
      ensures ok ==> saved == old(saved) + [Saved(old(savepointDepth) + 1, tables)]
    {
      savepointDepth := savepointDepth + 1;
      if fault == SavepointFails {
        savepointDepth := savepointDepth - 1;
        return false;
      }
      Savepoint(savepointDepth);
      ok := true;
    }

    // Closing: RELEASE after a body that returned; after one that threw, or when
    // that RELEASE throws, ROLLBACK TO and RELEASE.
    method Finish(bodyOk: bool, fault: Fault) returns (ok: bool)
      requires Valid() && saved != []
      modifies this
      ensures Valid() && saved == old(saved)[..|old(saved)| - 1] && savepointDepth == old(savepointDepth) - 1
      ensures ok == (bodyOk && fault != ReleaseFails)
      ensures tables == if ok then old(tables) else old(saved)[|old(saved)| - 1].image
      ensures if saved == [] then durable == tables && disk == old(disk) + [tables]
              else durable == old(durable) && disk == old(disk)
    {
      var name := savepointDepth;
      assert saved[|saved| - 1].name == name;
      ok := bodyOk && fault != ReleaseFails;
      if !ok {
        RollbackTo(name);
        assert saved[|saved| - 1].name == name;
      }
      Release(name);
      savepointDepth := savepointDepth - 1;
    }

    // Any nest of transactions means what the reference says, gives back the
    // stack and the depth it found, and writes to the disk exactly the images
    // the reference commits: none at all while a savepoint is open around it.
    method Execute(w: Work<T>) returns (ok: bool)
      requires Valid()
      modifies this
      ensures Valid() && saved == old(saved) && savepointDepth == old(savepointDepth)
      ensures Outcome(tables, ok) == Meaning(w, old(tables))
      ensures saved != [] ==> durable == old(durable) && disk == old(disk)
      ensures saved == [] ==> disk == old(disk) + Commits(w, old(tables))
      ensures Unbroken(w) && ApplyAll(Effects(w), old(tables)).Some? ==> ok && tables == ApplyAll(Effects(w), old(tables)).value
      ensures Raises(w, old(tables)) ==> !ok
      decreases w, 0
    {
      hide ApplyAll, Effects, Unbroken;
      if Unbroken(w) && ApplyAll(Effects(w), tables).Some? {
        WorkThatGoesWellIsKept(w, tables);
      }
      match w
      case Skip => ok := true;
      case Statement(effect) => ok := Run(effect);
      case Throw => ok := false;
      case Then(first, second) =>
        ok := Execute(first);
        if ok {
          ok := Execute(second);
        }
      case Transaction(body, fault) =>
        ok := ExecuteTransaction(body, fault);
      case Absorb(body) =>
        var inner := Execute(body);
        ok := true;
    }

    method ExecuteTransaction(body: Work<T>, fault: Fault) returns (ok: bool)
      requires Valid()
      modifies this
      ensures Valid() && saved == old(saved) && savepointDepth == old(savepointDepth)
      ensures Outcome(tables, ok) == Meaning(Transaction(body, fault), old(tables))
      ensures saved != [] ==> durable == old(durable) && disk == old(disk)
      ensures saved == [] ==> disk == old(disk) + Commits(Transaction(body, fault), old(tables))
      // All or nothing, in memory and on the disk.
      ensures fault != NoFault ==> !ok
      ensures !ok ==> tables == old(tables)
      ensures saved == [] ==> disk == old(disk) || disk == old(disk) + [tables]
      ensures fault == NoFault && Unbroken(body) && ApplyAll(Effects(body), old(tables)).Some? ==>
        ok && tables == ApplyAll(Effects(body), old(tables)).value
      decreases body, 1
    {
      BracketsMean(body, fault, tables);
      hide ApplyAll, Effects, Unbroken, Raises, Valid, Meaning, Commits, LastNamed;
      ghost var entry := tables;
      ok := Begin(fault);
      if ok {
        Popped(old(saved), saved[|saved| - 1]);
        ok := Execute(body);
        assert saved[|saved| - 1].image == entry;
        ok := Finish(ok, fault);
      }
    }
  }

  // ---------------------------------------------------------------------------
  // What the reference says about failures
  // ---------------------------------------------------------------------------

  // Reading a unit of work with every transaction that will fail, and is
  // absorbed, left out altogether.
  function WithoutAbsorbedFailures<T>(w: Work<T>, t: T): Work<T> {
    match w
    case Then(first, second) =>
      var a := Meaning(first, t);
      Then(WithoutAbsorbedFailures(first, t), if a.ok then WithoutAbsorbedFailures(second, a.tables) else second)
    case Transaction(body, fault) => Transaction(WithoutAbsorbedFailures(body, t), fault)
    case Absorb(Transaction(body, fault)) =>
      if Meaning(Transaction(body, fault), t).ok
      then Absorb(Transaction(WithoutAbsorbedFailures(body, t), fault))
      else Skip
    case _ => w
  }

  // An outer body that absorbs an inner failure keeps all its other work: the
  // failed inner transactions might as well not have been written, at any depth.
  lemma {:induction false} AbsorbedFailuresLeaveNoTrace<T>(w: Work<T>, t: T)
    ensures Meaning(WithoutAbsorbedFailures(w, t), t) == Meaning(w, t)
  {
    match w
    case Then(first, second) =>
      AbsorbedFailuresLeaveNoTrace(first, t);
      if Meaning(first, t).ok {
        AbsorbedFailuresLeaveNoTrace(second, Meaning(first, t).tables);
      }
    case Transaction(body, fault) => AbsorbedFailuresLeaveNoTrace(body, t);
    case Absorb(Transaction(body, fault)) =>
      AbsorbedFailuresLeaveNoTrace(body, t);
    case _ =>
  }

  // The disk ends where the tables end.
  lemma {:induction false} LastCommitIsTheOutcome<T>(w: Work<T>, t: T)
    ensures var c := Commits(w, t); (if c == [] then t else c[|c| - 1]) == Meaning(w, t).tables
  {
    match w
    case Then(first, second) =>
      LastCommitIsTheOutcome(first, t);
      if Meaning(first, t).ok {
        LastCommitIsTheOutcome(second, Meaning(first, t).tables);
      }
    case Absorb(body) => LastCommitIsTheOutcome(body, t);
    case _ =>
  }

  // ---------------------------------------------------------------------------
  // Prepared statements
  // ---------------------------------------------------------------------------

  // A query whose row decoder runs further queries, and may throw.
  datatype Query = Query(sql: string, nested: seq<Query>)

  // Every handle ever prepared is cached, once, or finalised, or still running;
  // none is both finalised and in use.
  ghost predicate Accounted(cache: map<string, nat>, active: set<nat>, prepared: nat, finalised: set<nat>) {
    && (forall h :: h in finalised || h in active || h in cache.Values ==> h < prepared)
    && (forall h :: 0 <= h < prepared ==> h in finalised || h in active || h in cache.Values)
    && finalised !! active && finalised !! cache.Values
    && (forall a, b :: a in cache && b in cache && cache[a] == cache[b] ==> a == b)
  }

  // What a finished query leaves of the cache: the old entries, and new ones
  // only for handles prepared since.
  ghost predicate Extends(cache: map<string, nat>, before: map<string, nat>, preparedBefore: nat) {
    forall s :: s in before || s in cache ==>
      s in cache && if s in before then cache[s] == before[s] else cache[s] >= preparedBefore
  }

  class StatementCache {
    var statementCache: map<string, nat>
    var activeStatements: set<nat>
    // Handles are numbered as they are prepared.
    var prepared: nat
    ghost var finalised: set<nat>

    ghost predicate Valid()
      reads this
    {
      Accounted(statementCache, activeStatements, prepared, finalised)
    }

    // The handle handed out is never one that is already mid-step.
    method Acquire(sql: string) returns (stmt: nat, throwaway: bool)
      requires Valid()
      modifies this`statementCache, this`prepared
      ensures stmt !in activeStatements && stmt !in finalised
      ensures Accounted(statementCache, activeStatements + {stmt}, prepared, finalised)
      ensures Extends(statementCache, old(statementCache), old(prepared)) && sql in statementCache
      ensures prepared >= old(prepared) && stmt < prepared
      ensures if throwaway then stmt !in statementCache.Values && stmt == old(prepared) else statementCache[sql] == stmt
    {
      var cached := sql in statementCache;
      var reusable := cached && statementCache[sql] !in activeStatements;
      if reusable {
        stmt := statementCache[sql];
      } else {
        stmt := prepared;
        prepared := prepared + 1;
        if !cached {
          AddedValue(statementCache, sql, stmt);
          statementCache := statementCache[sql := stmt];
        }
      }
      throwaway := !reusable && cached;
    }

    // The statement a query runs on was neither running nor finalised; and once
    // the query is over, nested ones included, the running set is as it was and
    // every handle is accounted for.
    method WithStatement(q: Query) returns (ghost used: nat)
      requires Valid()
      modifies this
      ensures used !in old(activeStatements) && used !in old(finalised)
      ensures Valid() && activeStatements == old(activeStatements)
      ensures q.sql in statementCache && Extends(statementCache, old(statementCache), old(prepared))
      ensures prepared >= old(prepared)
      ensures old(finalised) <= finalised
      decreases q, 0
    {
      hide Accounted;
      var stmt, throwaway := Acquire(q.sql);
      used := stmt;
      ghost var started, preparedThen := statementCache, prepared;
      activeStatements := activeStatements + {stmt};
      RunNested(q.nested);
      activeStatements := activeStatements - {stmt};
      if throwaway {
        Finalise(started, stmt, preparedThen);
      } else {
        ResetCached(q.sql, stmt);
      }
    }

    method ResetCached(sql: string, ghost stmt: nat)
      requires Accounted(statementCache, activeStatements + {stmt}, prepared, finalised)
      requires sql in statementCache && statementCache[sql] == stmt
      ensures Valid()
    {
      assert stmt in statementCache.Values;
    }

    // A throwaway is in nobody's cache: it was not when it started, and what was
    // cached since was prepared later.
    method Finalise(ghost started: map<string, nat>, ghost stmt: nat, ghost preparedThen: nat)
      requires Accounted(statementCache, activeStatements + {stmt}, prepared, finalised)
      requires stmt !in activeStatements + started.Values && Extends(statementCache, started, preparedThen) && stmt < preparedThen
      modifies this`finalised
      ensures Valid() && finalised == old(finalised) + {stmt}
    {
      assert stmt !in statementCache.Values;
      finalised := finalised + {stmt};
    }

    method RunNested(qs: seq<Query>)
      requires Valid()
      modifies this
      ensures Valid() && activeStatements == old(activeStatements)
      ensures Extends(statementCache, old(statementCache), old(prepared))
      ensures prepared >= old(prepared)
      ensures old(finalised) <= finalised
      decreases qs
    {
      hide Accounted;
      if qs != [] {
        ghost var used := WithStatement(qs[0]);
        RunNested(qs[1..]);
      }
    }
  }

  lemma AddedValue(m: map<string, nat>, k: string, v: nat)
    requires k !in m
    ensures m[k := v].Values == m.Values + {v}
  {
    var n := m[k := v];
    assert n[k] == v;
    forall h | h in m.Values
      ensures h in n.Values
    {
      var s :| s in m && m[s] == h;
      assert n[s] == h;
    }
  }
}
