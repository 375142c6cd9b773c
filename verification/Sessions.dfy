/** A handler of the interleaved protocol does what one call of `create_benchmark` does: what other
    sessions commit in between is what that call allows, and it ends as that call ends. */
module Sessions {
  import opened Types
  import opened Tables
  import opened Backend
  import opened Submission
  import opened Accounting
  import opened Lifecycle
  import opened BenchmarkService

  /** The tables as one handler saw them at each of its steps, and as it left them at its last. */
  datatype Look = Look(start: Db, seen: Seen, after: Db, aborted: bool)

  const Blind := Look(EmptyDb, Seen(EmptyDb, EmptyDb, EmptyDb, EmptyDb), EmptyDb, false)

  /** A step of a handler that stood at `pc`, from the tables `p` to `t`. */
  function Noted(l: Look, pc: HandlerPc, p: Db, t: Db): Look
  {
    match pc
    case Finding => Look(p, Seen(p, p, p, p), t, false)
    case Selecting => l.(seen := Seen(p, p, p, p), after := t)
    case Flushing => l.(seen := Seen(l.seen.select, p, p, p), after := t)
    case Committing(_, _) => l.(seen := Seen(l.seen.select, l.seen.flush, p, p), after := t)
    case Refinding => l.(seen := l.seen.(again := p), after := t)
    case _ => l
  }

  function LookNext(l: Look, p: State, a: Action, t: State, h: nat): Look
  {
    if h >= |p.handlers| || h >= |t.handlers| || t.handlers[h] == p.handlers[h] then l
    else if a.Abort? then l.(aborted := true)
    else if a.Advance? then Noted(l, p.handlers[h].pc, p.db, t.db)
    else l
  }

  /** What handler `h` saw along a run. */
  function LookOf(limit: int, acts: seq<Action>, h: nat): Look
    decreases |acts|
  {
    if acts == [] then Blind
    else
      var n := |acts| - 1;
      LookNext(LookOf(limit, acts[..n], h), Exec(limit, Start, acts[..n]), acts[n], Exec(limit, Start, acts), h)
  }

  /** The handler's session is one call that ended with `r`. */
  ghost predicate IsCall(l: Look, x: Handler, r: CreateResult)
  {
    && Race(l.start, l.seen, x.key, x.spec.model)
    && Ends(l.start, l.seen, x.key, x.spec, true, l.after, r)
  }

  ghost predicate FoundAgain(l: Look, x: Handler, b: Uuid)
  {
    b in l.after.rows && IsCall(l, x, Reply(b, l.after.rows[b].status, false))
  }

  /** However the handler ended, other than by a failing database or by dying. */
  ghost predicate EndsAsCall(l: Look, x: Handler)
  {
    && !x.pc.Reraised? && (x.pc.Rejected? ==> !Accepts(x.key, x.spec))
    && (x.pc.Owing? ==> IsCall(l, x, Reply(x.pc.bench, Queued, true)))
    && (x.pc.Replied? ==>
          if x.pc.created then IsCall(l, x, Reply(x.pc.job, Queued, true)) else FoundAgain(l, x, x.pc.job))
    && (x.pc.Raised? && !l.aborted ==>
          IsCall(l, x, if Refused(l.start, l.seen, x.key, x.spec.model) then FlushConflict else DataError))
  }

  /** How the session stands, by program counter. */
  ghost predicate Stands(l: Look, x: Handler)
  {
    match x.pc
    case Finding => true
    case Selecting => x.key !in l.start.index
    case Flushing => x.key !in l.start.index && x.spec.model !in l.seen.select.models.Values
    case Committing(m, newModel) =>
      && x.key !in l.start.index && FitsModel(x.spec.model)
      && if newModel then
           && x.spec.model !in l.seen.select.models.Values && x.spec.model !in l.seen.flush.models.Values
           && m == l.seen.flush.nextUuid
         else x.spec.model in l.seen.select.models.Values
    case Refinding =>
      && x.key !in l.start.index && x.key in l.seen.commit.index
      && !Refused(l.start, l.seen, x.key, x.spec.model) && !Overflows(l.start, l.seen, x.key, x.spec)
      && Race(l.start, l.seen, x.key, x.spec.model)
    case _ => EndsAsCall(l, x)
  }

  ghost predicate LookOk(l: Look, t: State, h: nat)
  {
    && InOrder(l.start, l.seen) && DbLater(l.seen.again, t.db)
    && (h < |t.handlers| ==> Stands(l, t.handlers[h]))
  }

  /** The step of the handler has an effect. */
  predicate Moves(p: State, h: nat, pick: Uuid)
    requires h < |p.handlers|
  {
    var t := HandlerNext(p, h, pick);
    h < |t.handlers| && t.handlers[h] != p.handlers[h]
  }

  lemma DbLaterRefl(db: Db)
    ensures DbLater(db, db)
  {
    forall b | b in db.rows ensures RowLater(db, db, b) {}
  }

  lemma CreatedCall(l: Look, x: Handler, b: Uuid)
    requires Race(l.start, l.seen, x.key, x.spec.model)
    requires MayCreate(l.start, l.seen, x.key, x.spec)
    requires b == l.seen.commit.nextUuid && Inserted(l.seen.commit, x.key, x.spec, l.after)
    ensures IsCall(l, x, Reply(b, Queued, true))
  {
    CreatedEnds(l.start, l.seen, x.key, x.spec, l.after);
  }

  lemma FoundCall(l: Look, x: Handler, b: Uuid)
    requires Race(l.start, l.seen, x.key, x.spec.model)
    requires x.key in l.after.index && l.after.index[x.key] == b && KeyOk(l.after, x.key)
    requires x.key in l.start.index || x.key in l.seen.commit.index
    requires !Refused(l.start, l.seen, x.key, x.spec.model) && !Overflows(l.start, l.seen, x.key, x.spec)
    requires l.after == if x.key in l.start.index then l.start else l.seen.again
    ensures FoundAgain(l, x, b)
  {
    FoundEnds(l.start, l.seen, x.key, x.spec, true, l.after, b);
  }

  lemma FindStands(l: Look, p: State, h: nat, pick: Uuid)
    requires Consistent(p.db) && h < |p.handlers| && p.handlers[h].pc.Finding?
    ensures var t := HandlerNext(p, h, pick); Stands(Noted(l, Finding, p.db, t.db), t.handlers[h])
  {
    var x := p.handlers[h];
    if x.key in p.db.index {
      var k := Noted(l, Finding, p.db, p.db);
      DbLaterRefl(p.db);
      assert KeyOk(p.db, x.key);
      FoundCall(k, x, p.db.index[x.key]);
    }
  }

  lemma SelectStands(l: Look, p: State, h: nat, pick: Uuid)
    requires pick in p.db.models ==> ModelOk(p.db, pick)
    requires h < |p.handlers| && p.handlers[h].pc.Selecting? && Stands(l, p.handlers[h])
    requires Moves(p, h, pick)
    ensures var t := HandlerNext(p, h, pick); Stands(Noted(l, Selecting, p.db, t.db), t.handlers[h])
  {
  }

  lemma FlushStands(l: Look, p: State, h: nat, pick: Uuid)
    requires h < |p.handlers| && p.handlers[h].pc.Flushing? && Stands(l, p.handlers[h])
    requires var k := Noted(l, Flushing, p.db, p.db); InOrder(k.start, k.seen)
    requires Moves(p, h, pick)
    ensures var t := HandlerNext(p, h, pick); Stands(Noted(l, Flushing, p.db, t.db), t.handlers[h])
  {
    var x := p.handlers[h];
    if !FitsModel(x.spec.model) || x.spec.model in p.db.models.Values {
      FlushRaises(Noted(l, Flushing, p.db, p.db), x.(pc := Raised));
    }
  }

  lemma FlushRaises(k: Look, x: Handler)
    requires InOrder(k.start, k.seen) && x.pc.Raised? && k.after == k.seen.flush == k.seen.commit
    requires NeedsModel(k.start, k.seen, x.key, x.spec.model)
    requires !FitsModel(x.spec.model) || x.spec.model in k.seen.flush.models.Values
    ensures EndsAsCall(k, x)
  {
    if !FitsModel(x.spec.model) {
      OverflowEnds(k.start, k.seen, x.key, x.spec, true, k.after);
    } else {
      RefusedEnds(k.start, k.seen, x.key, x.spec, true);
    }
    assert Race(k.start, k.seen, x.key, x.spec.model);
  }

  /** The commit: while the session held a new model row, nobody committed that name or that id. */
  lemma CommitRace(l: Look, p: State, x: Handler, t: Db)
    requires x.pc.Committing? && HandlerOk(p.db, x) && Stands(l, x) && DbLater(l.seen.select, p.db)
    requires var k := Noted(l, x.pc, p.db, t); InOrder(k.start, k.seen)
    ensures var k := Noted(l, x.pc, p.db, t);
      && Race(k.start, k.seen, x.key, x.spec.model) && !Refused(k.start, k.seen, x.key, x.spec.model)
      && (Overflows(k.start, k.seen, x.key, x.spec) <==> !FitsRow(x.key, x.spec))
  {
  }

  lemma CommitStands(l: Look, p: State, h: nat, pick: Uuid)
    requires h < |p.handlers| && p.handlers[h].pc.Committing? && Moves(p, h, pick)
    requires SubmissionInv(p) && Stands(l, p.handlers[h]) && DbLater(l.seen.select, p.db)
    requires var k := Noted(l, p.handlers[h].pc, p.db, HandlerNext(p, h, pick).db); InOrder(k.start, k.seen)
    ensures var t := HandlerNext(p, h, pick); Stands(Noted(l, p.handlers[h].pc, p.db, t.db), t.handlers[h])
  {
    var x := p.handlers[h];
    assert HandlerOk(p.db, x);
    var t := HandlerNext(p, h, pick).db;
    CommitRace(l, p, x, t);
    if !FitsRow(x.key, x.spec) {
      var k := Noted(l, x.pc, p.db, t);
      OverflowEnds(k.start, k.seen, x.key, x.spec, true, k.after);
    } else if InsertConflict(p.db, x.key, x.spec.model, x.pc.newModel) {
      ConflictIsOnKey(p, h);
    } else {
      if !x.pc.newModel { assert ModelOk(p.db, x.pc.modelId); }
      assert MayInsert(p.db, x.key, x.spec, x.pc.modelId, x.pc.newModel);
      CreatedCall(Noted(l, x.pc, p.db, t), x, p.db.nextUuid);
    }
  }

  lemma RefindStands(l: Look, p: State, h: nat, pick: Uuid)
    requires Consistent(p.db) && h < |p.handlers| && p.handlers[h].pc.Refinding? && HandlerOk(p.db, p.handlers[h])
    requires Stands(l, p.handlers[h])
    requires var k := Noted(l, Refinding, p.db, p.db); InOrder(k.start, k.seen)
    ensures var t := HandlerNext(p, h, pick); Stands(Noted(l, Refinding, p.db, t.db), t.handlers[h])
  {
    var x := p.handlers[h];
    var k := Noted(l, Refinding, p.db, p.db);
    assert KeyOk(p.db, x.key);
    FoundCall(k, x, p.db.index[x.key]);
  }

  lemma NotedOrdered(l: Look, pc: HandlerPc, p: Db, t: Db)
    requires InOrder(l.start, l.seen) && DbLater(l.seen.again, p) && Consistent(p) && DbLater(p, t)
    ensures var k := Noted(l, pc, p, t); InOrder(k.start, k.seen) && DbLater(k.seen.again, t)
    ensures DbLater(l.start, p) && DbLater(l.seen.select, p) && DbLater(l.seen.flush, p) && DbLater(l.seen.commit, p)
  {
    DbLaterRefl(p);
    AllLater(l, p);
    DbLaterTrans(l.seen.again, p, t);
  }

  lemma AllLater(l: Look, p: Db)
    requires DbLater(l.start, l.seen.select) && DbLater(l.seen.select, l.seen.flush)
    requires DbLater(l.seen.flush, l.seen.commit) && DbLater(l.seen.commit, l.seen.again) && DbLater(l.seen.again, p)
    ensures DbLater(l.start, p) && DbLater(l.seen.select, p) && DbLater(l.seen.flush, p) && DbLater(l.seen.commit, p)
  {
    DbLaterTrans(l.seen.commit, l.seen.again, p);
    DbLaterTrans(l.seen.flush, l.seen.commit, p);
    DbLaterTrans(l.seen.select, l.seen.flush, p);
    DbLaterTrans(l.start, l.seen.select, p);
  }

  lemma AdvanceStands(l: Look, p: State, h: nat, pick: Uuid)
    requires h < |p.handlers| && Moves(p, h, pick)
    requires SubmissionInv(p) && LookOk(l, p, h)
    ensures var t := HandlerNext(p, h, pick); Stands(Noted(l, p.handlers[h].pc, p.db, t.db), t.handlers[h])
  {
    var x := p.handlers[h];
    DbLaterRefl(p.db);
    NotedOrdered(l, x.pc, p.db, p.db);
    match x.pc
    case Finding => FindStands(l, p, h, pick);
    case Selecting =>
      assert pick in p.db.models ==> ModelOk(p.db, pick);
      SelectStands(l, p, h, pick);
    case Flushing => FlushStands(l, p, h, pick);
    case Committing(_, _) => CommitStands(l, p, h, pick);
    case Refinding =>
      assert HandlerOk(p.db, x);
      RefindStands(l, p, h, pick);
    case _ =>
  }

  /** The steps of others, and those that end a handler. */
  lemma OthersStand(limit: int, l: Look, p: State, a: Action, h: nat)
    requires h < |p.handlers| && Stands(l, p.handlers[h])
    requires a.Advance? ==> a.h != h || a.h >= |p.handlers|
    ensures var t := Next(limit, p, a);
      h < |t.handlers| && Stands(LookNext(l, p, a, t, h), t.handlers[h])
  {
    var t := Next(limit, p, a);
    assert t.handlers[h] == p.handlers[h] || ((a.Abort? || a.KillHandler?) && a.h == h);
  }

  lemma NewcomerStands(limit: int, l: Look, p: State, a: Action, h: nat)
    requires |p.handlers| <= h < |Next(limit, p, a).handlers|
    ensures Stands(l, Next(limit, p, a).handlers[h])
  {
  }

  lemma LookOrdered(limit: int, l: Look, p: State, a: Action, h: nat)
    requires InOrder(l.start, l.seen) && DbLater(l.seen.again, p.db) && Consistent(p.db)
    requires DbLater(p.db, Next(limit, p, a).db)
    ensures var t := Next(limit, p, a); var k := LookNext(l, p, a, t, h);
      InOrder(k.start, k.seen) && DbLater(k.seen.again, t.db)
  {
    var t := Next(limit, p, a);
    if h < |p.handlers| { NotedOrdered(l, p.handlers[h].pc, p.db, t.db); }
    DbLaterTrans(l.seen.again, p.db, t.db);
  }

  lemma LookStep(limit: int, l: Look, p: State, a: Action, h: nat)
    requires Inv(limit, p) && LookOk(l, p, h)
    ensures var t := Next(limit, p, a); LookOk(LookNext(l, p, a, t, h), t, h)
  {
    var t := Next(limit, p, a);
    StepLater(limit, p, a);
    LookOrdered(limit, l, p, a, h);
    if h >= |p.handlers| {
      if h < |t.handlers| { NewcomerStands(limit, l, p, a, h); }
    } else if a.Advance? && a.h == h {
      if t.handlers[h] != p.handlers[h] { AdvanceStands(l, p, h, a.pick); }
    } else {
      OthersStand(limit, l, p, a, h);
    }
  }

  lemma {:induction false} LookAlways(limit: int, acts: seq<Action>, h: nat)
    ensures LookOk(LookOf(limit, acts, h), Exec(limit, Start, acts), h)
    decreases |acts|
  {
    if acts == [] {
      DbLaterRefl(EmptyDb);
    } else {
      var n := |acts| - 1;
      LookAlways(limit, acts[..n], h);
      InvAlways(limit, acts[..n]);
      LookStep(limit, LookOf(limit, acts[..n], h), Exec(limit, Start, acts[..n]), acts[n], h);
    }
  }

  /** On every run, every handler that has ended by itself is one call of `create_benchmark`: the
      commits of others in between are a `Race`, and the call ends as `Ends` says. */
  lemma HandlersAreCalls(limit: int, acts: seq<Action>, h: nat)
    requires h < |Exec(limit, Start, acts).handlers|
    ensures EndsAsCall(LookOf(limit, acts, h), Exec(limit, Start, acts).handlers[h])
  {
    LookAlways(limit, acts, h);
    StandsEnded(LookOf(limit, acts, h), Exec(limit, Start, acts).handlers[h]);
  }

  lemma StandsEnded(l: Look, x: Handler)
    requires Stands(l, x)
    ensures EndsAsCall(l, x)
  {
  }
}
