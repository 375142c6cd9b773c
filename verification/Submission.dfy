/** Invariants of the submission side: tables, handlers, and who inserted which row. */
module Submission {
  import opened Types
  import opened Tables
  import opened Backend

  ghost predicate HandlerOk(db: Db, x: Handler)
  {
    && (Accepts(x.key, x.spec) || x.pc.Rejected? || x.pc.Raised? || x.pc.Gone?)
    && match x.pc
    case Committing(m, newModel) =>
      FitsModel(x.spec.model)
      && if newModel then m !in db.models && m < db.nextUuid && x.spec.model !in db.models.Values
      else m in db.models && db.models[m] == x.spec.model
    case Refinding => x.key in db.index
    case Owing(b) => b in db.rows && db.rows[b].key == x.key
    case Replied(b, _) => b in db.rows && db.rows[b].key == x.key
    case Reraised => false
    case _ => true
  }

  /** Two sessions never hold uncommitted model rows of one name, nor of one id. */
  ghost predicate Apart(x: Handler, y: Handler)
  {
    x.pc.Committing? && x.pc.newModel && y.pc.Committing? && y.pc.newModel ==>
      x.spec.model != y.spec.model && x.pc.modelId != y.pc.modelId
  }

  ghost predicate HandlersOk(s: State)
  {
    && (forall i | 0 <= i < |s.handlers| :: HandlerOk(s.db, s.handlers[i]))
    && (forall i, j | 0 <= i < j < |s.handlers| :: Apart(s.handlers[i], s.handlers[j]))
  }

  /** Row `b` was inserted by a handler with this key and this submission. */
  ghost predicate OriginOk(s: State, b: Uuid)
    requires b in s.db.rows && s.db.rows[b].modelId in s.db.models
  {
    && b in s.log.origin
    && s.log.origin[b] < |s.handlers|
    && s.handlers[s.log.origin[b]].key == s.db.rows[b].key
    && s.handlers[s.log.origin[b]].spec == SpecOf(s.db, b)
    && Admissible(s.db.rows[b].key, SpecOf(s.db, b))
  }

  ghost predicate SubmissionInv(s: State)
  {
    && Consistent(s.db)
    && HandlersOk(s)
    && (forall b | b in s.db.rows :: OriginOk(s, b))
  }

  /** What the inserting session holds when it commits. */
  ghost predicate MayInsert(db: Db, key: string, spec: Spec, m: Uuid, newModel: bool)
  {
    && key !in db.index
    && m < db.nextUuid
    && if newModel then m !in db.models && spec.model !in db.models.Values && FitsModel(spec.model)
       else m in db.models && db.models[m] == spec.model
  }

  lemma FreshUuid(db: Db)
    requires Consistent(db)
    ensures db.nextUuid !in db.rows && db.nextUuid !in db.models
  {
    forall b | b in db.rows ensures b != db.nextUuid { assert RowOk(db, b); }
    forall m | m in db.models ensures m != db.nextUuid { assert ModelOk(db, m); }
  }

  lemma InsertRows(db: Db, key: string, spec: Spec, m: Uuid, newModel: bool)
    requires Consistent(db) && MayInsert(db, key, spec, m, newModel)
    ensures var t := Insert(db, key, spec, m, newModel);
      (forall b | b in t.rows :: RowOk(t, b)) && (forall k | k in t.index :: KeyOk(t, k))
  {
    var t := Insert(db, key, spec, m, newModel);
    forall b | b in t.rows ensures RowOk(t, b) {
      if b != db.nextUuid { assert RowOk(db, b); }
    }
    forall k | k in t.index ensures KeyOk(t, k) {
      if k != key { assert KeyOk(db, k) && RowOk(db, db.index[k]); }
    }
  }

  lemma InsertModel(db: Db, key: string, spec: Spec, m: Uuid, newModel: bool, n: Uuid)
    requires Consistent(db) && MayInsert(db, key, spec, m, newModel)
    requires n in Insert(db, key, spec, m, newModel).models
    ensures ModelOk(Insert(db, key, spec, m, newModel), n)
  {
    var t := Insert(db, key, spec, m, newModel);
    if n == m {
      assert db.nextUuid in t.rows && t.rows[db.nextUuid].modelId == m;
    } else {
      assert ModelOk(db, n);
      var b :| b in db.rows && db.rows[b].modelId == n;
      assert RowOk(db, b);
      assert b in t.rows && t.rows[b].modelId == n;
    }
    forall n' | n' in t.models && t.models[n'] == t.models[n] ensures n' == n {
      if n in db.models && n' in db.models { assert ModelOk(db, n); }
    }
  }

  lemma InsertConsistent(db: Db, key: string, spec: Spec, m: Uuid, newModel: bool)
    requires Consistent(db) && MayInsert(db, key, spec, m, newModel)
    ensures Consistent(Insert(db, key, spec, m, newModel))
  {
    InsertRows(db, key, spec, m, newModel);
    forall n | n in Insert(db, key, spec, m, newModel).models
      ensures ModelOk(Insert(db, key, spec, m, newModel), n)
    {
      InsertModel(db, key, spec, m, newModel, n);
    }
  }

  /** `t` has every row, key and model of `db`, and its new models clash with no hold of `x`. */
  ghost predicate Extends(db: Db, t: Db, x: Handler)
  {
    && (forall b | b in db.rows :: b in t.rows && t.rows[b].key == db.rows[b].key)
    && db.index.Keys <= t.index.Keys
    && db.nextUuid <= t.nextUuid
    && (forall m | m in db.models :: m in t.models && t.models[m] == db.models[m])
    && (x.pc.Committing? && x.pc.newModel ==>
          forall m | m in t.models :: m in db.models || (m != x.pc.modelId && t.models[m] != x.spec.model))
  }

  lemma ExtendsKeeps(db: Db, t: Db, x: Handler)
    requires HandlerOk(db, x) && Extends(db, t, x)
    ensures HandlerOk(t, x)
  {
  }

  /** The steps of a handler that write nothing to the tables. */
  lemma MoveKeeps(s: State, h: nat, pc: HandlerPc)
    requires SubmissionInv(s) && h < |s.handlers|
    requires HandlerOk(s.db, s.handlers[h].(pc := pc)) && (pc.Committing? ==> !pc.newModel)
    ensures SubmissionInv(SetPc(s, h, pc))
  {
    var t := SetPc(s, h, pc);
    forall b | b in t.db.rows ensures RowOk(t.db, b) && OriginOk(t, b) {
      assert RowOk(s.db, b) && OriginOk(s, b);
    }
  }

  lemma FlushHandlers(s: State, h: nat, pick: Uuid)
    requires HandlersOk(s) && h < |s.handlers| && s.handlers[h].pc.Flushing?
    requires s.db.nextUuid !in s.db.models
    requires !NameHeld(s.handlers, s.handlers[h].spec.model) && FitsModel(s.handlers[h].spec.model)
    requires s.handlers[h].spec.model !in s.db.models.Values
    ensures HandlersOk(HandlerNext(s, h, pick))
  {
    var t := HandlerNext(s, h, pick);
    forall i | 0 <= i < |t.handlers| ensures HandlerOk(t.db, t.handlers[i]) {
      assert HandlerOk(s.db, s.handlers[i]);
    }
    forall i, j | 0 <= i < j < |t.handlers| ensures Apart(t.handlers[i], t.handlers[j]) {
      assert Apart(s.handlers[i], s.handlers[j]);
      assert HandlerOk(s.db, s.handlers[i]) && HandlerOk(s.db, s.handlers[j]);
      assert !Holds(s.handlers[i], s.handlers[h].spec.model) && !Holds(s.handlers[j], s.handlers[h].spec.model);
    }
  }

  lemma FlushKeeps(s: State, h: nat, pick: Uuid)
    requires SubmissionInv(s) && h < |s.handlers| && s.handlers[h].pc.Flushing?
    requires !NameHeld(s.handlers, s.handlers[h].spec.model) && FitsModel(s.handlers[h].spec.model)
    requires s.handlers[h].spec.model !in s.db.models.Values
    ensures SubmissionInv(HandlerNext(s, h, pick))
  {
    var t := HandlerNext(s, h, pick);
    FreshUuid(s.db);
    FlushHandlers(s, h, pick);
    FlushFrame(s, h, pick);
    FlushTables(s, t);
  }

  lemma FlushTables(s: State, t: State)
    requires SubmissionInv(s) && HandlersOk(t)
    requires t.db == s.db.(nextUuid := s.db.nextUuid + 1) && t.log.origin == s.log.origin
    requires |t.handlers| == |s.handlers|
    requires forall i | 0 <= i < |s.handlers| ::
      t.handlers[i].key == s.handlers[i].key && t.handlers[i].spec == s.handlers[i].spec
    ensures SubmissionInv(t)
  {
    DrawnConsistent(s.db);
    OriginsKeep(s, t);
  }

  lemma FlushFrame(s: State, h: nat, pick: Uuid)
    requires h < |s.handlers| && s.handlers[h].pc.Flushing?
    requires !NameHeld(s.handlers, s.handlers[h].spec.model) && FitsModel(s.handlers[h].spec.model)
    requires s.handlers[h].spec.model !in s.db.models.Values
    ensures var t := HandlerNext(s, h, pick);
      && t.db == s.db.(nextUuid := s.db.nextUuid + 1) && t.log.origin == s.log.origin
      && |t.handlers| == |s.handlers|
      && forall i | 0 <= i < |s.handlers| ::
           t.handlers[i].key == s.handlers[i].key && t.handlers[i].spec == s.handlers[i].spec
  {
  }

  /** An id that was drawn for nothing yet. */
  lemma DrawnConsistent(db: Db)
    requires Consistent(db)
    ensures Consistent(db.(nextUuid := db.nextUuid + 1))
  {
    var t := db.(nextUuid := db.nextUuid + 1);
    forall b | b in t.rows ensures RowOk(t, b) { assert RowOk(db, b); }
    forall k | k in t.index ensures KeyOk(t, k) { assert KeyOk(db, k); }
    forall m | m in t.models ensures ModelOk(t, m) { assert ModelOk(db, m); }
  }

  /** Requests stay what they are, so rows keep their origin. */
  lemma OriginsKeep(s: State, t: State)
    requires Consistent(s.db) && forall b | b in s.db.rows :: OriginOk(s, b)
    requires t.db.rows == s.db.rows && t.db.models == s.db.models && t.log.origin == s.log.origin
    requires |s.handlers| <= |t.handlers|
    requires forall i | 0 <= i < |s.handlers| ::
      t.handlers[i].key == s.handlers[i].key && t.handlers[i].spec == s.handlers[i].spec
    ensures forall b | b in t.db.rows :: t.db.rows[b].modelId in t.db.models && OriginOk(t, b)
  {
    forall b | b in t.db.rows ensures t.db.rows[b].modelId in t.db.models && OriginOk(t, b) {
      assert RowOk(s.db, b) && OriginOk(s, b);
    }
  }

  lemma CommitOther(s: State, h: nat, pick: Uuid, i: nat)
    requires SubmissionInv(s) && h < |s.handlers| && Inserts(s, h) && i < |s.handlers| && i != h
    ensures HandlerOk(HandlerNext(s, h, pick).db, s.handlers[i])
  {
    var x := s.handlers[h];
    var t := HandlerNext(s, h, pick);
    FreshUuid(s.db);
    assert if i < h then Apart(s.handlers[i], x) else Apart(x, s.handlers[i]);
    assert HandlerOk(s.db, s.handlers[i]);
    assert Extends(s.db, t.db, s.handlers[i]);
    ExtendsKeeps(s.db, t.db, s.handlers[i]);
  }

  lemma CommitHandlers(s: State, h: nat, pick: Uuid)
    requires SubmissionInv(s) && h < |s.handlers| && Inserts(s, h)
    ensures HandlersOk(HandlerNext(s, h, pick))
  {
    var t := HandlerNext(s, h, pick);
    forall i | 0 <= i < |t.handlers| ensures HandlerOk(t.db, t.handlers[i]) {
      if i != h { CommitOther(s, h, pick, i); }
    }
    forall i, j | 0 <= i < j < |t.handlers| ensures Apart(t.handlers[i], t.handlers[j]) {
      assert Apart(s.handlers[i], s.handlers[j]);
    }
  }

  lemma CommitKeeps(s: State, h: nat, pick: Uuid)
    requires SubmissionInv(s) && h < |s.handlers| && Inserts(s, h)
    ensures SubmissionInv(HandlerNext(s, h, pick))
  {
    var x := s.handlers[h];
    var t := HandlerNext(s, h, pick);
    var Committing(m, newModel) := x.pc;
    assert HandlerOk(s.db, x);
    if !newModel { assert ModelOk(s.db, m); }
    assert MayInsert(s.db, x.key, x.spec, m, newModel);
    InsertConsistent(s.db, x.key, x.spec, m, newModel);
    CommitHandlers(s, h, pick);
    CommitFrame(s, h, pick);
    forall b | b in t.db.rows ensures t.db.rows[b].modelId in t.db.models && OriginOk(t, b) {
      assert RowOk(t.db, b);
      if b in s.db.rows { assert RowOk(s.db, b) && OriginOk(s, b); }
      CommitOrigins(s, h, t, b);
    }
  }

  lemma CommitFrame(s: State, h: nat, pick: Uuid)
    requires h < |s.handlers| && Inserts(s, h)
    ensures var t := HandlerNext(s, h, pick); var x := s.handlers[h];
      && t.db == Insert(s.db, x.key, x.spec, x.pc.modelId, x.pc.newModel)
      && t.log.origin == s.log.origin[s.db.nextUuid := h] && |t.handlers| == |s.handlers|
      && forall i | 0 <= i < |s.handlers| ::
           t.handlers[i].key == s.handlers[i].key && t.handlers[i].spec == s.handlers[i].spec
  {
  }

  lemma CommitOrigins(s: State, h: nat, t: State, b: Uuid)
    requires Consistent(s.db) && h < |s.handlers| && Inserts(s, h) && FitsModel(s.handlers[h].spec.model)
    requires Accepts(s.handlers[h].key, s.handlers[h].spec)
    requires var x := s.handlers[h];
      && MayInsert(s.db, x.key, x.spec, x.pc.modelId, x.pc.newModel)
      && t.db == Insert(s.db, x.key, x.spec, x.pc.modelId, x.pc.newModel)
    requires t.log.origin == s.log.origin[s.db.nextUuid := h] && |t.handlers| == |s.handlers|
    requires forall i | 0 <= i < |s.handlers| ::
      t.handlers[i].key == s.handlers[i].key && t.handlers[i].spec == s.handlers[i].spec
    requires b in t.db.rows && t.db.rows[b].modelId in t.db.models
    requires b in s.db.rows ==> s.db.rows[b].modelId in s.db.models && OriginOk(s, b)
    ensures OriginOk(t, b)
  {
    FreshUuid(s.db);
  }

  /** The commit can only clash on the key: an uncommitted model row is the only one of its name. */
  lemma ConflictIsOnKey(s: State, h: nat)
    requires SubmissionInv(s) && h < |s.handlers| && s.handlers[h].pc.Committing?
    requires InsertConflict(s.db, s.handlers[h].key, s.handlers[h].spec.model, s.handlers[h].pc.newModel)
    ensures s.handlers[h].key in s.db.index
    ensures s.handlers[h].pc.newModel ==> s.handlers[h].spec.model !in s.db.models.Values
  {
    assert HandlerOk(s.db, s.handlers[h]);
  }

  lemma HandlerKeeps(s: State, h: nat, pick: Uuid)
    requires SubmissionInv(s) && h < |s.handlers|
    ensures SubmissionInv(HandlerNext(s, h, pick))
  {
    var x := s.handlers[h];
    var t := HandlerNext(s, h, pick);
    assert HandlerOk(s.db, x);
    if x.key in s.db.index { assert KeyOk(s.db, x.key); }
    match x.pc
    case Flushing =>
      if !FitsModel(x.spec.model) {
        MoveKeeps(s, h, Raised);
      } else if !NameHeld(s.handlers, x.spec.model) {
        if x.spec.model in s.db.models.Values { MoveKeeps(s, h, Raised); } else { FlushKeeps(s, h, pick); }
      }
    case Committing(m, newModel) =>
      if !FitsRow(x.key, x.spec) {
        MoveKeeps(s, h, Raised);
      } else if InsertConflict(s.db, x.key, x.spec.model, newModel) {
        ConflictIsOnKey(s, h);
        MoveKeeps(s, h, Refinding);
      } else {
        CommitKeeps(s, h, pick);
      }
    case Owing(b) =>
      MoveKeeps(s, h, Replied(b, true));
      SameTablesKeeps(SetPc(s, h, Replied(b, true)), t);
    case Selecting =>
      if t.handlers[h].pc.Committing? { assert ModelOk(s.db, pick); }
      MoveKeeps(s, h, t.handlers[h].pc);
    case _ => MoveKeeps(s, h, t.handlers[h].pc);
  }

  lemma SameTablesKeeps(s: State, t: State)
    requires SubmissionInv(s) && SameSubmissions(s.db, t.db)
    requires t.handlers == s.handlers && t.log.origin == s.log.origin
    ensures SubmissionInv(t)
  {
    SameSubmissionsConsistent(s.db, t.db);
    forall i | 0 <= i < |t.handlers| ensures HandlerOk(t.db, t.handlers[i]) {
      assert HandlerOk(s.db, s.handlers[i]);
    }
    forall b | b in t.db.rows ensures RowOk(t.db, b) && OriginOk(t, b) {
      assert RowOk(s.db, b) && OriginOk(s, b);
    }
  }

  lemma ArriveKeeps(limit: int, s: State, key: string, spec: Spec)
    requires SubmissionInv(s)
    ensures SubmissionInv(Next(limit, s, Arrive(key, spec)))
  {
    var t := Next(limit, s, Arrive(key, spec));
    assert t == s.(handlers := s.handlers + [Arrived(key, spec)]);
    ArriveHandlers(s, Arrived(key, spec));
    OriginsKeep(s, t);
  }

  lemma ArriveHandlers(s: State, x: Handler)
    requires HandlersOk(s) && HandlerOk(s.db, x) && !x.pc.Committing?
    ensures HandlersOk(s.(handlers := s.handlers + [x]))
  {
  }

  /** What a worker step commits, if anything. */
  ghost predicate WorkCommits(db: Db, x: Worker, o: Outcome, t: Db)
  {
    || t == db
    || (x.Marking? && o.Yields? && t == MarkRunning(db, x.m.bench))
    || (x.Completing? && o.Yields? && !CompleteConflict(db, x.m.bench)
        && t == Complete(db, x.m.bench, ResultRow(x.metrics, x.m.attempt + 1)))
    || (x.Failing? && o.Yields? && t == MarkFailed(db, x.bench))
  }

  lemma WorkFrame(limit: int, s: State, w: nat, o: Outcome)
    requires w < |s.workers|
    ensures var t := WorkerNext(limit, s, w, o);
      && WorkCommits(s.db, s.workers[w], o, t.db)
      && t.handlers == s.handlers && t.log.origin == s.log.origin && t.log.pushed == s.log.pushed
      && s.log.runs <= t.log.runs
  {
  }

  lemma WorkSame(db: Db, x: Worker, o: Outcome, t: Db)
    requires WorkCommits(db, x, o, t)
    ensures SameSubmissions(db, t)
  {
  }

  lemma WorkKeeps(limit: int, s: State, w: nat, o: Outcome)
    requires SubmissionInv(s) && w < |s.workers|
    ensures SubmissionInv(WorkerNext(limit, s, w, o))
  {
    var t := WorkerNext(limit, s, w, o);
    WorkFrame(limit, s, w, o);
    WorkSame(s.db, s.workers[w], o, t.db);
    SameTablesKeeps(s, t);
  }

  lemma AbortKeeps(limit: int, s: State, h: nat)
    requires SubmissionInv(s)
    ensures SubmissionInv(Next(limit, s, Abort(h)))
  {
    if h < |s.handlers| && Reading(s.handlers[h].pc) { MoveKeeps(s, h, Raised); }
  }

  lemma KillKeeps(limit: int, s: State, h: nat)
    requires SubmissionInv(s)
    ensures SubmissionInv(Next(limit, s, KillHandler(h)))
  {
    if h < |s.handlers| && !s.handlers[h].pc.Replied? {
      MoveKeeps(s, h, Gone);
      SameTablesKeeps(SetPc(s, h, Gone), Next(limit, s, KillHandler(h)));
    }
  }

  lemma AdvanceKeeps(limit: int, s: State, h: nat, pick: Uuid)
    requires SubmissionInv(s)
    ensures SubmissionInv(Next(limit, s, Advance(h, pick)))
  {
    if h < |s.handlers| { HandlerKeeps(s, h, pick); }
  }

  lemma StaffFrame(limit: int, s: State, a: Action)
    requires a.Hire? || a.KillWorker?
    ensures var t := Next(limit, s, a); t.db == s.db && t.handlers == s.handlers && t.log.origin == s.log.origin
  {
  }

  lemma StaffKeeps(limit: int, s: State, a: Action)
    requires SubmissionInv(s) && (a.Hire? || a.KillWorker?)
    ensures SubmissionInv(Next(limit, s, a))
  {
    StaffFrame(limit, s, a);
    SameTablesKeeps(s, Next(limit, s, a));
  }

  lemma SubmissionStep(limit: int, s: State, a: Action)
    requires SubmissionInv(s)
    ensures SubmissionInv(Next(limit, s, a))
  {
    match a
    case Arrive(key, spec) => ArriveKeeps(limit, s, key, spec);
    case Advance(h, pick) => AdvanceKeeps(limit, s, h, pick);
    case Abort(h) => AbortKeeps(limit, s, h);
    case KillHandler(h) => KillKeeps(limit, s, h);
    case Work(w, o) => if w < |s.workers| { WorkKeeps(limit, s, w, o); }
    case _ => StaffKeeps(limit, s, a);
  }
}
