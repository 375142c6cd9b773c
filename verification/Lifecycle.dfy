/** What the backend promises over whole runs. */
module Lifecycle {
  import opened Types
  import opened Tables
  import opened Tallies
  import opened Backend
  import opened Submission
  import opened Conservation
  import opened Accounting

  /** The order in which a status may change; `Completed` and `Failed` are final. */
  predicate StatusLe(a: Status, b: Status)
  {
    a == b || a == Queued || (a == Running && b != Queued)
  }

  ghost predicate RowLater(db: Db, t: Db, b: Uuid)
    requires b in db.rows
  {
    && b in t.rows
    && t.rows[b].(status := db.rows[b].status, attempts := db.rows[b].attempts) == db.rows[b]
    && StatusLe(db.rows[b].status, t.rows[b].status)
    && db.rows[b].attempts <= t.rows[b].attempts
  }

  /** What can be relied on once it has been seen in the tables. */
  ghost predicate DbLater(db: Db, t: Db)
  {
    && (forall b | b in db.rows :: RowLater(db, t, b))
    && (forall k | k in db.index :: k in t.index && t.index[k] == db.index[k])
    && (forall m | m in db.models :: m in t.models && t.models[m] == db.models[m])
    && (forall b | b in db.results :: b in t.results && t.results[b] == db.results[b])
  }

  /** Requests stay what they are, and a reply that was sent stays sent. */
  ghost predicate HandlerLater(x: Handler, y: Handler)
  {
    y.key == x.key && y.spec == x.spec && (x.pc.Replied? ==> y == x)
  }

  ghost predicate Later(s: State, t: State)
  {
    && DbLater(s.db, t.db)
    && |s.handlers| <= |t.handlers|
    && (forall h | 0 <= h < |s.handlers| :: HandlerLater(s.handlers[h], t.handlers[h]))
    && s.log.runs <= t.log.runs
    && s.log.pushed <= t.log.pushed
  }

  lemma DbLaterTrans(a: Db, b: Db, c: Db)
    requires DbLater(a, b) && DbLater(b, c)
    ensures DbLater(a, c)
  {
    forall i | i in a.rows ensures RowLater(a, c, i) { assert RowLater(a, b, i) && RowLater(b, c, i); }
  }

  lemma LaterTrans(a: State, b: State, c: State)
    requires Later(a, b) && Later(b, c)
    ensures Later(a, c)
  {
    DbLaterTrans(a.db, b.db, c.db);
    forall h | 0 <= h < |a.handlers| ensures HandlerLater(a.handlers[h], c.handlers[h]) {
      assert HandlerLater(a.handlers[h], b.handlers[h]) && HandlerLater(b.handlers[h], c.handlers[h]);
    }
  }

  lemma InsertLater(db: Db, key: string, spec: Spec, m: Uuid, newModel: bool)
    requires db.nextUuid !in db.rows && MayInsert(db, key, spec, m, newModel)
    ensures DbLater(db, Insert(db, key, spec, m, newModel))
  {
    var t := Insert(db, key, spec, m, newModel);
    forall b | b in db.rows ensures RowLater(db, t, b) {}
  }

  lemma CommitStepLater(s: State, h: nat, pick: Uuid)
    requires h < |s.handlers| && s.handlers[h].pc.Committing? && FitsRow(s.handlers[h].key, s.handlers[h].spec)
    requires s.db.nextUuid !in s.db.rows
    requires MayInsert(s.db, s.handlers[h].key, s.handlers[h].spec, s.handlers[h].pc.modelId, s.handlers[h].pc.newModel)
    ensures Later(s, HandlerNext(s, h, pick))
  {
    var x := s.handlers[h];
    InsertLater(s.db, x.key, x.spec, x.pc.modelId, x.pc.newModel);
  }

  lemma SameRowsLater(db: Db, t: Db)
    requires t == db.(nextUuid := t.nextUuid)
    ensures DbLater(db, t)
  {
    forall b | b in db.rows ensures RowLater(db, t, b) {}
  }

  lemma OtherStepFrame(s: State, h: nat, pick: Uuid)
    requires h < |s.handlers| && !Inserts(s, h)
    ensures var t := HandlerNext(s, h, pick);
      && t.db == s.db.(nextUuid := t.db.nextUuid)
      && |t.handlers| == |s.handlers| && t.handlers == s.handlers[h := t.handlers[h]]
      && HandlerLater(s.handlers[h], t.handlers[h])
      && t.log.runs == s.log.runs && s.log.pushed <= t.log.pushed
  {
  }

  lemma OtherStepLater(s: State, h: nat, pick: Uuid)
    requires h < |s.handlers| && !Inserts(s, h)
    ensures Later(s, HandlerNext(s, h, pick))
  {
    OtherStepFrame(s, h, pick);
    SameRowsLater(s.db, HandlerNext(s, h, pick).db);
  }

  lemma HandlerStepLater(s: State, h: nat, pick: Uuid)
    requires SubmissionInv(s) && h < |s.handlers|
    ensures Later(s, HandlerNext(s, h, pick))
  {
    var x := s.handlers[h];
    if Inserts(s, h) {
      FreshUuid(s.db);
      assert HandlerOk(s.db, x);
      if !x.pc.newModel { assert ModelOk(s.db, x.pc.modelId); }
      CommitStepLater(s, h, pick);
    } else {
      OtherStepLater(s, h, pick);
    }
  }

  predicate Unfinished(row: Row)
  {
    if row.attempts == 0 then row.status == Queued else row.status == Running
  }

  /** What the invariant says about the one row that a worker may write to. */
  ghost predicate Movable(db: Db, x: Worker)
  {
    && (Holding(x) ==> x.m.bench !in db.results)
    && (x.Marking? ==> x.m.bench in db.rows && Unfinished(db.rows[x.m.bench]))
    && (x.Completing? ==> x.m.bench in db.rows && db.rows[x.m.bench].status == Running)
    && (x.Failing? ==> x.bench in db.rows && (db.rows[x.bench].status == Failed || Unfinished(db.rows[x.bench])))
  }

  lemma WorkerMovable(limit: int, s: State, w: nat)
    requires Inv(limit, s) && w < |s.workers|
    ensures Movable(s.db, s.workers[w])
  {
    var x := s.workers[w];
    assert WorkerOk(limit, s, x);
    if Holding(x) { HeldReady(limit, s, w); }
    if x.Failing? {
      LetteredAlone(s, x.bench);
      assert StatusOk(s, x.bench);
    }
  }

  /** A setter that never tests the old status still moves it forward, because of what the
      invariant says about the benchmark that its caller holds. */
  lemma SettersLater(db: Db, x: Worker, o: Outcome, t: Db)
    requires Movable(db, x) && WorkCommits(db, x, o, t)
    ensures DbLater(db, t)
  {
    forall b | b in db.rows ensures RowLater(db, t, b) {}
  }

  lemma WorkerStepLater(limit: int, s: State, w: nat, o: Outcome)
    requires w < |s.workers| && Movable(s.db, s.workers[w])
    ensures Later(s, Next(limit, s, Work(w, o)))
  {
    WorkFrame(limit, s, w, o);
    SettersLater(s.db, s.workers[w], o, WorkerNext(limit, s, w, o).db);
  }

  lemma QuitLater(limit: int, s: State, a: Action)
    requires a.Work? ==> a.w >= |s.workers|
    requires a.Advance? ==> a.h >= |s.handlers|
    ensures Later(s, Next(limit, s, a))
  {
    forall b | b in s.db.rows ensures RowLater(s.db, s.db, b) {}
  }

  lemma WorkLater(limit: int, s: State, w: nat, o: Outcome)
    requires Inv(limit, s)
    ensures Later(s, Next(limit, s, Work(w, o)))
  {
    if w < |s.workers| {
      WorkerMovable(limit, s, w);
      WorkerStepLater(limit, s, w, o);
    } else {
      QuitLater(limit, s, Work(w, o));
    }
  }

  lemma AdvanceLater(limit: int, s: State, h: nat, pick: Uuid)
    requires SubmissionInv(s)
    ensures Later(s, Next(limit, s, Advance(h, pick)))
  {
    if h < |s.handlers| { HandlerStepLater(s, h, pick); } else { QuitLater(limit, s, Advance(h, pick)); }
  }

  lemma StepLater(limit: int, s: State, a: Action)
    requires Inv(limit, s)
    ensures Later(s, Next(limit, s, a))
  {
    match a
    case Work(w, o) => WorkLater(limit, s, w, o);
    case Advance(h, pick) => AdvanceLater(limit, s, h, pick);
    case _ => QuitLater(limit, s, a);
  }

  lemma {:induction false} InvFrom(limit: int, s: State, acts: seq<Action>)
    requires Inv(limit, s)
    ensures Inv(limit, Exec(limit, s, acts)) && Later(s, Exec(limit, s, acts))
    decreases |acts|
  {
    if acts != [] {
      var prior := Exec(limit, s, acts[..|acts| - 1]);
      InvFrom(limit, s, acts[..|acts| - 1]);
      InvStep(limit, prior, acts[|acts| - 1]);
      StepLater(limit, prior, acts[|acts| - 1]);
      LaterTrans(s, prior, Exec(limit, s, acts));
    }
  }

  // ---- the promises, each for every reachable state ----

  /** Statuses only move forward, both ends are final, and results never change. */
  lemma StatusesFinal(limit: int, s: State, after: seq<Action>, b: Uuid)
    requires Reachable(limit, s) && b in s.db.rows
    ensures var t := Exec(limit, s, after);
      && b in t.db.rows
      && StatusLe(s.db.rows[b].status, t.db.rows[b].status)
      && (s.db.rows[b].status.Completed? || s.db.rows[b].status.Failed? ==>
            t.db.rows[b].status == s.db.rows[b].status)
      && (b in s.db.results ==> b in t.db.results && t.db.results[b] == s.db.results[b])
  {
    InvReachable(limit, s);
    InvFrom(limit, s, after);
    assert RowLater(s.db, Exec(limit, s, after).db, b);
  }

  /** A status changes only along queued -> running -> completed or failed, with one shortcut:
      queued -> failed, exactly when no `mark_running` was ever stored. */
  predicate LegalStatus(was: Row, now: Row)
  {
    && (now.status == Queued ==> was.status == Queued)
    && (now.status == Running ==> was.status != Completed && was.status != Failed)
    && (now.status == Completed && was.status != Completed ==> was.status == Running)
    && (now.status == Failed && was.status != Failed ==>
          if was.attempts == 0 then was.status == Queued else was.status == Running)
  }

  lemma SettersLegal(db: Db, x: Worker, o: Outcome, t: Db, b: Uuid)
    requires Movable(db, x) && WorkCommits(db, x, o, t) && b in db.rows
    ensures LegalStatus(db.rows[b], t.rows[b])
  {
  }

  lemma WorkLegal(limit: int, s: State, w: nat, o: Outcome, b: Uuid)
    requires w < |s.workers| ==> Movable(s.db, s.workers[w])
    requires b in s.db.rows
    ensures var t := Next(limit, s, Work(w, o));
      b in t.db.rows && LegalStatus(s.db.rows[b], t.db.rows[b])
  {
    if w < |s.workers| {
      var t := WorkerNext(limit, s, w, o);
      WorkFrame(limit, s, w, o);
      WorkSame(s.db, s.workers[w], o, t.db);
      SettersLegal(s.db, s.workers[w], o, t.db, b);
    }
  }

  lemma OthersKeepRows(limit: int, s: State, a: Action, b: Uuid)
    requires b in s.db.rows && s.db.nextUuid !in s.db.rows && !a.Work?
    ensures var t := Next(limit, s, a); b in t.db.rows && t.db.rows[b] == s.db.rows[b]
  {
  }

  lemma StatusEdges(limit: int, s: State, a: Action, b: Uuid)
    requires Reachable(limit, s) && b in s.db.rows
    ensures var t := Next(limit, s, a);
      b in t.db.rows && LegalStatus(s.db.rows[b], t.db.rows[b])
  {
    InvReachable(limit, s);
    if a.Work? {
      if a.w < |s.workers| { WorkerMovable(limit, s, a.w); }
      WorkLegal(limit, s, a.w, a.outcome, b);
    } else {
      FreshUuid(s.db);
      OthersKeepRows(limit, s, a, b);
    }
  }

  /** Conservation: owed enqueues, queued messages, messages held by workers, dead letters,
      completions and losses add up to exactly one for every committed benchmark, and to zero for
      every other id. */
  lemma OnePlaceEach(limit: int, s: State, b: Uuid)
    requires Reachable(limit, s)
    ensures Tally(Owes, s.handlers, b) + Tally(Names, s.queue, b) + Tally(Keeps, s.workers, b)
      + Tally(Letters, s.dlq, b) + One(b in s.db.results) + s.log.lost[b]
      == One(b in s.db.rows)
  {
    InvReachable(limit, s);
    assert Places(s, b) == One(b in s.db.rows);
  }

  /** Attempt accounting: the attempt of a message counts the earlier dequeues of its benchmark and
      stays below the limit, a dead letter has used up the limit, and every dequeue either counted
      in `attempt_count`, or stored nothing in `mark_running`, or has still to reach its end. */
  lemma AttemptsAccounted(limit: int, s: State)
    requires Reachable(limit, s)
    ensures var top := MaxAttempts(limit);
      && (forall i | 0 <= i < |s.queue| :: s.queue[i].attempt == s.log.dequeued[s.queue[i].bench] < top)
      && (forall w | 0 <= w < |s.workers| && Holding(s.workers[w]) ::
            s.workers[w].m.attempt + 1 == s.log.dequeued[s.workers[w].m.bench] <= top)
      && (forall i | 0 <= i < |s.dlq| ::
            s.dlq[i].message.attempt == top - 1 && s.log.dequeued[s.dlq[i].message.bench] == top)
      && (forall b | b in s.db.results :: s.db.results[b].attempt == s.log.dequeued[b])
      && (forall b | b in s.db.rows ::
            s.db.rows[b].attempts + s.log.unmarked[b] + Tally(Unmarked, s.workers, b) == s.log.dequeued[b] <= top)
  {
    InvReachable(limit, s);
    forall i | 0 <= i < |s.queue| ensures QueuedOk(limit, s, s.queue[i]) {}
    forall w | 0 <= w < |s.workers| ensures WorkerOk(limit, s, s.workers[w]) {}
    forall i | 0 <= i < |s.dlq| ensures LetterOk(limit, s, s.dlq[i]) {}
    forall b | b in s.db.results ensures ResultOk(s, b) {}
    forall b | b in s.db.rows ensures CountOk(limit, s, b) {}
  }

  /** The engine is called at most `max(1, worker_max_retries)` times for one benchmark. */
  lemma EngineBound(limit: int, s: State, b: Uuid)
    requires Reachable(limit, s)
    ensures Tally(Engages, s.log.runs, b) <= MaxAttempts(limit)
  {
    InvReachable(limit, s);
    assert CountOk(limit, s, b);
  }

  /** A result row exists exactly when the benchmark is completed; it holds what one engine run on
      the submission of that row returned; and no insert of a result ever meets another one. */
  lemma ResultsMatch(limit: int, s: State)
    requires Reachable(limit, s)
    ensures forall b | b in s.db.rows :: b in s.db.results <==> s.db.rows[b].status == Completed
    ensures forall b | b in s.db.results ::
      && b in s.db.rows && s.db.rows[b].modelId in s.db.models
      && Run(b, SpecOf(s.db, b), Some(s.db.results[b].metrics)) in s.log.runs
    ensures forall w | 0 <= w < |s.workers| && s.workers[w].Completing? ::
      s.workers[w].m.bench in s.db.rows && s.workers[w].m.bench !in s.db.results
  {
    InvReachable(limit, s);
    forall b | b in s.db.rows ensures StatusOk(s, b) {}
    forall b | b in s.db.results ensures ResultOk(s, b) {}
    forall w | 0 <= w < |s.workers| && s.workers[w].Completing?
      ensures s.workers[w].m.bench in s.db.rows && s.workers[w].m.bench !in s.db.results
    {
      HeldReady(limit, s, w);
    }
  }

  /** Submission race: among any handlers for one key, all 202 replies carry the same id, at most
      one of them says `created`, at most one message is ever pushed for that id, and the re-raise
      after a commit conflict is never reached. */
  lemma SubmissionRace(limit: int, s: State, g: nat, h: nat)
    requires Reachable(limit, s) && g < h < |s.handlers|
    ensures var x, y := s.handlers[g], s.handlers[h];
      && !x.pc.Reraised? && !y.pc.Reraised?
      && (x.key == y.key && x.pc.Replied? && y.pc.Replied? ==>
            x.pc.job == y.pc.job && !(x.pc.created && y.pc.created) && s.log.pushed[x.pc.job] <= 1)
  {
    var x, y := s.handlers[g], s.handlers[h];
    ReachedHandler(limit, s, g);
    ReachedHandler(limit, s, h);
    if x.key == y.key && x.pc.Replied? && y.pc.Replied? && x.pc.created && y.pc.created {
      TallyPair(Creates, s.handlers, g, h, x.pc.job);
    }
  }

  lemma ReachedHandler(limit: int, s: State, h: nat)
    requires Reachable(limit, s) && h < |s.handlers|
    ensures var x := s.handlers[h];
      && HandlerOk(s.db, x)
      && (x.pc.Replied? ==>
            x.key in s.db.index && s.db.index[x.key] == x.pc.job && x.pc.job in s.db.rows && CreatedOnceAt(s, x.pc.job))
  {
    InvReachable(limit, s);
    var x := s.handlers[h];
    assert HandlerOk(s.db, x);
    if x.pc.Replied? { assert RowOk(s.db, x.pc.job) && CreatedOnceAt(s, x.pc.job); }
  }

  /** The committed `gpu_models` rows are exactly the models of committed benchmarks, each name
      once, whichever transactions lose a race and roll back. */
  lemma ModelsExact(limit: int, s: State)
    requires Reachable(limit, s)
    ensures forall b | b in s.db.rows :: s.db.rows[b].modelId in s.db.models
    ensures forall m | m in s.db.models :: exists b :: b in s.db.rows && s.db.rows[b].modelId == m
    ensures forall m, n | m in s.db.models && n in s.db.models && s.db.models[m] == s.db.models[n] :: m == n
  {
    InvReachable(limit, s);
    ConsistentModels(s.db);
  }

  lemma ConsistentModels(db: Db)
    requires Consistent(db)
    ensures forall b | b in db.rows :: db.rows[b].modelId in db.models
    ensures forall m | m in db.models :: exists b :: b in db.rows && db.rows[b].modelId == m
    ensures forall m, n | m in db.models && n in db.models && db.models[m] == db.models[n] :: m == n
  {
    forall b | b in db.rows ensures RowOk(db, b) {}
    forall m | m in db.models ensures ModelOk(db, m) {}
  }

  /** A row is what some handler submitted under its key, the unique index finds it, and it passes
      the schema and fits its columns. */
  lemma RowsComeFromRequests(limit: int, s: State, b: Uuid)
    requires Reachable(limit, s) && b in s.db.rows
    ensures s.db.rows[b].key in s.db.index && s.db.index[s.db.rows[b].key] == b
    ensures s.db.rows[b].modelId in s.db.models && Admissible(s.db.rows[b].key, SpecOf(s.db, b))
    ensures exists h | 0 <= h < |s.handlers| ::
      s.handlers[h].key == s.db.rows[b].key && s.handlers[h].spec == SpecOf(s.db, b)
  {
    InvReachable(limit, s);
    assert RowOk(s.db, b) && OriginOk(s, b);
    assert s.handlers[s.log.origin[b]].key == s.db.rows[b].key;
  }
}
