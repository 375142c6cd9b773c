/** The service over the database: reads and commits in the order of the source. Between two
    database calls of one session others may commit; `Observe` is where the session sees that. */
module BenchmarkService {
  import opened Types
  import opened Tables
  import opened Submission
  import opened Lifecycle

  /** How `create_benchmark` ends. */
  datatype CreateResult =
    | Reply(job: Uuid, status: Status, created: bool)
    | FlushConflict                 // IntegrityError from the flush of gpu_models, outside the try
    | Reraise                       // IntegrityError from the commit, and no row under the key
    | DataError                     // a value that its column cannot hold
    | DatabaseError                 // any other error of the commit

  /** What `_get_or_create_gpu_model` comes to. */
  datatype ModelResult =
    | Model(id: Uuid, inserted: bool)
    | TooLong                       // the flush raises on the name
    | Duplicate                     // the flush raises on the unique index

  /** The committed state when one session selects the model, flushes, commits, and looks again. */
  datatype Seen = Seen(select: Db, flush: Db, commit: Db, again: Db)

  /** What `get_benchmark` returns for an existing row. */
  datatype StatusResponse = StatusResponse(
    job: Uuid, spec: Spec, status: Status, result: Option<Metrics>)

  class Database {
    var rows: map<Uuid, Row>
    var index: map<string, Uuid>
    var models: map<Uuid, string>
    var results: map<Uuid, ResultRow>
    var nextUuid: Uuid

    function Committed(): Db
      reads this
    {
      Db(rows, index, models, results, nextUuid)
    }

    constructor ()
      ensures Committed() == EmptyDb
    {
      rows, index, models, results, nextUuid := map[], map[], map[], map[], 0;
    }

    /** What other sessions have committed since the last look. */
    method Observe(now: Db)
      modifies this
      ensures Committed() == now
    {
      rows, index, models, results, nextUuid := now.rows, now.index, now.models, now.results, now.nextUuid;
    }

    method FindByIdempotencyKey(key: string) returns (r: Option<Uuid>)
      requires Consistent(Committed())
      ensures r == (if key in index then Some(index[key]) else None)
      ensures r.Some? ==> r.value in rows && rows[r.value].key == key
      ensures r.None? ==> forall b | b in rows :: rows[b].key != key
    {
      if key in index {
        assert KeyOk(Committed(), key);
        return Some(index[key]);
      }
      forall b | b in rows ensures rows[b].key != key { assert RowOk(Committed(), b); }
      return None;
    }

    /** The id of the model row, and whether this session has just inserted it, or why the flush
        raises. */
    method GetOrCreateGpuModel(name: string, atSelect: Db, atFlush: Db) returns (r: ModelResult)
      requires DbLater(atSelect, atFlush)
      modifies this
      ensures r.TooLong? <==> name !in atSelect.models.Values && !FitsModel(name)
      ensures r.Duplicate? <==> name !in atSelect.models.Values && FitsModel(name) && name in atFlush.models.Values
      ensures !r.Model? ==> Committed() == atFlush
      ensures r.Model? && !r.inserted ==> r.id in atSelect.models && atSelect.models[r.id] == name
      ensures r.Model? && r.inserted ==> r.id == atFlush.nextUuid && name !in atFlush.models.Values && FitsModel(name)
    {
      Observe(atSelect);
      if name in models.Values {
        var id :| id in models && models[id] == name;
        return Model(id, false);
      }
      Observe(atFlush);
      if !FitsModel(name) { return TooLong; }
      if name in models.Values { return Duplicate; }
      r := Model(nextUuid, true);
      nextUuid := nextUuid + 1;
    }

    /** The one transaction of `create_benchmark`. */
    method Transact(key: string, spec: Spec, seen: Seen, commits: bool) returns (r: CreateResult)
      requires Race(Committed(), seen, key, spec.model)
      modifies this
      ensures Ends(old(Committed()), seen, key, spec, commits, Committed(), r)
    {
      ghost var before := Committed();
      var existing := FindByIdempotencyKey(key);
      if existing.Some? {
        FoundEnds(before, seen, key, spec, commits, before, existing.value);
        return Reply(existing.value, rows[existing.value].status, false);
      }
      var found := GetOrCreateGpuModel(spec.model, seen.select, seen.flush);
      if found.TooLong? {
        OverflowEnds(before, seen, key, spec, commits, seen.flush);
        return DataError;
      }
      if found.Duplicate? {
        RefusedEnds(before, seen, key, spec, commits);
        return FlushConflict;
      }
      var Model(modelId, newModel) := found;
      Observe(seen.commit);
      if !FitsRow(key, spec) {
        OverflowEnds(before, seen, key, spec, commits, seen.commit);
        return DataError;
      }
      if InsertConflict(Committed(), key, spec.model, newModel) {
        Observe(seen.again);
        existing := FindByIdempotencyKey(key);
        if existing.None? { return Reraise; }
        FoundEnds(before, seen, key, spec, commits, seen.again, existing.value);
        return Reply(existing.value, rows[existing.value].status, false);
      }
      if !commits {
        FailedEnds(before, seen, key, spec);
        return DatabaseError;
      }
      r := Reply(nextUuid, Queued, true);
      if !newModel { assert ModelOk(seen.commit, modelId); }
      assert MayInsert(seen.commit, key, spec, modelId, newModel);
      Observe(Insert(Committed(), key, spec, modelId, newModel));
      CreatedEnds(before, seen, key, spec, Committed());
    }

    /** The transaction, with what the columns admit in numbers. */
    method CreateBenchmark(key: string, spec: Spec, seen: Seen, commits: bool) returns (r: CreateResult)
      requires Race(Committed(), seen, key, spec.model)
      modifies this
      ensures Ends(old(Committed()), seen, key, spec, commits, Committed(), r)
      ensures
        |spec.model| <= 64 && |spec.workload| <= 64 && |key| <= 128 && spec.batch <= 2147483647
        && '\0' !in spec.model && '\0' !in spec.workload && '\0' !in key ==>
          && !r.DataError?
          && (r.FlushConflict? <==>
                && key !in old(index)
                && spec.model !in seen.select.models.Values && spec.model in seen.flush.models.Values)
          && (r.Reply? && r.created <==>
                !r.FlushConflict? && key !in old(index) && key !in seen.commit.index && commits)
          && (r.DatabaseError? <==>
                !r.FlushConflict? && key !in old(index) && key !in seen.commit.index && !commits)
      ensures
        |spec.model| > 64 || |spec.workload| > 64 || |key| > 128 || spec.batch > 2147483647
        || '\0' in spec.model || '\0' in spec.workload || '\0' in key ==>
          r.Reply? ==> !r.created
    {
      ghost var before := Committed();
      r := Transact(key, spec, seen, commits);
      EndsInNumbers(before, seen, key, spec, commits, Committed(), r);
    }

    method GetBenchmark(job: Uuid) returns (r: Option<StatusResponse>)
      requires Consistent(Committed())
      ensures r.None? <==> job !in rows
      ensures r.Some? ==>
        && rows[job].modelId in models
        && r.value.job == job && r.value.spec == SpecOf(Committed(), job) && r.value.status == rows[job].status
        && r.value.result == if job in results then Some(results[job].metrics) else None
    {
      if job !in rows { return None; }
      assert RowOk(Committed(), job);
      var result := if job in results then Some(results[job].metrics) else None;
      return Some(StatusResponse(job, SpecOf(Committed(), job), rows[job].status, result));
    }

    /** The setters. `commits` is whether the commit goes through; one that raises stores nothing. */
    method MarkRunning(id: Uuid, commits: bool) returns (raised: bool)
      modifies this`rows
      ensures raised <==> id in rows && !commits
      ensures Committed() == if raised then old(Committed()) else Tables.MarkRunning(old(Committed()), id)
    {
      if id !in rows { return false; }
      if !commits { return true; }
      var benchmark := rows[id].(status := Running);
      rows := rows[id := benchmark.(attempts := benchmark.attempts + 1)];
      return false;
    }

    method CompleteBenchmark(id: Uuid, result: ResultRow, commits: bool) returns (raised: bool)
      modifies this`rows, this`results
      ensures raised <==> id in rows && (!commits || CompleteConflict(old(Committed()), id))
      ensures Committed() == if raised then old(Committed()) else Complete(old(Committed()), id, result)
    {
      if id !in rows { return false; }
      if !commits || id in results { return true; }
      rows := rows[id := rows[id].(status := Completed)];
      results := results[id := result];
      return false;
    }

    method MarkFailed(id: Uuid, commits: bool) returns (raised: bool)
      modifies this`rows
      ensures raised <==> id in rows && !commits
      ensures Committed() == if raised then old(Committed()) else Tables.MarkFailed(old(Committed()), id)
    {
      if id !in rows { return false; }
      if !commits { return true; }
      rows := rows[id := rows[id].(status := Failed)];
      return false;
    }
  }

  /** What other sessions can have done in between: every state extends the one before ... */
  ghost predicate InOrder(start: Db, seen: Seen)
  {
    && Consistent(start)
    && Consistent(seen.select) && Consistent(seen.flush) && Consistent(seen.commit) && Consistent(seen.again)
    && DbLater(start, seen.select) && DbLater(seen.select, seen.flush)
    && DbLater(seen.flush, seen.commit) && DbLater(seen.commit, seen.again)
  }

  /** ... and from the flush of a new `gpu_models` row to the commit nobody commits that name or
      that id. */
  ghost predicate Race(start: Db, seen: Seen, key: string, name: string)
  {
    && InOrder(start, seen)
    && (NeedsModel(start, seen, key, name) && FitsModel(name) && name !in seen.flush.models.Values ==>
          && name !in seen.commit.models.Values
          && seen.flush.nextUuid !in seen.commit.models && seen.flush.nextUuid < seen.commit.nextUuid)
  }

  /** Neither the key nor the model is found, so the session inserts the model. */
  predicate NeedsModel(start: Db, seen: Seen, key: string, name: string)
  {
    key !in start.index && name !in seen.select.models.Values
  }

  /** The model appeared between the SELECT and the INSERT of its row. */
  predicate Refused(start: Db, seen: Seen, key: string, name: string)
  {
    NeedsModel(start, seen, key, name) && FitsModel(name) && name in seen.flush.models.Values
  }

  /** An INSERT raises on a value that its column cannot hold. */
  predicate Overflows(start: Db, seen: Seen, key: string, spec: Spec)
  {
    || (NeedsModel(start, seen, key, spec.model) && !FitsModel(spec.model))
    || (key !in start.index && !Refused(start, seen, key, spec.model) && !FitsRow(key, spec))
  }

  /** The transaction gets as far as a commit that no row under its key stands in the way of. */
  predicate MayCreate(start: Db, seen: Seen, key: string, spec: Spec)
  {
    && key !in start.index && key !in seen.commit.index
    && !Refused(start, seen, key, spec.model) && !Overflows(start, seen, key, spec)
  }

  /** How one call ends, each ending exactly under its condition: the row is created if no other is
      in the way and the commit goes through; the flush raises if the model appeared between SELECT
      and INSERT; an INSERT raises on a value that does not fit; any other reply names the row under
      the key; the bare re-raise never happens. */
  ghost predicate Ends(before: Db, seen: Seen, key: string, spec: Spec, commits: bool, after: Db, r: CreateResult)
  {
    && (r.Reply? && r.created <==> MayCreate(before, seen, key, spec) && commits)
    && (r.DatabaseError? <==> MayCreate(before, seen, key, spec) && !commits)
    && (r.DataError? <==> Overflows(before, seen, key, spec))
    && (r.FlushConflict? <==> Refused(before, seen, key, spec.model))
    && !r.Reraise?
    && (r.Reply? && r.created ==>
          r.job == seen.commit.nextUuid && r.status == Queued && Inserted(seen.commit, key, spec, after))
    && (r.Reply? && !r.created ==>
          && key in after.index && after.index[key] == r.job
          && r.job in after.rows && after.rows[r.job].key == key && after.rows[r.job].status == r.status
          && after == if key in before.index then before else seen.again)
    && (r.DatabaseError? ==> after == seen.commit)
    && (r.FlushConflict? ==> after == seen.flush)
    && (r.DataError? ==>
          after ==
            if NeedsModel(before, seen, key, spec.model) && !FitsModel(spec.model) then seen.flush else seen.commit)
  }

  /** One commit stored the row under its key, together with its model if that was new. */
  ghost predicate Inserted(db: Db, key: string, spec: Spec, t: Db)
  {
    exists m, newModel :: MayInsert(db, key, spec, m, newModel) && t == Insert(db, key, spec, m, newModel)
  }

  // ---- the endings in numbers ----

  /** A stored model name fits its column. */
  lemma SelectedFits(db: Db, name: string)
    requires Consistent(db) && name in db.models.Values
    ensures |name| <= 64 && '\0' !in name
  {
    var m :| m in db.models && db.models[m] == name;
    assert ModelOk(db, m);
  }

  /** A request within the columns never ends in an overflow, and becomes a row if nobody is in the
      way; any other request under a fresh key never becomes a row. */
  lemma EndsInNumbers(before: Db, seen: Seen, key: string, spec: Spec, commits: bool, after: Db, r: CreateResult)
    requires Consistent(seen.select) && Ends(before, seen, key, spec, commits, after, r)
    ensures
      |spec.model| <= 64 && |spec.workload| <= 64 && |key| <= 128 && spec.batch <= 2147483647
      && '\0' !in spec.model && '\0' !in spec.workload && '\0' !in key ==>
        && !r.DataError?
        && (r.FlushConflict? <==>
              && key !in before.index
              && spec.model !in seen.select.models.Values && spec.model in seen.flush.models.Values)
        && (r.Reply? && r.created <==>
              !r.FlushConflict? && key !in before.index && key !in seen.commit.index && commits)
        && (r.DatabaseError? <==>
              !r.FlushConflict? && key !in before.index && key !in seen.commit.index && !commits)
    ensures
      |spec.model| > 64 || |spec.workload| > 64 || |key| > 128 || spec.batch > 2147483647
      || '\0' in spec.model || '\0' in spec.workload || '\0' in key ==>
        r.Reply? ==> !r.created
  {
    if spec.model in seen.select.models.Values { SelectedFits(seen.select, spec.model); }
  }

  // ---- the endings one by one ----

  lemma RefusedEnds(before: Db, seen: Seen, key: string, spec: Spec, commits: bool)
    requires Refused(before, seen, key, spec.model)
    ensures Ends(before, seen, key, spec, commits, seen.flush, FlushConflict)
  {
  }

  lemma OverflowEnds(before: Db, seen: Seen, key: string, spec: Spec, commits: bool, after: Db)
    requires Overflows(before, seen, key, spec)
    requires after ==
      if NeedsModel(before, seen, key, spec.model) && !FitsModel(spec.model) then seen.flush else seen.commit
    ensures Ends(before, seen, key, spec, commits, after, DataError)
    ensures !Refused(before, seen, key, spec.model)
  {
  }

  lemma FoundEnds(before: Db, seen: Seen, key: string, spec: Spec, commits: bool, after: Db, job: Uuid)
    requires key in after.index && after.index[key] == job && KeyOk(after, key)
    requires key in before.index || key in seen.commit.index
    requires !Refused(before, seen, key, spec.model) && !Overflows(before, seen, key, spec)
    requires after == if key in before.index then before else seen.again
    ensures Ends(before, seen, key, spec, commits, after, Reply(job, after.rows[job].status, false))
  {
  }

  lemma CreatedEnds(before: Db, seen: Seen, key: string, spec: Spec, after: Db)
    requires MayCreate(before, seen, key, spec) && Inserted(seen.commit, key, spec, after)
    ensures Ends(before, seen, key, spec, true, after, Reply(seen.commit.nextUuid, Queued, true))
  {
  }

  lemma FailedEnds(before: Db, seen: Seen, key: string, spec: Spec)
    requires MayCreate(before, seen, key, spec)
    ensures Ends(before, seen, key, spec, false, seen.commit, DatabaseError)
  {
  }
}
