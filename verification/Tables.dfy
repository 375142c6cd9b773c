/** The three tables of the backend and what one committed transaction does to them. */
module Tables {
  import opened Types

  /** A row of `benchmarks`. */
  datatype Row = Row(
    key: string,
    modelId: Uuid,
    workload: string,
    batch: int,
    status: Status,
    attempts: nat)

  /** A row of `benchmark_results`; `attempt` is the number that the worker puts in `raw_metrics`. */
  datatype ResultRow = ResultRow(metrics: Metrics, attempt: nat)

  /** What is committed. `index` is the unique index on `idempotency_key`, `results` is keyed by its
      unique `benchmark_id`, and `models` maps the id of a `gpu_models` row to its name. */
  datatype Db = Db(
    rows: map<Uuid, Row>,
    index: map<string, Uuid>,
    models: map<Uuid, string>,
    results: map<Uuid, ResultRow>,
    nextUuid: Uuid)

  const EmptyDb := Db(map[], map[], map[], map[], 0)

  /** The commit of a new benchmark violates a unique index: that of the key, or that of the
      name of the `gpu_models` row inserted by the same transaction. */
  predicate InsertConflict(db: Db, key: string, name: string, newModel: bool)
  {
    key in db.index || (newModel && name in db.models.Values)
  }

  /** Commits a new benchmark, and the model row with it when the transaction inserted one. */
  function Insert(db: Db, key: string, spec: Spec, modelId: Uuid, newModel: bool): Db
  {
    var id := db.nextUuid;
    db.(rows := db.rows[id := Row(key, modelId, spec.workload, spec.batch, Queued, 0)],
        index := db.index[key := id],
        models := if newModel then db.models[modelId := spec.model] else db.models,
        nextUuid := id + 1)
  }

  function SetStatus(db: Db, id: Uuid, status: Status): Db
    requires id in db.rows
  {
    db.(rows := db.rows[id := db.rows[id].(status := status)])
  }

  /** `mark_running`: no test of the old status. */
  function MarkRunning(db: Db, id: Uuid): Db
  {
    if id !in db.rows then db
    else db.(rows := db.rows[id := db.rows[id].(status := Running, attempts := db.rows[id].attempts + 1)])
  }

  /** The insert of a second result row for one benchmark violates the unique index. */
  predicate CompleteConflict(db: Db, id: Uuid)
  {
    id in db.rows && id in db.results
  }

  /** `complete_benchmark`: status and result row in one commit. */
  function Complete(db: Db, id: Uuid, result: ResultRow): Db
  {
    if id !in db.rows then db
    else SetStatus(db, id, Completed).(results := db.results[id := result])
  }

  function MarkFailed(db: Db, id: Uuid): Db
  {
    if id !in db.rows then db else SetStatus(db, id, Failed)
  }

  /** The submission that a committed row stands for. */
  function SpecOf(db: Db, id: Uuid): Spec
    requires id in db.rows && db.rows[id].modelId in db.models
  {
    var row := db.rows[id];
    Spec(db.models[row.modelId], row.workload, row.batch)
  }

  /** The tables are consistent: keys and rows match one to one, every row has its model, every
      model name is stored once and is used by some row. */
  ghost predicate Consistent(db: Db)
  {
    && (forall b | b in db.rows :: RowOk(db, b))
    && (forall k | k in db.index :: KeyOk(db, k))
    && (forall m | m in db.models :: ModelOk(db, m))
  }

  ghost predicate RowOk(db: Db, b: Uuid)
    requires b in db.rows
  {
    && b < db.nextUuid
    && db.rows[b].key in db.index
    && db.index[db.rows[b].key] == b
    && db.rows[b].modelId in db.models
  }

  ghost predicate KeyOk(db: Db, k: string)
    requires k in db.index
  {
    db.index[k] in db.rows && db.rows[db.index[k]].key == k
  }

  ghost predicate ModelOk(db: Db, m: Uuid)
    requires m in db.models
  {
    && m < db.nextUuid && FitsModel(db.models[m])
    && (exists b :: b in db.rows && db.rows[b].modelId == m)
    && (forall n | n in db.models && db.models[n] == db.models[m] :: n == m)
  }

  /** Only statuses, attempt counters and results differ. */
  ghost predicate SameSubmissions(db: Db, t: Db)
  {
    && t.rows.Keys == db.rows.Keys
    && t.index == db.index && t.models == db.models && t.nextUuid == db.nextUuid
    && (forall b | b in db.rows ::
          t.rows[b].(status := db.rows[b].status, attempts := db.rows[b].attempts) == db.rows[b])
  }

  lemma SameSubmissionsConsistent(db: Db, t: Db)
    requires Consistent(db) && SameSubmissions(db, t)
    ensures Consistent(t)
  {
    forall b | b in t.rows ensures RowOk(t, b) { assert RowOk(db, b); }
    forall k | k in t.index ensures KeyOk(t, k) { assert KeyOk(db, k); }
    forall m | m in t.models ensures ModelOk(t, m) {
      assert ModelOk(db, m);
      var b :| b in db.rows && db.rows[b].modelId == m;
      assert b in t.rows && t.rows[b].modelId == m;
    }
  }
}
