/** The backend as a protocol: any number of API handlers and workers, each with a program
    counter, interleaved one atomic step at a time. */
module Backend {
  import opened Types
  import opened Tables

  /** Where a POST handler stands in `create_benchmark` and in the enqueue after it. */
  datatype HandlerPc =
    | Finding                                        // the first look-up by key
    | Selecting                                      // the SELECT on gpu_models
    | Flushing                                       // the INSERT of a new gpu_models row
    | Committing(modelId: Uuid, newModel: bool)      // the commit inside the try
    | Refinding                                      // after IntegrityError and rollback
    | Owing(bench: Uuid)                             // committed, message not yet pushed
    | Replied(job: Uuid, created: bool)              // 202 with this job_id
    | Rejected                                       // 422, the request was not let through
    | Raised                                         // an error reply, nothing stored
    | Reraised                                       // the bare `raise` after the second look-up
    | Gone                                           // the process died

  datatype Handler = Handler(key: string, spec: Spec, pc: HandlerPc)

  /** Where a worker stands in `_process_job`. Its session is `broken` once a statement or a commit
      of a transaction has raised: nobody rolls it back, so it refuses whatever comes after. */
  datatype Worker =
    | Idle
    | Marking(m: Message)
    | Executing(m: Message)
    | Completing(m: Message, metrics: Metrics)
    | Recovering(m: Message, broken: bool)       // in the except branch
    | Failing(bench: Uuid, broken: bool)         // dead-lettered, mark_failed still to come
    | Dead

  /** One call of the engine. */
  datatype Run = Run(bench: Uuid, spec: Spec, outcome: Option<Metrics>)

  /** Observers: no step reads them. */
  datatype Log = Log(
    pushed: multiset<Uuid>,        // messages pushed by handlers
    dequeued: multiset<Uuid>,     // messages popped by workers
    unmarked: multiset<Uuid>,     // processings whose mark_running stored nothing
    lost: multiset<Uuid>,         // enqueues and messages that died with a process
    runs: seq<Run>,
    origin: map<Uuid, nat>)       // the handler that inserted a row

  /** `queue` is the Redis list from left to right: pushed at the left, popped at the right. */
  datatype State = State(
    db: Db,
    queue: seq<Message>,
    dlq: seq<DeadLetter>,
    handlers: seq<Handler>,
    workers: seq<Worker>,
    log: Log)

  const Start := State(EmptyDb, [], [], [], [], Log(multiset{}, multiset{}, multiset{}, multiset{}, [], map[]))

  /** How the external part of a worker step turns out. An exception leaves the session usable when
      it comes from the engine, or when the session got no connection at all. */
  datatype Outcome = Yields(metrics: Metrics) | Raises(reason: string, broken: bool)

  /** `Advance` carries the row that the SELECT on gpu_models may return. */
  datatype Action =
    | Arrive(key: string, spec: Spec)
    | Advance(h: nat, pick: Uuid)
    | Abort(h: nat)                 // a database error: rolled back, error reply
    | KillHandler(h: nat)
    | Hire
    | Work(w: nat, outcome: Outcome)
    | KillWorker(w: nat)

  /** Another session holds an uncommitted gpu_models row of this name, so an INSERT waits. */
  predicate NameHeld(handlers: seq<Handler>, name: string)
  {
    exists j :: 0 <= j < |handlers| && Holds(handlers[j], name)
  }

  predicate Holds(x: Handler, name: string)
  {
    x.pc.Committing? && x.pc.newModel && x.spec.model == name
  }

  function SetPc(s: State, h: nat, pc: HandlerPc): State
    requires h < |s.handlers|
  {
    s.(handlers := s.handlers[h := s.handlers[h].(pc := pc)])
  }

  function SetWorker(s: State, w: nat, x: Worker): State
    requires w < |s.workers|
  {
    s.(workers := s.workers[w := x])
  }

  function HandlerNext(s: State, h: nat, pick: Uuid): State
    requires h < |s.handlers|
  {
    var x := s.handlers[h];
    match x.pc
    case Finding =>
      if x.key in s.db.index then SetPc(s, h, Replied(s.db.index[x.key], false)) else SetPc(s, h, Selecting)
    case Selecting =>
      if pick in s.db.models && s.db.models[pick] == x.spec.model then SetPc(s, h, Committing(pick, false))
      else if x.spec.model !in s.db.models.Values then SetPc(s, h, Flushing)
      else s
    case Flushing =>
      if !FitsModel(x.spec.model) then SetPc(s, h, Raised)
      else if NameHeld(s.handlers, x.spec.model) then s
      else if x.spec.model in s.db.models.Values then SetPc(s, h, Raised)
      else SetPc(s, h, Committing(s.db.nextUuid, true)).(db := s.db.(nextUuid := s.db.nextUuid + 1))
    case Committing(modelId, newModel) =>
      if !FitsRow(x.key, x.spec) then SetPc(s, h, Raised)
      else if InsertConflict(s.db, x.key, x.spec.model, newModel) then SetPc(s, h, Refinding)
      else
        SetPc(s, h, Owing(s.db.nextUuid)).(
          db := Insert(s.db, x.key, x.spec, modelId, newModel),
          log := s.log.(origin := s.log.origin[s.db.nextUuid := h]))
    case Refinding =>
      if x.key in s.db.index then SetPc(s, h, Replied(s.db.index[x.key], false)) else SetPc(s, h, Reraised)
    case Owing(bench) =>
      SetPc(s, h, Replied(bench, true)).(
        queue := [Message(bench, x.spec, 0)] + s.queue,
        log := s.log.(pushed := s.log.pushed + multiset{bench}))
    case _ => s
  }

  function WorkerNext(limit: int, s: State, w: nat, o: Outcome): State
    requires w < |s.workers|
  {
    match s.workers[w]
    case Idle =>
      if s.queue == [] then s
      else
        var m := s.queue[|s.queue| - 1];
        SetWorker(s, w, Marking(m)).(
          queue := s.queue[..|s.queue| - 1],
          log := s.log.(dequeued := s.log.dequeued + multiset{m.bench}))
    case Marking(m) =>
      if o.Raises? || m.bench !in s.db.rows then
        SetWorker(s, w, if o.Raises? then Recovering(m, o.broken) else Executing(m)).(
          log := s.log.(unmarked := s.log.unmarked + multiset{m.bench}))
      else SetWorker(s, w, Executing(m)).(db := MarkRunning(s.db, m.bench))
    case Executing(m) =>
      if o.Yields? then
        SetWorker(s, w, Completing(m, o.metrics)).(
          log := s.log.(runs := s.log.runs + [Run(m.bench, m.spec, Some(o.metrics))]))
      else
        SetWorker(s, w, Recovering(m, o.broken)).(log := s.log.(runs := s.log.runs + [Run(m.bench, m.spec, None)]))
    case Completing(m, metrics) =>
      if o.Raises? || CompleteConflict(s.db, m.bench) then SetWorker(s, w, Recovering(m, true))
      else SetWorker(s, w, Idle).(db := Complete(s.db, m.bench, ResultRow(metrics, m.attempt + 1)))
    case Recovering(m, broken) =>
      if m.attempt + 1 < limit then
        SetWorker(s, w, Idle).(queue := [m.(attempt := m.attempt + 1)] + s.queue)
      else
        SetWorker(s, w, Failing(m.bench, broken)).(
          dlq := [DeadLetter(m, if o.Raises? then o.reason else "")] + s.dlq)
    case Failing(bench, broken) =>
      if o.Raises? || broken then SetWorker(s, w, Dead)
      else SetWorker(s, w, Idle).(db := MarkFailed(s.db, bench))
    case Dead => s
  }

  /** A new request, let through or not. */
  function Arrived(key: string, spec: Spec): Handler
  {
    Handler(key, spec, if Accepts(key, spec) then Finding else Rejected)
  }

  /** The commit of handler `h` inserts its row. */
  predicate Inserts(s: State, h: nat)
    requires h < |s.handlers|
  {
    var x := s.handlers[h];
    && x.pc.Committing? && FitsRow(x.key, x.spec)
    && !InsertConflict(s.db, x.key, x.spec.model, x.pc.newModel)
  }

  /** One step. `limit` is `worker_max_retries`; an action that is not enabled changes nothing. */
  function Next(limit: int, s: State, a: Action): State
  {
    match a
    case Arrive(key, spec) => s.(handlers := s.handlers + [Arrived(key, spec)])
    case Advance(h, pick) => if h < |s.handlers| then HandlerNext(s, h, pick) else s
    case Abort(h) =>
      if h < |s.handlers| && Reading(s.handlers[h].pc) then SetPc(s, h, Raised) else s
    case KillHandler(h) =>
      if h < |s.handlers| && !s.handlers[h].pc.Replied? then
        var owed := if s.handlers[h].pc.Owing? then multiset{s.handlers[h].pc.bench} else multiset{};
        SetPc(s, h, Gone).(log := s.log.(lost := s.log.lost + owed))
      else s
    case Hire => s.(workers := s.workers + [Idle])
    case Work(w, o) => if w < |s.workers| then WorkerNext(limit, s, w, o) else s
    case KillWorker(w) =>
      if w < |s.workers| then
        var held := if Holding(s.workers[w]) then multiset{s.workers[w].m.bench} else multiset{};
        SetWorker(s, w, Dead).(
          log := s.log.(
            lost := s.log.lost + held,
            unmarked := s.log.unmarked + if s.workers[w].Marking? then held else multiset{}))
      else s
  }

  /** The handler has stored nothing yet. */
  predicate Reading(pc: HandlerPc)
  {
    pc.Finding? || pc.Selecting? || pc.Flushing? || pc.Committing? || pc.Refinding?
  }

  function Exec(limit: int, s: State, acts: seq<Action>): State
    decreases |acts|
  {
    if acts == [] then s else Next(limit, Exec(limit, s, acts[..|acts| - 1]), acts[|acts| - 1])
  }

  /** Some run from the empty platform leads here. */
  ghost predicate Reachable(limit: int, s: State)
  {
    exists acts :: s == Exec(limit, Start, acts)
  }

  // ---- what each process and each message carries ----

  /** The handler still has to push the message of this benchmark. */
  predicate Owes(x: Handler, b: Uuid) { x.pc == Owing(b) }

  /** The handler is known to have created this benchmark. */
  predicate Creates(x: Handler, b: Uuid) { x.pc == Owing(b) || x.pc == Replied(b, true) }

  predicate Holding(x: Worker)
  {
    x.Marking? || x.Executing? || x.Completing? || x.Recovering?
  }

  predicate Keeps(x: Worker, b: Uuid) { Holding(x) && x.m.bench == b }

  /** The processing has not reached the end of mark_running. */
  predicate Unmarked(x: Worker, b: Uuid) { x.Marking? && x.m.bench == b }

  /** The processing may still call the engine. */
  predicate ToRun(x: Worker, b: Uuid) { (x.Marking? || x.Executing?) && x.m.bench == b }

  predicate Names(m: Message, b: Uuid) { m.bench == b }

  predicate Letters(d: DeadLetter, b: Uuid) { d.message.bench == b }

  predicate Engages(r: Run, b: Uuid) { r.bench == b }
}
