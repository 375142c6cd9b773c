/** The whole platform: the backend, the stored BenchmarkJobs and any number of reconcilers that
    work on stale copies, interleaved one atomic step at a time. */
module Platform {
  import opened Keys
  import opened Operator
  import T = Types
  import opened Tables
  import B = Backend
  import Submission
  import opened Accounting
  import opened Lifecycle

  datatype CrSpec = CrSpec(spec: T.Spec, maxRetries: int)

  /** What never changes: `worker_max_retries`, the digest, and the spec of every BenchmarkJob that
      is ever created (a namespace and name is used by one object). */
  datatype Config = Config(limit: int, digest: string -> string, crs: map<CrId, CrSpec>)

  /** Where a reconcile stands. */
  datatype RecPc =
    | Fetched
    | Posted(h: nat)        // the POST is with handler h
    | Polling               // the GET is under way
    | Writing(job: Job)     // the update is under way
    | Finished

  /** A reconcile of `id` on version `v`, which may be an old one. */
  datatype Rec = Rec(id: CrId, v: nat, pc: RecPc)

  /** `hists` holds all versions of each object, the stored one last; the index of a version is its
      resourceVersion. `saw` observes for which objects a poll returned "running". */
  datatype State = State(b: B.State, hists: map<CrId, seq<Job>>, recs: seq<Rec>, saw: set<CrId>)

  const Start := State(B.Start, map[], [], {})

  datatype Action =
    | Back(a: B.Action)
    | Submit(client: Client, spec: T.Spec)      // a POST that is not the operator's
    | Create(id: CrId, finalizer: bool)
    | Delete(id: CrId)
    | Touch(id: CrId)                           // metadata that nobody here reads
    | Fetch(id: CrId, v: nat)
    | Send(r: nat)
    | Hear(r: nat, now: Time)
    | Store(r: nat)
    | Drop(r: nat)                              // a lost reply, a failed update, a crash

  function Push(s: State, id: CrId, j: Job): State
    requires id in s.hists
  {
    s.(hists := s.hists[id := s.hists[id] + [j]])
  }

  function SetRec(s: State, r: nat, pc: RecPc): State
    requires r < |s.recs|
  {
    s.(recs := s.recs[r := s.recs[r].(pc := pc)])
  }

  function ToWrite(w: T.Option<Job>): RecPc
  {
    if w.Some? then Writing(w.value) else Finished
  }

  /** `get_benchmark`: one query, so one instant. An unknown id is a 404, whose body has no status. */
  function GetReply(db: Db, job: T.Option<T.Uuid>): Reply
  {
    if job.Some? && job.value in db.rows then
      Polled(StatusName(db.rows[job.value].status),
             if job.value in db.results then T.Some(db.results[job.value].metrics) else T.None)
    else Polled("", T.None)
  }

  /** The reply to a POST once its handler has answered. */
  function PostReply(pc: B.HandlerPc): Reply
  {
    if pc.Replied? then Accepted(T.Some(pc.job))
    else if pc.Rejected? || pc.Raised? || pc.Reraised? then Refused
    else NoAnswer
  }

  predicate Answered(pc: B.HandlerPc) { pc.Replied? || pc.Rejected? || pc.Raised? || pc.Reraised? || pc.Gone? }

  predicate Submits(j: Job) { !j.deleting && j.finalizer && (j.phase == Blank || j.phase == Pending) }

  predicate Polls(j: Job) { !j.deleting && j.finalizer && (j.phase == Submitted || j.phase == Running) }

  /** The reconciler acts on its copy: a metadata write, a POST, a GET, or nothing. */
  function SendNext(c: Config, s: State, r: nat): State
    requires r < |s.recs|
  {
    var x := s.recs[r];
    if x.id !in s.hists || x.id !in c.crs || x.v >= |s.hists[x.id]| then s
    else
      var j := s.hists[x.id][x.v];
      if Submits(j) then
        var spec := c.crs[x.id].spec;
        SetRec(s, r, Posted(|s.b.handlers|)).(
          b := B.Next(c.limit, s.b, B.Arrive(KeyOf(c.digest, Client.Operator(x.id), spec), spec)))
      else if Polls(j) then SetRec(s, r, Polling)
      else SetRec(s, r, ToWrite(Reconciled(c.crs[x.id].maxRetries, j, NoAnswer, 0)))
  }

  /** The platform once the observer has noted what the poll returned. */
  function Noted(s: State, x: Rec, reply: Reply): State
  {
    s.(saw := if reply.Polled? && reply.status == "running" then s.saw + {x.id} else s.saw)
  }

  function HearNext(c: Config, s: State, r: nat, now: Time): State
    requires r < |s.recs|
  {
    var x := s.recs[r];
    if x.id !in s.hists || x.id !in c.crs || x.v >= |s.hists[x.id]| then s
    else
      var j := s.hists[x.id][x.v];
      match x.pc
      case Posted(h) =>
        if h < |s.b.handlers| && Answered(s.b.handlers[h].pc) then
          SetRec(s, r, ToWrite(Reconciled(c.crs[x.id].maxRetries, j, PostReply(s.b.handlers[h].pc), now)))
        else s
      case Polling =>
        var reply := GetReply(s.b.db, j.jobId);
        SetRec(Noted(s, x, reply), r, ToWrite(Reconciled(c.crs[x.id].maxRetries, j, reply, now)))
      case _ => s
  }

  /** The update is stored if nobody stored another version since the copy was read. */
  function StoreNext(s: State, r: nat): State
    requires r < |s.recs|
  {
    var x := s.recs[r];
    if x.pc.Writing? && x.id in s.hists && x.v + 1 == |s.hists[x.id]| && !Operator.Gone(s.hists[x.id][x.v]) then
      SetRec(Push(s, x.id, x.pc.job), r, Finished)
    else SetRec(s, r, Finished)
  }

  /** The stored object of a BenchmarkJob that is still there. */
  predicate Live(s: State, id: CrId)
  {
    id in s.hists && |s.hists[id]| > 0 && !Operator.Gone(Tip(s, id))
  }

  function Tip(s: State, id: CrId): Job
    requires id in s.hists && |s.hists[id]| > 0
  {
    s.hists[id][|s.hists[id]| - 1]
  }

  function Next(c: Config, s: State, a: Action): State
  {
    match a
    case Back(ba) => if ba.Arrive? then s else s.(b := B.Next(c.limit, s.b, ba))
    case Submit(client, spec) =>
      if client.Operator? then s else s.(b := B.Next(c.limit, s.b, B.Arrive(KeyOf(c.digest, client, spec), spec)))
    case Create(id, finalizer) =>
      if id in c.crs && id !in s.hists then s.(hists := s.hists[id := [NewJob.(finalizer := finalizer)]]) else s
    case Delete(id) => if Live(s, id) then Push(s, id, Tip(s, id).(deleting := true)) else s
    case Touch(id) => if Live(s, id) then Push(s, id, Tip(s, id)) else s
    case Fetch(id, v) =>
      if id in s.hists && v < |s.hists[id]| then s.(recs := s.recs + [Rec(id, v, Fetched)]) else s
    case Send(r) => if r < |s.recs| && s.recs[r].pc.Fetched? then SendNext(c, s, r) else s
    case Hear(r, now) => if r < |s.recs| then HearNext(c, s, r, now) else s
    case Store(r) => if r < |s.recs| && s.recs[r].pc.Writing? then StoreNext(s, r) else s
    case Drop(r) => if r < |s.recs| then SetRec(s, r, Finished) else s
  }

  function Exec(c: Config, s: State, acts: seq<Action>): State
    decreases |acts|
  {
    if acts == [] then s else Next(c, Exec(c, s, acts[..|acts| - 1]), acts[|acts| - 1])
  }

  /** Some run from the empty platform leads here. */
  ghost predicate Reachable(c: Config, s: State)
  {
    exists acts :: s == Exec(c, Start, acts)
  }

  // ---- the coupling of the layers ----

  /** What a version of BenchmarkJob `id` says about the tables. The benchmark of `id` is the one
      row that the unique index finds under its key. */
  ghost predicate Coupled(db: Db, saw: set<CrId>, id: CrId, j: Job)
  {
    var key := OperatorKey(id);
    && (j.jobId.Some? <==> j.phase != Blank && j.phase != Pending)
    && (j.jobId.Some? || j.retryCount > 0 ==> key in db.index && db.index[key] in db.rows)
    && (j.jobId.Some? ==> j.jobId.value == db.index[key])
    && (j.phase == Running ==> db.rows[db.index[key]].status != T.Queued)
    && (j.phase == Completed ==> db.rows[db.index[key]].status == T.Completed && Reports(db, db.index[key], j))
    && (j.phase == Failed ==> db.rows[db.index[key]].status == T.Failed)
    && (j.retryCount > 0 ==> db.rows[db.index[key]].status == T.Failed)
    && (j.phase == Running || j.phase == Completed ==> j.retryCount == 0 && id in saw)
  }

  /** The object shows the metrics of the result row of benchmark `b`. */
  predicate Reports(db: Db, b: T.Uuid, j: Job)
  {
    && b in db.results
    && j.throughput == T.Some(db.results[b].metrics.throughput)
    && j.latencyMs == T.Some(db.results[b].metrics.latencyMs)
    && j.bandwidthGbps == T.Some(db.results[b].metrics.bandwidthGbps)
  }

  lemma CoupledLater(db: Db, t: Db, saw: set<CrId>, more: set<CrId>, id: CrId, j: Job)
    requires Coupled(db, saw, id, j) && DbLater(db, t) && saw <= more
    ensures Coupled(t, more, id, j)
  {
    var key := OperatorKey(id);
    if key in db.index && db.index[key] in db.rows { assert RowLater(db, t, db.index[key]); }
  }

  ghost predicate HistOk(c: Config, s: State, id: CrId)
    requires id in s.hists
  {
    && id in c.crs
    && History(c.crs[id].maxRetries, s.hists[id])
    && (forall v | 0 <= v < |s.hists[id]| :: Coupled(s.b.db, s.saw, id, s.hists[id][v]))
  }

  ghost predicate RecOk(c: Config, s: State, x: Rec)
  {
    && x.id in s.hists && x.id in c.crs && x.v < |s.hists[x.id]|
    && var j := s.hists[x.id][x.v];
    match x.pc
    case Posted(h) =>
      && Submits(j) && h < |s.b.handlers|
      && s.b.handlers[h].key == OperatorKey(x.id) && s.b.handlers[h].spec == c.crs[x.id].spec
    case Polling => Polls(j)
    case Writing(k) => ReconcileEdge(c.crs[x.id].maxRetries, j, k) && Coupled(s.b.db, s.saw, x.id, k)
    case _ => true
  }

  ghost predicate PlatformInv(c: Config, s: State)
  {
    && Inv(c.limit, s.b)
    && (forall id | id in s.hists :: HistOk(c, s, id))
    && (forall r | 0 <= r < |s.recs| :: RecOk(c, s, s.recs[r]))
  }

  /** The backend and the observer move on; nothing else changes. */
  lemma GrowthKeeps(c: Config, s: State, t: State)
    requires PlatformInv(c, s) && Inv(c.limit, t.b) && Later(s.b, t.b) && s.saw <= t.saw
    requires t.hists == s.hists && t.recs == s.recs
    ensures PlatformInv(c, t)
  {
    forall id | id in t.hists ensures HistOk(c, t, id) {
      assert HistOk(c, s, id);
      forall v | 0 <= v < |t.hists[id]| ensures Coupled(t.b.db, t.saw, id, t.hists[id][v]) {
        CoupledLater(s.b.db, t.b.db, s.saw, t.saw, id, s.hists[id][v]);
      }
    }
    forall r | 0 <= r < |t.recs| ensures RecOk(c, t, t.recs[r]) {
      var x := s.recs[r];
      assert RecOk(c, s, x);
      if x.pc.Writing? { CoupledLater(s.b.db, t.b.db, s.saw, t.saw, x.id, x.pc.job); }
      if x.pc.Posted? { assert HandlerLater(s.b.handlers[x.pc.h], t.b.handlers[x.pc.h]); }
    }
  }

  /** One more version of one object. */
  lemma PushKeeps(c: Config, s: State, id: CrId, k: Job)
    requires PlatformInv(c, s) && id in s.hists && HistOk(c, s, id)
    requires Edge(c.crs[id].maxRetries, Tip(s, id), k) && Coupled(s.b.db, s.saw, id, k)
    ensures PlatformInv(c, Push(s, id, k))
  {
    var t := Push(s, id, k);
    forall i | i in t.hists ensures HistOk(c, t, i) {
      assert HistOk(c, s, i);
      if i == id { PushHist(c, s, id, k); }
    }
    forall r | 0 <= r < |t.recs| ensures RecOk(c, t, t.recs[r]) { assert RecOk(c, s, s.recs[r]); }
  }

  lemma PushHist(c: Config, s: State, id: CrId, k: Job)
    requires id in s.hists && HistOk(c, s, id)
    requires Edge(c.crs[id].maxRetries, Tip(s, id), k) && Coupled(s.b.db, s.saw, id, k)
    ensures HistOk(c, Push(s, id, k), id)
  {
    var hist := Push(s, id, k).hists[id];
    forall v | 0 < v < |hist| ensures EdgeAt(c.crs[id].maxRetries, hist, v) {
      if v < |s.hists[id]| { assert EdgeAt(c.crs[id].maxRetries, s.hists[id], v); }
    }
  }

  /** One reconciler moves. */
  lemma RecKeeps(c: Config, s: State, r: nat, pc: RecPc)
    requires PlatformInv(c, s) && r < |s.recs| && RecOk(c, s, s.recs[r].(pc := pc))
    ensures PlatformInv(c, SetRec(s, r, pc))
  {
    var t := SetRec(s, r, pc);
    forall i | i in t.hists ensures HistOk(c, t, i) { assert HistOk(c, s, i); }
    forall q | 0 <= q < |t.recs| ensures RecOk(c, t, t.recs[q]) { assert RecOk(c, s, s.recs[q]); }
  }

  /** A reply of this backend moves a coupled version to a coupled version. */
  lemma PollCoupled(db: Db, saw: set<CrId>, id: CrId, maxRetries: int, j: Job, now: Time)
    requires Polls(j) && Sound(maxRetries, j) && Coupled(db, saw, id, j)
    requires var b := db.index[OperatorKey(id)]; db.rows[b].status == T.Completed <==> b in db.results
    ensures var reply := GetReply(db, j.jobId); var w := Reconciled(maxRetries, j, reply, now);
      w.Some? ==> Coupled(db, if reply.status == "running" then saw + {id} else saw, id, w.value)
  {
    StatusNamesDiffer(db.rows[db.index[OperatorKey(id)]].status);
  }

  lemma StatusNamesDiffer(s: T.Status)
    ensures StatusName(s) == "queued" <==> s == T.Queued
    ensures StatusName(s) == "running" <==> s == T.Running
    ensures StatusName(s) == "completed" <==> s == T.Completed
    ensures StatusName(s) == "failed" <==> s == T.Failed
  {
    assert "queued"[0] == 'q' && "running"[0] == 'r' && "completed"[0] == 'c' && "failed"[0] == 'f';
  }

  lemma PostCoupled(limit: int, b: B.State, saw: set<CrId>, id: CrId, maxRetries: int, j: Job, h: nat, now: Time)
    requires Inv(limit, b) && Submits(j) && Coupled(b.db, saw, id, j)
    requires h < |b.handlers| && b.handlers[h].key == OperatorKey(id)
    ensures var w := Reconciled(maxRetries, j, PostReply(b.handlers[h].pc), now);
      w.Some? ==> Coupled(b.db, saw, id, w.value)
  {
    assert Submission.HandlerOk(b.db, b.handlers[h]);
    if b.handlers[h].pc.Replied? { assert RowOk(b.db, b.handlers[h].pc.job); }
  }

  lemma WriteIsEdge(maxRetries: int, j: Job, reply: Reply, now: Time)
    requires Reconciled(maxRetries, j, reply, now).Some?
    ensures ReconcileEdge(maxRetries, j, Reconciled(maxRetries, j, reply, now).value)
  {
    assert Reconciled(maxRetries, j, reply, now) == T.Some(Reconciled(maxRetries, j, reply, now).value);
  }

  lemma HistSound(c: Config, s: State, id: CrId, v: nat)
    requires id in s.hists && HistOk(c, s, id) && v < |s.hists[id]|
    ensures Sound(c.crs[id].maxRetries, s.hists[id][v])
  {
    HistorySound(c.crs[id].maxRetries, s.hists[id], v);
  }

  lemma PostSentKeeps(c: Config, s: State, r: nat)
    requires PlatformInv(c, s) && r < |s.recs| && RecOk(c, s, s.recs[r])
    requires Submits(s.hists[s.recs[r].id][s.recs[r].v])
    ensures var post := B.Arrive(OperatorKey(s.recs[r].id), c.crs[s.recs[r].id].spec);
      PlatformInv(c, SetRec(s, r, Posted(|s.b.handlers|)).(b := B.Next(c.limit, s.b, post)))
  {
    var post := B.Arrive(OperatorKey(s.recs[r].id), c.crs[s.recs[r].id].spec);
    BackKeeps(c, s, post);
    RecKeeps(c, s.(b := B.Next(c.limit, s.b, post)), r, Posted(|s.b.handlers|));
  }

  lemma SendKeeps(c: Config, s: State, r: nat)
    requires PlatformInv(c, s) && r < |s.recs| && s.recs[r].pc.Fetched?
    ensures PlatformInv(c, SendNext(c, s, r))
  {
    var x := s.recs[r];
    assert RecOk(c, s, x) && HistOk(c, s, x.id);
    var j := s.hists[x.id][x.v];
    if Submits(j) {
      PostSentKeeps(c, s, r);
    } else if Polls(j) {
      RecKeeps(c, s, r, Polling);
    } else {
      assert Coupled(s.b.db, s.saw, x.id, j);
      WriteOk(c, s, x, NoAnswer, 0);
      RecKeeps(c, s, r, ToWrite(Reconciled(c.crs[x.id].maxRetries, j, NoAnswer, 0)));
    }
  }

  /** The write that follows from a reply, held by the reconciler, is in order. */
  lemma WriteOk(c: Config, s: State, x: Rec, reply: Reply, now: Time)
    requires x.id in s.hists && x.id in c.crs && x.v < |s.hists[x.id]|
    requires var w := Reconciled(c.crs[x.id].maxRetries, s.hists[x.id][x.v], reply, now);
      w.Some? ==> Coupled(s.b.db, s.saw, x.id, w.value)
    ensures RecOk(c, s, x.(pc := ToWrite(Reconciled(c.crs[x.id].maxRetries, s.hists[x.id][x.v], reply, now))))
  {
    if Reconciled(c.crs[x.id].maxRetries, s.hists[x.id][x.v], reply, now).Some? {
      WriteIsEdge(c.crs[x.id].maxRetries, s.hists[x.id][x.v], reply, now);
    }
  }

  lemma HearPostKeeps(c: Config, s: State, r: nat, now: Time)
    requires PlatformInv(c, s) && r < |s.recs| && s.recs[r].pc.Posted?
    ensures PlatformInv(c, HearNext(c, s, r, now))
  {
    var x := s.recs[r];
    assert RecOk(c, s, x) && HistOk(c, s, x.id);
    var h := x.pc.h;
    if Answered(s.b.handlers[h].pc) {
      var j := s.hists[x.id][x.v];
      PostCoupled(c.limit, s.b, s.saw, x.id, c.crs[x.id].maxRetries, j, h, now);
      WriteOk(c, s, x, PostReply(s.b.handlers[h].pc), now);
      RecKeeps(c, s, r, ToWrite(Reconciled(c.crs[x.id].maxRetries, j, PostReply(s.b.handlers[h].pc), now)));
    }
  }

  lemma PollOk(c: Config, s: State, x: Rec, now: Time)
    requires x.id in s.hists && HistOk(c, s, x.id) && RecOk(c, s, x) && x.pc.Polling?
    requires Coupled(s.b.db, s.saw, x.id, s.hists[x.id][x.v])
    requires var b := s.b.db.index[OperatorKey(x.id)]; s.b.db.rows[b].status == T.Completed <==> b in s.b.db.results
    ensures var j := s.hists[x.id][x.v]; var reply := GetReply(s.b.db, j.jobId);
      RecOk(c, Noted(s, x, reply), x.(pc := ToWrite(Reconciled(c.crs[x.id].maxRetries, j, reply, now))))
  {
    var j := s.hists[x.id][x.v];
    HistSound(c, s, x.id, x.v);
    PollCoupled(s.b.db, s.saw, x.id, c.crs[x.id].maxRetries, j, now);
    WriteOk(c, Noted(s, x, GetReply(s.b.db, j.jobId)), x, GetReply(s.b.db, j.jobId), now);
  }

  lemma NotedKeeps(c: Config, s: State, x: Rec, reply: Reply)
    requires PlatformInv(c, s)
    ensures PlatformInv(c, Noted(s, x, reply))
  {
    LaterRefl(s.b);
    GrowthKeeps(c, s, Noted(s, x, reply));
  }

  lemma PolledOk(c: Config, s: State, r: nat, now: Time)
    requires PlatformInv(c, s) && r < |s.recs| && s.recs[r].pc.Polling?
    ensures var x := s.recs[r];
      && x.id in s.hists && x.id in c.crs && x.v < |s.hists[x.id]|
      && var j := s.hists[x.id][x.v]; var reply := GetReply(s.b.db, j.jobId);
      RecOk(c, Noted(s, x, reply), x.(pc := ToWrite(Reconciled(c.crs[x.id].maxRetries, j, reply, now))))
  {
    var x := s.recs[r];
    assert RecOk(c, s, x) && HistOk(c, s, x.id);
    assert Coupled(s.b.db, s.saw, x.id, s.hists[x.id][x.v]);
    assert StatusOk(s.b, s.b.db.index[OperatorKey(x.id)]);
    PollOk(c, s, x, now);
  }

  lemma HearPollKeeps(c: Config, s: State, r: nat, now: Time)
    requires PlatformInv(c, s) && r < |s.recs| && s.recs[r].pc.Polling?
    ensures PlatformInv(c, HearNext(c, s, r, now))
  {
    PolledOk(c, s, r, now);
    var x := s.recs[r];
    var j := s.hists[x.id][x.v];
    var reply := GetReply(s.b.db, j.jobId);
    NotedKeeps(c, s, x, reply);
    RecKeeps(c, Noted(s, x, reply), r, ToWrite(Reconciled(c.crs[x.id].maxRetries, j, reply, now)));
  }

  lemma LaterRefl(b: B.State)
    ensures Later(b, b)
  {
    forall i | i in b.db.rows ensures RowLater(b.db, b.db, i) {}
  }

  lemma PushWrite(c: Config, s: State, x: Rec)
    requires PlatformInv(c, s) && RecOk(c, s, x) && x.pc.Writing? && x.v + 1 == |s.hists[x.id]|
    ensures PlatformInv(c, Push(s, x.id, x.pc.job))
  {
    assert HistOk(c, s, x.id);
    WriteEdge(c, s, x);
    PushKeeps(c, s, x.id, x.pc.job);
  }

  lemma WriteEdge(c: Config, s: State, x: Rec)
    requires RecOk(c, s, x) && x.pc.Writing? && x.v + 1 == |s.hists[x.id]|
    ensures Edge(c.crs[x.id].maxRetries, Tip(s, x.id), x.pc.job) && Coupled(s.b.db, s.saw, x.id, x.pc.job)
  {
  }

  lemma FinishKeeps(c: Config, s: State, r: nat)
    requires PlatformInv(c, s) && r < |s.recs|
    ensures PlatformInv(c, SetRec(s, r, Finished))
  {
    assert RecOk(c, s, s.recs[r]);
    RecKeeps(c, s, r, Finished);
  }

  lemma StoreKeeps(c: Config, s: State, r: nat)
    requires PlatformInv(c, s) && r < |s.recs| && s.recs[r].pc.Writing?
    ensures PlatformInv(c, StoreNext(s, r))
  {
    var x := s.recs[r];
    assert RecOk(c, s, x);
    if x.v + 1 == |s.hists[x.id]| && !Operator.Gone(s.hists[x.id][x.v]) {
      PushWrite(c, s, x);
      FinishKeeps(c, Push(s, x.id, x.pc.job), r);
    } else {
      FinishKeeps(c, s, r);
    }
  }

  lemma BackKeeps(c: Config, s: State, ba: B.Action)
    requires PlatformInv(c, s)
    ensures PlatformInv(c, s.(b := B.Next(c.limit, s.b, ba)))
  {
    InvStep(c.limit, s.b, ba);
    StepLater(c.limit, s.b, ba);
    GrowthKeeps(c, s, s.(b := B.Next(c.limit, s.b, ba)));
  }

  lemma CreateKeeps(c: Config, s: State, id: CrId, finalizer: bool)
    requires PlatformInv(c, s)
    ensures PlatformInv(c, Next(c, s, Create(id, finalizer)))
  {
    var t := Next(c, s, Create(id, finalizer));
    forall i | i in t.hists ensures HistOk(c, t, i) {
      if i in s.hists { assert HistOk(c, s, i); }
    }
    forall q | 0 <= q < |t.recs| ensures RecOk(c, t, t.recs[q]) { assert RecOk(c, s, s.recs[q]); }
  }

  lemma FetchKeeps(c: Config, s: State, id: CrId, v: nat)
    requires PlatformInv(c, s)
    ensures PlatformInv(c, Next(c, s, Fetch(id, v)))
  {
    var t := Next(c, s, Fetch(id, v));
    forall i | i in t.hists ensures HistOk(c, t, i) { assert HistOk(c, s, i); }
    forall q | 0 <= q < |t.recs| ensures RecOk(c, t, t.recs[q]) {
      if q < |s.recs| { assert RecOk(c, s, s.recs[q]); }
    }
  }

  /** Somebody else's change of metadata, or a deletion request. */
  lemma MetadataKeeps(c: Config, s: State, id: CrId, k: Job)
    requires PlatformInv(c, s) && Live(s, id) && (k == Tip(s, id) || k == Tip(s, id).(deleting := true))
    ensures PlatformInv(c, Push(s, id, k))
  {
    assert HistOk(c, s, id);
    assert Coupled(s.b.db, s.saw, id, Tip(s, id));
    PushKeeps(c, s, id, k);
  }

  lemma ObjectStep(c: Config, s: State, a: Action)
    requires PlatformInv(c, s) && (a.Create? || a.Delete? || a.Touch?)
    ensures PlatformInv(c, Next(c, s, a))
  {
    match a
    case Create(id, finalizer) => CreateKeeps(c, s, id, finalizer);
    case Delete(id) => if Live(s, id) { MetadataKeeps(c, s, id, Tip(s, id).(deleting := true)); }
    case Touch(id) => if Live(s, id) { MetadataKeeps(c, s, id, Tip(s, id)); }
  }

  lemma HearKeeps(c: Config, s: State, r: nat, now: Time)
    requires PlatformInv(c, s) && r < |s.recs|
    ensures PlatformInv(c, HearNext(c, s, r, now))
  {
    match s.recs[r].pc
    case Posted(_) => HearPostKeeps(c, s, r, now);
    case Polling => HearPollKeeps(c, s, r, now);
    case _ => assert HearNext(c, s, r, now) == s;
  }

  /** What the steps of a reconciler come to. */
  lemma ReconcilerSteps(c: Config, s: State, r: nat, now: Time)
    ensures Next(c, s, Send(r)) == if r < |s.recs| && s.recs[r].pc.Fetched? then SendNext(c, s, r) else s
    ensures Next(c, s, Hear(r, now)) == if r < |s.recs| then HearNext(c, s, r, now) else s
    ensures Next(c, s, Store(r)) == if r < |s.recs| && s.recs[r].pc.Writing? then StoreNext(s, r) else s
    ensures Next(c, s, Drop(r)) == if r < |s.recs| then SetRec(s, r, Finished) else s
  {
  }

  lemma SendStep(c: Config, s: State, r: nat)
    requires PlatformInv(c, s)
    ensures PlatformInv(c, Next(c, s, Send(r)))
  {
    ReconcilerSteps(c, s, r, 0);
    if r < |s.recs| && s.recs[r].pc.Fetched? { SendKeeps(c, s, r); }
  }

  lemma HearStep(c: Config, s: State, r: nat, now: Time)
    requires PlatformInv(c, s)
    ensures PlatformInv(c, Next(c, s, Hear(r, now)))
  {
    ReconcilerSteps(c, s, r, now);
    if r < |s.recs| { HearKeeps(c, s, r, now); }
  }

  lemma StoreStep(c: Config, s: State, r: nat)
    requires PlatformInv(c, s)
    ensures PlatformInv(c, Next(c, s, Store(r)))
  {
    ReconcilerSteps(c, s, r, 0);
    if r < |s.recs| && s.recs[r].pc.Writing? { StoreKeeps(c, s, r); }
  }

  lemma DropStep(c: Config, s: State, r: nat)
    requires PlatformInv(c, s)
    ensures PlatformInv(c, Next(c, s, Drop(r)))
  {
    ReconcilerSteps(c, s, r, 0);
    if r < |s.recs| { FinishKeeps(c, s, r); }
  }

  lemma PlatformStep(c: Config, s: State, a: Action)
    requires PlatformInv(c, s)
    ensures PlatformInv(c, Next(c, s, a))
  {
    match a
    case Back(ba) => BackKeeps(c, s, ba);
    case Submit(client, spec) => BackKeeps(c, s, B.Arrive(KeyOf(c.digest, client, spec), spec));
    case Fetch(id, v) => FetchKeeps(c, s, id, v);
    case Send(r) => SendStep(c, s, r);
    case Hear(r, now) => HearStep(c, s, r, now);
    case Store(r) => StoreStep(c, s, r);
    case Drop(r) => DropStep(c, s, r);
    case _ => ObjectStep(c, s, a);
  }

  /** The layers stay coupled in every reachable state. */
  lemma {:induction false} PlatformAlways(c: Config, acts: seq<Action>)
    ensures PlatformInv(c, Exec(c, Start, acts))
    decreases |acts|
  {
    if acts == [] {
      InvAlways(c.limit, []);
    } else {
      PlatformAlways(c, acts[..|acts| - 1]);
      PlatformStep(c, Exec(c, Start, acts[..|acts| - 1]), acts[|acts| - 1]);
    }
  }

  lemma PlatformReachable(c: Config, s: State)
    requires Reachable(c, s)
    ensures PlatformInv(c, s)
  {
    var acts :| s == Exec(c, Start, acts);
    PlatformAlways(c, acts);
  }

  /** Reconcilers keep their object and version; a new one has only read. */
  lemma RecsKeep(c: Config, s: State, a: Action)
    ensures var t := Next(c, s, a);
      && |s.recs| <= |t.recs|
      && (forall r | 0 <= r < |s.recs| :: t.recs[r].id == s.recs[r].id && t.recs[r].v == s.recs[r].v)
      && (forall r | |s.recs| <= r < |t.recs| :: t.recs[r].pc.Fetched?)
  {
  }
}
