/** The phase machine of the operator on values: what one reconcile writes, given the copy it read
    and the HTTP reply it got, and what that does to whole histories of a BenchmarkJob. */
module Operator {
  import T = Types

  /** `Blank` is the empty phase of a new object. */
  datatype Phase = Blank | Pending | Submitted | Running | Completed | Failed

  type Time = int

  /** The parts of a BenchmarkJob object that the reconciler reads or writes. */
  datatype Job = Job(
    finalizer: bool,
    deleting: bool,
    phase: Phase,
    jobId: T.Option<T.Uuid>,          // None is the empty string
    retryCount: int,
    throughput: T.Option<real>,
    latencyMs: T.Option<real>,
    bandwidthGbps: T.Option<real>,
    startTime: T.Option<Time>,
    completionTime: T.Option<Time>)

  /** What comes back from the one HTTP call of a reconcile. */
  datatype Reply =
    | NoAnswer                                                  // error, lost reply, undecodable body
    | Refused                                                   // POST: neither 200 nor 202
    | Accepted(job: T.Option<T.Uuid>)                           // POST: 200 or 202
    | Polled(status: string, result: T.Option<T.Metrics>)       // GET: any decodable body

  function StatusName(s: T.Status): string
  {
    match s
    case Queued => "queued"
    case Running => "running"
    case Completed => "completed"
    case Failed => "failed"
  }

  predicate Terminal(phase: Phase) { phase == Completed || phase == Failed }

  /** `maxRetries` as `handleFailure` reads it. */
  function MaxRetries(maxRetries: int): int { if maxRetries == 0 then 3 else maxRetries }

  /** The retries that it allows. */
  function Retries(maxRetries: int): (r: nat)
    ensures r == if maxRetries > 0 then maxRetries else if maxRetries == 0 then 3 else 0
  {
    if MaxRetries(maxRetries) < 0 then 0 else MaxRetries(maxRetries)
  }

  // ---- the handlers ----

  function AfterPost(j: Job, reply: Reply, now: Time): T.Option<Job>
  {
    if reply.Accepted? then
      T.Some(j.(jobId := reply.job, startTime := T.Some(now), phase := Submitted))
    else T.None
  }

  function AfterFailure(maxRetries: int, j: Job, now: Time): Job
  {
    if j.retryCount < MaxRetries(maxRetries) then
      j.(retryCount := j.retryCount + 1, jobId := T.None, phase := Pending)
    else j.(completionTime := T.Some(now), phase := Failed)
  }

  function AfterSubmittedPoll(maxRetries: int, j: Job, reply: Reply, now: Time): T.Option<Job>
  {
    if !reply.Polled? then T.None
    else if reply.status == "running" then T.Some(j.(phase := Running))
    else if reply.status == "failed" then T.Some(AfterFailure(maxRetries, j, now))
    else T.None
  }

  function WithResult(j: Job, result: T.Option<T.Metrics>): Job
  {
    if result.None? then j
    else j.(throughput := T.Some(result.value.throughput),
            latencyMs := T.Some(result.value.latencyMs),
            bandwidthGbps := T.Some(result.value.bandwidthGbps))
  }

  function AfterRunningPoll(maxRetries: int, j: Job, reply: Reply, now: Time): T.Option<Job>
  {
    if !reply.Polled? then T.None
    else if reply.status == "completed" then
      T.Some(WithResult(j, reply.result).(completionTime := T.Some(now), phase := Completed))
    else if reply.status == "failed" then T.Some(AfterFailure(maxRetries, j, now))
    else T.None
  }

  /** `Reconcile` as one atomic action: the object it writes, if it writes. */
  function Reconciled(maxRetries: int, j: Job, reply: Reply, now: Time): T.Option<Job>
  {
    if j.deleting then
      if j.finalizer then T.Some(j.(finalizer := false)) else T.None
    else if !j.finalizer then T.Some(j.(finalizer := true))
    else
      match j.phase
      case Blank => AfterPost(j, reply, now)
      case Pending => AfterPost(j, reply, now)
      case Submitted => AfterSubmittedPoll(maxRetries, j, reply, now)
      case Running => AfterRunningPoll(maxRetries, j, reply, now)
      case Completed => T.None
      case Failed => T.None
  }

  /** What a poll that says "failed" leads to, in numbers: a retry while the count is below
      `maxRetries`, with 0 read as 3, and Failed after that. */
  lemma FailedPoll(maxRetries: int, j: Job, result: T.Option<T.Metrics>, now: Time)
    requires !j.deleting && j.finalizer && (j.phase == Submitted || j.phase == Running) && j.retryCount >= 0
    ensures var most := if maxRetries > 0 then maxRetries else if maxRetries == 0 then 3 else 0;
      Reconciled(maxRetries, j, Polled("failed", result), now) == T.Some(
        if j.retryCount < most then j.(retryCount := j.retryCount + 1, jobId := T.None, phase := Pending)
        else j.(completionTime := T.Some(now), phase := Failed))
  {
    assert "failed"[0] != "running"[0] && "failed"[0] != "completed"[0];
  }

  // ---- histories ----

  /** The object is removed from the API server. */
  predicate Gone(j: Job) { j.deleting && !j.finalizer }

  /** Only metadata differs. */
  predicate SameStatus(j: Job, k: Job)
  {
    j.(finalizer := k.finalizer, deleting := k.deleting) == k
  }

  predicate SameMetadata(j: Job, k: Job)
  {
    j.finalizer == k.finalizer && j.deleting == k.deleting
  }

  /** One stored change: somebody else's metadata, a deletion request, or one atomic reconcile
      under some reply. This is the atomic phase machine. */
  ghost predicate Edge(maxRetries: int, j: Job, k: Job)
  {
    || k == j
    || k == j.(deleting := true)
    || ReconcileEdge(maxRetries, j, k)
  }

  ghost predicate ReconcileEdge(maxRetries: int, j: Job, k: Job)
  {
    exists reply, now :: Reconciled(maxRetries, j, reply, now) == T.Some(k)
  }

  /** The phase changes that the code can make. */
  predicate LegalPhase(p: Phase, q: Phase)
  {
    match p
    case Blank => q == Submitted
    case Pending => q == Submitted
    case Submitted => q == Running || q == Pending || q == Failed
    case Running => q == Completed || q == Pending || q == Failed
    case _ => false
  }

  /** What every version satisfies, whatever the backend replies. */
  predicate Sound(maxRetries: int, j: Job)
  {
    && 0 <= j.retryCount <= Retries(maxRetries)
    && (j.completionTime.Some? <==> Terminal(j.phase))
    && (j.phase == Blank || j.phase == Pending ==> j.jobId.None?)
    && (j.phase == Failed ==> j.retryCount == Retries(maxRetries))
    && (j.phase == Pending ==> j.retryCount > 0)
    && (j.phase == Blank ==> j.retryCount == 0)
    && (j.phase != Blank && !j.deleting ==> j.finalizer)
    && (j.phase != Blank ==> j.startTime.Some?)
    && (j.phase != Completed ==> j.throughput.None? && j.latencyMs.None? && j.bandwidthGbps.None?)
  }

  lemma EdgeSound(maxRetries: int, j: Job, k: Job)
    requires Sound(maxRetries, j) && Edge(maxRetries, j, k)
    ensures Sound(maxRetries, k)
  {
  }

  /** A status change is one legal edge of the phase machine, is made on an object that is not
      being deleted and that keeps its finalizer, and never leaves Completed or Failed. */
  lemma StatusChangeLegal(maxRetries: int, j: Job, k: Job)
    requires Sound(maxRetries, j) && Edge(maxRetries, j, k) && !SameStatus(j, k)
    ensures LegalPhase(j.phase, k.phase) && !Terminal(j.phase)
    ensures !j.deleting && !k.deleting && j.finalizer && k.finalizer
    ensures k.retryCount == j.retryCount + (if k.phase == Pending then 1 else 0)
  {
  }

  /** What a status write touches: the JobID is the one accepted, dropped on a retry and kept
      otherwise; the times are stamped on submission and at the end; metrics come with completion. */
  lemma WriteTouchesOnly(maxRetries: int, j: Job, reply: Reply, now: Time, k: Job)
    requires Reconciled(maxRetries, j, reply, now) == T.Some(k) && !SameStatus(j, k)
    ensures k.jobId == (if k.phase == Submitted then reply.job else if k.phase == Pending then T.None else j.jobId)
    ensures k.startTime == if k.phase == Submitted then T.Some(now) else j.startTime
    ensures k.completionTime == if Terminal(k.phase) then T.Some(now) else j.completionTime
    ensures k.retryCount == if k.phase == Pending then j.retryCount + 1 else j.retryCount
    ensures j.(throughput := k.throughput, latencyMs := k.latencyMs, bandwidthGbps := k.bandwidthGbps)
      == if k.phase == Completed then WithResult(j, reply.result) else j
  {
  }

  /** The versions of one object, oldest first; the index is the resourceVersion. */
  ghost predicate History(maxRetries: int, hist: seq<Job>)
  {
    && |hist| > 0
    && hist[0].phase == Blank && Sound(maxRetries, hist[0])
    && (forall v | 0 < v < |hist| :: EdgeAt(maxRetries, hist, v))
  }

  ghost predicate EdgeAt(maxRetries: int, hist: seq<Job>, v: nat)
    requires 0 < v < |hist|
  {
    Edge(maxRetries, hist[v - 1], hist[v])
  }

  function StatusWrites(hist: seq<Job>): nat
  {
    if |hist| <= 1 then 0
    else
      StatusWrites(hist[..|hist| - 1])
      + (if SameStatus(hist[|hist| - 2], hist[|hist| - 1]) then 0 else 1)
  }

  /** The status writes that may still come, against any backend. */
  function Ahead(maxRetries: int, j: Job): nat
    requires 0 <= j.retryCount <= Retries(maxRetries)
  {
    if Terminal(j.phase) then 0
    else
      3 * (Retries(maxRetries) - j.retryCount)
      + (if j.phase == Running then 1 else if j.phase == Submitted then 2 else 3)
  }

  lemma AheadFalls(maxRetries: int, j: Job, k: Job)
    requires Sound(maxRetries, j) && Edge(maxRetries, j, k)
    ensures Sound(maxRetries, k)
    ensures if SameStatus(j, k) then Ahead(maxRetries, k) == Ahead(maxRetries, j)
            else Ahead(maxRetries, k) < Ahead(maxRetries, j)
  {
  }

  lemma {:induction false} HistoryBound(maxRetries: int, hist: seq<Job>)
    requires History(maxRetries, hist)
    ensures Sound(maxRetries, hist[|hist| - 1])
    ensures StatusWrites(hist) + Ahead(maxRetries, hist[|hist| - 1]) <= 3 * (Retries(maxRetries) + 1)
    decreases |hist|
  {
    if |hist| > 1 {
      var prior := hist[..|hist| - 1];
      forall v | 0 < v < |prior| ensures EdgeAt(maxRetries, prior, v) { assert EdgeAt(maxRetries, hist, v); }
      HistoryBound(maxRetries, prior);
      assert EdgeAt(maxRetries, hist, |hist| - 1);
      AheadFalls(maxRetries, hist[|hist| - 2], hist[|hist| - 1]);
    }
  }

  lemma {:induction false} HistorySound(maxRetries: int, hist: seq<Job>, v: nat)
    requires History(maxRetries, hist) && v < |hist|
    ensures Sound(maxRetries, hist[v])
  {
    if v > 0 {
      HistorySound(maxRetries, hist, v - 1);
      assert EdgeAt(maxRetries, hist, v);
    }
  }

  /** Termination against any backend: at most 3(R+1) status writes in a whole life. */
  lemma WritesAgainstAnyBackend(maxRetries: int, hist: seq<Job>)
    requires History(maxRetries, hist)
    ensures StatusWrites(hist) <= 3 * (Retries(maxRetries) + 1)
  {
    HistoryBound(maxRetries, hist);
  }

  const NewJob := Job(true, false, Blank, T.None, 0, T.None, T.None, T.None, T.None, T.None)

  /** The reply with which the next write uses up exactly one of the writes ahead. */
  function Slowest(j: Job): Reply
  {
    match j.phase
    case Submitted => Polled("running", T.None)
    case Running => Polled("failed", T.None)
    case _ => Accepted(T.Some(0))
  }

  lemma {:induction false} SlowestRun(maxRetries: int, n: nat) returns (hist: seq<Job>)
    requires n <= 3 * (Retries(maxRetries) + 1)
    ensures History(maxRetries, hist) && StatusWrites(hist) == n && hist[0] == NewJob
    ensures forall v | 0 <= v < |hist| :: !hist[v].deleting
    ensures var j := hist[|hist| - 1];
      Sound(maxRetries, j) && Ahead(maxRetries, j) == 3 * (Retries(maxRetries) + 1) - n && !j.deleting && j.finalizer
  {
    if n == 0 {
      hist := [NewJob];
    } else {
      var prior := SlowestRun(maxRetries, n - 1);
      var j := prior[|prior| - 1];
      assert !Terminal(j.phase);
      var k := Reconciled(maxRetries, j, Slowest(j), 0).value;
      assert Reconciled(maxRetries, j, Slowest(j), 0) == T.Some(k);
      assert Edge(maxRetries, j, k) && !SameStatus(j, k);
      EdgeSound(maxRetries, j, k);
      hist := prior + [k];
      assert hist[..|hist| - 1] == prior;
      forall v | 0 < v < |hist| ensures EdgeAt(maxRetries, hist, v) {
        if v < |prior| { assert EdgeAt(maxRetries, prior, v); }
      }
    }
  }

  /** ... and the bound is reached: some backend makes the operator write 3(R+1) times. */
  lemma BoundIsReached(maxRetries: int)
    ensures exists hist :: History(maxRetries, hist) && StatusWrites(hist) == 3 * (Retries(maxRetries) + 1)
  {
    var hist := SlowestRun(maxRetries, 3 * (Retries(maxRetries) + 1));
  }

  /** Completed and Failed are absorbing, and nothing but metadata changes once the deletion
      timestamp is set. */
  lemma {:induction false} FrozenAfter(maxRetries: int, hist: seq<Job>, v: nat, w: nat)
    requires History(maxRetries, hist) && v <= w < |hist|
    requires Terminal(hist[v].phase) || hist[v].deleting
    ensures SameStatus(hist[v], hist[w])
    ensures hist[v].deleting ==> hist[w].deleting
    decreases w
  {
    if v < w {
      FrozenAfter(maxRetries, hist, v, w - 1);
      HistorySound(maxRetries, hist, w - 1);
      assert EdgeAt(maxRetries, hist, w);
    }
  }

  // ---- the missing case of handleSubmitted ----

  lemma RunningNeedsPoll(maxRetries: int, j: Job, reply: Reply, now: Time)
    requires j.phase != Running && !(reply.Polled? && reply.status == "running")
    ensures var w := Reconciled(maxRetries, j, reply, now); w.Some? ==> w.value.phase != Running
  {
  }

  /** A stored change in which no poll returned "running". */
  ghost predicate QuietEdge(maxRetries: int, j: Job, k: Job)
  {
    || k == j
    || k == j.(deleting := true)
    || exists reply, now :: QuietWrite(maxRetries, j, k, reply, now)
  }

  ghost predicate QuietEdgeAt(maxRetries: int, hist: seq<Job>, v: nat)
    requires 0 < v < |hist|
  {
    QuietEdge(maxRetries, hist[v - 1], hist[v])
  }

  predicate QuietWrite(maxRetries: int, j: Job, k: Job, reply: Reply, now: Time)
  {
    Reconciled(maxRetries, j, reply, now) == T.Some(k) && !(reply.Polled? && reply.status == "running")
  }

  /** A backend whose polls never say "running", such as one that says "completed" from the start,
      never gets an object to Running or Completed: `handleSubmitted` has no case for "completed". */
  lemma {:induction false} NoRunningNoCompleted(maxRetries: int, hist: seq<Job>, w: nat)
    requires |hist| > 0 && hist[0].phase == Blank && w < |hist|
    requires forall v | 0 < v < |hist| :: QuietEdgeAt(maxRetries, hist, v)
    ensures hist[w].phase != Running && hist[w].phase != Completed
  {
    if w > 0 {
      NoRunningNoCompleted(maxRetries, hist, w - 1);
      assert QuietEdgeAt(maxRetries, hist, w);
    }
  }
}
