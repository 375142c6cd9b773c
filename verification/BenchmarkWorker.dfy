/** The worker process: one job after the other, over the service and the queue. */
module BenchmarkWorker {
  import opened Types
  import opened Tables
  import opened Tallies
  import opened QueueService
  import opened BenchmarkService
  import opened Worker
  import B = Backend

  class WorkerProcess {
    const limit: int                        // worker_max_retries
    const database: Database
    const queue: RedisQueueService

    function View(): Shop
      reads this, database, queue
    {
      Shop(database.Committed(), queue.queue, queue.dlq)
    }

    constructor (limit: int, database: Database, queue: RedisQueueService)
      ensures this.limit == limit && this.database == database && this.queue == queue
    {
      this.limit, this.database, this.queue := limit, database, queue;
    }

    /** The body of the try: not `ok` when an exception was raised, and then `broken` when the session
        must be rolled back before it can be used again. */
    method TryJob(job: Payload, t: Trial) returns (ok: bool, broken: bool)
      modifies database`rows, database`results
      ensures ok <==> !Raises(old(database.Committed()), job.Dump(), t)
      ensures !ok ==> broken == Broken(old(database.Committed()), job.Dump(), t)
      ensures ok <==>
        && (job.bench in old(database.rows) ==> t.marks && t.stores && job.bench !in old(database.results))
        && t.engine.Yields?
      ensures !ok ==>
        broken == (if job.bench in old(database.rows) && !t.marks then t.breaks
                   else t.engine.Yields? || t.engine.broken)
      ensures database.Committed() ==
        if ok then
          Complete(Tables.MarkRunning(old(database.Committed()), job.bench), job.bench,
                   ResultRow(t.engine.metrics, job.attempt + 1))
        else if t.marks then Tables.MarkRunning(old(database.Committed()), job.bench)
        else old(database.Committed())
    {
      var raised := database.MarkRunning(job.bench, t.marks);
      if raised { return false, t.breaks; }
      if t.engine.Raises? { return false, t.engine.broken; }
      raised := database.CompleteBenchmark(job.bench, ResultRow(t.engine.metrics, job.attempt + 1), t.stores);
      return !raised, raised;
    }

    /** `_process_job`; false when the exception of `mark_failed` ends the process. */
    method ProcessJob(job: Payload, t: Trial) returns (alive: bool)
      requires job.reason == None
      modifies database`rows, database`results, queue, job
      ensures View() == Process(limit, old(View()), old(job.Dump()), t)
      ensures alive <==> !Dies(limit, old(database.Committed()), old(job.Dump()), t)
      ensures
        var known := job.bench in old(database.rows);
        var ok := (known ==> t.marks && t.stores && job.bench !in old(database.results)) && t.engine.Yields?;
        var broken := if known && !t.marks then t.breaks else t.engine.Yields? || t.engine.broken;
        var m := old(job.Dump());
        && (ok ==> alive && queue.queue == old(queue.queue) && queue.dlq == old(queue.dlq))
        && (!ok && m.attempt + 1 < limit ==>
              && alive && queue.dlq == old(queue.dlq)
              && queue.queue == [Message(m.bench, m.spec, m.attempt + 1)] + old(queue.queue))
        && (!ok && m.attempt + 1 >= limit ==>
              && (alive <==> !broken && (known ==> t.fails))
              && queue.queue == old(queue.queue) && queue.dlq == [DeadLetter(m, t.reason)] + old(queue.dlq)
              && (known ==> job.bench in database.rows)
              && (known && !broken && t.fails ==> database.rows[job.bench].status == Failed))
    {
      var attempt := job.attempt;
      var ok, broken := TryJob(job, t);
      if ok { return true; }
      if attempt + 1 < limit {
        queue.EnqueueRetry(job);
        return true;
      }
      queue.MoveToDlq(job, t.reason);
      if broken { return false; }
      var raised := database.MarkFailed(job.bench, t.fails);
      return !raised;
    }

    /** One round of the loop of `run_forever` that finds a message. */
    method ServeOldest(t: Trial) returns (alive: bool)
      requires queue.queue != []
      modifies database`rows, database`results, queue
      ensures View() == Serve(limit, old(View()), t)
      ensures alive <==> !Dies(limit, old(database.Committed()), old(queue.queue)[|old(queue.queue)| - 1], t)
    {
      var job := queue.Dequeue();
      assert queue.queue == old(queue.queue)[..|old(queue.queue)| - 1];
      alive := ProcessJob(job, t);
    }

    /** `run_forever` with no arrivals, until the queue is empty or an exception of `mark_failed` ends
        the process; `trace` observes the states. */
    method RunDown(script: nat -> Trial) returns (n: nat, alive: bool, ghost trace: seq<Shop>)
      modifies database`rows, database`results, queue
      ensures alive ==> queue.queue == []
      ensures |trace| == n + 1 && trace[0] == old(View()) && trace[n] == View() && Services(limit, trace, script)
      ensures Deaths(limit, trace, script, alive)
    {
      n, alive, trace := 0, true, [View()];
      while alive && queue.queue != []
        invariant |trace| == n + 1 && trace[0] == old(View()) && trace[n] == View()
        invariant Services(limit, trace, script) && Deaths(limit, trace, script, alive)
        decreases Fuel(limit, queue.queue)
      {
        ServeFuel(limit, View(), script(n));
        alive := ServeOldest(script(n));
        ghost var longer := trace + [View()];
        forall i | 0 < i < |longer| ensures Service(limit, longer, script, i) {
          if i <= n { assert Service(limit, trace, script, i); }
        }
        DeathsGrow(limit, trace, script, View(), alive);
        n, trace := n + 1, longer;
      }
    }

    /** It has made as many processings as there were chances, less those that successes spared and
        those still queued when it died; each job of the queue is in one place; and the process ends
        before the queue is empty exactly by the first `mark_failed` that raises. */
    method Drain(script: nat -> Trial) returns (n: nat, alive: bool)
      modifies database`rows, database`results, queue
      ensures View() == Served(limit, old(View()), n, script)
      ensures if alive then queue.queue == [] else n > 0
      ensures forall i: nat | i < n :: DiesAt(limit, old(View()), i, script) <==> !alive && i == n - 1
      ensures n + SparedBy(limit, old(View()), n, script) + Fuel(limit, queue.queue) == Fuel(limit, old(queue.queue))
      ensures n + Fuel(limit, queue.queue) == Fuel(limit, old(queue.queue))
        <==> AllUseUp(limit, old(View()), n, script)
      ensures Tidy(old(View())) ==>
        forall b: Uuid | Tally(B.Names, old(queue.queue), b) > 0 ::
          Tally(B.Names, queue.queue, b) + Tally(B.Letters, View().dlq, b) + One(b in View().db.results) == 1
    {
      ghost var start := View();
      ghost var trace: seq<Shop>;
      n, alive, trace := RunDown(script);
      ServicesServed(limit, trace, script, n);
      TraceDeaths(limit, trace, script, alive);
      DrainAccount(limit, start, n, script);
    }
  }

  /** Only the last service can have ended the process, and did so if it is not alive. */
  ghost predicate Deaths(limit: int, trace: seq<Shop>, script: nat -> Trial, alive: bool)
  {
    && |trace| > 0 && (!alive ==> |trace| > 1)
    && forall i | 0 <= i < |trace| - 1 :: DeathAt(limit, trace, script, i) <==> !alive && i == |trace| - 2
  }

  predicate DeathAt(limit: int, trace: seq<Shop>, script: nat -> Trial, i: nat)
    requires i < |trace|
  {
    trace[i].queue != [] && Dies(limit, trace[i].db, trace[i].queue[|trace[i].queue| - 1], script(i))
  }

  lemma DeathsGrow(limit: int, trace: seq<Shop>, script: nat -> Trial, t: Shop, alive: bool)
    requires Deaths(limit, trace, script, true)
    requires DeathAt(limit, trace, script, |trace| - 1) <==> !alive
    ensures Deaths(limit, trace + [t], script, alive)
  {
    var longer := trace + [t];
    forall i | 0 <= i < |trace| ensures DeathAt(limit, longer, script, i) <==> !alive && i == |trace| - 1 {
      assert longer[i] == trace[i];
      assert DeathAt(limit, longer, script, i) <==> DeathAt(limit, trace, script, i);
    }
  }

  lemma TraceDeaths(limit: int, trace: seq<Shop>, script: nat -> Trial, alive: bool)
    requires Services(limit, trace, script) && Deaths(limit, trace, script, alive)
    ensures forall i: nat | i < |trace| - 1 :: DiesAt(limit, trace[0], i, script) <==> !alive && i == |trace| - 2
  {
    forall i: nat | i < |trace| - 1 ensures DiesAt(limit, trace[0], i, script) <==> DeathAt(limit, trace, script, i) {
      ServicesServed(limit, trace, script, i);
    }
  }

  lemma DrainAccount(limit: int, s: Shop, n: nat, script: nat -> Trial)
    requires n > 0 ==> Served(limit, s, n - 1, script).queue != []
    ensures var q := Served(limit, s, n, script).queue;
      && n + SparedBy(limit, s, n, script) + Fuel(limit, q) == Fuel(limit, s.queue)
      && (n + Fuel(limit, q) == Fuel(limit, s.queue) <==> AllUseUp(limit, s, n, script))
    ensures Tidy(s) ==>
      forall b: Uuid | Tally(B.Names, s.queue, b) > 0 ::
        var u := Served(limit, s, n, script);
        Tally(B.Names, u.queue, b) + Tally(B.Letters, u.dlq, b) + One(b in u.db.results) == 1
  {
    DrainCount(limit, s, n, script);
    AllProcessings(limit, s, n, script);
    NothingSpared(limit, s, n, script);
    if Tidy(s) {
      forall b: Uuid | Tally(B.Names, s.queue, b) > 0
        ensures var u := Served(limit, s, n, script);
          Tally(B.Names, u.queue, b) + Tally(B.Letters, u.dlq, b) + One(b in u.db.results) == 1
      {
        DrainedOnce(limit, s, n, script, b);
      }
    }
  }
}
