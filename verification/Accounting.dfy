/** What statuses, attempt counters, messages and result rows say about each other. */
module Accounting {
  import opened Types
  import opened Tables
  import opened Tallies
  import opened Backend
  import opened Submission
  import opened Conservation

  /** The message carries the submission of a committed row. */
  ghost predicate MessageOk(db: Db, m: Message)
  {
    && m.bench in db.rows && db.rows[m.bench].modelId in db.models
    && m.spec == SpecOf(db, m.bench)
  }

  ghost predicate QueuedOk(limit: int, s: State, m: Message)
  {
    MessageOk(s.db, m) && m.attempt == s.log.dequeued[m.bench] < MaxAttempts(limit)
  }

  ghost predicate WorkerOk(limit: int, s: State, x: Worker)
  {
    && (Holding(x) ==>
          MessageOk(s.db, x.m) && x.m.attempt + 1 == s.log.dequeued[x.m.bench] <= MaxAttempts(limit))
    && (x.Executing? || x.Completing? ==> s.db.rows[x.m.bench].status == Running)
    && (x.Completing? ==> Run(x.m.bench, x.m.spec, Some(x.metrics)) in s.log.runs)
    && (x.Failing? ==> Tally(Letters, s.dlq, x.bench) > 0)
  }

  ghost predicate LetterOk(limit: int, s: State, d: DeadLetter)
  {
    && MessageOk(s.db, d.message)
    && d.message.attempt + 1 == MaxAttempts(limit) == s.log.dequeued[d.message.bench]
  }

  ghost predicate OwingOk(s: State, x: Handler)
  {
    x.pc.Owing? ==> s.log.dequeued[x.pc.bench] == 0 && MessageOk(s.db, Message(x.pc.bench, x.spec, 0))
  }

  ghost predicate StatusOk(s: State, b: Uuid)
    requires b in s.db.rows
  {
    var row := s.db.rows[b];
    && (row.status == Completed <==> b in s.db.results)
    && (row.status == Failed ==> Tally(Letters, s.dlq, b) > 0)
    && (row.status == Queued ==> row.attempts == 0)
    && (row.status == Running || row.status == Completed ==> row.attempts > 0)
  }

  function Attempts(s: State, b: Uuid): nat
  {
    if b in s.db.rows then s.db.rows[b].attempts else 0
  }

  ghost predicate CountOk(limit: int, s: State, b: Uuid)
  {
    && Attempts(s, b) + s.log.unmarked[b] + Tally(Unmarked, s.workers, b) == s.log.dequeued[b]
    && Tally(Engages, s.log.runs, b) + Tally(ToRun, s.workers, b) <= s.log.dequeued[b] <= MaxAttempts(limit)
    && (b !in s.db.rows ==> s.log.dequeued[b] == 0)
  }

  ghost predicate ResultOk(s: State, b: Uuid)
    requires b in s.db.results
  {
    && b in s.db.rows && s.db.rows[b].modelId in s.db.models
    && Run(b, SpecOf(s.db, b), Some(s.db.results[b].metrics)) in s.log.runs
    && s.db.results[b].attempt == s.log.dequeued[b]
  }

  ghost predicate Accounted(limit: int, s: State)
  {
    && (forall i | 0 <= i < |s.queue| :: QueuedOk(limit, s, s.queue[i]))
    && (forall w | 0 <= w < |s.workers| :: WorkerOk(limit, s, s.workers[w]))
    && (forall i | 0 <= i < |s.dlq| :: LetterOk(limit, s, s.dlq[i]))
    && (forall h | 0 <= h < |s.handlers| :: OwingOk(s, s.handlers[h]))
    && (forall b | b in s.db.rows :: StatusOk(s, b))
    && (forall b: Uuid :: CountOk(limit, s, b))
    && (forall b | b in s.db.results :: ResultOk(s, b))
  }

  /** The invariant of the backend. */
  ghost predicate Inv(limit: int, s: State)
  {
    SubmissionInv(s) && Conserved(s) && CreatedOnce(s) && Accounted(limit, s)
  }

  // ---- one step is about one benchmark ----

  /** Nothing that the predicates above read about benchmark `b` differs. */
  ghost predicate Quiet(s: State, t: State, b: Uuid)
  {
    && (b in s.db.rows <==> b in t.db.rows)
    && (b in s.db.rows ==> t.db.rows[b] == s.db.rows[b])
    && (b in s.db.results <==> b in t.db.results)
    && (b in s.db.results ==> t.db.results[b] == s.db.results[b])
    && t.log.dequeued[b] == s.log.dequeued[b] && t.log.unmarked[b] == s.log.unmarked[b]
    && Tally(Letters, t.dlq, b) == Tally(Letters, s.dlq, b)
    && Tally(Engages, t.log.runs, b) == Tally(Engages, s.log.runs, b)
    && Tally(Unmarked, t.workers, b) == Tally(Unmarked, s.workers, b)
    && Tally(ToRun, t.workers, b) == Tally(ToRun, s.workers, b)
  }

  /** Models and runs are only added. */
  ghost predicate Adds(s: State, t: State)
  {
    && (forall m | m in s.db.models :: m in t.db.models && t.db.models[m] == s.db.models[m])
    && s.log.runs <= t.log.runs
  }

  lemma QuietBenchmark(limit: int, s: State, t: State, b: Uuid)
    requires Quiet(s, t, b) && Adds(s, t)
    requires CountOk(limit, s, b)
    requires b in s.db.rows ==> StatusOk(s, b)
    requires b in s.db.results ==> ResultOk(s, b)
    ensures CountOk(limit, t, b)
    ensures b in t.db.rows ==> StatusOk(t, b)
    ensures b in t.db.results ==> ResultOk(t, b)
  {
  }

  lemma QuietWorker(limit: int, s: State, t: State, x: Worker)
    requires Adds(s, t) && WorkerOk(limit, s, x)
    requires Holding(x) ==> Quiet(s, t, x.m.bench)
    requires x.Failing? ==> Tally(Letters, t.dlq, x.bench) >= Tally(Letters, s.dlq, x.bench)
    ensures WorkerOk(limit, t, x)
  {
  }

  /** A step is accounted for when all that it changes is about benchmark `b0`, and what it leaves
      about `b0` is in order. */
  ghost predicate Focused(limit: int, s: State, t: State, b0: Uuid)
  {
    && Adds(s, t)
    && (forall b: Uuid | b != b0 :: Quiet(s, t, b))
    && Tally(Letters, t.dlq, b0) >= Tally(Letters, s.dlq, b0)
    && (forall i | 0 <= i < |t.queue| ::
          QueuedOk(limit, t, t.queue[i]) || (t.queue[i] in s.queue && !Names(t.queue[i], b0)))
    && (forall v | 0 <= v < |t.workers| ::
          WorkerOk(limit, t, t.workers[v]) || (t.workers[v] in s.workers && !Keeps(t.workers[v], b0)))
    && (forall i | 0 <= i < |t.dlq| ::
          LetterOk(limit, t, t.dlq[i]) || (t.dlq[i] in s.dlq && !Letters(t.dlq[i], b0)))
    && (forall h | 0 <= h < |t.handlers| ::
          OwingOk(t, t.handlers[h]) || (t.handlers[h] in s.handlers && !Owes(t.handlers[h], b0)))
    && CountOk(limit, t, b0)
    && (b0 in t.db.rows ==> StatusOk(t, b0))
    && (b0 in t.db.results ==> ResultOk(t, b0))
  }

  lemma FocusedAccounted(limit: int, s: State, t: State, b0: Uuid)
    requires Accounted(limit, s) && Focused(limit, s, t, b0)
    ensures Accounted(limit, t)
  {
    forall b: Uuid
      ensures CountOk(limit, t, b)
      ensures b in t.db.rows ==> StatusOk(t, b)
      ensures b in t.db.results ==> ResultOk(t, b)
    {
      if b != b0 { QuietBenchmark(limit, s, t, b); }
    }
    forall i | 0 <= i < |t.queue| ensures QueuedOk(limit, t, t.queue[i]) {
      assert t.queue[i] in s.queue ==> QueuedOk(limit, s, t.queue[i]);
      assert !Names(t.queue[i], b0) ==> Quiet(s, t, t.queue[i].bench);
    }
    forall v | 0 <= v < |t.workers| ensures WorkerOk(limit, t, t.workers[v]) {
      var x := t.workers[v];
      if !WorkerOk(limit, t, x) {
        assert WorkerOk(limit, s, x);
        assert Holding(x) ==> Quiet(s, t, x.m.bench);
        assert x.Failing? && x.bench != b0 ==> Quiet(s, t, x.bench);
        QuietWorker(limit, s, t, x);
      }
    }
    forall i | 0 <= i < |t.dlq| ensures LetterOk(limit, t, t.dlq[i]) {
      assert t.dlq[i] in s.dlq ==> LetterOk(limit, s, t.dlq[i]);
      assert !Letters(t.dlq[i], b0) ==> Quiet(s, t, t.dlq[i].message.bench);
    }
    forall h | 0 <= h < |t.handlers| ensures OwingOk(t, t.handlers[h]) {
      assert t.handlers[h] in s.handlers ==> OwingOk(s, t.handlers[h]);
      assert t.handlers[h].pc.Owing? && !Owes(t.handlers[h], b0) ==> Quiet(s, t, t.handlers[h].pc.bench);
    }
  }

  // ---- steps of a worker ----

  lemma WorkerCounts(s: State, w: nat, y: Worker, b: Uuid)
    requires w < |s.workers|
    ensures Tally(Unmarked, s.workers[w := y], b) + One(Unmarked(s.workers[w], b))
      == Tally(Unmarked, s.workers, b) + One(Unmarked(y, b))
    ensures Tally(ToRun, s.workers[w := y], b) + One(ToRun(s.workers[w], b))
      == Tally(ToRun, s.workers, b) + One(ToRun(y, b))
  {
    TallyUpdate(Unmarked, s.workers, w, y, b);
    TallyUpdate(ToRun, s.workers, w, y, b);
  }

  lemma DequeueQuiet(limit: int, s: State, w: nat, o: Outcome, b: Uuid)
    requires w < |s.workers| && s.workers[w].Idle? && s.queue != []
    requires b != s.queue[|s.queue| - 1].bench
    ensures Quiet(s, WorkerNext(limit, s, w, o), b)
  {
    WorkerCounts(s, w, Marking(s.queue[|s.queue| - 1]), b);
  }

  lemma DequeueFocused(limit: int, s: State, w: nat, o: Outcome)
    requires w < |s.workers| && s.workers[w].Idle? && s.queue != []
    requires var n := |s.queue| - 1; var b := s.queue[n].bench;
      && b in s.db.rows && b !in s.db.results
      && NoOther(s.(queue := s.queue[..n]), b, w)
      && QueuedOk(limit, s, s.queue[n]) && StatusOk(s, b) && CountOk(limit, s, b)
    ensures Focused(limit, s, WorkerNext(limit, s, w, o), s.queue[|s.queue| - 1].bench)
  {
    var t := WorkerNext(limit, s, w, o);
    var m := s.queue[|s.queue| - 1];
    forall b: Uuid | b != m.bench ensures Quiet(s, t, b) { DequeueQuiet(limit, s, w, o, b); }
    WorkerCounts(s, w, t.workers[w], m.bench);
    assert CountOk(limit, t, m.bench);
    assert WorkerOk(limit, t, t.workers[w]);
    forall v | 0 <= v < |t.workers|
      ensures WorkerOk(limit, t, t.workers[v]) || (t.workers[v] in s.workers && !Keeps(t.workers[v], m.bench))
    {
      if v != w { assert t.workers[v] == s.workers[v]; }
    }
    forall i | 0 <= i < |t.queue| ensures t.queue[i] in s.queue && !Names(t.queue[i], m.bench) {
      assert t.queue[i] == s.queue[i];
    }
  }

  /** All that is known about the one benchmark that a worker holds. */
  ghost predicate Ready(limit: int, s: State, w: nat)
  {
    && w < |s.workers| && Holding(s.workers[w])
    && var b := s.workers[w].m.bench;
    && b in s.db.rows && AtRest(s, b) == 0 && NoOther(s, b, w)
    && WorkerOk(limit, s, s.workers[w]) && StatusOk(s, b) && CountOk(limit, s, b)
  }

  /** The other workers are as they were, and not about `b`. */
  lemma OtherWorkers(limit: int, s: State, t: State, w: nat, b: Uuid)
    requires w < |s.workers| && w < |t.workers| && t.workers == s.workers[w := t.workers[w]]
    requires NoOther(s, b, w) && WorkerOk(limit, t, t.workers[w])
    ensures forall v | 0 <= v < |t.workers| ::
      WorkerOk(limit, t, t.workers[v]) || (t.workers[v] in s.workers && !Keeps(t.workers[v], b))
  {
    forall v | 0 <= v < |t.workers|
      ensures WorkerOk(limit, t, t.workers[v]) || (t.workers[v] in s.workers && !Keeps(t.workers[v], b))
    {
      if v != w { assert t.workers[v] == s.workers[v]; }
    }
  }

  lemma MarkFocused(limit: int, s: State, w: nat, o: Outcome)
    requires Ready(limit, s, w) && s.workers[w].Marking?
    ensures Focused(limit, s, WorkerNext(limit, s, w, o), s.workers[w].m.bench)
  {
    var t := WorkerNext(limit, s, w, o);
    var m := s.workers[w].m;
    forall b: Uuid | b != m.bench ensures Quiet(s, t, b) { WorkerCounts(s, w, t.workers[w], b); }
    WorkerCounts(s, w, t.workers[w], m.bench);
    assert WorkerOk(limit, t, t.workers[w]);
    OtherWorkers(limit, s, t, w, m.bench);
  }

  lemma ExecuteFocused(limit: int, s: State, w: nat, o: Outcome)
    requires Ready(limit, s, w) && s.workers[w].Executing?
    ensures Focused(limit, s, WorkerNext(limit, s, w, o), s.workers[w].m.bench)
  {
    var t := WorkerNext(limit, s, w, o);
    var m := s.workers[w].m;
    var run := t.log.runs[|s.log.runs|];
    forall b: Uuid | b != m.bench ensures Quiet(s, t, b) {
      WorkerCounts(s, w, t.workers[w], b);
      TallyAppend(Engages, s.log.runs, run, b);
    }
    WorkerCounts(s, w, t.workers[w], m.bench);
    TallyAppend(Engages, s.log.runs, run, m.bench);
    assert WorkerOk(limit, t, t.workers[w]);
    OtherWorkers(limit, s, t, w, m.bench);
  }

  lemma CompleteFocused(limit: int, s: State, w: nat, o: Outcome)
    requires Ready(limit, s, w) && s.workers[w].Completing?
    ensures Focused(limit, s, WorkerNext(limit, s, w, o), s.workers[w].m.bench)
  {
    var t := WorkerNext(limit, s, w, o);
    var m := s.workers[w].m;
    assert m.bench !in s.db.results;
    forall b: Uuid | b != m.bench ensures Quiet(s, t, b) { WorkerCounts(s, w, t.workers[w], b); }
    WorkerCounts(s, w, t.workers[w], m.bench);
    assert WorkerOk(limit, t, t.workers[w]);
    OtherWorkers(limit, s, t, w, m.bench);
  }

  lemma RetryFocused(limit: int, s: State, w: nat, o: Outcome)
    requires Ready(limit, s, w) && s.workers[w].Recovering? && s.workers[w].m.attempt + 1 < limit
    ensures Focused(limit, s, WorkerNext(limit, s, w, o), s.workers[w].m.bench)
  {
    var t := WorkerNext(limit, s, w, o);
    var m := s.workers[w].m;
    forall b: Uuid | b != m.bench ensures Quiet(s, t, b) { WorkerCounts(s, w, t.workers[w], b); }
    WorkerCounts(s, w, t.workers[w], m.bench);
    assert WorkerOk(limit, t, t.workers[w]);
    OtherWorkers(limit, s, t, w, m.bench);
    assert forall i | 1 <= i < |t.queue| :: t.queue[i] == s.queue[i - 1];
  }

  lemma LetterFocused(limit: int, s: State, w: nat, o: Outcome)
    requires Ready(limit, s, w) && s.workers[w].Recovering? && s.workers[w].m.attempt + 1 >= limit
    ensures Focused(limit, s, WorkerNext(limit, s, w, o), s.workers[w].m.bench)
  {
    var t := WorkerNext(limit, s, w, o);
    var m := s.workers[w].m;
    forall b: Uuid | b != m.bench ensures Quiet(s, t, b) {
      WorkerCounts(s, w, t.workers[w], b);
      TallyAppend(Letters, s.dlq, t.dlq[0], b);
    }
    WorkerCounts(s, w, t.workers[w], m.bench);
    TallyAppend(Letters, s.dlq, t.dlq[0], m.bench);
    assert WorkerOk(limit, t, t.workers[w]);
    OtherWorkers(limit, s, t, w, m.bench);
    assert forall i | 1 <= i < |t.dlq| :: t.dlq[i] == s.dlq[i - 1];
  }

  lemma RecoverFocused(limit: int, s: State, w: nat, o: Outcome)
    requires Ready(limit, s, w) && s.workers[w].Recovering?
    ensures Focused(limit, s, WorkerNext(limit, s, w, o), s.workers[w].m.bench)
  {
    if s.workers[w].m.attempt + 1 < limit { RetryFocused(limit, s, w, o); } else { LetterFocused(limit, s, w, o); }
  }

  lemma DieFocused(limit: int, s: State, w: nat)
    requires Ready(limit, s, w)
    ensures Focused(limit, s, Next(limit, s, KillWorker(w)), s.workers[w].m.bench)
  {
    var t := Next(limit, s, KillWorker(w));
    var m := s.workers[w].m;
    forall b: Uuid | b != m.bench ensures Quiet(s, t, b) { WorkerCounts(s, w, t.workers[w], b); }
    WorkerCounts(s, w, t.workers[w], m.bench);
    assert WorkerOk(limit, t, t.workers[w]);
    OtherWorkers(limit, s, t, w, m.bench);
  }

  /** A dead-lettered benchmark is with no worker and has no result. */
  lemma LetteredAlone(s: State, b: Uuid)
    requires Conserved(s) && Tally(Letters, s.dlq, b) > 0
    ensures b in s.db.rows && b !in s.db.results
    ensures forall v | 0 <= v < |s.workers| :: !Keeps(s.workers[v], b)
  {
    assert Places(s, b) == One(b in s.db.rows);
    ZeroTally(Keeps, s.workers, b);
  }

  /** `mark_failed` changes a status that no message, letter or waiting handler reads. */
  lemma FailFocused(limit: int, s: State, w: nat, o: Outcome)
    requires w < |s.workers| && s.workers[w].Failing? && o.Yields? && !s.workers[w].broken
    requires var b := s.workers[w].bench;
      && b in s.db.rows && b !in s.db.results && Tally(Letters, s.dlq, b) > 0
      && CountOk(limit, s, b) && StatusOk(s, b)
      && (forall v | 0 <= v < |s.workers| :: !Keeps(s.workers[v], b))
    requires forall i | 0 <= i < |s.queue| :: QueuedOk(limit, s, s.queue[i])
    requires forall i | 0 <= i < |s.dlq| :: LetterOk(limit, s, s.dlq[i])
    requires forall h | 0 <= h < |s.handlers| :: OwingOk(s, s.handlers[h])
    ensures Focused(limit, s, WorkerNext(limit, s, w, o), s.workers[w].bench)
  {
    var t := WorkerNext(limit, s, w, o);
    var b0 := s.workers[w].bench;
    forall b: Uuid ensures b == b0 || Quiet(s, t, b) { WorkerCounts(s, w, Idle, b); }
    WorkerCounts(s, w, Idle, b0);
    forall i | 0 <= i < |t.queue| ensures QueuedOk(limit, t, t.queue[i]) { assert QueuedOk(limit, s, s.queue[i]); }
    forall i | 0 <= i < |t.dlq| ensures LetterOk(limit, t, t.dlq[i]) { assert LetterOk(limit, s, s.dlq[i]); }
    forall h | 0 <= h < |t.handlers| ensures OwingOk(t, t.handlers[h]) { assert OwingOk(s, s.handlers[h]); }
    forall v | 0 <= v < |t.workers|
      ensures WorkerOk(limit, t, t.workers[v]) || (t.workers[v] in s.workers && !Keeps(t.workers[v], b0))
    {
      if v != w { assert t.workers[v] == s.workers[v]; }
    }
  }

  lemma FailAccounted(limit: int, s: State, w: nat, o: Outcome)
    requires Accounted(limit, s) && Conserved(s)
    requires w < |s.workers| && s.workers[w].Failing? && o.Yields? && !s.workers[w].broken
    ensures Accounted(limit, WorkerNext(limit, s, w, o))
  {
    var b := s.workers[w].bench;
    assert WorkerOk(limit, s, s.workers[w]);
    LetteredAlone(s, b);
    assert CountOk(limit, s, b) && StatusOk(s, b);
    FailFocused(limit, s, w, o);
    FocusedAccounted(limit, s, WorkerNext(limit, s, w, o), b);
  }

  /** A worker stops without a message in hand, or starts. */
  lemma BareWorker(limit: int, s: State, t: State)
    requires Accounted(limit, s)
    requires t == s.(workers := t.workers)
    requires forall b: Uuid :: Tally(Unmarked, t.workers, b) == Tally(Unmarked, s.workers, b)
    requires forall b: Uuid :: Tally(ToRun, t.workers, b) == Tally(ToRun, s.workers, b)
    requires forall v | 0 <= v < |t.workers| :: t.workers[v] in s.workers || t.workers[v].Idle? || t.workers[v].Dead?
    ensures Accounted(limit, t)
  {
    forall i | 0 <= i < |t.queue| ensures QueuedOk(limit, t, t.queue[i]) { assert QueuedOk(limit, s, s.queue[i]); }
    forall i | 0 <= i < |t.dlq| ensures LetterOk(limit, t, t.dlq[i]) { assert LetterOk(limit, s, s.dlq[i]); }
    forall h | 0 <= h < |t.handlers| ensures OwingOk(t, t.handlers[h]) { assert OwingOk(s, s.handlers[h]); }
    forall v | 0 <= v < |t.workers| ensures WorkerOk(limit, t, t.workers[v]) {
      if t.workers[v] in s.workers { assert WorkerOk(limit, s, t.workers[v]); }
    }
    forall b: Uuid
      ensures CountOk(limit, t, b)
      ensures b in t.db.rows ==> StatusOk(t, b)
      ensures b in t.db.results ==> ResultOk(t, b)
    {
      assert CountOk(limit, s, b) && Quiet(s, t, b);
      QuietBenchmark(limit, s, t, b);
    }
  }

  lemma HeldReady(limit: int, s: State, w: nat)
    requires Inv(limit, s) && w < |s.workers| && Holding(s.workers[w])
    ensures Ready(limit, s, w)
  {
    Alone(s, w);
    assert WorkerOk(limit, s, s.workers[w]) && StatusOk(s, s.workers[w].m.bench);
    assert CountOk(limit, s, s.workers[w].m.bench);
  }

  lemma HeldFocused(limit: int, s: State, w: nat, o: Outcome)
    requires Ready(limit, s, w)
    ensures Focused(limit, s, WorkerNext(limit, s, w, o), s.workers[w].m.bench)
  {
    match s.workers[w]
    case Marking(m) => MarkFocused(limit, s, w, o);
    case Executing(m) => ExecuteFocused(limit, s, w, o);
    case Completing(m, metrics) => CompleteFocused(limit, s, w, o);
    case Recovering(m, _) => RecoverFocused(limit, s, w, o);
  }

  lemma DequeueAccounted(limit: int, s: State, w: nat, o: Outcome)
    requires Inv(limit, s) && w < |s.workers| && s.workers[w].Idle? && s.queue != []
    ensures Accounted(limit, WorkerNext(limit, s, w, o))
  {
    var m := s.queue[|s.queue| - 1];
    AloneInQueue(s, w);
    assert QueuedOk(limit, s, m) && StatusOk(s, m.bench) && CountOk(limit, s, m.bench);
    DequeueFocused(limit, s, w, o);
    FocusedAccounted(limit, s, WorkerNext(limit, s, w, o), m.bench);
  }

  lemma StopAccounted(limit: int, s: State, w: nat)
    requires Accounted(limit, s) && w < |s.workers| && !Holding(s.workers[w])
    ensures Accounted(limit, SetWorker(s, w, Dead))
  {
    var t := SetWorker(s, w, Dead);
    forall b: Uuid
      ensures Tally(Unmarked, t.workers, b) == Tally(Unmarked, s.workers, b)
      ensures Tally(ToRun, t.workers, b) == Tally(ToRun, s.workers, b)
    {
      WorkerCounts(s, w, Dead, b);
    }
    BareWorker(limit, s, t);
  }

  lemma WorkerAccounted(limit: int, s: State, w: nat, o: Outcome)
    requires Inv(limit, s) && w < |s.workers|
    ensures Accounted(limit, WorkerNext(limit, s, w, o))
  {
    var x := s.workers[w];
    if Holding(x) {
      HeldReady(limit, s, w);
      HeldFocused(limit, s, w, o);
      FocusedAccounted(limit, s, WorkerNext(limit, s, w, o), x.m.bench);
    } else if x.Idle? && s.queue != [] {
      DequeueAccounted(limit, s, w, o);
    } else if x.Failing? && o.Yields? && !x.broken {
      FailAccounted(limit, s, w, o);
    } else if x.Failing? {
      StopAccounted(limit, s, w);
    }
  }

  lemma KillAccounted(limit: int, s: State, w: nat)
    requires Inv(limit, s) && w < |s.workers|
    ensures Accounted(limit, Next(limit, s, KillWorker(w)))
  {
    if Holding(s.workers[w]) {
      HeldReady(limit, s, w);
      DieFocused(limit, s, w);
      FocusedAccounted(limit, s, Next(limit, s, KillWorker(w)), s.workers[w].m.bench);
    } else {
      StopAccounted(limit, s, w);
      assert Next(limit, s, KillWorker(w)) == SetWorker(s, w, Dead);
    }
  }

  lemma HireAccounted(limit: int, s: State)
    requires Accounted(limit, s)
    ensures Accounted(limit, Next(limit, s, Hire))
  {
    var t := Next(limit, s, Hire);
    forall b: Uuid
      ensures Tally(Unmarked, t.workers, b) == Tally(Unmarked, s.workers, b)
      ensures Tally(ToRun, t.workers, b) == Tally(ToRun, s.workers, b)
    {
      TallyAppend(Unmarked, s.workers, Idle, b);
      TallyAppend(ToRun, s.workers, Idle, b);
    }
    BareWorker(limit, s, t);
  }

  // ---- steps of a handler ----

  /** A handler moves: at most the new row `b0` and a sound message are added. */
  ghost predicate HandlerMove(limit: int, s: State, t: State, b0: Uuid)
  {
    && t.workers == s.workers && t.dlq == s.dlq && Adds(s, t)
    && t.log.dequeued == s.log.dequeued && t.log.unmarked == s.log.unmarked && t.log.runs == s.log.runs
    && t.db.results == s.db.results
    && (forall b | b != b0 :: (b in t.db.rows <==> b in s.db.rows))
    && (forall b | b in s.db.rows :: b in t.db.rows && t.db.rows[b] == s.db.rows[b])
    && (b0 in t.db.rows ==> b0 in s.db.rows || t.db.rows[b0].(status := Queued, attempts := 0) == t.db.rows[b0])
    && (forall i | 0 <= i < |t.queue| :: t.queue[i] in s.queue || QueuedOk(limit, t, t.queue[i]))
    && (forall h | 0 <= h < |t.handlers| :: t.handlers[h] in s.handlers || OwingOk(t, t.handlers[h]))
  }

  lemma HandlerFocused(limit: int, s: State, t: State, b0: Uuid)
    requires Accounted(limit, s) && HandlerMove(limit, s, t, b0)
    requires Tally(Letters, s.dlq, b0) > 0 ==> b0 in s.db.rows
    requires b0 in s.db.results ==> b0 in s.db.rows
    ensures Accounted(limit, t)
  {
    forall i | 0 <= i < |t.queue| ensures QueuedOk(limit, t, t.queue[i]) {
      assert t.queue[i] in s.queue ==> QueuedOk(limit, s, t.queue[i]);
    }
    forall i | 0 <= i < |t.dlq| ensures LetterOk(limit, t, t.dlq[i]) { assert LetterOk(limit, s, s.dlq[i]); }
    forall h | 0 <= h < |t.handlers| ensures OwingOk(t, t.handlers[h]) {
      assert t.handlers[h] in s.handlers ==> OwingOk(s, t.handlers[h]);
    }
    forall v | 0 <= v < |t.workers| ensures WorkerOk(limit, t, t.workers[v]) {
      assert WorkerOk(limit, s, s.workers[v]);
    }
    forall b: Uuid
      ensures CountOk(limit, t, b)
      ensures b in t.db.rows ==> StatusOk(t, b)
      ensures b in t.db.results ==> ResultOk(t, b)
    {
      assert CountOk(limit, s, b);
      assert b in s.db.rows ==> StatusOk(s, b);
      assert b in s.db.results ==> ResultOk(s, b);
    }
  }

  /** An id that no row has is nowhere. */
  lemma Unknown(s: State, b: Uuid)
    requires Conserved(s) && b !in s.db.rows
    ensures Tally(Letters, s.dlq, b) == 0 && b !in s.db.results
  {
    assert Places(s, b) == One(b in s.db.rows);
  }

  lemma CommitMove(limit: int, s: State, h: nat, pick: Uuid)
    requires h < |s.handlers| && Inserts(s, h) && HandlerOk(s.db, s.handlers[h])
    requires s.db.nextUuid !in s.db.rows && s.log.dequeued[s.db.nextUuid] == 0
    ensures HandlerMove(limit, s, HandlerNext(s, h, pick), s.db.nextUuid)
  {
    var t := HandlerNext(s, h, pick);
    assert OwingOk(t, t.handlers[h]);
    assert forall i | 0 <= i < |t.handlers| && i != h :: t.handlers[i] == s.handlers[i];
  }

  lemma PushMove(limit: int, s: State, h: nat, pick: Uuid, b0: Uuid)
    requires h < |s.handlers| && s.handlers[h].pc.Owing? && OwingOk(s, s.handlers[h])
    requires b0 !in s.db.rows
    ensures HandlerMove(limit, s, HandlerNext(s, h, pick), b0)
  {
    var t := HandlerNext(s, h, pick);
    assert QueuedOk(limit, t, t.queue[0]);
    assert forall i | 1 <= i < |t.queue| :: t.queue[i] == s.queue[i - 1];
    assert forall i | 0 <= i < |t.handlers| && i != h :: t.handlers[i] == s.handlers[i];
  }

  /** The steps of a handler that store and push nothing. */
  ghost predicate Plain(s: State, t: State)
  {
    && t == s.(handlers := t.handlers, log := s.log.(lost := t.log.lost), db := s.db.(nextUuid := t.db.nextUuid))
    && (forall h | 0 <= h < |t.handlers| :: t.handlers[h] in s.handlers || !t.handlers[h].pc.Owing?)
  }

  lemma PlainMove(limit: int, s: State, t: State, b0: Uuid)
    requires Plain(s, t) && b0 !in s.db.rows
    ensures HandlerMove(limit, s, t, b0)
  {
  }

  lemma PlainAccounted(limit: int, s: State, t: State)
    requires Inv(limit, s) && Plain(s, t)
    ensures Accounted(limit, t)
  {
    FreshUuid(s.db);
    Unknown(s, s.db.nextUuid);
    PlainMove(limit, s, t, s.db.nextUuid);
    HandlerFocused(limit, s, t, s.db.nextUuid);
  }

  lemma HandlerPlain(s: State, h: nat, pick: Uuid)
    requires h < |s.handlers| && !s.handlers[h].pc.Owing? && !Inserts(s, h)
    ensures Plain(s, HandlerNext(s, h, pick))
  {
    var t := HandlerNext(s, h, pick);
    assert forall i | 0 <= i < |t.handlers| && i != h :: t.handlers[i] == s.handlers[i];
  }

  lemma AdvanceAccounted(limit: int, s: State, h: nat, pick: Uuid)
    requires Inv(limit, s) && h < |s.handlers|
    ensures Accounted(limit, HandlerNext(s, h, pick))
  {
    var x := s.handlers[h];
    var b := s.db.nextUuid;
    FreshUuid(s.db);
    Unknown(s, b);
    assert HandlerOk(s.db, x) && OwingOk(s, x) && CountOk(limit, s, b);
    if Inserts(s, h) {
      CommitMove(limit, s, h, pick);
      HandlerFocused(limit, s, HandlerNext(s, h, pick), b);
    } else if x.pc.Owing? {
      PushMove(limit, s, h, pick, b);
      HandlerFocused(limit, s, HandlerNext(s, h, pick), b);
    } else {
      HandlerPlain(s, h, pick);
      PlainAccounted(limit, s, HandlerNext(s, h, pick));
    }
  }

  lemma QuitPlain(limit: int, s: State, a: Action)
    requires a.Arrive? || a.Abort? || a.KillHandler?
    ensures Plain(s, Next(limit, s, a))
  {
    var t := Next(limit, s, a);
    if !a.Arrive? && t != s { assert forall i | 0 <= i < |t.handlers| && i != a.h :: t.handlers[i] == s.handlers[i]; }
  }

  lemma QuitAccounted(limit: int, s: State, a: Action)
    requires Inv(limit, s) && (a.Arrive? || a.Abort? || a.KillHandler?)
    ensures Accounted(limit, Next(limit, s, a))
  {
    QuitPlain(limit, s, a);
    PlainAccounted(limit, s, Next(limit, s, a));
  }

  lemma AccountingStep(limit: int, s: State, a: Action)
    requires Inv(limit, s)
    ensures Accounted(limit, Next(limit, s, a))
  {
    if a.Arrive? || a.Abort? || a.KillHandler? {
      QuitAccounted(limit, s, a);
    } else if Next(limit, s, a) != s {
      match a
      case Advance(h, pick) => AdvanceAccounted(limit, s, h, pick);
      case Work(w, o) => WorkerAccounted(limit, s, w, o);
      case KillWorker(w) => KillAccounted(limit, s, w);
      case Hire => HireAccounted(limit, s);
    }
  }

  /** One step keeps the invariant ... */
  lemma InvStep(limit: int, s: State, a: Action)
    requires Inv(limit, s)
    ensures Inv(limit, Next(limit, s, a))
  {
    SubmissionStep(limit, s, a);
    ConservationStep(limit, s, a);
    AccountingStep(limit, s, a);
  }

  /** ... so it holds after every list of actions. */
  lemma {:induction false} InvAlways(limit: int, acts: seq<Action>)
    ensures Inv(limit, Exec(limit, Start, acts))
    decreases |acts|
  {
    if acts == [] {
      assert forall b: Uuid :: Places(Start, b) == 0;
      assert forall b: Uuid :: CreatedOnceAt(Start, b);
      assert forall b: Uuid :: CountOk(limit, Start, b);
    } else {
      InvAlways(limit, acts[..|acts| - 1]);
      InvStep(limit, Exec(limit, Start, acts[..|acts| - 1]), acts[|acts| - 1]);
    }
  }

  lemma InvReachable(limit: int, s: State)
    requires Reachable(limit, s)
    ensures Inv(limit, s)
  {
    var acts :| s == Exec(limit, Start, acts);
    InvAlways(limit, acts);
  }
}
