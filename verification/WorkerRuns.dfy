/** What one worker does by itself is a run of the interleaved protocol, so everything proved about
    the protocol holds of the worker loop. */
module WorkerRuns {
  import opened Types
  import opened Tables
  import opened Worker
  import B = Backend

  function ShopOf(s: B.State): Shop
  {
    Shop(s.db, s.queue, s.dlq)
  }

  lemma ExecMore(limit: int, s: B.State, acts: seq<B.Action>, a: B.Action)
    ensures B.Exec(limit, s, acts + [a]) == B.Next(limit, B.Exec(limit, s, acts), a)
  {
    assert (acts + [a])[..|acts|] == acts;
  }

  lemma {:induction false} ExecConcat(limit: int, s: B.State, a: seq<B.Action>, b: seq<B.Action>)
    ensures B.Exec(limit, s, a + b) == B.Exec(limit, B.Exec(limit, s, a), b)
    decreases |b|
  {
    if b == [] {
      assert a + b == a;
    } else {
      assert (a + b)[..|a + b| - 1] == a + b[..|b| - 1];
      ExecConcat(limit, s, a, b[..|b| - 1]);
    }
  }

  predicate NoArrivals(acts: seq<B.Action>)
  {
    forall i | 0 <= i < |acts| :: !acts[i].Arrive?
  }

  lemma ExecOne(limit: int, s: B.State, a: B.Action)
    ensures B.Exec(limit, s, [a]) == B.Next(limit, s, a)
  {
    ExecMore(limit, s, [], a);
    assert [] + [a] == [a];
  }

  lemma ExecThen(limit: int, s: B.State, a: B.Action, acts: seq<B.Action>)
    ensures B.Exec(limit, s, [a] + acts) == B.Exec(limit, B.Next(limit, s, a), acts)
  {
    ExecOne(limit, s, a);
    ExecConcat(limit, s, [a], acts);
  }

  const Good := B.Yields(Metrics(0.0, 0.0, 0.0))
  const Bad := B.Raises("", false)

  function Outcome(good: bool): B.Outcome { if good then Good else Bad }

  /** Only worker `w` and the tables differ. */
  predicate SameLists(s: B.State, t: B.State, w: nat)
    requires w < |s.workers|
  {
    && t.queue == s.queue && t.dlq == s.dlq && t.handlers == s.handlers
    && |t.workers| == |s.workers| && t.workers == s.workers[w := t.workers[w]]
  }

  lemma MarkStep(limit: int, s: B.State, w: nat, o: B.Outcome)
    requires w < |s.workers| && s.workers[w].Marking? && s.workers[w].m.bench in s.db.rows
    ensures var t := B.Next(limit, s, B.Work(w, o)); var m := s.workers[w].m;
      && SameLists(s, t, w)
      && t.workers[w] == (if o.Yields? then B.Executing(m) else B.Recovering(m, o.broken))
      && t.db == if o.Yields? then MarkRunning(s.db, m.bench) else s.db
  {
  }

  lemma EngineStep(limit: int, s: B.State, w: nat, o: B.Outcome)
    requires w < |s.workers| && s.workers[w].Executing?
    ensures var t := B.Next(limit, s, B.Work(w, o)); var m := s.workers[w].m;
      && SameLists(s, t, w) && t.db == s.db
      && t.workers[w] == if o.Yields? then B.Completing(m, o.metrics) else B.Recovering(m, o.broken)
  {
  }

  lemma StoreStep(limit: int, s: B.State, w: nat, good: bool)
    requires w < |s.workers| && s.workers[w].Completing? && s.workers[w].m.bench in s.db.rows
    ensures var t := B.Next(limit, s, B.Work(w, Outcome(good))); var m := s.workers[w].m;
      && SameLists(s, t, w)
      && if good && m.bench !in s.db.results then
           t.workers[w] == B.Idle && t.db == Complete(s.db, m.bench, ResultRow(s.workers[w].metrics, m.attempt + 1))
         else t.workers[w] == B.Recovering(m, true) && t.db == s.db
  {
  }

  /** Worker and tables after a try: in the except branch, or done with the result stored. */
  predicate TryEnds(db: Db, m: Message, t: Trial, raised: bool, broken: bool, x: B.Worker, now: Db)
  {
    if raised then x == B.Recovering(m, broken) && now == db
    else t.engine.Yields? && x == B.Idle && now == Complete(db, m.bench, ResultRow(t.engine.metrics, m.attempt + 1))
  }

  /** From the engine call to the end of the try, or to the entry of the except branch. */
  lemma EngineIsARun(limit: int, s: B.State, w: nat, t: Trial) returns (acts: seq<B.Action>, u: B.State)
    requires w < |s.workers| && s.workers[w].Executing? && s.workers[w].m.bench in s.db.rows
    ensures NoArrivals(acts) && u == B.Exec(limit, s, acts) && SameLists(s, u, w)
    ensures var m := s.workers[w].m;
      TryEnds(s.db, m, t, t.engine.Raises? || !t.stores || m.bench in s.db.results,
              t.engine.Yields? || t.engine.broken, u.workers[w], u.db)
  {
    var call, store := B.Work(w, t.engine), B.Work(w, Outcome(t.stores));
    EngineStep(limit, s, w, t.engine);
    u := B.Next(limit, s, call);
    acts := [call];
    ExecOne(limit, s, call);
    if t.engine.Yields? {
      StoreStep(limit, u, w, t.stores);
      ExecOne(limit, u, store);
      ExecThen(limit, s, call, [store]);
      u := B.Next(limit, u, store);
      acts := [call] + [store];
    }
  }

  lemma SameListsTrans(s: B.State, t: B.State, u: B.State, w: nat)
    requires w < |s.workers| && SameLists(s, t, w) && SameLists(t, u, w)
    ensures SameLists(s, u, w)
  {
  }

  lemma RaisesOnceMarked(db: Db, m: Message, t: Trial)
    requires m.bench in db.rows && t.marks
    ensures Raises(db, m, t) <==> t.engine.Raises? || !t.stores || m.bench in MarkRunning(db, m.bench).results
    ensures Broken(db, m, t) <==> t.engine.Yields? || t.engine.broken
  {
  }

  /** The whole try, when `mark_running` is stored. */
  lemma MarkedIsARun(limit: int, s: B.State, w: nat, t: Trial) returns (acts: seq<B.Action>, u: B.State)
    requires w < |s.workers| && s.workers[w].Marking? && s.workers[w].m.bench in s.db.rows && t.marks
    ensures NoArrivals(acts) && u == B.Exec(limit, s, acts) && SameLists(s, u, w)
    ensures var m := s.workers[w].m;
      TryEnds(MarkRunning(s.db, m.bench), m, t, Raises(s.db, m, t), Broken(s.db, m, t), u.workers[w], u.db)
  {
    var mark := B.Work(w, Good);
    MarkStep(limit, s, w, Good);
    var v := B.Next(limit, s, mark);
    var more;
    more, u := EngineIsARun(limit, v, w, t);
    ExecThen(limit, s, mark, more);
    acts := [mark] + more;
    SameListsTrans(s, v, u, w);
    RaisesOnceMarked(s.db, s.workers[w].m, t);
  }

  /** The whole try. */
  lemma TryIsARun(limit: int, s: B.State, w: nat, t: Trial) returns (acts: seq<B.Action>, u: B.State)
    requires w < |s.workers| && s.workers[w].Marking? && s.workers[w].m.bench in s.db.rows
    ensures NoArrivals(acts) && u == B.Exec(limit, s, acts) && SameLists(s, u, w)
    ensures var m := s.workers[w].m;
      if Raises(s.db, m, t) then
        && u.workers[w] == B.Recovering(m, Broken(s.db, m, t))
        && u.db == if t.marks then MarkRunning(s.db, m.bench) else s.db
      else
        u.workers[w] == B.Idle
        && u.db == Complete(MarkRunning(s.db, m.bench), m.bench, ResultRow(t.engine.metrics, m.attempt + 1))
  {
    if t.marks {
      acts, u := MarkedIsARun(limit, s, w, t);
    } else {
      var raise := B.Work(w, B.Raises("", t.breaks));
      MarkStep(limit, s, w, raise.outcome);
      ExecOne(limit, s, raise);
      u := B.Next(limit, s, raise);
      acts := [raise];
    }
  }

  /** The except branch, up to the retry or to the dead letter. */
  lemma RecoverStep(limit: int, s: B.State, w: nat, reason: string)
    requires w < |s.workers| && s.workers[w].Recovering?
    ensures var t := B.Next(limit, s, B.Work(w, B.Raises(reason, false))); var m := s.workers[w].m;
      && t.db == s.db && t.handlers == s.handlers && |t.workers| == |s.workers|
      && if m.attempt + 1 < limit then
           t.queue == [m.(attempt := m.attempt + 1)] + s.queue && t.dlq == s.dlq && t.workers[w] == B.Idle
         else
           && t.queue == s.queue && t.dlq == [DeadLetter(m, reason)] + s.dlq
           && t.workers[w] == B.Failing(m.bench, s.workers[w].broken)
  {
  }

  lemma FailStep(limit: int, s: B.State, w: nat, good: bool)
    requires w < |s.workers| && s.workers[w].Failing? && s.workers[w].bench in s.db.rows
    ensures var t := B.Next(limit, s, B.Work(w, Outcome(good)));
      && SameLists(s, t, w)
      && t.workers[w] == (if good && !s.workers[w].broken then B.Idle else B.Dead)
      && t.db == if good && !s.workers[w].broken then MarkFailed(s.db, s.workers[w].bench) else s.db
  {
  }

  /** What the except branch leaves. */
  function Recovered(limit: int, s: Shop, m: Message, t: Trial, broken: bool): Shop
  {
    if m.attempt + 1 < limit then s.(queue := [m.(attempt := m.attempt + 1)] + s.queue)
    else
      s.(db := if t.fails && !broken then MarkFailed(s.db, m.bench) else s.db,
         dlq := [DeadLetter(m, t.reason)] + s.dlq)
  }

  lemma ProcessSplits(limit: int, s: Shop, m: Message, t: Trial)
    ensures Process(limit, s, m, t) ==
      if Raises(s.db, m, t) then
        Recovered(limit, s.(db := if t.marks then MarkRunning(s.db, m.bench) else s.db), m, t, Broken(s.db, m, t))
      else s.(db := Complete(MarkRunning(s.db, m.bench), m.bench, ResultRow(t.engine.metrics, m.attempt + 1)))
  {
  }

  /** The except branch of a job that raised. */
  lemma RecoverIsARun(limit: int, s: B.State, w: nat, t: Trial) returns (acts: seq<B.Action>, u: B.State)
    requires w < |s.workers| && s.workers[w].Recovering? && s.workers[w].m.bench in s.db.rows
    ensures NoArrivals(acts) && u == B.Exec(limit, s, acts) && u.handlers == s.handlers
    ensures ShopOf(u) == Recovered(limit, ShopOf(s), s.workers[w].m, t, s.workers[w].broken)
  {
    var recover, fail := B.Work(w, B.Raises(t.reason, false)), B.Work(w, Outcome(t.fails));
    RecoverStep(limit, s, w, t.reason);
    u := B.Next(limit, s, recover);
    acts := [recover];
    ExecOne(limit, s, recover);
    if s.workers[w].m.attempt + 1 >= limit {
      FailStep(limit, u, w, t.fails);
      ExecOne(limit, u, fail);
      ExecThen(limit, s, recover, [fail]);
      u := B.Next(limit, u, fail);
      acts := [recover] + [fail];
    }
  }

  /** `_process_job`. */
  lemma ProcessIsARun(limit: int, s: B.State, w: nat, t: Trial) returns (acts: seq<B.Action>, u: B.State)
    requires w < |s.workers| && s.workers[w].Marking? && s.workers[w].m.bench in s.db.rows
    ensures u == B.Exec(limit, s, acts)
    ensures u.handlers == s.handlers && ShopOf(u) == Process(limit, ShopOf(s), s.workers[w].m, t)
  {
    ProcessSplits(limit, ShopOf(s), s.workers[w].m, t);
    acts, u := TryIsARun(limit, s, w, t);
    if Raises(s.db, s.workers[w].m, t) {
      var first, more := acts, [];
      more, u := RecoverIsARun(limit, u, w, t);
      ExecConcat(limit, s, first, more);
      acts := first + more;
    }
  }

  lemma DequeueStep(limit: int, s: B.State, w: nat)
    requires w < |s.workers| && s.workers[w].Idle? && s.queue != []
    ensures var t := B.Next(limit, s, B.Work(w, Bad)); var n := |s.queue| - 1;
      && t.db == s.db && t.dlq == s.dlq && t.handlers == s.handlers && |t.workers| == |s.workers|
      && t.queue == s.queue[..n] && t.workers[w] == B.Marking(s.queue[n])
  {
  }

  /** Dequeue and process: the worker loop of the source is a run of the protocol. */
  lemma ServeIsARun(limit: int, s: B.State, w: nat, t: Trial) returns (acts: seq<B.Action>)
    requires w < |s.workers| && s.workers[w].Idle? && s.queue != []
    requires s.queue[|s.queue| - 1].bench in s.db.rows
    ensures ShopOf(B.Exec(limit, s, acts)) == Serve(limit, ShopOf(s), t)
    ensures B.Exec(limit, s, acts).handlers == s.handlers
  {
    DequeueStep(limit, s, w);
    var more, u := ProcessIsARun(limit, B.Next(limit, s, B.Work(w, Bad)), w, t);
    ExecThen(limit, s, B.Work(w, Bad), more);
    acts := [B.Work(w, Bad)] + more;
  }
}
