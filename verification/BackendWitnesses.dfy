/** Runs that show what the backend can come to. */
module BackendWitnesses {
  import opened Types
  import opened Tables
  import opened Backend
  import opened WorkerRuns
  import opened Endings

  /** The backend with one committed benchmark, its message on the queue and no worker yet. */
  ghost predicate Pushed(b: State, key: string, spec: Spec)
  {
    && b.db.index == map[key := 1] && b.db.results == map[]
    && 1 in b.db.rows && b.db.rows[1].key == key && b.db.rows[1].status == Queued && b.db.rows[1].attempts == 0
    && b.db.rows[1].modelId in b.db.models && SpecOf(b.db, 1) == spec
    && b.queue == [Message(1, spec, 0)] && b.workers == [] && b.dlq == []
  }

  const Step0 := Advance(0, 0)

  lemma FirstCommit(limit: int, key: string, spec: Spec) returns (b1: State, b2: State, b3: State, b4: State)
    requires Admissible(key, spec)
    ensures var b := Start.(handlers := [Handler(key, spec, Finding)]);
      && b1 == Next(limit, b, Step0) && b2 == Next(limit, b1, Step0)
      && b3 == Next(limit, b2, Step0) && b4 == Next(limit, b3, Step0)
    ensures b4.handlers == [Handler(key, spec, Owing(1))] && b4.queue == [] && b4.workers == [] && b4.dlq == []
    ensures b4.db == Insert(EmptyDb.(nextUuid := 1), key, spec, 0, true)
  {
    b1 := Next(limit, Start.(handlers := [Handler(key, spec, Finding)]), Step0);
    assert b1.handlers == [Handler(key, spec, Selecting)];
    b2 := Next(limit, b1, Step0);
    assert b2.handlers == [Handler(key, spec, Flushing)];
    b3 := Next(limit, b2, Step0);
    assert b3.handlers == [Handler(key, spec, Committing(0, true))] && b3.db == EmptyDb.(nextUuid := 1);
    b4 := Next(limit, b3, Step0);
  }

  /** The first handler looks up, selects, flushes, commits and pushes. */
  lemma FirstHandler(limit: int, key: string, spec: Spec) returns (acts: seq<Action>)
    requires Admissible(key, spec)
    ensures var b := Exec(limit, Start.(handlers := [Handler(key, spec, Finding)]), acts);
      Pushed(b, key, spec) && b.handlers == [Handler(key, spec, Replied(1, true))]
    ensures forall i | 0 <= i < |acts| :: acts[i] == Step0
  {
    var b0 := Start.(handlers := [Handler(key, spec, Finding)]);
    var b1, b2, b3, b4 := FirstCommit(limit, key, spec);
    ExecMore(limit, b0, [], Step0);
    ExecMore(limit, b0, [] + [Step0], Step0);
    ExecMore(limit, b0, [] + [Step0] + [Step0], Step0);
    ExecMore(limit, b0, [] + [Step0] + [Step0] + [Step0], Step0);
    ExecMore(limit, b0, [] + [Step0] + [Step0] + [Step0] + [Step0], Step0);
    acts := [] + [Step0] + [Step0] + [Step0] + [Step0] + [Step0];
    FirstPush(limit, b4, key, spec);
  }

  lemma FirstPush(limit: int, b: State, key: string, spec: Spec)
    requires b.handlers == [Handler(key, spec, Owing(1))] && b.queue == [] && b.workers == [] && b.dlq == []
    requires b.db == Insert(EmptyDb.(nextUuid := 1), key, spec, 0, true)
    ensures var t := Next(limit, b, Step0); Pushed(t, key, spec) && t.handlers == [Handler(key, spec, Replied(1, true))]
  {
  }

  /** From the except branch of one attempt to the last: no `mark_running` in between is stored. */
  lemma {:induction false} GivesUp(limit: int, s: State, acts: seq<Action>) returns (more: seq<Action>)
    requires var u := Exec(limit, s, acts);
      && |u.workers| == 1 && u.workers[0].Recovering? && !u.workers[0].broken
      && u.queue == [] && u.workers[0].m.bench in u.db.rows
    ensures var u, v := Exec(limit, s, acts), Exec(limit, s, more);
      v.db == u.db && |v.workers| == 1 && v.workers[0] == Failing(u.workers[0].m.bench, false)
    ensures acts <= more && forall i | |acts| <= i < |more| :: more[i].Work?
    decreases limit - Exec(limit, s, acts).workers[0].m.attempt
  {
    var u := Exec(limit, s, acts);
    RecoverStep(limit, u, 0, "");
    ExecMore(limit, s, acts, Work(0, Bad));
    more := acts + [Work(0, Bad)];
    if u.workers[0].m.attempt + 1 < limit {
      DequeueStep(limit, Exec(limit, s, more), 0);
      ExecMore(limit, s, more, Work(0, Bad));
      more := more + [Work(0, Bad)];
      MarkStep(limit, Exec(limit, s, more), 0, Bad);
      ExecMore(limit, s, more, Work(0, Bad));
      more := more + [Work(0, Bad)];
      more := GivesUp(limit, s, more);
    }
  }

  /** The first worker takes the only message. */
  lemma FirstWorker(limit: int, s: State, key: string, spec: Spec)
    requires Pushed(s, key, spec)
    ensures var t := Exec(limit, s, [Hire, Work(0, Bad)]);
      t.workers == [Marking(Message(1, spec, 0))] && t.queue == [] && t.db == s.db && t.dlq == s.dlq
  {
    ExecMore(limit, s, [], Hire);
    ExecMore(limit, s, [Hire], Work(0, Bad));
    assert [Hire] + [Work(0, Bad)] == [Hire, Work(0, Bad)] && [] + [Hire] == [Hire];
  }

  /** Whatever the limit, a benchmark can go from queued to failed in one step: when no
      `mark_running` of any of its attempts is stored. */
  lemma FailsUnmarked(limit: int, key: string, spec: Spec) returns (s: State)
    requires Admissible(key, spec)
    ensures Reachable(limit, s)
    ensures var t := Next(limit, s, Work(0, Good));
      && key in s.db.index && var b := s.db.index[key];
      && b in s.db.rows && s.db.rows[b].status == Queued && b in t.db.rows && t.db.rows[b].status == Failed
  {
    var first := FirstHandler(limit, key, spec);
    var b0 := Start.(handlers := [Handler(key, spec, Finding)]);
    var u := Exec(limit, b0, first);
    FirstWorker(limit, u, key, spec);
    var acts := [Hire, Work(0, Bad)];
    MarkStep(limit, Exec(limit, u, acts), 0, Bad);
    ExecMore(limit, u, acts, Work(0, Bad));
    acts := GivesUp(limit, u, acts + [Work(0, Bad)]);
    s := Exec(limit, u, acts);
    FailStep(limit, s, 0, true);
    ExecConcat(limit, b0, first, acts);
    ReachedFrom(limit, key, spec, first + acts);
  }

  lemma ReachedFrom(limit: int, key: string, spec: Spec, acts: seq<Action>)
    requires Accepts(key, spec)
    ensures Reachable(limit, Exec(limit, Start.(handlers := [Handler(key, spec, Finding)]), acts))
  {
    var b0 := Start.(handlers := [Handler(key, spec, Finding)]);
    assert Next(limit, Start, Arrive(key, spec)) == b0;
    ExecThen(limit, Start, Arrive(key, spec), acts);
    assert Exec(limit, b0, acts) == Exec(limit, Start, [Arrive(key, spec)] + acts);
  }

  /** Attempts that do not reach the engine, up to the last one. */
  lemma {:induction false} ReachesLast(limit: int, s: State, acts: seq<Action>) returns (more: seq<Action>)
    requires var u := Exec(limit, s, acts);
      |u.workers| == 1 && u.workers[0].Marking? && u.queue == [] && u.dlq == [] && u.workers[0].m.bench in u.db.rows
    ensures var u, v := Exec(limit, s, acts), Exec(limit, s, more);
      && v.db == u.db && v.queue == [] && v.dlq == [] && |v.workers| == 1 && v.workers[0].Marking?
      && v.workers[0].m.bench == u.workers[0].m.bench && v.workers[0].m.attempt + 1 >= limit
    decreases limit - Exec(limit, s, acts).workers[0].m.attempt
  {
    var u := Exec(limit, s, acts);
    more := acts;
    if u.workers[0].m.attempt + 1 < limit {
      MarkStep(limit, u, 0, Bad);
      ExecMore(limit, s, more, Work(0, Bad));
      more := more + [Work(0, Bad)];
      RecoverStep(limit, Exec(limit, s, more), 0, "");
      ExecMore(limit, s, more, Work(0, Bad));
      more := more + [Work(0, Bad)];
      DequeueStep(limit, Exec(limit, s, more), 0);
      ExecMore(limit, s, more, Work(0, Bad));
      more := more + [Work(0, Bad)];
      more := ReachesLast(limit, s, more);
    }
  }

  /** The commit of the last result raises: the worker dead-letters the job, dies on the session that
      it has not rolled back, and leaves the benchmark running. */
  lemma LastCommitRaises(limit: int, s: State) returns (acts: seq<Action>)
    requires |s.workers| == 1 && s.workers[0].Marking? && s.workers[0].m.attempt + 1 >= limit && s.dlq == []
    requires s.workers[0].m.bench in s.db.rows
    ensures var t := Exec(limit, s, acts); var b := s.workers[0].m.bench;
      && t.workers == [Dead] && t.db == MarkRunning(s.db, b) && |t.dlq| == 1 && t.dlq[0].message.bench == b
  {
    MarkStep(limit, s, 0, Good);
    var s1 := Next(limit, s, Work(0, Good));
    EngineStep(limit, s1, 0, Good);
    var s2 := Next(limit, s1, Work(0, Good));
    StoreStep(limit, s2, 0, false);
    var s3 := Next(limit, s2, Work(0, Bad));
    RecoverStep(limit, s3, 0, "");
    var s4 := Next(limit, s3, Work(0, Bad));
    FailStep(limit, s4, 0, true);
    var s5 := Next(limit, s4, Work(0, Good));
    ExecOne(limit, s4, Work(0, Good));
    ExecThen(limit, s3, Work(0, Bad), [Work(0, Good)]);
    acts := [Work(0, Bad)] + [Work(0, Good)];
    ExecThen(limit, s2, Work(0, Bad), acts);
    acts := [Work(0, Bad)] + acts;
    ExecThen(limit, s1, Work(0, Good), acts);
    acts := [Work(0, Good)] + acts;
    ExecThen(limit, s, Work(0, Good), acts);
    acts := [Work(0, Good)] + acts;
    assert Exec(limit, s, acts) == s5;
  }

  /** Whatever the limit, there is a run without any crash, in which one commit raises, after which
      the benchmark stays running for ever. */
  lemma BreaksAtLast(limit: int, key: string, spec: Spec) returns (s: State)
    requires Admissible(key, spec)
    ensures Reachable(limit, s)
    ensures key in s.db.index && var b := s.db.index[key];
      b in s.db.rows && s.db.rows[b].status == Running && Orphaned(s, b) && s.workers == [Dead]
  {
    var first := FirstHandler(limit, key, spec);
    var b0 := Start.(handlers := [Handler(key, spec, Finding)]);
    var u := Exec(limit, b0, first);
    FirstWorker(limit, u, key, spec);
    var acts := ReachesLast(limit, u, [Hire, Work(0, Bad)]);
    var more := LastCommitRaises(limit, Exec(limit, u, acts));
    ExecConcat(limit, u, acts, more);
    s := Exec(limit, u, acts + more);
    ExecConcat(limit, b0, first, acts + more);
    ReachedFrom(limit, key, spec, first + (acts + more));
    assert Letters(s.dlq[0], 1);
  }

  /** Two requests with keys of their own and one new model: both handlers find the model missing,
      and when the first has committed it ... */
  lemma TwoFlush(limit: int, k: string, spec: Spec, key: string, other: Spec) returns (acts: seq<Action>)
    requires key != k && spec.model == other.model && Accepts(k, spec) && Accepts(key, other)
    ensures forall i | 0 <= i < |acts| :: !acts[i].Abort?
    ensures var s := Exec(limit, Start, acts);
      && s.db == Start.db
      && s.handlers == [Handler(k, spec, Flushing), Handler(key, other, Flushing)]
  {
    acts := [Arrive(k, spec), Arrive(key, other)];
    ExecMore(limit, Start, [], acts[0]);
    ExecMore(limit, Start, [acts[0]], acts[1]);
    assert acts == [acts[0]] + [acts[1]] && [] + [acts[0]] == [acts[0]];
    var next := [Advance(0, 0), Advance(1, 0), Advance(0, 0), Advance(1, 0)];
    var s := Exec(limit, Start, acts);
    var s1 := Next(limit, s, next[0]);
    assert s1.handlers == [Handler(k, spec, Selecting), Handler(key, other, Finding)];
    var s2 := Next(limit, s1, next[1]);
    assert s2.handlers == [Handler(k, spec, Selecting), Handler(key, other, Selecting)];
    var s3 := Next(limit, s2, next[2]);
    assert s3.handlers == [Handler(k, spec, Flushing), Handler(key, other, Selecting)];
    ExecMore(limit, Start, acts, next[0]);
    ExecMore(limit, Start, acts + [next[0]], next[1]);
    ExecMore(limit, Start, acts + [next[0]] + [next[1]], next[2]);
    ExecMore(limit, Start, acts + [next[0]] + [next[1]] + [next[2]], next[3]);
    acts := acts + [next[0]] + [next[1]] + [next[2]] + [next[3]];
  }

  lemma Refuses(limit: int, s: State, name: string)
    requires |s.handlers| == 2 && !s.handlers[0].pc.Committing?
    requires s.handlers[1].pc == Flushing && s.handlers[1].spec.model == name && name in s.db.models.Values
    requires FitsModel(name)
    ensures Next(limit, s, Advance(1, 0)) == SetPc(s, 1, Raised)
  {
    assert forall j | 0 <= j < |s.handlers| :: !Holds(s.handlers[j], name);
  }

  /** ... the second is refused, although nothing is stored under its key and no database call of
      its own has failed for another reason. */
  lemma RefusesFreshKey(limit: int, k: string, spec: Spec, key: string, other: Spec) returns (acts: seq<Action>)
    requires key != k && spec.model == other.model && Admissible(k, spec) && Accepts(key, other)
    ensures forall i | 0 <= i < |acts| :: !acts[i].Abort?
    ensures var s := Exec(limit, Start, acts);
      |s.handlers| == 2 && s.handlers[1] == Handler(key, other, Raised) && key !in s.db.index
  {
    acts := TwoFlush(limit, k, spec, key, other);
    var s := Exec(limit, Start, acts);
    var s1 := Next(limit, s, Advance(0, 0));
    assert s1.handlers == [Handler(k, spec, Committing(0, true)), Handler(key, other, Flushing)];
    var s2 := Next(limit, s1, Advance(0, 0));
    assert s2.handlers == [Handler(k, spec, Owing(1)), Handler(key, other, Flushing)];
    assert 0 in s2.db.models && s2.db.models[0] == spec.model && s2.db.index == map[k := 1];
    Refuses(limit, s2, other.model);
    ExecMore(limit, Start, acts, Advance(0, 0));
    ExecMore(limit, Start, acts + [Advance(0, 0)], Advance(0, 0));
    ExecMore(limit, Start, acts + [Advance(0, 0)] + [Advance(0, 0)], Advance(1, 0));
    acts := acts + [Advance(0, 0)] + [Advance(0, 0)] + [Advance(1, 0)];
  }
}
