/** Which benchmarks can still come to an end. */
module Endings {
  import opened Types
  import opened Tables
  import opened Tallies
  import opened Backend
  import B = Backend
  import opened Submission
  import opened Conservation
  import opened Accounting
  import opened Lifecycle
  import opened Worker
  import opened WorkerRuns

  /** Dead-lettered by a worker that did not live, or did not manage, to store the failure. */
  ghost predicate Orphaned(s: State, b: Uuid)
    requires b in s.db.rows
  {
    && Tally(Letters, s.dlq, b) > 0 && s.db.rows[b].status != Failed
    && forall w | 0 <= w < |s.workers| :: s.workers[w] != Failing(b, false)
  }

  /** The last attempt has raised in a transaction: this worker will dead-letter the benchmark, and
      its session will then refuse to store the failure. */
  predicate DoomedBy(limit: int, x: B.Worker, b: Uuid)
  {
    x.Recovering? && x.broken && x.m.bench == b && x.m.attempt + 1 >= limit
  }

  ghost predicate Doomed(limit: int, s: State, b: Uuid)
  {
    exists w | 0 <= w < |s.workers| :: DoomedBy(limit, s.workers[w], b)
  }

  /** The push or the message of the benchmark died with its process, its letter is an orphan, or it
      is about to become one. */
  ghost predicate Stuck(limit: int, s: State, b: Uuid)
    requires b in s.db.rows
  {
    s.log.lost[b] > 0 || Orphaned(s, b) || Doomed(limit, s, b)
  }

  predicate Ended(s: State, b: Uuid)
  {
    b in s.db.rows && (s.db.rows[b].status == Completed || s.db.rows[b].status == Failed)
  }

  // ---- a stuck benchmark stays stuck ----

  /** A worker that holds the benchmark is the only one that does, and nobody has settled it. */
  lemma HeldUnsettled(limit: int, s: State, w: nat)
    requires Inv(limit, s) && w < |s.workers| && Holding(s.workers[w])
    ensures var b := s.workers[w].m.bench;
      && b in s.db.rows && b !in s.db.results && s.log.lost[b] == 0 && Tally(Letters, s.dlq, b) == 0 && !Ended(s, b)
      && (forall v | 0 <= v < |s.workers| :: !(s.workers[v].Failing? && s.workers[v].bench == b))
      && (forall v | 0 <= v < |s.workers| && v != w :: !Keeps(s.workers[v], b))
  {
    var b := s.workers[w].m.bench;
    Alone(s, w);
    assert StatusOk(s, b);
    forall v | 0 <= v < |s.workers| ensures !(s.workers[v].Failing? && s.workers[v].bench == b) {
      assert WorkerOk(limit, s, s.workers[v]);
    }
  }

  lemma StuckUnfinished(limit: int, s: State, b: Uuid)
    requires Inv(limit, s) && b in s.db.rows && Stuck(limit, s, b)
    ensures !Ended(s, b)
  {
    assert Places(s, b) == One(b in s.db.rows);
    assert StatusOk(s, b);
    if Doomed(limit, s, b) {
      var w :| 0 <= w < |s.workers| && DoomedBy(limit, s.workers[w], b);
      HeldUnsettled(limit, s, w);
    }
  }

  lemma LostGrows(limit: int, s: State, a: Action)
    ensures s.log.lost <= Next(limit, s, a).log.lost
  {
  }

  lemma LettersGrow(limit: int, s: State, a: Action, b: Uuid)
    ensures Tally(Letters, s.dlq, b) <= Tally(Letters, Next(limit, s, a).dlq, b)
  {
    var t := Next(limit, s, a);
    if t.dlq != s.dlq { TallyAppend(Letters, s.dlq, t.dlq[0], b); }
  }

  /** Only the except branch of a worker that holds the benchmark comes to owe it a failure. */
  lemma NoNewFailing(limit: int, s: State, a: Action, b: Uuid, w: nat)
    requires forall v | 0 <= v < |s.workers| :: !Keeps(s.workers[v], b) && s.workers[v] != Failing(b, false)
    requires w < |Next(limit, s, a).workers|
    ensures Next(limit, s, a).workers[w] != Failing(b, false)
  {
  }

  /** And only a worker that owes the failure, on a session that works, stores it. */
  lemma NobodyFails(limit: int, s: State, a: Action, b: Uuid)
    requires b in s.db.rows && s.db.nextUuid !in s.db.rows && s.db.rows[b].status != Failed
    requires forall v | 0 <= v < |s.workers| :: s.workers[v] != Failing(b, false)
    ensures var t := Next(limit, s, a); b in t.db.rows && t.db.rows[b].status != Failed
  {
    if !a.Work? { OthersKeepRows(limit, s, a, b); }
  }

  lemma OrphanStays(limit: int, s: State, a: Action, b: Uuid)
    requires Inv(limit, s) && b in s.db.rows && Orphaned(s, b)
    ensures var t := Next(limit, s, a); b in t.db.rows && Orphaned(t, b)
  {
    var t := Next(limit, s, a);
    LetteredAlone(s, b);
    LettersGrow(limit, s, a, b);
    FreshUuid(s.db);
    NobodyFails(limit, s, a, b);
    forall w | 0 <= w < |t.workers| ensures t.workers[w] != Failing(b, false) { NoNewFailing(limit, s, a, b, w); }
  }

  lemma OthersKeepWorker(limit: int, s: State, a: Action, w: nat)
    requires w < |s.workers| && !(a.Work? && a.w == w) && !(a.KillWorker? && a.w == w)
    ensures w < |Next(limit, s, a).workers| && Next(limit, s, a).workers[w] == s.workers[w]
  {
  }

  lemma DoomedLetters(limit: int, s: State, o: Outcome, w: nat, b: Uuid)
    requires w < |s.workers| && DoomedBy(limit, s.workers[w], b) && b in s.db.rows && s.db.rows[b].status != Failed
    requires forall v | 0 <= v < |s.workers| :: s.workers[v] != Failing(b, false)
    ensures var t := Next(limit, s, Work(w, o)); b in t.db.rows && Orphaned(t, b)
  {
    var t := WorkerNext(limit, s, w, o);
    assert t.db == s.db && t.workers == s.workers[w := Failing(b, true)] && |t.dlq| == |s.dlq| + 1;
    assert t.dlq == [t.dlq[0]] + s.dlq && t.dlq[0].message.bench == b;
    TallyAppend(Letters, s.dlq, t.dlq[0], b);
    assert forall v | 0 <= v < |t.workers| && v != w :: t.workers[v] == s.workers[v];
  }

  /** The worker of a doomed benchmark waits, or dies with the message, or makes an orphan of it. */
  lemma DoomedStep(limit: int, s: State, a: Action, w: nat, b: Uuid)
    requires w < |s.workers| && DoomedBy(limit, s.workers[w], b) && b in s.db.rows && s.db.rows[b].status != Failed
    requires forall v | 0 <= v < |s.workers| :: s.workers[v] != Failing(b, false)
    requires b in Next(limit, s, a).db.rows
    ensures Stuck(limit, Next(limit, s, a), b)
  {
    if a.Work? && a.w == w {
      DoomedLetters(limit, s, a.outcome, w, b);
    } else if !(a.KillWorker? && a.w == w) {
      OthersKeepWorker(limit, s, a, w);
      assert DoomedBy(limit, Next(limit, s, a).workers[w], b);
    }
  }

  lemma StuckStep(limit: int, s: State, a: Action, b: Uuid)
    requires Inv(limit, s) && b in s.db.rows && Stuck(limit, s, b)
    ensures var t := Next(limit, s, a); b in t.db.rows && Stuck(limit, t, b)
  {
    StepLater(limit, s, a);
    assert RowLater(s.db, Next(limit, s, a).db, b);
    LostGrows(limit, s, a);
    if Orphaned(s, b) {
      OrphanStays(limit, s, a, b);
    } else if Doomed(limit, s, b) {
      var w :| 0 <= w < |s.workers| && DoomedBy(limit, s.workers[w], b);
      HeldUnsettled(limit, s, w);
      DoomedStep(limit, s, a, w, b);
    }
  }

  lemma {:induction false} StuckStays(limit: int, s: State, after: seq<Action>, b: Uuid)
    requires Inv(limit, s) && b in s.db.rows && Stuck(limit, s, b)
    ensures var t := Exec(limit, s, after); b in t.db.rows && Stuck(limit, t, b) && !Ended(t, b)
    decreases |after|
  {
    InvFrom(limit, s, after);
    if after != [] {
      var n := |after| - 1;
      StuckStays(limit, s, after[..n], b);
      InvFrom(limit, s, after[..n]);
      StuckStep(limit, Exec(limit, s, after[..n]), after[n], b);
    }
    StuckUnfinished(limit, Exec(limit, s, after), b);
  }

  // ---- any other can end ----

  /** A worker is on the benchmark and nothing has raised yet. */
  predicate TriedBy(x: B.Worker, b: Uuid)
  {
    (x.Marking? || x.Executing? || x.Completing?) && x.m.bench == b
  }

  ghost predicate Trying(s: State, b: Uuid)
  {
    exists w | 0 <= w < |s.workers| :: TriedBy(s.workers[w], b)
  }

  /** It has failed, or a worker is on it. */
  ghost predicate UnderWay(s: State, b: Uuid)
  {
    b in s.db.rows && (s.db.rows[b].status == Failed || Trying(s, b))
  }

  /** A new worker takes the next message. */
  lemma NewWorkerTakes(limit: int, s: State) returns (acts: seq<Action>)
    requires s.queue != []
    ensures var t := Exec(limit, s, acts); var n := |s.queue| - 1;
      && t.db == s.db && t.queue == s.queue[..n]
      && |t.workers| == |s.workers| + 1 && t.workers[|s.workers|] == Marking(s.queue[n])
    ensures NoArrivals(acts)
  {
    ExecMore(limit, s, [], Hire);
    var u := Exec(limit, s, [] + [Hire]);
    DequeueStep(limit, u, |s.workers|);
    ExecMore(limit, s, [] + [Hire], Work(|s.workers|, Bad));
    acts := [] + [Hire] + [Work(|s.workers|, Bad)];
  }

  /** New workers take all messages before this one, and then this one. */
  lemma {:induction false} FromQueue(limit: int, s: State, i: nat) returns (acts: seq<Action>)
    requires i < |s.queue| && s.queue[i].bench in s.db.rows
    ensures UnderWay(Exec(limit, s, acts), s.queue[i].bench) && NoArrivals(acts)
    ensures Trying(Exec(limit, s, acts), s.queue[i].bench) && Exec(limit, s, acts).db == s.db
    decreases |s.queue|
  {
    acts := NewWorkerTakes(limit, s);
    var t := Exec(limit, s, acts);
    if i == |s.queue| - 1 {
      assert TriedBy(t.workers[|s.workers|], s.queue[i].bench);
    } else {
      var more := FromQueue(limit, t, i);
      ExecConcat(limit, s, acts, more);
      acts := acts + more;
    }
  }

  /** A worker that owes the failure, on a session that works, can store it. */
  lemma FromFailing(limit: int, s: State, w: nat) returns (acts: seq<Action>)
    requires w < |s.workers| && s.workers[w].Failing? && !s.workers[w].broken && s.workers[w].bench in s.db.rows
    ensures UnderWay(Exec(limit, s, acts), s.workers[w].bench) && NoArrivals(acts)
  {
    FailStep(limit, s, w, true);
    ExecMore(limit, s, [], Work(w, Good));
    acts := [] + [Work(w, Good)];
  }

  /** A worker in the except branch retries, or dead-letters and stores the failure. */
  lemma FromRecovering(limit: int, s: State, w: nat) returns (acts: seq<Action>)
    requires w < |s.workers| && s.workers[w].Recovering? && s.workers[w].m.bench in s.db.rows
    requires !DoomedBy(limit, s.workers[w], s.workers[w].m.bench)
    ensures UnderWay(Exec(limit, s, acts), s.workers[w].m.bench) && NoArrivals(acts)
  {
    RecoverStep(limit, s, w, "");
    ExecMore(limit, s, [], Work(w, Bad));
    acts := [] + [Work(w, Bad)];
    var t := Exec(limit, s, acts);
    var more;
    if s.workers[w].m.attempt + 1 < limit { more := FromQueue(limit, t, 0); } else { more := FromFailing(limit, t, w); }
    ExecConcat(limit, s, acts, more);
    acts := acts + more;
  }

  /** A handler that owes the message can push it. */
  lemma FromOwing(limit: int, s: State, h: nat) returns (acts: seq<Action>)
    requires h < |s.handlers| && s.handlers[h].pc.Owing? && s.handlers[h].pc.bench in s.db.rows
    ensures UnderWay(Exec(limit, s, acts), s.handlers[h].pc.bench) && NoArrivals(acts)
  {
    ExecMore(limit, s, [], Advance(h, 0));
    acts := [] + [Advance(h, 0)];
    var t := Exec(limit, s, acts);
    var more := FromQueue(limit, t, 0);
    ExecConcat(limit, s, acts, more);
    acts := acts + more;
  }

  lemma {:induction false} TallyWitness<T>(carries: (T, nat) -> bool, xs: seq<T>, id: nat) returns (i: nat)
    requires Tally(carries, xs, id) > 0
    ensures i < |xs| && carries(xs[i], id)
  {
    if carries(xs[0], id) {
      i := 0;
    } else {
      i := TallyWitness(carries, xs[1..], id);
      i := i + 1;
    }
  }

  /** Wherever a benchmark is that is not stuck, a worker can get to it, if it need not fail. */
  lemma GetsUnderWay(limit: int, s: State, b: Uuid) returns (acts: seq<Action>)
    requires Inv(limit, s) && b in s.db.rows && !Stuck(limit, s, b) && s.db.rows[b].status != Completed
    ensures UnderWay(Exec(limit, s, acts), b) && NoArrivals(acts)
  {
    assert StatusOk(s, b);
    assert Places(s, b) == One(b in s.db.rows);
    if s.db.rows[b].status == Failed {
      acts := [];
    } else if Tally(Letters, s.dlq, b) > 0 {
      var w :| 0 <= w < |s.workers| && s.workers[w] == Failing(b, false);
      acts := FromFailing(limit, s, w);
    } else if Tally(Names, s.queue, b) > 0 {
      var i := TallyWitness(Names, s.queue, b);
      acts := FromQueue(limit, s, i);
    } else if Tally(Owes, s.handlers, b) > 0 {
      var h := TallyWitness(Owes, s.handlers, b);
      acts := FromOwing(limit, s, h);
    } else {
      var w := TallyWitness(Keeps, s.workers, b);
      if s.workers[w].Recovering? {
        assert !DoomedBy(limit, s.workers[w], b);
        acts := FromRecovering(limit, s, w);
      } else {
        acts := [];
        assert TriedBy(s.workers[w], b);
      }
    }
  }

  const Works := Trial(true, false, Good, true, "", true)

  /** A worker to which nothing has happened yet can complete the benchmark. */
  lemma FromTry(limit: int, s: State, w: nat) returns (acts: seq<Action>)
    requires w < |s.workers| && Holding(s.workers[w]) && !s.workers[w].Recovering?
    requires s.workers[w].m.bench in s.db.rows && s.workers[w].m.bench !in s.db.results
    ensures var t := Exec(limit, s, acts); var b := s.workers[w].m.bench;
      b in t.db.rows && t.db.rows[b].status == Completed
    ensures NoArrivals(acts)
  {
    match s.workers[w]
    case Marking(_) =>
      var u;
      acts, u := TryIsARun(limit, s, w, Works);
    case Executing(_) =>
      var u;
      acts, u := EngineIsARun(limit, s, w, Works);
    case Completing(_, _) =>
      StoreStep(limit, s, w, true);
      ExecMore(limit, s, [], Work(w, Good));
      acts := [] + [Work(w, Good)];
  }

  lemma FromUnderWay(limit: int, s: State, b: Uuid) returns (acts: seq<Action>)
    requires UnderWay(s, b) && (s.db.rows[b].status == Failed || b !in s.db.results)
    ensures Ended(Exec(limit, s, acts), b) && NoArrivals(acts)
  {
    acts := [];
    if s.db.rows[b].status != Failed {
      var w :| 0 <= w < |s.workers| && TriedBy(s.workers[w], b);
      acts := FromTry(limit, s, w);
    }
  }

  lemma UnderWayUnsettled(limit: int, s: State, acts: seq<Action>, b: Uuid)
    requires Inv(limit, s) && UnderWay(Exec(limit, s, acts), b)
    ensures var t := Exec(limit, s, acts); t.db.rows[b].status == Failed || b !in t.db.results
  {
    var t := Exec(limit, s, acts);
    InvFrom(limit, s, acts);
    if t.db.rows[b].status != Failed {
      var w :| 0 <= w < |t.workers| && TriedBy(t.workers[w], b);
      HeldUnsettled(limit, t, w);
    }
  }

  lemma CanEnd(limit: int, s: State, b: Uuid) returns (acts: seq<Action>)
    requires Inv(limit, s) && b in s.db.rows && !Stuck(limit, s, b)
    ensures Ended(Exec(limit, s, acts), b) && NoArrivals(acts)
  {
    if s.db.rows[b].status == Completed {
      acts := [];
    } else {
      var first := GetsUnderWay(limit, s, b);
      UnderWayUnsettled(limit, s, first, b);
      acts := EndsFrom(limit, s, first, b);
    }
  }

  lemma EndsFrom(limit: int, s: State, first: seq<Action>, b: Uuid) returns (acts: seq<Action>)
    requires var t := Exec(limit, s, first); UnderWay(t, b) && (t.db.rows[b].status == Failed || b !in t.db.results)
    requires NoArrivals(first)
    ensures Ended(Exec(limit, s, acts), b) && NoArrivals(acts)
  {
    var more := FromUnderWay(limit, Exec(limit, s, first), b);
    ExecConcat(limit, s, first, more);
    acts := first + more;
  }

  /** A worker has marked the benchmark and goes on. */
  predicate MarkedBy(x: B.Worker, b: Uuid)
  {
    (x.Executing? || x.Completing?) && x.m.bench == b
  }

  ghost predicate Marked(s: State, b: Uuid)
  {
    exists w | 0 <= w < |s.workers| :: MarkedBy(s.workers[w], b)
  }

  lemma MarkedNotStuck(limit: int, s: State, b: Uuid)
    requires Inv(limit, s) && Marked(s, b)
    ensures b in s.db.rows && !Stuck(limit, s, b) && s.db.rows[b].status == Running
  {
    var w :| 0 <= w < |s.workers| && MarkedBy(s.workers[w], b);
    HolderNotStuck(limit, s, w);
    MarkedRunning(limit, s, w);
  }

  lemma HolderNotStuck(limit: int, s: State, w: nat)
    requires Inv(limit, s) && w < |s.workers| && Holding(s.workers[w]) && !s.workers[w].Recovering?
    ensures s.workers[w].m.bench in s.db.rows && !Stuck(limit, s, s.workers[w].m.bench)
  {
    HeldUnsettled(limit, s, w);
    OnlyHolder(limit, s, w);
  }

  lemma MarkedRunning(limit: int, s: State, w: nat)
    requires Inv(limit, s) && w < |s.workers| && (s.workers[w].Executing? || s.workers[w].Completing?)
    ensures s.workers[w].m.bench in s.db.rows && s.db.rows[s.workers[w].m.bench].status == Running
  {
    assert WorkerOk(limit, s, s.workers[w]);
  }

  lemma OnlyHolder(limit: int, s: State, w: nat)
    requires w < |s.workers| && Holding(s.workers[w]) && !s.workers[w].Recovering?
    requires forall v | 0 <= v < |s.workers| && v != w :: !Keeps(s.workers[v], s.workers[w].m.bench)
    ensures !Doomed(limit, s, s.workers[w].m.bench)
  {
  }

  /** It has failed, or a worker has marked it and goes on. */
  ghost predicate Seeable(s: State, b: Uuid)
  {
    b in s.db.rows && (s.db.rows[b].status == Failed || Marked(s, b))
  }

  lemma MarksIt(limit: int, s: State, b: Uuid) returns (acts: seq<Action>)
    requires UnderWay(s, b)
    ensures Seeable(Exec(limit, s, acts), b) && NoArrivals(acts)
  {
    acts := [];
    if s.db.rows[b].status != Failed {
      var w :| 0 <= w < |s.workers| && TriedBy(s.workers[w], b);
      if s.workers[w].Marking? {
        MarkStep(limit, s, w, Good);
        ExecOne(limit, s, Work(w, Good));
        acts := [Work(w, Good)];
        assert MarkedBy(Next(limit, s, Work(w, Good)).workers[w], b);
      } else {
        assert MarkedBy(s.workers[w], b);
      }
    }
  }

  /** It can be seen running, if it need not fail before. */
  lemma CanRun(limit: int, s: State, b: Uuid) returns (acts: seq<Action>)
    requires Inv(limit, s) && b in s.db.rows && !Stuck(limit, s, b) && s.db.rows[b].status != Completed
    ensures Seeable(Exec(limit, s, acts), b) && NoArrivals(acts)
  {
    acts := GetsUnderWay(limit, s, b);
    var more := MarksIt(limit, Exec(limit, s, acts), b);
    ExecConcat(limit, s, acts, more);
    acts := acts + more;
  }

  ghost predicate Ends(limit: int, s: State, b: Uuid, after: seq<Action>)
  {
    Ended(Exec(limit, s, after), b)
  }

  /** In every reachable state, a benchmark can come to Completed or Failed if and only if no crash
      has lost it, its dead letter, if it has one, is no orphan, and its last attempt has not raised
      in a transaction. */
  lemma EndsExactly(limit: int, s: State, b: Uuid)
    requires Reachable(limit, s) && b in s.db.rows
    ensures (exists after :: Ends(limit, s, b, after)) <==> !Stuck(limit, s, b)
  {
    InvReachable(limit, s);
    if Stuck(limit, s, b) {
      forall after ensures !Ends(limit, s, b, after) { StuckStays(limit, s, after, b); }
    } else {
      var after := CanEnd(limit, s, b);
      assert Ends(limit, s, b, after);
    }
  }

  // ---- a key without a row can get one ----

  lemma KillsOne(limit: int, s: State, h: nat)
    requires h < |s.handlers| && s.handlers[h].pc.Committing?
    ensures var t := Next(limit, s, KillHandler(h));
      t.db == s.db && t.handlers == s.handlers[h := s.handlers[h].(pc := Gone)]
  {
  }

  /** Sessions that hold an uncommitted model row can die, the first `n` of them here. */
  lemma {:induction false} ClearHolds(limit: int, s: State, n: nat) returns (acts: seq<Action>, t: State)
    requires n <= |s.handlers|
    ensures t == Exec(limit, s, acts) && NoArrivals(acts)
    ensures t.db == s.db && |t.handlers| == |s.handlers|
    ensures forall j | 0 <= j < n :: !t.handlers[j].pc.Committing?
  {
    acts, t := [], s;
    if n > 0 {
      acts, t := ClearHolds(limit, s, n - 1);
      if t.handlers[n - 1].pc.Committing? {
        var kill := KillHandler(n - 1);
        KillsOne(limit, t, n - 1);
        ExecMore(limit, s, acts, kill);
        acts, t := acts + [kill], Next(limit, t, kill);
      }
    }
  }

  /** A session whose key nobody has taken gets as far as its commit when nobody holds its model. */
  lemma GetsToCommit(limit: int, s: State, h: nat) returns (acts: seq<Action>)
    requires h < |s.handlers| && s.handlers[h].pc.Finding? && s.handlers[h].key !in s.db.index
    requires FitsModel(s.handlers[h].spec.model) && forall j | 0 <= j < |s.handlers| :: !s.handlers[j].pc.Committing?
    ensures var t := Exec(limit, s, acts); var x := s.handlers[h];
      && h < |t.handlers| && t.handlers[h].pc.Committing? && t.handlers[h] == x.(pc := t.handlers[h].pc)
      && !InsertConflict(t.db, x.key, x.spec.model, t.handlers[h].pc.newModel)
    ensures NoArrivals(acts)
  {
    var x := s.handlers[h];
    var s1 := Next(limit, s, Advance(h, 0));
    assert s1 == SetPc(s, h, Selecting);
    ExecOne(limit, s, Advance(h, 0));
    if x.spec.model in s.db.models.Values {
      var pick :| pick in s.db.models && s.db.models[pick] == x.spec.model;
      ExecOne(limit, s1, Advance(h, pick));
      ExecThen(limit, s, Advance(h, 0), [Advance(h, pick)]);
      acts := [Advance(h, 0)] + [Advance(h, pick)];
    } else {
      acts := FlushesNew(limit, s1, h);
      ExecThen(limit, s, Advance(h, 0), acts);
      acts := [Advance(h, 0)] + acts;
    }
  }

  lemma FlushesNew(limit: int, s: State, h: nat) returns (acts: seq<Action>)
    requires h < |s.handlers| && s.handlers[h].pc.Selecting? && s.handlers[h].key !in s.db.index
    requires FitsModel(s.handlers[h].spec.model) && s.handlers[h].spec.model !in s.db.models.Values
    requires forall j | 0 <= j < |s.handlers| :: !s.handlers[j].pc.Committing?
    ensures var t := Exec(limit, s, acts); var x := s.handlers[h];
      && h < |t.handlers| && t.handlers[h] == x.(pc := Committing(s.db.nextUuid, true))
      && !InsertConflict(t.db, x.key, x.spec.model, true)
    ensures NoArrivals(acts)
  {
    var s1 := Next(limit, s, Advance(h, 0));
    assert s1 == SetPc(s, h, Flushing);
    assert forall j | 0 <= j < |s1.handlers| :: !Holds(s1.handlers[j], s.handlers[h].spec.model);
    ExecOne(limit, s1, Advance(h, 0));
    ExecThen(limit, s, Advance(h, 0), [Advance(h, 0)]);
    acts := [Advance(h, 0)] + [Advance(h, 0)];
  }

  lemma CommitsRow(limit: int, s: State, h: nat) returns (acts: seq<Action>)
    requires h < |s.handlers| && s.handlers[h].pc.Finding? && s.handlers[h].key !in s.db.index
    requires FitsModel(s.handlers[h].spec.model) && FitsRow(s.handlers[h].key, s.handlers[h].spec)
    requires forall j | 0 <= j < |s.handlers| :: !s.handlers[j].pc.Committing?
    ensures var t := Exec(limit, s, acts); var key := s.handlers[h].key;
      key in t.db.index && h < |t.handlers| && t.handlers[h].pc == Owing(t.db.index[key])
    ensures NoArrivals(acts)
  {
    acts := GetsToCommit(limit, s, h);
    ExecMore(limit, s, acts, Advance(h, 0));
    acts := acts + [Advance(h, 0)];
  }

  /** A benchmark whose message is still owed is not stuck and has not ended. */
  lemma OwedNotStuck(limit: int, s: State, h: nat)
    requires Inv(limit, s) && h < |s.handlers| && s.handlers[h].pc.Owing?
    ensures var b := s.handlers[h].pc.bench; b in s.db.rows && !Stuck(limit, s, b) && !Ended(s, b)
  {
    var b := s.handlers[h].pc.bench;
    assert HandlerOk(s.db, s.handlers[h]);
    assert StatusOk(s, b);
    assert Places(s, b) == One(b in s.db.rows) && Owes(s.handlers[h], b);
    TallySplit(Owes, s.handlers, h, b);
    ZeroTally(Keeps, s.workers, b);
    forall w | 0 <= w < |s.workers| ensures !DoomedBy(limit, s.workers[w], b) {
      assert !Keeps(s.workers[w], b);
    }
  }
}
