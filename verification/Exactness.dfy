/** Where a promise depends on something, exactly on what. */
module Exactness {
  import opened Keys
  import opened Operator
  import T = Types
  import opened Tables
  import B = Backend
  import opened Platform
  import opened Guarantees
  import opened Admission
  import opened Progress
  import opened Witnesses

  // ---- whose result a Completed object shows ----

  /** The object shows the result of a run on its own submission. */
  ghost predicate OwnResult(c: Config, s: State, id: CrId, j: Job)
    requires id in c.crs
  {
    && OperatorKey(id) in s.b.db.index
    && var b := s.b.db.index[OperatorKey(id)];
    && b in s.b.db.rows && s.b.db.rows[b].modelId in s.b.db.models && SpecOf(s.b.db, b) == c.crs[id].spec
    && Reports(s.b.db, b, j)
    && B.Run(b, c.crs[id].spec, T.Some(s.b.db.results[b].metrics)) in s.b.log.runs
  }

  ghost predicate OwnResults(c: Config, s: State, id: CrId)
    requires id in c.crs
  {
    id in s.hists ==>
      forall v | 0 <= v < |s.hists[id]| && s.hists[id][v].phase == Completed :: OwnResult(c, s, id, s.hists[id][v])
  }

  /** The submissions that can become the row of `id`: its own, or one that a client sends under its
      key, as long as the columns can hold it. */
  predicate CanSend(c: Config, id: CrId, allowed: iset<T.Spec>, spec: T.Spec)
    requires id in c.crs
  {
    (spec == c.crs[id].spec || spec in allowed) && T.Admissible(OperatorKey(id), spec)
  }

  /** The creator of the row under the key of `id`. */
  lemma CreatorCanSend(c: Config, acts: seq<Action>, id: CrId, allowed: iset<T.Spec>)
    requires id in c.crs && forall i | i in c.crs :: ValidId(i)
    requires forall spec: T.Spec :: HexDigest(c.digest(PreImage(spec)))
    requires SendsOnly(acts, id, allowed) && OperatorKey(id) in Exec(c, Start, acts).b.db.index
    ensures var db := Exec(c, Start, acts).b.db; var b := db.index[OperatorKey(id)];
      b in db.rows && db.rows[b].modelId in db.models && CanSend(c, id, allowed, SpecOf(db, b))
  {
    var s := Exec(c, Start, acts);
    assert Reachable(c, s);
    KeysRespectedUnlessForged(c, acts, id, allowed);
    ReachedRow(c, s, OperatorKey(id));
  }

  lemma OwnKeysOwnResults(c: Config, acts: seq<Action>, id: CrId, allowed: iset<T.Spec>)
    requires id in c.crs && forall i | i in c.crs :: ValidId(i)
    requires forall spec: T.Spec :: HexDigest(c.digest(PreImage(spec)))
    requires SendsOnly(acts, id, allowed)
    requires Admitted(c, id) ==> forall spec | CanSend(c, id, allowed, spec) :: spec == c.crs[id].spec
    ensures OwnResults(c, Exec(c, Start, acts), id)
  {
    var s := Exec(c, Start, acts);
    assert Reachable(c, s);
    if id in s.hists {
      forall v | 0 <= v < |s.hists[id]| && s.hists[id][v].phase == Completed
        ensures OwnResult(c, s, id, s.hists[id][v])
      {
        RefusedStaysBlank(c, s, id, v);
        Provenance(c, s, id, v);
        CreatorCanSend(c, acts, id, allowed);
      }
    }
  }

  /** End-to-end provenance, exactly: whatever else happens, all results that a BenchmarkJob ever
      shows are from runs on its own submission if and only if the schema refuses its own request
      anyway, or the clients that choose its key for their POSTs send no other submission that can
      be stored. */
  lemma OwnResultsExactly(c: Config, id: CrId, allowed: iset<T.Spec>)
    requires id in c.crs && forall i | i in c.crs :: ValidId(i)
    requires forall spec: T.Spec :: HexDigest(c.digest(PreImage(spec)))
    ensures (forall acts | SendsOnly(acts, id, allowed) :: OwnResults(c, Exec(c, Start, acts), id))
      <==> !Admitted(c, id) || forall spec | CanSend(c, id, allowed, spec) :: spec == c.crs[id].spec
  {
    if !Admitted(c, id) || forall spec | CanSend(c, id, allowed, spec) :: spec == c.crs[id].spec {
      forall acts | SendsOnly(acts, id, allowed) ensures OwnResults(c, Exec(c, Start, acts), id) {
        OwnKeysOwnResults(c, acts, id, allowed);
      }
    } else {
      var spec :| CanSend(c, id, allowed, spec) && spec != c.crs[id].spec;
      var acts := ForgedCompletes(c, id, spec, T.Metrics(0.0, 0.0, 0.0));
      var s := Exec(c, Start, acts);
      PostedIsSent(c, acts, id, spec, allowed);
      assert !OwnResult(c, s, id, s.hists[id][|s.hists[id]| - 1]);
    }
  }

  lemma PostedIsSent(c: Config, acts: seq<Action>, id: CrId, spec: T.Spec, allowed: iset<T.Spec>)
    requires id in c.crs && PostedFor(c, acts, id, spec) && CanSend(c, id, allowed, spec)
    ensures SendsOnly(acts, id, allowed)
  {
  }

  // ---- which objects get anywhere at all ----

  /** The request of `id` gets past the schema and meets a row that can be stored. */
  ghost predicate CanStart(c: Config, id: CrId, allowed: iset<T.Spec>)
    requires id in c.crs
  {
    Admitted(c, id) && exists spec :: CanSend(c, id, allowed, spec)
  }

  /** The run takes the object out of the empty phase. */
  predicate Leaves(c: Config, acts: seq<Action>, id: CrId)
  {
    var s := Exec(c, Start, acts);
    id in s.hists && exists v | 0 <= v < |s.hists[id]| :: s.hists[id][v].phase != Blank
  }

  lemma LeavesCanStart(c: Config, acts: seq<Action>, id: CrId, allowed: iset<T.Spec>)
    requires id in c.crs && forall i | i in c.crs :: ValidId(i)
    requires forall spec: T.Spec :: HexDigest(c.digest(PreImage(spec)))
    requires SendsOnly(acts, id, allowed) && Leaves(c, acts, id)
    ensures CanStart(c, id, allowed)
  {
    var s := Exec(c, Start, acts);
    assert Reachable(c, s);
    var v :| 0 <= v < |s.hists[id]| && s.hists[id][v].phase != Blank;
    RefusedStaysBlank(c, s, id, v);
    ReachedVersion(c, s, id, v);
    CreatorCanSend(c, acts, id, allowed);
  }

  /** A BenchmarkJob can leave the empty phase if and only if the schema lets its own request through
      and the row under its key can be stored, for its own submission or for that of a client that
      chooses its key; one with an over-long namespace and name stays there for ever. */
  lemma LeavesExactly(c: Config, id: CrId, allowed: iset<T.Spec>)
    requires id in c.crs && forall i | i in c.crs :: ValidId(i)
    requires forall spec: T.Spec :: HexDigest(c.digest(PreImage(spec)))
    ensures (exists acts :: SendsOnly(acts, id, allowed) && Leaves(c, acts, id)) <==> CanStart(c, id, allowed)
  {
    if CanStart(c, id, allowed) {
      var spec :| CanSend(c, id, allowed, spec);
      var acts := GetsSubmitted(c, id, spec);
      PostedIsSent(c, acts, id, spec, allowed);
      assert Exec(c, Start, acts).hists[id][1].phase != Blank;
      assert SendsOnly(acts, id, allowed) && Leaves(c, acts, id);
    } else {
      forall acts ensures !(SendsOnly(acts, id, allowed) && Leaves(c, acts, id)) {
        if SendsOnly(acts, id, allowed) && Leaves(c, acts, id) { LeavesCanStart(c, acts, id, allowed); }
      }
    }
  }

  /** In numbers, when nobody else chooses its key: the whole name has at most 128 characters, model and
      workload at most 64, none with a NUL, and the batch size is from 1 to 2147483647. */
  lemma LeavesInNumbers(c: Config, id: CrId)
    requires id in c.crs && forall i | i in c.crs :: ValidId(i)
    requires forall spec: T.Spec :: HexDigest(c.digest(PreImage(spec)))
    ensures (exists acts :: SendsOnly(acts, id, iset{}) && Leaves(c, acts, id))
      <==> var own := c.crs[id].spec;
        && |id.namespace| + 1 + |id.name| <= 128 && '\0' !in id.namespace && '\0' !in id.name
        && |own.model| <= 64 && '\0' !in own.model && |own.workload| <= 64 && '\0' !in own.workload
        && 0 < own.batch <= 2147483647
  {
    LeavesExactly(c, id, iset{});
    KeyCharacters(id);
    var own := c.crs[id].spec;
    if T.Admissible(OperatorKey(id), own) { assert CanSend(c, id, iset{}, own); }
  }

  lemma KeyCharacters(id: CrId)
    ensures |OperatorKey(id)| == |id.namespace| + 1 + |id.name|
    ensures '\0' in OperatorKey(id) <==> '\0' in id.namespace || '\0' in id.name
  {
  }

  /** The run leaves the object Submitted for good, with its benchmark completed. */
  ghost predicate Misses(c: Config, acts: seq<Action>, id: CrId)
  {
    var s := Exec(c, Start, acts);
    Missed(s, id) && Tip(s, id).phase == Submitted
  }

  /** Every object that can start at all can miss its benchmark. */
  lemma MissesExactly(c: Config, id: CrId, allowed: iset<T.Spec>)
    requires id in c.crs && forall i | i in c.crs :: ValidId(i)
    requires forall spec: T.Spec :: HexDigest(c.digest(PreImage(spec)))
    ensures (exists acts :: SendsOnly(acts, id, allowed) && Misses(c, acts, id)) <==> CanStart(c, id, allowed)
  {
    if CanStart(c, id, allowed) {
      var spec :| CanSend(c, id, allowed, spec);
      var acts := CanMiss(c, id, spec, T.Metrics(0.0, 0.0, 0.0));
      PostedIsSent(c, acts, id, spec, allowed);
      assert SendsOnly(acts, id, allowed) && Misses(c, acts, id);
    } else {
      forall acts ensures !(SendsOnly(acts, id, allowed) && Misses(c, acts, id)) {
        if SendsOnly(acts, id, allowed) && Misses(c, acts, id) {
          var s := Exec(c, Start, acts);
          assert s.hists[id][|s.hists[id]| - 1].phase != Blank;
          LeavesCanStart(c, acts, id, allowed);
        }
      }
    }
  }

  // ---- which objects of a completed benchmark still complete ----

  /** A reconciler is about to store Running on the latest version. */
  predicate AboutToRun(s: State, id: CrId, r: nat)
    requires id in s.hists
  {
    && r < |s.recs| && s.recs[r].id == id && s.recs[r].v + 1 == |s.hists[id]|
    && s.recs[r].pc.Writing? && s.recs[r].pc.job.phase == Running
  }

  ghost predicate CanComplete(s: State, id: CrId)
    requires id in s.hists && |s.hists[id]| > 0
  {
    || Tip(s, id).phase == Completed
    || (!Tip(s, id).deleting && (Tip(s, id).phase == Running || exists r :: AboutToRun(s, id, r)))
  }

  /** The actions `after` bring the object to Completed. */
  predicate Completes(c: Config, s: State, id: CrId, after: seq<Action>)
  {
    var t := Exec(c, s, after);
    id in t.hists && |t.hists[id]| > 0 && Tip(t, id).phase == Completed
  }

  /** The benchmark of `id` is completed. */
  predicate BenchmarkDone(s: State, id: CrId)
  {
    && OperatorKey(id) in s.b.db.index && s.b.db.index[OperatorKey(id)] in s.b.db.rows
    && s.b.db.rows[s.b.db.index[OperatorKey(id)]].status == T.Completed
  }

  /** Versions are only added. */
  lemma {:induction false} HistGrows(c: Config, s: State, after: seq<Action>, id: CrId)
    requires Reachable(c, s) && id in s.hists
    ensures id in Exec(c, s, after).hists && s.hists[id] <= Exec(c, s, after).hists[id]
    decreases |after|
  {
    if after != [] {
      var n := |after| - 1;
      HistGrows(c, s, after[..n], id);
      ReachableFrom(c, s, after[..n]);
      RefinesPhaseMachine(c, Exec(c, s, after[..n]), after[n], id);
    }
  }

  lemma RunningCompletes(c: Config, s: State, id: CrId) returns (after: seq<Action>)
    requires Reachable(c, s) && id in s.hists && |s.hists[id]| > 0 && BenchmarkDone(s, id)
    requires Tip(s, id).phase == Running && !Tip(s, id).deleting
    ensures Completes(c, s, id, after)
  {
    after := Script(s, id, 0);
    ReachedVersion(c, s, id, |s.hists[id]| - 1);
    assert Stands(s, id, T.Completed);
    var clock := (i: nat) => 0;
    CompletedExactly(c, s, id, 1, clock);
    assert Turns(c, s, id, 1, clock) == Turn(c, Turns(c, s, id, 0, clock), id, clock(0));
  }

  lemma StoresRunning(c: Config, s: State, id: CrId, r: nat)
    requires Reachable(c, s) && id in s.hists && |s.hists[id]| > 0 && AboutToRun(s, id, r) && !Tip(s, id).deleting
    ensures var t := Next(c, s, Store(r));
      id in t.hists && |t.hists[id]| > 0 && Tip(t, id).phase == Running && !Tip(t, id).deleting && t.b == s.b
  {
    WriteInHand(c, s, id, r);
    StoresLatest(s, id, r);
  }

  lemma WriteInHand(c: Config, s: State, id: CrId, r: nat)
    requires Reachable(c, s) && id in s.hists && |s.hists[id]| > 0 && AboutToRun(s, id, r) && !Tip(s, id).deleting
    ensures !s.recs[r].pc.job.deleting
  {
    ReachedRec(c, s, r);
    WriteIsEdgeOf(c, s, s.recs[r]);
    WriteKeepsDeleting(c.crs[id].maxRetries, Tip(s, id), s.recs[r].pc.job);
  }

  lemma ReachedRec(c: Config, s: State, r: nat)
    requires Reachable(c, s) && r < |s.recs|
    ensures RecOk(c, s, s.recs[r])
  {
    PlatformReachable(c, s);
  }

  lemma WriteIsEdgeOf(c: Config, s: State, x: Rec)
    requires RecOk(c, s, x) && x.pc.Writing?
    ensures ReconcileEdge(c.crs[x.id].maxRetries, s.hists[x.id][x.v], x.pc.job)
  {
  }

  lemma StoresLatest(s: State, id: CrId, r: nat)
    requires id in s.hists && |s.hists[id]| > 0 && AboutToRun(s, id, r) && !Operator.Gone(Tip(s, id))
    ensures var t := StoreNext(s, r);
      id in t.hists && |t.hists[id]| > 0 && Tip(t, id) == s.recs[r].pc.job && t.b == s.b
  {
  }

  lemma WriteKeepsDeleting(maxRetries: int, j: Job, k: Job)
    requires ReconcileEdge(maxRetries, j, k)
    ensures k.deleting == j.deleting
  {
  }

  lemma CanCompleteCompletes(c: Config, s: State, id: CrId) returns (after: seq<Action>)
    requires Reachable(c, s) && id in s.hists && |s.hists[id]| > 0 && BenchmarkDone(s, id) && CanComplete(s, id)
    ensures Completes(c, s, id, after)
  {
    if Tip(s, id).phase == Completed {
      after := [];
    } else if Tip(s, id).phase == Running {
      after := RunningCompletes(c, s, id);
    } else {
      var r :| AboutToRun(s, id, r);
      StoresRunning(c, s, id, r);
      ExecMore(c, s, [], Store(r));
      ReachableFrom(c, s, [] + [Store(r)]);
      var more := RunningCompletes(c, Next(c, s, Store(r)), id);
      ExecConcat(c, s, [] + [Store(r)], more);
      after := [] + [Store(r)] + more;
    }
  }

  lemma FrozenStays(c: Config, s: State, after: seq<Action>, id: CrId)
    requires Reachable(c, s) && id in s.hists && |s.hists[id]| > 0 && Tip(s, id).deleting
    ensures var t := Exec(c, s, after); id in t.hists && |t.hists[id]| > 0 && Tip(t, id).phase == Tip(s, id).phase
  {
    var t := Exec(c, s, after);
    HistGrows(c, s, after, id);
    ReachableFrom(c, s, after);
    if |t.hists[id]| > |s.hists[id]| {
      StatusChangesLegal(c, t, id, |s.hists[id]| - 1, |t.hists[id]| - 1);
    }
  }

  lemma CannotComplete(c: Config, s: State, after: seq<Action>, id: CrId)
    requires Reachable(c, s) && id in s.hists && |s.hists[id]| > 0 && BenchmarkDone(s, id) && !CanComplete(s, id)
    ensures !Completes(c, s, id, after)
  {
    if Tip(s, id).deleting {
      FrozenStays(c, s, after, id);
    } else {
      ReachedVersion(c, s, id, |s.hists[id]| - 1);
      forall r | 0 <= r < |s.recs| && s.recs[r].id == id && s.recs[r].v + 1 == |s.hists[id]| && s.recs[r].pc.Writing?
        ensures s.recs[r].pc.job.phase != Running
      {
        assert !AboutToRun(s, id, r);
      }
      MissedNeverCompletes(c, s, after, id);
    }
  }

  /** Once the benchmark is completed, its object can still come to Completed if and only if it is
      there already, or is not being deleted and is Running or about to be stored as Running. */
  lemma CompletesExactly(c: Config, s: State, id: CrId)
    requires Reachable(c, s) && id in s.hists && |s.hists[id]| > 0 && BenchmarkDone(s, id)
    ensures (exists after :: Completes(c, s, id, after)) <==> CanComplete(s, id)
  {
    if CanComplete(s, id) {
      var after := CanCompleteCompletes(c, s, id);
      assert Completes(c, s, id, after);
    } else {
      forall after ensures !Completes(c, s, id, after) { CannotComplete(c, s, after, id); }
    }
  }

  // ---- how many writes ----

  /** Each visit to a failed benchmark makes one status write, until the object is Failed. */
  lemma FailedVisitWrites(o: CrSpec, db: Db, id: CrId, j: Job, now: Time)
    requires Sound(o.maxRetries, j) && Tracks(db, id, j) && j.phase != Completed
    requires T.Accepts(OperatorKey(id), o.spec) && db.rows[db.index[OperatorKey(id)]].status == T.Failed
    ensures var w := Reconciled(o.maxRetries, j, Answer(o.spec, db, id, j), now);
      if Left(o.maxRetries, j) == 0 then w.None?
      else w.Some? && !SameStatus(j, w.value) && Left(o.maxRetries, w.value) == Left(o.maxRetries, j) - 1
  {
    StatusNamesDiffer(T.Failed);
  }

  lemma TurnsStand(c: Config, s: State, id: CrId, n: nat, clock: nat -> Time)
    requires Reachable(c, s) && Stands(s, id, T.Failed) && id in c.crs && Admitted(c, id)
    requires 0 <= Tip(s, id).retryCount <= Retries(c.crs[id].maxRetries) && n <= Left(c.crs[id].maxRetries, Tip(s, id))
    ensures var t := Turns(c, s, id, n, clock); var max := c.crs[id].maxRetries;
      && id in t.hists && |t.hists[id]| > 0 && At(c, t, id, s.b.db, Tip(t, id)) && Tracks(s.b.db, id, Tip(t, id))
      && Sound(max, Tip(t, id)) && Tip(t, id).phase != Completed
      && Left(max, Tip(t, id)) == Left(max, Tip(s, id)) - n
  {
    StandsTracks(c, s, id, T.Failed);
    TurnsVisit(c, s, id, s.b.db, Tip(s, id), n, clock);
    FailedVisits(c.crs[id], s.b.db, id, Tip(s, id), n, clock);
  }

  lemma {:induction false} TurnsWrite(c: Config, s: State, id: CrId, n: nat, clock: nat -> Time)
    requires Reachable(c, s) && Stands(s, id, T.Failed) && id in c.crs && Admitted(c, id)
    requires 0 <= Tip(s, id).retryCount <= Retries(c.crs[id].maxRetries) && n <= Left(c.crs[id].maxRetries, Tip(s, id))
    ensures var t := Turns(c, s, id, n, clock);
      id in t.hists && StatusWrites(t.hists[id]) == StatusWrites(s.hists[id]) + n
  {
    if n > 0 {
      TurnsWrite(c, s, id, n - 1, clock);
      TurnsStand(c, s, id, n - 1, clock);
      var t := Turns(c, s, id, n - 1, clock);
      assert Turns(c, s, id, n, clock) == Turn(c, t, id, clock(n - 1));
      OneTurnWrites(c, t, id, s.b.db, clock(n - 1));
    }
  }

  lemma OneTurnWrites(c: Config, t: State, id: CrId, db: Db, now: Time)
    requires id in c.crs && Admitted(c, id)
    requires id in t.hists && |t.hists[id]| > 0 && At(c, t, id, db, Tip(t, id)) && Tracks(db, id, Tip(t, id))
    requires db.rows[db.index[OperatorKey(id)]].status == T.Failed
    requires Sound(c.crs[id].maxRetries, Tip(t, id)) && Tip(t, id).phase != Completed
    requires Left(c.crs[id].maxRetries, Tip(t, id)) > 0
    ensures var u := Turn(c, t, id, now);
      id in u.hists && StatusWrites(u.hists[id]) == StatusWrites(t.hists[id]) + 1
  {
    FailedVisitWrites(c.crs[id], db, id, Tip(t, id), now);
    TurnWrites(c, t, id, now);
    var u := Turn(c, t, id, now);
    assert u.hists[id][..|u.hists[id]| - 1] == t.hists[id];
  }

  lemma TwoWrites(j: Job, k: Job)
    requires !SameStatus(NewJob, j) && !SameStatus(j, k)
    ensures StatusWrites([NewJob, j, k]) == 2
  {
    assert [NewJob, j, k][..2] == [NewJob, j] && [NewJob, j][..1] == [NewJob];
    assert StatusWrites([NewJob]) == 0 && StatusWrites([NewJob, j]) == 1;
  }

  /** The run makes the most status writes that this backend can bring about. */
  predicate WritesMost(c: Config, acts: seq<Action>, id: CrId)
    requires id in c.crs
  {
    var s := Exec(c, Start, acts);
    id in s.hists && StatusWrites(s.hists[id]) == 2 * Retries(c.crs[id].maxRetries) + 3
  }

  lemma CanWriteMost(c: Config, id: CrId, spec: T.Spec) returns (acts: seq<Action>)
    requires id in c.crs && Admitted(c, id) && T.Admissible(OperatorKey(id), spec)
    ensures PostedFor(c, acts, id, spec) && WritesMost(c, acts, id)
  {
    var first := RunsAndFails(c, id, spec);
    var u := Exec(c, Start, first);
    assert Reachable(c, u);
    TwoWrites(Sent(), Sent().(phase := Running));
    var n := 2 * Retries(c.crs[id].maxRetries) + 1;
    var clock := (i: nat) => 0;
    TurnsWrite(c, u, id, n, clock);
    acts := TurnsRun(c, first, id, n, clock);
    PostedStays(c, first, acts, id, spec);
  }

  lemma {:induction false} BlankWrites(maxRetries: int, hist: seq<Job>)
    requires History(maxRetries, hist) && forall v | 0 <= v < |hist| :: hist[v].phase == Blank
    ensures StatusWrites(hist) == 0
    decreases |hist|
  {
    if |hist| > 1 {
      var prior := hist[..|hist| - 1];
      forall v | 0 < v < |prior| ensures EdgeAt(maxRetries, prior, v) { assert EdgeAt(maxRetries, hist, v); }
      BlankWrites(maxRetries, prior);
      assert EdgeAt(maxRetries, hist, |hist| - 1);
      HistorySound(maxRetries, hist, |hist| - 2);
      if !SameStatus(hist[|hist| - 2], hist[|hist| - 1]) {
        StatusChangeLegal(maxRetries, hist[|hist| - 2], hist[|hist| - 1]);
      }
    }
  }

  /** The bound of `Guarantees.WritesAgainstThisBackend` is reached by every object that can start. */
  lemma BoundIsReachedHere(c: Config, id: CrId, allowed: iset<T.Spec>)
    requires id in c.crs && forall i | i in c.crs :: ValidId(i)
    requires forall spec: T.Spec :: HexDigest(c.digest(PreImage(spec)))
    ensures (exists acts :: SendsOnly(acts, id, allowed) && WritesMost(c, acts, id)) <==> CanStart(c, id, allowed)
  {
    if CanStart(c, id, allowed) {
      var spec :| CanSend(c, id, allowed, spec);
      var acts := CanWriteMost(c, id, spec);
      PostedIsSent(c, acts, id, spec, allowed);
      assert SendsOnly(acts, id, allowed) && WritesMost(c, acts, id);
    } else {
      forall acts ensures !(SendsOnly(acts, id, allowed) && WritesMost(c, acts, id)) {
        if SendsOnly(acts, id, allowed) && WritesMost(c, acts, id) {
          var s := Exec(c, Start, acts);
          assert Reachable(c, s);
          ReachedHistory(c, s, id);
          if !Leaves(c, acts, id) { BlankWrites(c.crs[id].maxRetries, s.hists[id]); }
          LeavesCanStart(c, acts, id, allowed);
        }
      }
    }
  }
}
