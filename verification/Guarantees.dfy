/** What holds for every BenchmarkJob in every reachable state of the whole platform. */
module Guarantees {
  import opened Keys
  import opened Operator
  import T = Types
  import opened Tables
  import opened Tallies
  import B = Backend
  import opened Accounting
  import opened Lifecycle
  import opened Endings
  import opened Platform

  /** The POSTs whose sender chose the key of BenchmarkJob `id` carry submissions from `allowed`. */
  ghost predicate SendsOnly(acts: seq<Action>, id: CrId, allowed: iset<T.Spec>)
  {
    forall i | 0 <= i < |acts| && acts[i].Submit? && acts[i].client == Explicit(OperatorKey(id)) ::
      acts[i].spec in allowed
  }

  /** Every request under the key of `id` carries the submission of `id`, or one from `allowed`. */
  ghost predicate UnderKey(c: Config, s: State, id: CrId, allowed: iset<T.Spec>)
    requires id in c.crs
  {
    forall h | 0 <= h < |s.b.handlers| && s.b.handlers[h].key == OperatorKey(id) ::
      s.b.handlers[h].spec == c.crs[id].spec || s.b.handlers[h].spec in allowed
  }

  /** Only a client that chooses a key can bring another submission under it: other BenchmarkJobs,
      the provider and requests without a key never do. */
  lemma {:induction false} KeysRespectedUnlessForged(c: Config, acts: seq<Action>, id: CrId, allowed: iset<T.Spec>)
    requires id in c.crs && forall i | i in c.crs :: ValidId(i)
    requires forall spec: T.Spec :: HexDigest(c.digest(PreImage(spec)))
    requires SendsOnly(acts, id, allowed)
    ensures UnderKey(c, Exec(c, Start, acts), id, allowed)
    decreases |acts|
  {
    if acts != [] {
      var n := |acts| - 1;
      KeysRespectedUnlessForged(c, acts[..n], id, allowed);
      PlatformAlways(c, acts[..n]);
      ArrivalRespects(c, Exec(c, Start, acts[..n]), acts[n], id, allowed);
    }
  }

  lemma ArrivalRespects(c: Config, s: State, a: Action, id: CrId, allowed: iset<T.Spec>)
    requires id in c.crs && forall i | i in c.crs :: ValidId(i)
    requires PlatformInv(c, s) && UnderKey(c, s, id, allowed)
    requires forall spec: T.Spec :: HexDigest(c.digest(PreImage(spec)))
    requires a.Submit? && a.client == Explicit(OperatorKey(id)) ==> a.spec in allowed
    ensures UnderKey(c, Next(c, s, a), id, allowed)
  {
    var t := Next(c, s, a);
    forall h | 0 <= h < |t.b.handlers| && t.b.handlers[h].key == OperatorKey(id)
      ensures t.b.handlers[h].spec == c.crs[id].spec || t.b.handlers[h].spec in allowed
    {
      if h < |s.b.handlers| {
        BackLater(c, s, a);
        assert HandlerLater(s.b.handlers[h], t.b.handlers[h]);
      } else if a.Submit? {
        KeySpacesDisjoint(c.digest, id, a.client, a.spec);
      } else {
        NewHandler(c, s, a, h);
        assert RecOk(c, s, s.recs[a.r]);
        OperatorKeysInjective(id, s.recs[a.r].id);
      }
    }
  }

  /** The backend step that a platform step contains, if any. */
  function BackPart(c: Config, s: State, a: Action): T.Option<B.Action>
  {
    match a
    case Back(ba) => if ba.Arrive? then T.None else T.Some(ba)
    case Submit(client, spec) =>
      if client.Operator? then T.None else T.Some(B.Arrive(KeyOf(c.digest, client, spec), spec))
    case Send(r) =>
      if r < |s.recs| && s.recs[r].pc.Fetched? && s.recs[r].id in s.hists && s.recs[r].id in c.crs
        && s.recs[r].v < |s.hists[s.recs[r].id]| && Submits(s.hists[s.recs[r].id][s.recs[r].v])
      then T.Some(B.Arrive(OperatorKey(s.recs[r].id), c.crs[s.recs[r].id].spec))
      else T.None
    case _ => T.None
  }

  lemma BackPartIs(c: Config, s: State, a: Action)
    ensures var ba := BackPart(c, s, a);
      Next(c, s, a).b == if ba.Some? then B.Next(c.limit, s.b, ba.value) else s.b
  {
  }

  lemma BackLater(c: Config, s: State, a: Action)
    requires Inv(c.limit, s.b)
    ensures Later(s.b, Next(c, s, a).b)
  {
    BackPartIs(c, s, a);
    var ba := BackPart(c, s, a);
    if ba.Some? { StepLater(c.limit, s.b, ba.value); } else { LaterRefl(s.b); }
  }

  lemma NewHandler(c: Config, s: State, a: Action, h: nat)
    requires |s.b.handlers| <= h < |Next(c, s, a).b.handlers| && !a.Submit?
    ensures a.Send? && a.r < |s.recs| && s.recs[a.r].id in c.crs
    ensures var x := Next(c, s, a).b.handlers[h]; var id := s.recs[a.r].id;
      x.key == OperatorKey(id) && x.spec == c.crs[id].spec
  {
    if a.Back? { SameHandlers(c.limit, s.b, a.a); }
  }

  lemma SameHandlers(limit: int, b: B.State, ba: B.Action)
    requires !ba.Arrive?
    ensures |B.Next(limit, b, ba).handlers| == |b.handlers|
  {
  }

  /** What the invariant says about one stored version. */
  lemma ReachedVersion(c: Config, s: State, id: CrId, v: nat)
    requires Reachable(c, s) && id in s.hists && v < |s.hists[id]|
    ensures id in c.crs && History(c.crs[id].maxRetries, s.hists[id])
      && Sound(c.crs[id].maxRetries, s.hists[id][v]) && Coupled(s.b.db, s.saw, id, s.hists[id][v])
  {
    PlatformReachable(c, s);
    assert HistOk(c, s, id);
    HistSound(c, s, id, v);
  }

  lemma ReachedHistory(c: Config, s: State, id: CrId)
    requires Reachable(c, s) && id in s.hists
    ensures id in c.crs && History(c.crs[id].maxRetries, s.hists[id])
  {
    PlatformReachable(c, s);
    assert HistOk(c, s, id);
  }

  /** What it says about the row under the key of a BenchmarkJob, and about that row's result. */
  lemma ReachedRow(c: Config, s: State, key: string)
    requires Reachable(c, s) && key in s.b.db.index
    ensures var b := s.b.db.index[key];
      && b in s.b.db.rows && s.b.db.rows[b].key == key && RowOk(s.b.db, b)
      && Submission.OriginOk(s.b, b) && (b in s.b.db.results ==> ResultOk(s.b, b))
      && Conservation.CreatedOnceAt(s.b, b) && CountOk(c.limit, s.b, b)
      && (forall i | i in s.b.db.rows && s.b.db.rows[i].key == key :: i == b)
  {
    PlatformReachable(c, s);
    assert KeyOk(s.b.db, key);
    var b := s.b.db.index[key];
    assert RowOk(s.b.db, b) && Submission.OriginOk(s.b, b) && CountOk(c.limit, s.b, b);
    assert Conservation.CreatedOnceAt(s.b, b);
    forall i | i in s.b.db.rows && s.b.db.rows[i].key == key ensures i == b { assert RowOk(s.b.db, i); }
  }

  /** End-to-end provenance: a Completed BenchmarkJob shows all three metrics of the result row of
      the one benchmark under its key; that row came from an engine run on the submission that the
      benchmark was created with, by a request under that key. `Exactness.OwnResultsExactly` says
      when this is the BenchmarkJob's own submission. */
  lemma Provenance(c: Config, s: State, id: CrId, v: nat)
    requires Reachable(c, s)
    requires id in s.hists && v < |s.hists[id]| && s.hists[id][v].phase == Completed
    ensures var db := s.b.db; var j := s.hists[id][v];
      && id in c.crs && OperatorKey(id) in db.index
      && var b := db.index[OperatorKey(id)];
      && b in db.rows && (forall i | i in db.rows && db.rows[i].key == OperatorKey(id) :: i == b)
      && j.jobId == T.Some(b)
      && db.rows[b].status == T.Completed && Reports(db, b, j)
      && db.rows[b].modelId in db.models
      && B.Run(b, SpecOf(db, b), T.Some(db.results[b].metrics)) in s.b.log.runs
      && b in s.b.log.origin && s.b.log.origin[b] < |s.b.handlers|
      && var creator := s.b.handlers[s.b.log.origin[b]];
      && creator.key == OperatorKey(id) && creator.spec == SpecOf(db, b)
      && T.Admissible(OperatorKey(id), SpecOf(db, b))
  {
    ReachedVersion(c, s, id, v);
    ReachedRow(c, s, OperatorKey(id));
  }

  /** Cross-layer coupling of every stored version, old ones included. */
  lemma LayersCoupled(c: Config, s: State, id: CrId, v: nat)
    requires Reachable(c, s) && id in s.hists && v < |s.hists[id]|
    ensures var j := s.hists[id][v]; var db := s.b.db;
      && id in c.crs
      && (j.jobId.Some? <==> j.phase != Blank && j.phase != Pending)
      && (j.jobId.Some? ==> j.jobId.value in db.rows && db.rows[j.jobId.value].key == OperatorKey(id))
      && (j.phase == Running ==> db.rows[j.jobId.value].status != T.Queued)
      && (j.phase == Completed ==> db.rows[j.jobId.value].status == T.Completed)
      && (j.phase == Failed ==>
            db.rows[j.jobId.value].status == T.Failed && j.retryCount == Retries(c.crs[id].maxRetries))
      && (j.completionTime.Some? <==> Terminal(j.phase))
      && (j.jobId.Some? && !j.deleting ==> j.finalizer)
  {
    ReachedVersion(c, s, id, v);
    if s.hists[id][v].jobId.Some? { ReachedRow(c, s, OperatorKey(id)); }
  }

  /** Retries never revive a job: a version with a retry means a benchmark that has failed for good,
      so no version after it is Running or Completed, and Completed means no retry. */
  lemma RetriesNeverRevive(c: Config, s: State, id: CrId, v: nat, w: nat)
    requires Reachable(c, s) && id in s.hists && v <= w < |s.hists[id]|
    ensures var j, k := s.hists[id][v], s.hists[id][w];
      && (j.retryCount > 0 ==>
            && OperatorKey(id) in s.b.db.index && s.b.db.index[OperatorKey(id)] in s.b.db.rows
            && s.b.db.rows[s.b.db.index[OperatorKey(id)]].status == T.Failed
            && k.phase != Running && k.phase != Completed && k.retryCount >= j.retryCount)
      && (j.phase == Completed ==> j.retryCount == 0)
  {
    ReachedVersion(c, s, id, v);
    ReachedVersion(c, s, id, w);
    RetryCountGrows(c.crs[id].maxRetries, s.hists[id], v, w);
  }

  /** The retries in numbers: a Failed object has used up `maxRetries` of them, with 0 read as 3 and
      a negative number as none, and a poll that says "failed" leads to one more if and only if the
      count is below that. */
  lemma RetriesInNumbers(c: Config, s: State, id: CrId, v: nat)
    requires Reachable(c, s) && id in s.hists && v < |s.hists[id]|
    ensures id in c.crs
    ensures var j := s.hists[id][v]; var m := c.crs[id].maxRetries;
      var most := if m > 0 then m else if m == 0 then 3 else 0;
      && 0 <= j.retryCount <= most && (j.phase == Failed ==> j.retryCount == most)
      && ((j.phase == Submitted || j.phase == Running) && !j.deleting ==>
            forall result, now ::
              var w := Reconciled(m, j, Polled("failed", result), now);
              && w.Some? && (w.value.phase == Pending || w.value.phase == Failed)
              && (w.value.phase == Pending <==> j.retryCount < most))
  {
    ReachedVersion(c, s, id, v);
    var j := s.hists[id][v];
    if (j.phase == Submitted || j.phase == Running) && !j.deleting {
      forall result, now
        ensures var m := c.crs[id].maxRetries;
          var most := if m > 0 then m else if m == 0 then 3 else 0;
          var w := Reconciled(m, j, Polled("failed", result), now);
          && w.Some? && (w.value.phase == Pending || w.value.phase == Failed)
          && (w.value.phase == Pending <==> j.retryCount < most)
      {
        FailedPoll(c.crs[id].maxRetries, j, result, now);
      }
    }
  }

  lemma {:induction false} RetryCountGrows(maxRetries: int, hist: seq<Job>, v: nat, w: nat)
    requires History(maxRetries, hist) && v <= w < |hist|
    ensures hist[v].retryCount <= hist[w].retryCount
    decreases w
  {
    if v < w {
      RetryCountGrows(maxRetries, hist, v, w - 1);
      assert EdgeAt(maxRetries, hist, w);
    }
  }

  /** One BenchmarkJob, one job: over all versions, resubmissions and restarts, and also when no
      version carries a JobID yet, there is at most one benchmark under its key; every JobID is that
      benchmark, one message was pushed for it at most, and `maxRetries` has no part in the number
      of its engine runs. */
  lemma OneJob(c: Config, s: State, id: CrId)
    requires Reachable(c, s)
    ensures forall b | b in s.b.db.rows && s.b.db.rows[b].key == OperatorKey(id) ::
      && OperatorKey(id) in s.b.db.index && b == s.b.db.index[OperatorKey(id)]
      && s.b.log.pushed[b] <= 1
      && Tally(B.Engages, s.b.log.runs, b) <= T.MaxAttempts(c.limit)
    ensures forall v | id in s.hists && 0 <= v < |s.hists[id]| && s.hists[id][v].jobId.Some? ::
      var b := s.hists[id][v].jobId.value; b in s.b.db.rows && s.b.db.rows[b].key == OperatorKey(id)
  {
    forall b | b in s.b.db.rows && s.b.db.rows[b].key == OperatorKey(id)
      ensures OperatorKey(id) in s.b.db.index && b == s.b.db.index[OperatorKey(id)]
    {
      PlatformReachable(c, s);
      assert RowOk(s.b.db, b);
    }
    if OperatorKey(id) in s.b.db.index { ReachedRow(c, s, OperatorKey(id)); }
    forall v | id in s.hists && 0 <= v < |s.hists[id]| && s.hists[id][v].jobId.Some?
      ensures var b := s.hists[id][v].jobId.value; b in s.b.db.rows && s.b.db.rows[b].key == OperatorKey(id)
    {
      ReachedVersion(c, s, id, v);
      ReachedRow(c, s, OperatorKey(id));
    }
  }

  /** What one step does to the versions of one object. */
  ghost predicate OneEdge(c: Config, s: State, t: State, id: CrId)
    requires id in s.hists
  {
    && id in t.hists && id in c.crs && |s.hists[id]| > 0
    && (t.hists[id] == s.hists[id]
        || (&& |t.hists[id]| == |s.hists[id]| + 1
            && t.hists[id] == s.hists[id] + [Tip(t, id)]
            && !Operator.Gone(Tip(s, id))
            && Edge(c.crs[id].maxRetries, Tip(s, id), Tip(t, id))))
  }

  lemma StoreOneEdge(c: Config, s: State, r: nat, id: CrId)
    requires r < |s.recs| && s.recs[r].pc.Writing? && RecOk(c, s, s.recs[r])
    requires id in s.hists && id in c.crs && |s.hists[id]| > 0
    ensures OneEdge(c, s, StoreNext(s, r), id)
  {
  }

  lemma OtherOneEdge(c: Config, s: State, a: Action, id: CrId)
    requires id in s.hists && id in c.crs && |s.hists[id]| > 0 && !a.Store?
    ensures OneEdge(c, s, Next(c, s, a), id)
    ensures SameStatus(Tip(s, id), Tip(Next(c, s, a), id))
  {
    if a.Send? && a.r < |s.recs| { assert SendNext(c, s, a.r).hists == s.hists; }
    if a.Hear? && a.r < |s.recs| { assert HearNext(c, s, a.r, a.now).hists == s.hists; }
  }

  /** Refinement: whatever the interleaving, one step leaves the stored versions of a BenchmarkJob
      as they are, or adds one edge of the atomic phase machine to the latest of them. */
  lemma RefinesPhaseMachine(c: Config, s: State, a: Action, id: CrId)
    requires Reachable(c, s) && id in s.hists
    ensures OneEdge(c, s, Next(c, s, a), id)
  {
    PlatformReachable(c, s);
    assert HistOk(c, s, id);
    StepOneEdge(c, s, a, id);
  }

  lemma StepOneEdge(c: Config, s: State, a: Action, id: CrId)
    requires id in s.hists && HistOk(c, s, id)
    requires a.Store? && a.r < |s.recs| ==> RecOk(c, s, s.recs[a.r])
    ensures OneEdge(c, s, Next(c, s, a), id)
  {
    if a.Store? && a.r < |s.recs| && s.recs[a.r].pc.Writing? {
      StoreOneEdge(c, s, a.r, id);
    } else if !a.Store? {
      OtherOneEdge(c, s, a, id);
    }
  }

  /** So every status change on record is a legal phase change of an object that is not being
      deleted, and Completed, Failed and deletion freeze the status. */
  lemma StatusChangesLegal(c: Config, s: State, id: CrId, v: nat, w: nat)
    requires Reachable(c, s) && id in s.hists && v < w < |s.hists[id]|
    ensures var j, k := s.hists[id][w - 1], s.hists[id][w];
      && (!SameStatus(j, k) ==> LegalPhase(j.phase, k.phase) && !j.deleting && !k.deleting && k.finalizer)
      && (Terminal(s.hists[id][v].phase) || s.hists[id][v].deleting ==> SameStatus(s.hists[id][v], k))
  {
    ReachedVersion(c, s, id, w - 1);
    assert EdgeAt(c.crs[id].maxRetries, s.hists[id], w);
    if !SameStatus(s.hists[id][w - 1], s.hists[id][w]) {
      StatusChangeLegal(c.crs[id].maxRetries, s.hists[id][w - 1], s.hists[id][w]);
    }
    if Terminal(s.hists[id][v].phase) || s.hists[id][v].deleting {
      FrozenAfter(c.crs[id].maxRetries, s.hists[id], v, w);
    }
  }

  // ---- how many writes ----

  /** The status writes that may still come against this backend, where a retry never runs. */
  function AheadHere(maxRetries: int, j: Job): nat
    requires 0 <= j.retryCount <= Retries(maxRetries)
  {
    if Terminal(j.phase) then 0
    else if j.retryCount > 0 then 2 * (Retries(maxRetries) - j.retryCount) + (if j.phase == Pending then 2 else 1)
    else 2 * Retries(maxRetries) + (if j.phase == Running then 1 else if j.phase == Submitted then 2 else 3)
  }

  predicate RunsFirst(j: Job) { j.phase == Running || j.phase == Completed ==> j.retryCount == 0 }

  lemma AheadHereFalls(maxRetries: int, j: Job, k: Job)
    requires Sound(maxRetries, j) && Edge(maxRetries, j, k) && RunsFirst(j) && RunsFirst(k)
    ensures Sound(maxRetries, k)
    ensures if SameStatus(j, k) then AheadHere(maxRetries, k) == AheadHere(maxRetries, j)
            else AheadHere(maxRetries, k) < AheadHere(maxRetries, j)
  {
  }

  lemma {:induction false} HistoryBoundHere(maxRetries: int, hist: seq<Job>)
    requires History(maxRetries, hist) && forall v | 0 <= v < |hist| :: RunsFirst(hist[v])
    ensures Sound(maxRetries, hist[|hist| - 1])
    ensures StatusWrites(hist) + AheadHere(maxRetries, hist[|hist| - 1]) <= 2 * Retries(maxRetries) + 3
    decreases |hist|
  {
    if |hist| > 1 {
      var prior := hist[..|hist| - 1];
      forall v | 0 < v < |prior| ensures EdgeAt(maxRetries, prior, v) { assert EdgeAt(maxRetries, hist, v); }
      HistoryBoundHere(maxRetries, prior);
      assert EdgeAt(maxRetries, hist, |hist| - 1);
      AheadHereFalls(maxRetries, hist[|hist| - 2], hist[|hist| - 1]);
    }
  }

  /** Termination against this backend: at most 2R+3 status writes in the life of a BenchmarkJob. */
  lemma WritesAgainstThisBackend(c: Config, s: State, id: CrId)
    requires Reachable(c, s) && id in s.hists
    ensures id in c.crs
    ensures StatusWrites(s.hists[id]) <= 2 * Retries(c.crs[id].maxRetries) + 3
  {
    ReachedHistory(c, s, id);
    forall v | 0 <= v < |s.hists[id]| ensures RunsFirst(s.hists[id][v]) { ReachedVersion(c, s, id, v); }
    HistoryBoundHere(c.crs[id].maxRetries, s.hists[id]);
  }

  // ---- Completed needs a poll that saw "running" ----

  /** The benchmark is completed, the stored object is not yet Running, and no reconciler is about
      to store Running on the latest version. */
  ghost predicate Missed(s: State, id: CrId)
  {
    && id in s.hists && |s.hists[id]| > 0
    && OperatorKey(id) in s.b.db.index && s.b.db.index[OperatorKey(id)] in s.b.db.rows
    && s.b.db.rows[s.b.db.index[OperatorKey(id)]].status == T.Completed
    && (Tip(s, id).phase == Blank || Tip(s, id).phase == Pending || Tip(s, id).phase == Submitted)
    && (forall r | 0 <= r < |s.recs| && s.recs[r].id == id && s.recs[r].v + 1 == |s.hists[id]| ::
          s.recs[r].pc.Writing? ==> s.recs[r].pc.job.phase != Running)
  }

  /** A write other than Running cannot leave the early phases, since the benchmark has not failed. */
  lemma MissedWrite(db: Db, saw: set<CrId>, id: CrId, maxRetries: int, j: Job, k: Job)
    requires ReconcileEdge(maxRetries, j, k) && Coupled(db, saw, id, k) && k.phase != Running
    requires j.phase in {Blank, Pending, Submitted}
    requires OperatorKey(id) in db.index && db.index[OperatorKey(id)] in db.rows
    requires db.rows[db.index[OperatorKey(id)]].status == T.Completed
    ensures k.phase in {Blank, Pending, Submitted}
  {
  }

  lemma MissedStore(c: Config, s: State, r: nat, id: CrId)
    requires HistOkAt(c, s, id) && Missed(s, id)
    requires r < |s.recs| && s.recs[r].pc.Writing? && RecOk(c, s, s.recs[r])
    ensures var t := StoreNext(s, r);
      id in t.hists && |t.hists[id]| > 0 && Tip(t, id).phase in {Blank, Pending, Submitted}
  {
    var x := s.recs[r];
    if x.id == id && x.v + 1 == |s.hists[id]| {
      MissedWrite(s.b.db, s.saw, id, c.crs[id].maxRetries, Tip(s, id), x.pc.job);
    }
  }

  lemma MissedTip(c: Config, s: State, a: Action, id: CrId)
    requires HistOkAt(c, s, id) && Missed(s, id)
    requires a.Store? && a.r < |s.recs| ==> RecOk(c, s, s.recs[a.r])
    ensures var t := Next(c, s, a);
      id in t.hists && |t.hists[id]| > 0 && Tip(t, id).phase in {Blank, Pending, Submitted}
  {
    if a.Store? && a.r < |s.recs| && s.recs[a.r].pc.Writing? {
      MissedStore(c, s, a.r, id);
    } else if !a.Store? {
      OtherOneEdge(c, s, a, id);
    }
  }

  lemma MissedRow(c: Config, s: State, a: Action, id: CrId)
    requires PlatformInv(c, s) && Missed(s, id)
    ensures var t := Next(c, s, a);
      && OperatorKey(id) in t.b.db.index && t.b.db.index[OperatorKey(id)] in t.b.db.rows
      && t.b.db.rows[t.b.db.index[OperatorKey(id)]].status == T.Completed
  {
    BackLater(c, s, a);
    assert RowLater(s.b.db, Next(c, s, a).b.db, s.b.db.index[OperatorKey(id)]);
  }

  /** No reconciler comes to hold a write of Running on the latest version. */
  lemma MissedRec(c: Config, s: State, a: Action, id: CrId, r: nat)
    requires HistOkAt(c, s, id) && Missed(s, id)
    requires r < |s.recs| && s.recs[r].id == id && s.recs[r].v + 1 == |s.hists[id]|
    requires r < |Next(c, s, a).recs| && Next(c, s, a).recs[r].pc.Writing?
    ensures Next(c, s, a).recs[r].pc.job.phase != Running
  {
    var j := Tip(s, id);
    var m := c.crs[id].maxRetries;
    StatusNamesDiffer(s.b.db.rows[s.b.db.index[OperatorKey(id)]].status);
    RunningNeedsPoll(m, j, NoAnswer, 0);
    if a.Hear? && a.r == r {
      RunningNeedsPoll(m, j, GetReply(s.b.db, j.jobId), a.now);
      if s.recs[r].pc.Posted? && s.recs[r].pc.h < |s.b.handlers| {
        RunningNeedsPoll(m, j, PostReply(s.b.handlers[s.recs[r].pc.h].pc), a.now);
      }
    }
  }

  /** What is needed of the invariant here. */
  ghost predicate HistOkAt(c: Config, s: State, id: CrId)
  {
    id in s.hists && id in c.crs && |s.hists[id]| > 0 && Coupled(s.b.db, s.saw, id, Tip(s, id))
  }

  lemma MissedRecs(c: Config, s: State, a: Action, id: CrId)
    requires PlatformInv(c, s) && HistOkAt(c, s, id) && Missed(s, id) && id in Next(c, s, a).hists
    ensures var t := Next(c, s, a);
      forall r | 0 <= r < |t.recs| && t.recs[r].id == id && t.recs[r].v + 1 == |t.hists[id]| && t.recs[r].pc.Writing? ::
        t.recs[r].pc.job.phase != Running
  {
    var t := Next(c, s, a);
    forall r | 0 <= r < |t.recs| && t.recs[r].id == id && t.recs[r].v + 1 == |t.hists[id]| && t.recs[r].pc.Writing?
      ensures t.recs[r].pc.job.phase != Running
    {
      RecsFollow(c, s, a, id, r);
      MissedRec(c, s, a, id, r);
    }
  }

  lemma MissedStep(c: Config, s: State, a: Action, id: CrId)
    requires PlatformInv(c, s) && Missed(s, id)
    ensures Missed(Next(c, s, a), id)
  {
    assert HistOk(c, s, id);
    assert HistOkAt(c, s, id);
    if a.Store? && a.r < |s.recs| { assert RecOk(c, s, s.recs[a.r]); }
    MissedTip(c, s, a, id);
    MissedRow(c, s, a, id);
    MissedRecs(c, s, a, id);
  }

  /** A reconciler that is about to write on the latest version was there before the step, and so
      was that version. */
  lemma RecsFollow(c: Config, s: State, a: Action, id: CrId, r: nat)
    requires PlatformInv(c, s) && id in s.hists
    requires var t := Next(c, s, a);
      id in t.hists && r < |t.recs| && t.recs[r].id == id && t.recs[r].v + 1 == |t.hists[id]| && t.recs[r].pc.Writing?
    ensures r < |s.recs| && s.recs[r].id == id && s.recs[r].v == Next(c, s, a).recs[r].v
    ensures |Next(c, s, a).hists[id]| == |s.hists[id]|
  {
    RecsKeep(c, s, a);
    assert HistOk(c, s, id) && RecOk(c, s, s.recs[r]);
    if a.Store? && a.r < |s.recs| { assert RecOk(c, s, s.recs[a.r]); }
    StepOneEdge(c, s, a, id);
  }

  lemma {:induction false} MissedForever(c: Config, s: State, acts: seq<Action>, id: CrId)
    requires PlatformInv(c, s) && Missed(s, id)
    ensures PlatformInv(c, Exec(c, s, acts)) && Missed(Exec(c, s, acts), id)
    decreases |acts|
  {
    if acts != [] {
      MissedForever(c, s, acts[..|acts| - 1], id);
      PlatformStep(c, Exec(c, s, acts[..|acts| - 1]), acts[|acts| - 1]);
      MissedStep(c, Exec(c, s, acts[..|acts| - 1]), acts[|acts| - 1], id);
    }
  }

  /** A BenchmarkJob that missed the run never becomes Running or Completed, whatever happens next. */
  lemma MissedNeverCompletes(c: Config, s: State, after: seq<Action>, id: CrId)
    requires Reachable(c, s) && Missed(s, id)
    ensures var t := Exec(c, s, after);
      id in t.hists && |t.hists[id]| > 0 && Tip(t, id).phase in {Blank, Pending, Submitted}
  {
    PlatformReachable(c, s);
    MissedForever(c, s, after, id);
  }

  /** Completed occurs only if some poll of this BenchmarkJob returned "running". */
  lemma CompletedSawRunning(c: Config, s: State, id: CrId, v: nat)
    requires Reachable(c, s)
    requires id in s.hists && v < |s.hists[id]| && s.hists[id][v].phase == Completed
    ensures id in s.saw
  {
    ReachedVersion(c, s, id, v);
  }

  // ---- a job that is lost ----

  /** What happens to the platform happens to the backend, where a stuck benchmark stays stuck. */
  lemma {:induction false} StuckFrom(c: Config, s: State, acts: seq<Action>, b: T.Uuid)
    requires PlatformInv(c, s) && b in s.b.db.rows && Stuck(c.limit, s.b, b)
    ensures var t := Exec(c, s, acts);
      PlatformInv(c, t) && Later(s.b, t.b) && b in t.b.db.rows && Stuck(c.limit, t.b, b)
    decreases |acts|
  {
    if acts == [] {
      LaterRefl(s.b);
    } else {
      var n := |acts| - 1;
      var t := Exec(c, s, acts[..n]);
      StuckFrom(c, s, acts[..n], b);
      PlatformStep(c, t, acts[n]);
      BackLater(c, t, acts[n]);
      LaterTrans(s.b, t.b, Next(c, t, acts[n]).b);
      BackPartIs(c, t, acts[n]);
      var ba := BackPart(c, t, acts[n]);
      if ba.Some? { StuckStep(c.limit, t.b, ba.value, b); }
    }
  }

  /** A crash at the wrong place is final: nothing that happens later brings a stuck benchmark to an
      end, nor its BenchmarkJob, which has no time-out. */
  lemma StuckNeverEnds(c: Config, s: State, after: seq<Action>, id: CrId)
    requires Reachable(c, s) && OperatorKey(id) in s.b.db.index
    requires s.b.db.index[OperatorKey(id)] in s.b.db.rows && Stuck(c.limit, s.b, s.b.db.index[OperatorKey(id)])
    ensures var t := Exec(c, s, after);
      && !Ended(t.b, s.b.db.index[OperatorKey(id)])
      && (id in t.hists ==> forall v | 0 <= v < |t.hists[id]| :: !Terminal(t.hists[id][v].phase))
  {
    var b := s.b.db.index[OperatorKey(id)];
    var t := Exec(c, s, after);
    PlatformReachable(c, s);
    StuckFrom(c, s, after, b);
    assert t.b.db.index[OperatorKey(id)] == b;
    StuckUnfinished(c.limit, t.b, b);
    if id in t.hists {
      assert HistOk(c, t, id);
      forall v | 0 <= v < |t.hists[id]| ensures !Terminal(t.hists[id][v].phase) {
        assert Coupled(t.b.db, t.saw, id, t.hists[id][v]);
      }
    }
  }
}
