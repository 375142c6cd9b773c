/** Which BenchmarkJobs can still come to an end. */
module ObjectEndings {
  import opened Keys
  import opened Operator
  import T = Types
  import B = Backend
  import opened Accounting
  import opened Lifecycle
  import W = WorkerRuns
  import opened Endings
  import opened Platform
  import opened Guarantees
  import opened Admission
  import opened Progress
  import opened Witnesses
  import opened Exactness

  /** The actions `after` bring the object to Completed or Failed. */
  predicate Finishes(c: Config, s: State, id: CrId, after: seq<Action>)
  {
    var t := Exec(c, s, after);
    id in t.hists && |t.hists[id]| > 0 && Terminal(Tip(t, id).phase)
  }

  ghost predicate CanFinish(c: Config, s: State, id: CrId)
  {
    exists after :: Finishes(c, s, id, after)
  }

  lemma Onward(c: Config, s: State, acts: seq<Action>, id: CrId)
    requires CanFinish(c, Exec(c, s, acts), id)
    ensures CanFinish(c, s, id)
  {
    var more :| Finishes(c, Exec(c, s, acts), id, more);
    ExecConcat(c, s, acts, more);
    assert Finishes(c, s, id, acts + more);
  }

  lemma OnwardBackend(c: Config, s: State, bs: seq<B.Action>, id: CrId)
    requires W.NoArrivals(bs) && CanFinish(c, s.(b := B.Exec(c.limit, s.b, bs)), id)
    ensures CanFinish(c, s, id)
  {
    LiftRuns(c, s, bs);
    Onward(c, s, Lift(bs), id);
  }

  lemma ReachableBackend(c: Config, s: State, bs: seq<B.Action>)
    requires W.NoArrivals(bs) && Reachable(c, s)
    ensures Reachable(c, s.(b := B.Exec(c.limit, s.b, bs)))
  {
    LiftRuns(c, s, bs);
    ReachableFrom(c, s, Lift(bs));
  }

  lemma ReachedInv(c: Config, s: State)
    requires Reachable(c, s)
    ensures Inv(c.limit, s.b)
  {
    PlatformReachable(c, s);
  }

  // ---- once the benchmark has ended ----

  /** The object is there, is not being deleted, and has this benchmark. */
  ghost predicate Alive(c: Config, s: State, id: CrId)
  {
    id in s.hists && |s.hists[id]| > 0 && id in c.crs && !Tip(s, id).deleting
  }

  ghost predicate HasRow(s: State, id: CrId)
  {
    OperatorKey(id) in s.b.db.index && s.b.db.index[OperatorKey(id)] in s.b.db.rows
  }

  function RowId(s: State, id: CrId): T.Uuid
    requires HasRow(s, id)
  {
    s.b.db.index[OperatorKey(id)]
  }

  /** The next reconcile adds the finalizer, if it is missing. */
  lemma AddsFinalizer(c: Config, s: State, id: CrId) returns (acts: seq<Action>)
    requires Alive(c, s, id)
    ensures var t := Exec(c, s, acts);
      && Alive(c, t, id) && Tip(t, id) == Tip(s, id).(finalizer := true) && SameButHandlers(s.b, t.b)
  {
    acts := [];
    if !Tip(s, id).finalizer {
      acts := Script(s, id, 0);
      TurnWrites(c, s, id, 0);
    }
  }

  lemma FailedFinishes(c: Config, s: State, id: CrId)
    requires Reachable(c, s) && Alive(c, s, id) && Admitted(c, id)
    requires HasRow(s, id) && s.b.db.rows[RowId(s, id)].status == T.Failed
    ensures CanFinish(c, s, id)
  {
    var first := AddsFinalizer(c, s, id);
    var t := Exec(c, s, first);
    ReachableFrom(c, s, first);
    FailedTurns(c, t, id);
    Onward(c, s, first, id);
  }

  lemma FailedTurns(c: Config, s: State, id: CrId)
    requires Reachable(c, s) && Alive(c, s, id) && Admitted(c, id) && Stands(s, id, T.Failed)
    ensures CanFinish(c, s, id)
  {
    StandsTracks(c, s, id, T.Failed);
    var n := Left(c.crs[id].maxRetries, Tip(s, id));
    var clock := (i: nat) => 0;
    FailedExactly(c, s, id, n, clock);
    var acts := TurnsFrom(c, s, id, n, clock);
    assert Finishes(c, s, id, acts);
  }

  lemma CompletedFinishes(c: Config, s: State, id: CrId)
    requires Reachable(c, s) && id in s.hists && |s.hists[id]| > 0 && BenchmarkDone(s, id) && CanComplete(s, id)
    ensures CanFinish(c, s, id)
  {
    var after := CanCompleteCompletes(c, s, id);
    assert Completes(c, s, id, after);
    assert Finishes(c, s, id, after);
  }

  // ---- while it has not ----

  lemma ReachedCanEnd(c: Config, s: State, id: CrId) returns (bs: seq<B.Action>)
    requires Reachable(c, s) && HasRow(s, id) && !Stuck(c.limit, s.b, RowId(s, id))
    ensures Ended(B.Exec(c.limit, s.b, bs), RowId(s, id)) && W.NoArrivals(bs)
  {
    ReachedInv(c, s);
    bs := CanEnd(c.limit, s.b, RowId(s, id));
  }

  lemma ReachedCanRun(c: Config, s: State, id: CrId) returns (bs: seq<B.Action>)
    requires Reachable(c, s) && HasRow(s, id) && !Stuck(c.limit, s.b, RowId(s, id))
    requires s.b.db.rows[RowId(s, id)].status != T.Completed
    ensures Seeable(B.Exec(c.limit, s.b, bs), RowId(s, id)) && W.NoArrivals(bs)
  {
    ReachedInv(c, s);
    bs := CanRun(c.limit, s.b, RowId(s, id));
  }

  /** The backend moves on alone; what the object can come to from there, it can come to. */
  lemma BackendRun(c: Config, s: State, id: CrId, bs: seq<B.Action>) returns (t: State)
    requires Reachable(c, s) && HasRow(s, id) && W.NoArrivals(bs)
    ensures t == s.(b := t.b) && t.b == B.Exec(c.limit, s.b, bs) && Reachable(c, t)
    ensures HasRow(t, id) && RowId(t, id) == RowId(s, id)
    ensures CanFinish(c, t, id) ==> CanFinish(c, s, id)
  {
    t := s.(b := B.Exec(c.limit, s.b, bs));
    ReachableBackend(c, s, bs);
    BackendKeepsRow(c, s, id, bs);
    if CanFinish(c, t, id) { OnwardBackend(c, s, bs, id); }
  }

  lemma BackendKeepsRow(c: Config, s: State, id: CrId, bs: seq<B.Action>)
    requires Reachable(c, s) && HasRow(s, id)
    ensures var db := B.Exec(c.limit, s.b, bs).db;
      OperatorKey(id) in db.index && db.index[OperatorKey(id)] == RowId(s, id) && RowId(s, id) in db.rows
  {
    ReachedInv(c, s);
    InvFrom(c.limit, s.b, bs);
    assert RowLater(s.b.db, B.Exec(c.limit, s.b, bs).db, RowId(s, id));
  }

  /** A Running object goes the way of its benchmark. */
  lemma RunningFinishes(c: Config, s: State, id: CrId)
    requires Reachable(c, s) && Alive(c, s, id) && Tip(s, id).phase == Running
    requires HasRow(s, id) && !Stuck(c.limit, s.b, RowId(s, id))
    ensures CanFinish(c, s, id)
  {
    RefusedStaysBlank(c, s, id, |s.hists[id]| - 1);
    var bs := ReachedCanEnd(c, s, id);
    var t := BackendRun(c, s, id, bs);
    if t.b.db.rows[RowId(t, id)].status == T.Failed {
      FailedFinishes(c, t, id);
    } else {
      CompletedFinishes(c, t, id);
    }
  }

  /** An early object of a benchmark that a worker has marked is submitted, seen running, and then
      goes its way. */
  lemma MarkedFinishes(c: Config, s: State, id: CrId)
    requires Reachable(c, s) && Alive(c, s, id) && Admitted(c, id) && Tip(s, id).finalizer
    requires HasRow(s, id) && Marked(s.b, RowId(s, id))
    ensures CanFinish(c, s, id)
  {
    ReachedInv(c, s);
    MarkedNotStuck(c.limit, s.b, RowId(s, id));
    MarkedPhase(c, s, id);
    if Tip(s, id).phase == Running {
      RunningFinishes(c, s, id);
    } else if Tip(s, id).phase == Submitted {
      SubmittedFinishes(c, s, id);
    } else {
      var t := GetsSubmittedThere(c, s, id);
      SubmittedFinishes(c, t, id);
      Onward(c, s, Script(s, id, 0), id);
    }
  }

  lemma GetsSubmittedThere(c: Config, s: State, id: CrId) returns (t: State)
    requires Reachable(c, s) && Alive(c, s, id) && Admitted(c, id) && HasRow(s, id)
    requires Tip(s, id).finalizer && Tip(s, id).phase == Blank
    ensures t == Exec(c, s, Script(s, id, 0)) && Reachable(c, t) && SameButHandlers(s.b, t.b)
    ensures Alive(c, t, id) && Tip(t, id).finalizer && Tip(t, id).phase == Submitted
  {
    TurnWrites(c, s, id, 0);
    ReachableFrom(c, s, Script(s, id, 0));
    t := Turn(c, s, id, 0);
  }

  lemma MarkedPhase(c: Config, s: State, id: CrId)
    requires Reachable(c, s) && Alive(c, s, id) && HasRow(s, id) && s.b.db.rows[RowId(s, id)].status == T.Running
    ensures Tip(s, id).phase in {Blank, Submitted, Running}
  {
    ReachedVersion(c, s, id, |s.hists[id]| - 1);
  }

  lemma SubmittedFinishes(c: Config, s: State, id: CrId)
    requires Reachable(c, s) && Alive(c, s, id) && Tip(s, id).finalizer && Tip(s, id).phase == Submitted
    requires HasRow(s, id) && Marked(s.b, RowId(s, id))
    ensures CanFinish(c, s, id)
  {
    ReachedInv(c, s);
    MarkedNotStuck(c.limit, s.b, RowId(s, id));
    SeesRunning(c, s, id);
    var t := Turn(c, s, id, 0);
    ReachableFrom(c, s, Script(s, id, 0));
    ReachedInv(c, t);
    MarkedNotStuck(c.limit, t.b, RowId(t, id));
    RunningFinishes(c, t, id);
    Onward(c, s, Script(s, id, 0), id);
  }

  lemma SeesRunning(c: Config, s: State, id: CrId)
    requires Reachable(c, s) && Alive(c, s, id) && Tip(s, id).finalizer && Tip(s, id).phase == Submitted
    requires HasRow(s, id) && s.b.db.rows[RowId(s, id)].status == T.Running
    ensures var t := Turn(c, s, id, 0);
      Alive(c, t, id) && Tip(t, id).phase == Running && SameButHandlers(s.b, t.b)
  {
    ReachedVersion(c, s, id, |s.hists[id]| - 1);
    TurnWrites(c, s, id, 0);
    StatusNamesDiffer(T.Running);
  }

  /** An object whose benchmark has not ended and is not stuck. */
  lemma UnendedFinishes(c: Config, s: State, id: CrId)
    requires Reachable(c, s) && Alive(c, s, id) && Admitted(c, id)
    requires HasRow(s, id) && !Stuck(c.limit, s.b, RowId(s, id)) && s.b.db.rows[RowId(s, id)].status != T.Completed
    ensures CanFinish(c, s, id)
  {
    var bs := ReachedCanRun(c, s, id);
    var t := BackendRun(c, s, id, bs);
    if t.b.db.rows[RowId(t, id)].status == T.Failed {
      FailedFinishes(c, t, id);
    } else {
      MarkedGoesOn(c, t, id);
    }
  }

  lemma MarkedGoesOn(c: Config, s: State, id: CrId)
    requires Reachable(c, s) && Alive(c, s, id) && Admitted(c, id) && HasRow(s, id) && Marked(s.b, RowId(s, id))
    ensures CanFinish(c, s, id)
  {
    var first := AddsFinalizer(c, s, id);
    ReachableFrom(c, s, first);
    MarkedFinishes(c, Exec(c, s, first), id);
    Onward(c, s, first, id);
  }

  // ---- before there is one ----

  const Any := T.Spec("H100", "training", 1)

  /** Any client can have the row created, if its key fits. */
  lemma RowlessFinishes(c: Config, s: State, id: CrId)
    requires Reachable(c, s) && Alive(c, s, id) && Admitted(c, id)
    requires OperatorKey(id) !in s.b.db.index && T.Text(OperatorKey(id), 128)
    ensures CanFinish(c, s, id)
  {
    var clears, cleared := ClearHolds(c.limit, s.b, |s.b.handlers|);
    var t := s.(b := cleared);
    ReachableBackend(c, s, clears);
    var post := Submit(Explicit(OperatorKey(id)), Any);
    assert OperatorKey(id) != "" by { assert '/' in OperatorKey(id); }
    var u := Next(c, t, post);
    assert u == t.(b := t.b.(handlers := t.b.handlers + [B.Handler(OperatorKey(id), Any, B.Finding)]));
    ExecMore(c, t, [], post);
    ReachableFrom(c, t, [] + [post]);
    CommitFinishes(c, u, id, |t.b.handlers|);
    Onward(c, t, [] + [post], id);
    OnwardBackend(c, s, clears, id);
  }

  lemma ReachedOwed(c: Config, s: State, h: nat)
    requires Reachable(c, s) && h < |s.b.handlers| && s.b.handlers[h].pc.Owing?
    ensures var b := s.b.handlers[h].pc.bench; b in s.b.db.rows && !Stuck(c.limit, s.b, b) && !Ended(s.b, b)
  {
    ReachedInv(c, s);
    OwedNotStuck(c.limit, s.b, h);
  }

  lemma CommitFinishes(c: Config, s: State, id: CrId, h: nat)
    requires Reachable(c, s) && Alive(c, s, id) && Admitted(c, id)
    requires OperatorKey(id) !in s.b.db.index && T.Text(OperatorKey(id), 128)
    requires h < |s.b.handlers| && s.b.handlers[h] == B.Handler(OperatorKey(id), Any, B.Finding)
    requires forall j | 0 <= j < |s.b.handlers| :: !s.b.handlers[j].pc.Committing?
    ensures CanFinish(c, s, id)
  {
    var bs := CommitsRow(c.limit, s.b, h);
    var t := s.(b := B.Exec(c.limit, s.b, bs));
    ReachableBackend(c, s, bs);
    OwedFinishes(c, t, id, h);
    OnwardBackend(c, s, bs, id);
  }

  lemma OwedFinishes(c: Config, s: State, id: CrId, h: nat)
    requires Reachable(c, s) && Alive(c, s, id) && Admitted(c, id) && OperatorKey(id) in s.b.db.index
    requires h < |s.b.handlers| && s.b.handlers[h].pc == B.Owing(s.b.db.index[OperatorKey(id)])
    ensures CanFinish(c, s, id)
  {
    ReachedOwed(c, s, h);
    UnendedFinishes(c, s, id);
  }

  // ---- exactly which ----

  /** The schema lets the object's request through, its key can be stored, its benchmark is not stuck,
      and the object has not missed the run. */
  ghost predicate Open(c: Config, s: State, id: CrId)
    requires id in s.hists && |s.hists[id]| > 0
  {
    && id in c.crs && Admitted(c, id) && T.Text(OperatorKey(id), 128)
    && (HasRow(s, id) ==>
          !Stuck(c.limit, s.b, RowId(s, id))
          && (s.b.db.rows[RowId(s, id)].status == T.Completed ==> CanComplete(s, id)))
  }

  lemma OpenFinishes(c: Config, s: State, id: CrId)
    requires Reachable(c, s) && id in s.hists && |s.hists[id]| > 0 && !Tip(s, id).deleting && Open(c, s, id)
    ensures CanFinish(c, s, id)
  {
    if OperatorKey(id) !in s.b.db.index {
      RowlessFinishes(c, s, id);
    } else {
      ReachedRow(c, s, OperatorKey(id));
      if s.b.db.rows[RowId(s, id)].status == T.Completed {
        CompletedFinishes(c, s, id);
      } else {
        UnendedFinishes(c, s, id);
      }
    }
  }

  /** A Completed or Failed object, and what must have been so. */
  lemma TerminalNeeds(c: Config, t: State, id: CrId)
    requires Reachable(c, t) && id in t.hists && |t.hists[id]| > 0 && Terminal(Tip(t, id).phase)
    ensures id in c.crs && Admitted(c, id) && T.Text(OperatorKey(id), 128) && HasRow(t, id)
    ensures Tip(t, id).phase == Failed ==> t.b.db.rows[RowId(t, id)].status == T.Failed
  {
    var v := |t.hists[id]| - 1;
    ReachedVersion(c, t, id, v);
    RefusedStaysBlank(c, t, id, v);
    ReachedRow(c, t, OperatorKey(id));
  }

  lemma BackendLater(c: Config, s: State, after: seq<Action>)
    requires Reachable(c, s)
    ensures Later(s.b, Exec(c, s, after).b)
    decreases |after|
  {
    if after == [] {
      LaterRefl(s.b);
    } else {
      var n := |after| - 1;
      var t := Exec(c, s, after[..n]);
      BackendLater(c, s, after[..n]);
      ReachableFrom(c, s, after[..n]);
      ReachedInv(c, t);
      BackLater(c, t, after[n]);
      LaterTrans(s.b, t.b, Next(c, t, after[n]).b);
    }
  }

  lemma ClosedNeverFinishes(c: Config, s: State, after: seq<Action>, id: CrId)
    requires Reachable(c, s) && id in s.hists && |s.hists[id]| > 0 && !Terminal(Tip(s, id).phase)
    requires Tip(s, id).deleting || !Open(c, s, id)
    ensures !Finishes(c, s, id, after)
  {
    var t := Exec(c, s, after);
    ReachableFrom(c, s, after);
    if Tip(s, id).deleting {
      FrozenStays(c, s, after, id);
    } else if Finishes(c, s, id, after) {
      TerminalNeeds(c, t, id);
      if HasRow(s, id) {
        if Stuck(c.limit, s.b, RowId(s, id)) {
          StuckNeverEnds(c, s, after, id);
        } else {
          BackendLater(c, s, after);
          assert RowLater(s.b.db, t.b.db, RowId(s, id));
          CannotComplete(c, s, after, id);
        }
      }
    }
  }

  /** In every reachable state, an object can come to Completed or Failed, by whatever may happen, if
      and only if it is there already, or is not being deleted and the way is open: its request is
      let through, its key can be stored, its benchmark is not stuck, and, if that is completed, the
      object is Running or about to be. */
  lemma ObjectEndsExactly(c: Config, s: State, id: CrId)
    requires Reachable(c, s) && id in s.hists && |s.hists[id]| > 0
    ensures (exists after :: Finishes(c, s, id, after))
      <==> Terminal(Tip(s, id).phase) || (!Tip(s, id).deleting && Open(c, s, id))
  {
    if Terminal(Tip(s, id).phase) {
      assert Finishes(c, s, id, []);
    } else if !Tip(s, id).deleting && Open(c, s, id) {
      OpenFinishes(c, s, id);
    } else {
      forall after ensures !Finishes(c, s, id, after) { ClosedNeverFinishes(c, s, after, id); }
    }
  }
}
