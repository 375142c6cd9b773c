/** Undisturbed reconciles with a reachable backend, and exactly how far they get. */
module Progress {
  import opened Keys
  import opened Operator
  import T = Types
  import opened Tables
  import B = Backend
  import opened Platform
  import opened Guarantees
  import opened Admission

  /** One whole reconcile of the latest version: read, call, wait for the handler, hear, store. */
  function Script(s: State, id: CrId, now: Time): seq<Action>
    requires id in s.hists && |s.hists[id]| > 0
  {
    [Fetch(id, |s.hists[id]| - 1), Send(|s.recs|)]
    + (if Submits(Tip(s, id)) then [Back(B.Advance(|s.b.handlers|, 0))] else [])
    + [Hear(|s.recs|, now), Store(|s.recs|)]
  }

  function Turn(c: Config, s: State, id: CrId, now: Time): State
    requires id in s.hists && |s.hists[id]| > 0
  {
    Exec(c, s, Script(s, id, now))
  }

  lemma {:induction false} ExecConcat(c: Config, s: State, a: seq<Action>, b: seq<Action>)
    ensures Exec(c, s, a + b) == Exec(c, Exec(c, s, a), b)
    decreases |b|
  {
    if b == [] {
      assert a + b == a;
    } else {
      assert (a + b)[..|a + b| - 1] == a + b[..|b| - 1];
      ExecConcat(c, s, a, b[..|b| - 1]);
    }
  }

  lemma ExecTwo(c: Config, s: State, a: Action, b: Action)
    ensures Exec(c, s, [a, b]) == Next(c, Next(c, s, a), b)
  {
    assert [a, b][..1] == [a] && [a][..0] == [];
    assert Exec(c, s, [a]) == Next(c, Exec(c, s, []), a);
  }

  lemma ExecThree(c: Config, s: State, a: Action, b: Action, d: Action)
    ensures Exec(c, s, [a, b, d]) == Next(c, Next(c, Next(c, s, a), b), d)
  {
    assert [a, b, d][..2] == [a, b];
    ExecTwo(c, s, a, b);
  }

  /** The reply that the reachable backend gives to a reconcile of `j`. */
  function Answer(own: T.Spec, db: Db, id: CrId, j: Job): Reply
  {
    if Submits(j) && !T.Accepts(OperatorKey(id), own) then Refused
    else if Submits(j) && OperatorKey(id) in db.index then Accepted(T.Some(db.index[OperatorKey(id)]))
    else GetReply(db, j.jobId)
  }

  /** Where the reconciler stands before it hears: it waits for a handler that has answered, or
      polls, or is about to write metadata, or is done. */
  ghost predicate Waiting(c: Config, u: State, id: CrId, r: nat)
    requires id in u.hists && id in c.crs && |u.hists[id]| > 0
  {
    && r < |u.recs| && u.recs[r].id == id && u.recs[r].v == |u.hists[id]| - 1
    && var j := Tip(u, id);
    if Submits(j) then
      && u.recs[r].pc.Posted? && u.recs[r].pc.h < |u.b.handlers|
      && var pc := u.b.handlers[u.recs[r].pc.h].pc;
      if !Admitted(c, id) then pc.Rejected?
      else OperatorKey(id) in u.b.db.index && pc == B.Replied(u.b.db.index[OperatorKey(id)], false)
    else if Polls(j) then u.recs[r].pc == Polling
    else u.recs[r].pc == ToWrite(Reconciled(c.crs[id].maxRetries, j, NoAnswer, 0))
  }

  /** Only a handler has come and gone. */
  predicate SameButHandlers(b: B.State, u: B.State)
  {
    u == b.(handlers := u.handlers)
  }

  /** One more reconciler waits. */
  ghost predicate Joined(c: Config, s: State, u: State, id: CrId)
    requires id in u.hists && id in c.crs && |u.hists[id]| > 0
  {
    Waiting(c, u, id, |s.recs|) && u.recs == s.recs + [u.recs[|s.recs|]]
  }

  lemma AsksByPost(c: Config, s: State, id: CrId)
    requires id in s.hists && id in c.crs && |s.hists[id]| > 0
    requires Submits(Tip(s, id)) && (Admitted(c, id) ==> OperatorKey(id) in s.b.db.index)
    ensures var sent := Next(c, Next(c, s, Fetch(id, |s.hists[id]| - 1)), Send(|s.recs|));
      var u := Next(c, sent, Back(B.Advance(|s.b.handlers|, 0)));
      SameButHandlers(s.b, u.b) && u.hists == s.hists && Joined(c, s, u, id)
  {
    var sent := Next(c, Next(c, s, Fetch(id, |s.hists[id]| - 1)), Send(|s.recs|));
    assert sent.b.handlers[|s.b.handlers|].pc == if Admitted(c, id) then B.Finding else B.Rejected;
  }

  lemma AsksOtherwise(c: Config, s: State, id: CrId)
    requires id in s.hists && id in c.crs && |s.hists[id]| > 0 && !Submits(Tip(s, id))
    ensures var u := Next(c, Next(c, s, Fetch(id, |s.hists[id]| - 1)), Send(|s.recs|));
      SameButHandlers(s.b, u.b) && u.hists == s.hists && Joined(c, s, u, id)
  {
  }

  lemma Asks(c: Config, s: State, id: CrId, now: Time) returns (u: State)
    requires id in s.hists && id in c.crs && |s.hists[id]| > 0
    requires Submits(Tip(s, id)) && Admitted(c, id) ==> OperatorKey(id) in s.b.db.index
    ensures Turn(c, s, id, now) == Next(c, Next(c, u, Hear(|s.recs|, now)), Store(|s.recs|))
    ensures SameButHandlers(s.b, u.b) && u.hists == s.hists && Joined(c, s, u, id)
  {
    var head := [Fetch(id, |s.hists[id]| - 1), Send(|s.recs|)];
    var reply := if Submits(Tip(s, id)) then [Back(B.Advance(|s.b.handlers|, 0))] else [];
    ExecConcat(c, s, head + reply, [Hear(|s.recs|, now), Store(|s.recs|)]);
    u := Exec(c, s, head + reply);
    ExecTwo(c, u, Hear(|s.recs|, now), Store(|s.recs|));
    if Submits(Tip(s, id)) {
      ExecThree(c, s, head[0], head[1], reply[0]);
      assert head + reply == [head[0], head[1], reply[0]];
      AsksByPost(c, s, id);
    } else {
      ExecTwo(c, s, head[0], head[1]);
      assert head + reply == head;
      AsksOtherwise(c, s, id);
    }
  }

  /** A turn stores what the atomic phase machine writes under that reply, and nothing else. */
  lemma TurnWrites(c: Config, s: State, id: CrId, now: Time)
    requires id in s.hists && id in c.crs && |s.hists[id]| > 0 && !Operator.Gone(Tip(s, id))
    requires Submits(Tip(s, id)) && Admitted(c, id) ==> OperatorKey(id) in s.b.db.index
    ensures var t := Turn(c, s, id, now);
      var w := Reconciled(c.crs[id].maxRetries, Tip(s, id), Answer(c.crs[id].spec, s.b.db, id, Tip(s, id)), now);
      && SameButHandlers(s.b, t.b)
      && t.recs == s.recs + [Rec(id, |s.hists[id]| - 1, Finished)]
      && t.hists == if w.Some? then s.hists[id := s.hists[id] + [w.value]] else s.hists
  {
    var u := Asks(c, s, id, now);
    HearsAndStores(c, u, id, |s.recs|, now);
  }

  lemma HearsAndStores(c: Config, u: State, id: CrId, r: nat, now: Time)
    requires id in u.hists && id in c.crs && |u.hists[id]| > 0 && !Operator.Gone(Tip(u, id))
    requires Waiting(c, u, id, r)
    ensures var t := Next(c, Next(c, u, Hear(r, now)), Store(r));
      var w := Reconciled(c.crs[id].maxRetries, Tip(u, id), Answer(c.crs[id].spec, u.b.db, id, Tip(u, id)), now);
      && t.b == u.b
      && t.recs == u.recs[r := Rec(id, |u.hists[id]| - 1, Finished)]
      && t.hists == if w.Some? then u.hists[id := u.hists[id] + [w.value]] else u.hists
  {
  }

  /** `n` turns, the i-th at `clock(i)`. */
  function Turns(c: Config, s: State, id: CrId, n: nat, clock: nat -> Time): State
  {
    if n == 0 then s
    else
      var t := Turns(c, s, id, n - 1, clock);
      if id in t.hists && |t.hists[id]| > 0 then Turn(c, t, id, clock(n - 1)) else t
  }

  /** The actions of `n` turns; nobody but the operator posts. */
  lemma {:induction false} TurnsFrom(c: Config, s: State, id: CrId, n: nat, clock: nat -> Time)
    returns (acts: seq<Action>)
    ensures Exec(c, s, acts) == Turns(c, s, id, n, clock)
    ensures forall i | 0 <= i < |acts| :: !acts[i].Submit?
  {
    acts := [];
    if n > 0 {
      acts := TurnsFrom(c, s, id, n - 1, clock);
      var t := Turns(c, s, id, n - 1, clock);
      if id in t.hists && |t.hists[id]| > 0 {
        ExecConcat(c, s, acts, Script(t, id, clock(n - 1)));
        acts := acts + Script(t, id, clock(n - 1));
      }
    }
  }

  /** Turns are runs of the platform. */
  lemma {:induction false} TurnsAreRuns(c: Config, s: State, id: CrId, n: nat, clock: nat -> Time)
    requires Reachable(c, s)
    ensures Reachable(c, Turns(c, s, id, n, clock))
  {
    if n > 0 {
      TurnsAreRuns(c, s, id, n - 1, clock);
      var t := Turns(c, s, id, n - 1, clock);
      var acts :| t == Exec(c, Start, acts);
      if id in t.hists && |t.hists[id]| > 0 {
        ExecConcat(c, Start, acts, Script(t, id, clock(n - 1)));
      }
    }
  }

  /** The object after one visit of the atomic phase machine to an unchanging backend. */
  function Visit(o: CrSpec, db: Db, id: CrId, j: Job, now: Time): Job
  {
    var w := Reconciled(o.maxRetries, j, Answer(o.spec, db, id, j), now);
    if w.Some? then w.value else j
  }

  function Visits(o: CrSpec, db: Db, id: CrId, j: Job, n: nat, clock: nat -> Time): Job
  {
    if n == 0 then j else Visit(o, db, id, Visits(o, db, id, j, n - 1, clock), clock(n - 1))
  }

  /** What a turn needs to find: a committed benchmark and an object with its finalizer that is not
      being deleted. */
  ghost predicate Settled(db: Db, id: CrId, j: Job)
  {
    && OperatorKey(id) in db.index && db.index[OperatorKey(id)] in db.rows
    && !j.deleting && j.finalizer
  }

  lemma VisitSettled(o: CrSpec, db: Db, id: CrId, j: Job, now: Time)
    requires Settled(db, id, j)
    ensures Settled(db, id, Visit(o, db, id, j, now))
  {
  }

  /** The stored object is `j`, settled, over these tables. */
  ghost predicate At(c: Config, s: State, id: CrId, db: Db, j: Job)
  {
    && s.b.db == db
    && id in s.hists && id in c.crs && |s.hists[id]| > 0 && Tip(s, id) == j
    && Settled(db, id, j)
  }

  lemma TurnVisits(c: Config, s: State, id: CrId, db: Db, j: Job, now: Time)
    requires At(c, s, id, db, j)
    ensures At(c, Turn(c, s, id, now), id, db, Visit(c.crs[id], db, id, j, now))
  {
    TurnWrites(c, s, id, now);
    VisitSettled(c.crs[id], db, id, j, now);
  }

  /** Turns of the interleaved platform are visits of the atomic machine. */
  lemma {:induction false} TurnsVisit(c: Config, s: State, id: CrId, db: Db, j: Job, n: nat, clock: nat -> Time)
    requires At(c, s, id, db, j)
    ensures At(c, Turns(c, s, id, n, clock), id, db, Visits(c.crs[id], db, id, j, n, clock))
  {
    if n > 0 {
      TurnsVisit(c, s, id, db, j, n - 1, clock);
      var t := Turns(c, s, id, n - 1, clock);
      TurnVisits(c, t, id, db, Visits(c.crs[id], db, id, j, n - 1, clock), clock(n - 1));
      assert Turns(c, s, id, n, clock) == Turn(c, t, id, clock(n - 1));
    }
  }

  /** The turns that are left until Failed once the benchmark has failed: each remaining retry
      costs a resubmission and a poll. */
  function Left(maxRetries: int, j: Job): nat
    requires 0 <= j.retryCount <= Retries(maxRetries)
  {
    if Terminal(j.phase) then 0
    else
      2 * (Retries(maxRetries) - j.retryCount)
      + (if j.phase == Blank || j.phase == Pending then 2 else 1)
  }

  /** What a visit reads of the coupling: the JobID is that of the committed benchmark. */
  ghost predicate Tracks(db: Db, id: CrId, j: Job)
  {
    && Settled(db, id, j)
    && (j.phase == Submitted || j.phase == Running ==> j.jobId == T.Some(db.index[OperatorKey(id)]))
  }

  lemma FailedVisit(o: CrSpec, db: Db, id: CrId, j: Job, now: Time)
    requires Sound(o.maxRetries, j) && Tracks(db, id, j) && j.phase != Completed
    requires T.Accepts(OperatorKey(id), o.spec) && db.rows[db.index[OperatorKey(id)]].status == T.Failed
    ensures var k := Visit(o, db, id, j, now);
      && Sound(o.maxRetries, k) && Tracks(db, id, k) && k.phase != Completed
      && Left(o.maxRetries, k) == (if Left(o.maxRetries, j) == 0 then 0 else Left(o.maxRetries, j) - 1)
  {
    StatusNamesDiffer(T.Failed);
  }

  lemma {:induction false} FailedVisits(o: CrSpec, db: Db, id: CrId, j: Job, n: nat, clock: nat -> Time)
    requires Sound(o.maxRetries, j) && Tracks(db, id, j) && j.phase != Completed
    requires T.Accepts(OperatorKey(id), o.spec) && db.rows[db.index[OperatorKey(id)]].status == T.Failed
    ensures var k := Visits(o, db, id, j, n, clock);
      && Sound(o.maxRetries, k) && Tracks(db, id, k) && k.phase != Completed
      && Left(o.maxRetries, k) == (if Left(o.maxRetries, j) <= n then 0 else Left(o.maxRetries, j) - n)
  {
    if n > 0 {
      FailedVisits(o, db, id, j, n - 1, clock);
      FailedVisit(o, db, id, Visits(o, db, id, j, n - 1, clock), clock(n - 1));
    }
  }

  lemma CompletedVisit(o: CrSpec, db: Db, id: CrId, j: Job, now: Time)
    requires Tracks(db, id, j) && db.rows[db.index[OperatorKey(id)]].status == T.Completed
    ensures var k := Visit(o, db, id, j, now);
      && Tracks(db, id, k) && k.phase != Running
      && (k.phase == Completed <==> j.phase == Completed || j.phase == Running)
  {
    StatusNamesDiffer(T.Completed);
  }

  lemma {:induction false} CompletedVisits(o: CrSpec, db: Db, id: CrId, j: Job, n: nat, clock: nat -> Time)
    requires Tracks(db, id, j) && db.rows[db.index[OperatorKey(id)]].status == T.Completed && n > 0
    ensures var k := Visits(o, db, id, j, n, clock);
      && Tracks(db, id, k) && k.phase != Running
      && (k.phase == Completed <==> j.phase == Completed || j.phase == Running)
  {
    if n > 1 { CompletedVisits(o, db, id, j, n - 1, clock); }
    CompletedVisit(o, db, id, Visits(o, db, id, j, n - 1, clock), clock(n - 1));
  }

  /** The stored object is settled and its benchmark has this status. */
  ghost predicate Stands(s: State, id: CrId, status: T.Status)
  {
    && id in s.hists && |s.hists[id]| > 0 && Settled(s.b.db, id, Tip(s, id))
    && s.b.db.rows[s.b.db.index[OperatorKey(id)]].status == status
  }

  lemma StandsTracks(c: Config, s: State, id: CrId, status: T.Status)
    requires Reachable(c, s) && Stands(s, id, status)
    ensures id in c.crs && Sound(c.crs[id].maxRetries, Tip(s, id)) && Tracks(s.b.db, id, Tip(s, id))
      && (Tip(s, id).phase == Completed ==> status == T.Completed)
      && At(c, s, id, s.b.db, Tip(s, id))
  {
    ReachedVersion(c, s, id, |s.hists[id]| - 1);
  }

  /** Once the benchmark has failed, undisturbed reconciles bring the object to Failed after exactly
      the remaining retries, neither earlier nor later. */
  lemma FailedExactly(c: Config, s: State, id: CrId, n: nat, clock: nat -> Time)
    requires Reachable(c, s) && Stands(s, id, T.Failed)
    ensures var t := Turns(c, s, id, n, clock);
      && id in c.crs && id in t.hists && |t.hists[id]| > 0
      && 0 <= Tip(s, id).retryCount <= Retries(c.crs[id].maxRetries)
      && (Tip(t, id).phase == Failed <==> Admitted(c, id) && Left(c.crs[id].maxRetries, Tip(s, id)) <= n)
      && (Tip(t, id).phase == Failed ==> Tip(t, id).retryCount == Retries(c.crs[id].maxRetries))
  {
    StandsTracks(c, s, id, T.Failed);
    TurnsVisit(c, s, id, s.b.db, Tip(s, id), n, clock);
    if Admitted(c, id) {
      FailedVisits(c.crs[id], s.b.db, id, Tip(s, id), n, clock);
    } else {
      TurnsAreRuns(c, s, id, n, clock);
      var t := Turns(c, s, id, n, clock);
      RefusedStaysBlank(c, t, id, |t.hists[id]| - 1);
    }
  }

  /** Once the benchmark is completed, the next undisturbed reconcile of a Running object completes
      it, and no number of them completes an object that was not Running by then. */
  lemma CompletedExactly(c: Config, s: State, id: CrId, n: nat, clock: nat -> Time)
    requires Reachable(c, s) && Stands(s, id, T.Completed) && n > 0
    ensures var t := Turns(c, s, id, n, clock);
      && id in t.hists && |t.hists[id]| > 0
      && (Tip(t, id).phase == Completed <==> Tip(s, id).phase == Completed || Tip(s, id).phase == Running)
  {
    StandsTracks(c, s, id, T.Completed);
    TurnsVisit(c, s, id, s.b.db, Tip(s, id), n, clock);
    CompletedVisits(c.crs[id], s.b.db, id, Tip(s, id), n, clock);
  }

  // ---- deletion ----

  /** The next undisturbed reconcile of an object that is being deleted takes its finalizer off and
      changes nothing else, in the object or in the backend, whatever became of its benchmark. */
  lemma DeletionTurn(c: Config, s: State, id: CrId, now: Time)
    requires Reachable(c, s) && id in s.hists && |s.hists[id]| > 0
    requires Tip(s, id).deleting && Tip(s, id).finalizer
    ensures var t := Turn(c, s, id, now); var gone := Tip(s, id).(finalizer := false);
      t.hists == s.hists[id := s.hists[id] + [gone]] && gone.deleting && SameStatus(Tip(s, id), gone) && t.b == s.b
  {
    ReachedVersion(c, s, id, |s.hists[id]| - 1);
    TurnWrites(c, s, id, now);
    DeletionAsksNobody(c, s, id, now);
  }

  lemma DeletionSends(c: Config, s: State, id: CrId)
    requires id in s.hists && id in c.crs && |s.hists[id]| > 0 && Tip(s, id).deleting
    ensures var u := Next(c, Next(c, s, Fetch(id, |s.hists[id]| - 1)), Send(|s.recs|)); u.b == s.b
  {
  }

  lemma HearsNobody(c: Config, u: State, r: nat, now: Time)
    ensures Next(c, Next(c, u, Hear(r, now)), Store(r)).b == u.b
  {
  }

  lemma DeletionAsksNobody(c: Config, s: State, id: CrId, now: Time)
    requires id in s.hists && id in c.crs && |s.hists[id]| > 0 && Tip(s, id).deleting
    ensures Turn(c, s, id, now).b == s.b
  {
    var r := |s.recs|;
    var head := [Fetch(id, |s.hists[id]| - 1), Send(r)];
    ExecTwo(c, s, head[0], head[1]);
    DeletionSends(c, s, id);
    var u := Exec(c, s, head);
    ExecTwo(c, u, Hear(r, now), Store(r));
    HearsNobody(c, u, r, now);
    ExecConcat(c, s, head, [Hear(r, now), Store(r)]);
    assert Script(s, id, now) == head + [Hear(r, now), Store(r)];
  }

  lemma ReachableFrom(c: Config, s: State, after: seq<Action>)
    requires Reachable(c, s)
    ensures Reachable(c, Exec(c, s, after))
  {
    var acts :| s == Exec(c, Start, acts);
    ExecConcat(c, Start, acts, after);
  }

  lemma GoneStep(c: Config, s: State, a: Action, id: CrId)
    requires Reachable(c, s) && id in s.hists && |s.hists[id]| > 0 && Operator.Gone(Tip(s, id))
    ensures var t := Next(c, s, a); id in t.hists && t.hists[id] == s.hists[id]
  {
    RefinesPhaseMachine(c, s, a, id);
  }

  /** An object that is gone stays as it was. */
  lemma {:induction false} GoneForGood(c: Config, s: State, after: seq<Action>, id: CrId)
    requires Reachable(c, s) && id in s.hists && |s.hists[id]| > 0 && Operator.Gone(Tip(s, id))
    ensures var t := Exec(c, s, after); id in t.hists && t.hists[id] == s.hists[id]
    decreases |after|
  {
    if after != [] {
      var n := |after| - 1;
      GoneForGood(c, s, after[..n], id);
      ReachableFrom(c, s, after[..n]);
      GoneStep(c, Exec(c, s, after[..n]), after[n], id);
    }
  }

  /** In every reachable state any object that is there can be deleted: the request and one undisturbed
      reconcile take it away for good, with the status that it had. */
  lemma DeletedGoes(c: Config, s: State, id: CrId, now: Time, after: seq<Action>)
    requires Reachable(c, s) && Live(s, id)
    ensures var asked := Next(c, s, Delete(id));
      && id in asked.hists && |asked.hists[id]| > 0
      && var t := if Tip(s, id).finalizer then Turn(c, asked, id, now) else asked;
      && id in t.hists && |t.hists[id]| > 0
      && Tip(t, id).deleting && !Tip(t, id).finalizer && SameStatus(Tip(s, id), Tip(t, id))
      && id in Exec(c, t, after).hists && Exec(c, t, after).hists[id] == t.hists[id]
  {
    var asked := Next(c, s, Delete(id));
    var acts :| s == Exec(c, Start, acts);
    ExecOneMore(c, acts, Delete(id));
    assert asked.hists[id] == s.hists[id] + [Tip(s, id).(deleting := true)];
    var t := asked;
    if Tip(s, id).finalizer {
      DeletionTurn(c, asked, id, now);
      t := Turn(c, asked, id, now);
      ExecConcat(c, Start, acts + [Delete(id)], Script(asked, id, now));
      assert t == Exec(c, Start, acts + [Delete(id)] + Script(asked, id, now));
    }
    GoneForGood(c, t, after, id);
  }

  lemma ExecOneMore(c: Config, acts: seq<Action>, a: Action)
    ensures Exec(c, Start, acts + [a]) == Next(c, Exec(c, Start, acts), a)
  {
    assert (acts + [a])[..|acts|] == acts;
  }
}
