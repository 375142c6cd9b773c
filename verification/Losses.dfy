/** What crashes and failing calls can do to a request and to a job, and until when. */
module Losses {
  import opened Types
  import opened Tallies
  import opened Backend
  import opened Submission
  import opened Conservation
  import opened Accounting
  import opened Lifecycle
  import opened WorkerRuns
  import opened Endings

  // ---- single steps ----

  /** The process of a handler that owes a push can die, and then the job is lost. */
  lemma OwedLost(limit: int, s: State, h: nat)
    requires h < |s.handlers| && s.handlers[h].pc.Owing?
    ensures var t := Next(limit, s, KillHandler(h)); var b := s.handlers[h].pc.bench;
      && t.log.lost[b] == s.log.lost[b] + 1 && t.queue == s.queue && t.db == s.db
      && h < |t.handlers| && !Owes(t.handlers[h], b) && !t.handlers[h].pc.Replied?
  {
  }

  /** So can that of a worker that holds a message. */
  lemma HeldLost(limit: int, s: State, w: nat)
    requires w < |s.workers| && Holding(s.workers[w])
    ensures var t := Next(limit, s, KillWorker(w)); var b := s.workers[w].m.bench;
      && t.log.lost[b] == s.log.lost[b] + 1 && t.queue == s.queue && t.dlq == s.dlq && t.db == s.db
      && w < |t.workers| && !Keeps(t.workers[w], b)
  {
  }

  /** Any worker can die. */
  lemma WorkerDies(limit: int, s: State, w: nat)
    requires w < |s.workers|
    ensures var t := Next(limit, s, KillWorker(w));
      t.workers == s.workers[w := Dead] && t.dlq == s.dlq && t.db == s.db
  {
  }

  /** An exception in the last attempt dooms the job exactly when it comes from an open transaction:
      always at the commit of the result, and as it happens before. */
  lemma RaisingDooms(limit: int, s: State, w: nat, reason: string, broken: bool)
    requires w < |s.workers| && Holding(s.workers[w]) && !s.workers[w].Recovering?
    requires s.workers[w].m.attempt + 1 >= limit
    ensures var t := Next(limit, s, Work(w, Raises(reason, broken))); var b := s.workers[w].m.bench;
      && w < |t.workers| && t.workers[w].Recovering? && t.workers[w].m == s.workers[w].m && t.db == s.db
      && (DoomedBy(limit, t.workers[w], b) <==> broken || s.workers[w].Completing?)
  {
  }

  /** A database error can end a request that has stored nothing, and leaves nothing behind. */
  lemma ErrorEnds(limit: int, s: State, h: nat)
    requires h < |s.handlers| && Reading(s.handlers[h].pc)
    ensures var t := Next(limit, s, Abort(h));
      t == s.(handlers := s.handlers[h := s.handlers[h].(pc := Raised)])
  {
  }

  // ---- requests ----

  /** No 202 will come from here any more. */
  predicate Unanswered(pc: HandlerPc)
  {
    pc.Rejected? || pc.Raised? || pc.Reraised? || pc.Gone?
  }

  lemma {:induction false} UnansweredStays(limit: int, s: State, after: seq<Action>, h: nat)
    requires h < |s.handlers| && Unanswered(s.handlers[h].pc)
    ensures var t := Exec(limit, s, after); h < |t.handlers| && Unanswered(t.handlers[h].pc)
    decreases |after|
  {
    if after != [] {
      UnansweredStays(limit, s, after[..|after| - 1], h);
      UnansweredStep(limit, Exec(limit, s, after[..|after| - 1]), after[|after| - 1], h);
    }
  }

  lemma UnansweredStep(limit: int, s: State, a: Action, h: nat)
    requires h < |s.handlers| && Unanswered(s.handlers[h].pc)
    ensures var t := Next(limit, s, a); h < |t.handlers| && Unanswered(t.handlers[h].pc)
  {
  }

  /** Until a request has been answered it can fail, at one step and for good, whatever it has reached;
      after that it cannot. */
  lemma RequestsCanFail(limit: int, s: State, h: nat, after: seq<Action>)
    requires h < |s.handlers|
    ensures !s.handlers[h].pc.Replied? ==> exists a :: FailsFor(limit, s, h, a, after)
    ensures s.handlers[h].pc.Replied? ==>
      var t := Exec(limit, s, after); h < |t.handlers| && t.handlers[h] == s.handlers[h]
  {
    var pc := s.handlers[h].pc;
    if pc.Replied? {
      RepliedStays(limit, s, after, h);
    } else {
      var a := if Reading(pc) then Abort(h) else KillHandler(h);
      UnansweredStays(limit, Next(limit, s, a), after, h);
      assert FailsFor(limit, s, h, a, after);
    }
  }

  /** The step `a` ends the request without an answer, and no continuation answers it. */
  predicate FailsFor(limit: int, s: State, h: nat, a: Action, after: seq<Action>)
    requires h < |s.handlers|
  {
    var t := Exec(limit, Next(limit, s, a), after);
    h < |t.handlers| && Unanswered(t.handlers[h].pc)
  }

  lemma {:induction false} RepliedStays(limit: int, s: State, after: seq<Action>, h: nat)
    requires h < |s.handlers| && s.handlers[h].pc.Replied?
    ensures var t := Exec(limit, s, after); h < |t.handlers| && t.handlers[h] == s.handlers[h]
    decreases |after|
  {
    if after != [] {
      RepliedStays(limit, s, after[..|after| - 1], h);
      RepliedStep(limit, Exec(limit, s, after[..|after| - 1]), after[|after| - 1], h);
    }
  }

  lemma RepliedStep(limit: int, s: State, a: Action, h: nat)
    requires h < |s.handlers| && s.handlers[h].pc.Replied?
    ensures var t := Next(limit, s, a); h < |t.handlers| && t.handlers[h] == s.handlers[h]
  {
  }

  // ---- jobs ----

  /** All workers can die, the first `n` of them here. */
  lemma {:induction false} KillsWorkers(limit: int, s: State, n: nat) returns (acts: seq<Action>, t: State)
    requires n <= |s.workers|
    ensures t == Exec(limit, s, acts) && t.db == s.db && t.dlq == s.dlq && |t.workers| == |s.workers|
    ensures forall w | 0 <= w < n :: t.workers[w] == Dead
  {
    acts, t := [], s;
    if n > 0 {
      acts, t := KillsWorkers(limit, s, n - 1);
      WorkerDies(limit, t, n - 1);
      ExecMore(limit, s, acts, KillWorker(n - 1));
      acts, t := acts + [KillWorker(n - 1)], Next(limit, t, KillWorker(n - 1));
    }
  }

  /** The actions `after` leave the benchmark stuck, so that it never ends. */
  ghost predicate Loses(limit: int, s: State, b: Uuid, after: seq<Action>)
  {
    var t := Exec(limit, s, after);
    b in t.db.rows && Stuck(limit, t, b)
  }

  lemma LosesHeld(limit: int, s: State, acts: seq<Action>, w: nat, b: Uuid) returns (after: seq<Action>)
    requires var t := Exec(limit, s, acts); b in t.db.rows && w < |t.workers| && Keeps(t.workers[w], b)
    ensures Loses(limit, s, b, after)
  {
    HeldLost(limit, Exec(limit, s, acts), w);
    ExecMore(limit, s, acts, KillWorker(w));
    after := acts + [KillWorker(w)];
  }

  lemma LosesOwed(limit: int, s: State, h: nat, b: Uuid) returns (after: seq<Action>)
    requires b in s.db.rows && h < |s.handlers| && Owes(s.handlers[h], b)
    ensures Loses(limit, s, b, after)
  {
    OwedLost(limit, s, h);
    ExecOne(limit, s, KillHandler(h));
    after := [KillHandler(h)];
  }

  lemma LosesQueued(limit: int, s: State, i: nat, b: Uuid) returns (after: seq<Action>)
    requires b in s.db.rows && i < |s.queue| && s.queue[i].bench == b
    ensures Loses(limit, s, b, after)
  {
    var acts := FromQueue(limit, s, i);
    var t := Exec(limit, s, acts);
    var w :| 0 <= w < |t.workers| && TriedBy(t.workers[w], b);
    after := LosesHeld(limit, s, acts, w, b);
  }

  lemma LosesLettered(limit: int, s: State, b: Uuid) returns (after: seq<Action>)
    requires b in s.db.rows && s.db.rows[b].status != Failed && Tally(Letters, s.dlq, b) > 0
    ensures Loses(limit, s, b, after)
  {
    var t;
    after, t := KillsWorkers(limit, s, |s.workers|);
    assert Orphaned(t, b);
  }

  lemma CanBeLost(limit: int, s: State, b: Uuid) returns (after: seq<Action>)
    requires Inv(limit, s) && b in s.db.rows && !Ended(s, b)
    ensures Loses(limit, s, b, after)
  {
    assert StatusOk(s, b);
    assert Places(s, b) == One(b in s.db.rows);
    if s.log.lost[b] > 0 {
      after := [];
    } else if Tally(Letters, s.dlq, b) > 0 {
      after := LosesLettered(limit, s, b);
    } else if Tally(Names, s.queue, b) > 0 {
      var i := TallyWitness(Names, s.queue, b);
      after := LosesQueued(limit, s, i, b);
    } else if Tally(Owes, s.handlers, b) > 0 {
      var h := TallyWitness(Owes, s.handlers, b);
      after := LosesOwed(limit, s, h, b);
    } else {
      var w := TallyWitness(Keeps, s.workers, b);
      after := LosesHeld(limit, s, [], w, b);
    }
  }

  lemma EndedIsSafe(limit: int, s: State, after: seq<Action>, b: Uuid)
    requires Reachable(limit, s) && Ended(s, b)
    ensures !Loses(limit, s, b, after)
  {
    var t := Exec(limit, s, after);
    StatusesFinal(limit, s, after, b);
    assert Ended(t, b);
    if Loses(limit, s, b, after) { NeverBoth(limit, s, after, b); }
  }

  lemma NeverBoth(limit: int, s: State, after: seq<Action>, b: Uuid)
    requires Reachable(limit, s) && Loses(limit, s, b, after)
    ensures !Ended(Exec(limit, s, after), b)
  {
    InvReachable(limit, s);
    InvFrom(limit, s, after);
    StuckUnfinished(limit, Exec(limit, s, after), b);
  }

  /** In every reachable state, a benchmark can still be lost for good if and only if it has not ended:
      nothing but the end itself makes it safe. */
  lemma LosesExactly(limit: int, s: State, b: Uuid)
    requires Reachable(limit, s) && b in s.db.rows
    ensures (exists after :: Loses(limit, s, b, after)) <==> !Ended(s, b)
  {
    InvReachable(limit, s);
    if Ended(s, b) {
      forall after ensures !Loses(limit, s, b, after) { EndedIsSafe(limit, s, after, b); }
    } else {
      var after := CanBeLost(limit, s, b);
      assert Loses(limit, s, b, after);
    }
  }
}
