/** Runs that show what can become of a BenchmarkJob. */
module Witnesses {
  import opened Keys
  import opened Operator
  import T = Types
  import opened Tables
  import B = Backend
  import W = WorkerRuns
  import opened BackendWitnesses
  import opened Platform
  import opened Progress
  import opened Guarantees
  import opened Admission

  // ---- building runs ----

  lemma ExecMore(c: Config, s: State, acts: seq<Action>, a: Action)
    ensures Exec(c, s, acts + [a]) == Next(c, Exec(c, s, acts), a)
  {
    assert (acts + [a])[..|acts|] == acts;
  }

  /** Steps of the backend as actions of the platform. */
  function Lift(bs: seq<B.Action>): (acts: seq<Action>)
    ensures |acts| == |bs|
  {
    seq(|bs|, i requires 0 <= i < |bs| => Back(bs[i]))
  }

  lemma {:induction false} LiftRuns(c: Config, s: State, bs: seq<B.Action>)
    requires forall i | 0 <= i < |bs| :: !bs[i].Arrive?
    ensures Exec(c, s, Lift(bs)) == s.(b := B.Exec(c.limit, s.b, bs))
    decreases |bs|
  {
    if bs != [] {
      var n := |bs| - 1;
      LiftRuns(c, s, bs[..n]);
      assert Lift(bs) == Lift(bs[..n]) + [Back(bs[n])];
      ExecMore(c, s, Lift(bs[..n]), Back(bs[n]));
    }
  }

  /** `more` continues `acts`, and nobody but the operator posts. */
  predicate Continues(acts: seq<Action>, more: seq<Action>)
  {
    acts <= more && forall i | |acts| <= i < |more| :: !more[i].Submit?
  }

  lemma BackRun(c: Config, acts: seq<Action>, bs: seq<B.Action>) returns (more: seq<Action>)
    requires forall i | 0 <= i < |bs| :: !bs[i].Arrive?
    ensures Continues(acts, more)
    ensures var s := Exec(c, Start, acts); Exec(c, Start, more) == s.(b := B.Exec(c.limit, s.b, bs))
  {
    more := acts + Lift(bs);
    ExecConcat(c, Start, acts, Lift(bs));
    LiftRuns(c, Exec(c, Start, acts), bs);
  }

  lemma TurnRun(c: Config, acts: seq<Action>, id: CrId) returns (more: seq<Action>)
    requires var s := Exec(c, Start, acts); id in s.hists && |s.hists[id]| > 0
    ensures Continues(acts, more)
    ensures Exec(c, Start, more) == Turn(c, Exec(c, Start, acts), id, 0)
  {
    var s := Exec(c, Start, acts);
    more := acts + Script(s, id, 0);
    ExecConcat(c, Start, acts, Script(s, id, 0));
  }

  // ---- up to Submitted ----

  /** The object as it is stored after its first POST. */
  function Sent(): Job { NewJob.(jobId := T.Some(1), startTime := T.Some(0), phase := Submitted) }

  /** The object is Submitted, and its benchmark, created for `spec`, is queued. */
  ghost predicate SubmittedThere(c: Config, s: State, id: CrId, spec: T.Spec)
  {
    && id in c.crs && id in s.hists && s.hists[id] == [NewJob, Sent()]
    && Pushed(s.b, OperatorKey(id), spec)
  }

  /** The operator reads a new object and posts it. */
  lemma Posts(c: Config, id: CrId) returns (acts: seq<Action>)
    requires id in c.crs && Admitted(c, id)
    ensures forall i | 0 <= i < |acts| :: !acts[i].Submit?
    ensures var s := Exec(c, Start, acts);
      && s.hists == map[id := [NewJob]] && s.recs == [Rec(id, 0, Posted(0))]
      && s.b == B.Start.(handlers := [B.Handler(OperatorKey(id), c.crs[id].spec, B.Finding)])
  {
    acts := [Create(id, true), Fetch(id, 0), Send(0)];
    ExecThree(c, Start, acts[0], acts[1], acts[2]);
    var created := Next(c, Start, acts[0]);
    assert created.hists[id] == [NewJob];
    assert Next(c, created, acts[1]).recs == [Rec(id, 0, Fetched)];
  }

  /** ... and stores what the handler replies. */
  lemma OwnSubmission(c: Config, id: CrId) returns (acts: seq<Action>)
    requires id in c.crs && T.Admissible(OperatorKey(id), c.crs[id].spec)
    ensures forall i | 0 <= i < |acts| :: !acts[i].Submit?
    ensures var s := Exec(c, Start, acts);
      SubmittedThere(c, s, id, c.crs[id].spec) && s.recs == [Rec(id, 0, Finished)]
  {
    acts := Posts(c, id);
    var bs := FirstHandler(c.limit, OperatorKey(id), c.crs[id].spec);
    acts := BackRun(c, acts, bs);
    var s := Exec(c, Start, acts);
    ExecMore(c, Start, acts, Hear(0, 0));
    acts := acts + [Hear(0, 0)];
    HearsFirst(c, s, id);
    ExecMore(c, Start, acts, Store(0));
    acts := acts + [Store(0)];
  }

  lemma HearsFirst(c: Config, s: State, id: CrId)
    requires id in c.crs && s.hists == map[id := [NewJob]] && s.recs == [Rec(id, 0, Posted(0))]
    requires |s.b.handlers| == 1 && s.b.handlers[0].pc == B.Replied(1, true)
    ensures Next(c, s, Hear(0, 0)) == s.(recs := [Rec(id, 0, Writing(Sent()))])
  {
    assert Answered(s.b.handlers[0].pc) && PostReply(s.b.handlers[0].pc) == Accepted(T.Some(1));
    assert Reconciled(c.crs[id].maxRetries, NewJob, Accepted(T.Some(1)), 0) == T.Some(Sent());
  }

  /** Another client takes the key of an object before there is one. */
  lemma Forges(c: Config, id: CrId, spec: T.Spec) returns (acts: seq<Action>)
    requires id in c.crs && T.Admissible(OperatorKey(id), spec)
    ensures var s := Exec(c, Start, acts);
      id in s.hists && s.hists[id] == [NewJob] && Pushed(s.b, OperatorKey(id), spec) && s.recs == []
    ensures SentOnly(acts, id, spec)
  {
    var post := Submit(Explicit(OperatorKey(id)), spec);
    ExecMore(c, Start, [], post);
    acts := [] + [post];
    assert OperatorKey(id) != "" by { assert '/' in OperatorKey(id); }
    assert Exec(c, Start, acts) == Start.(b := B.Start.(handlers := [B.Handler(OperatorKey(id), spec, B.Finding)]));
    var bs := FirstHandler(c.limit, OperatorKey(id), spec);
    acts := BackRun(c, acts, bs);
    ExecMore(c, Start, acts, Create(id, true));
    acts := acts + [Create(id, true)];
  }

  /** The operator then submits the object, and is answered with that client's benchmark. */
  lemma ForgedSubmission(c: Config, id: CrId, spec: T.Spec) returns (acts: seq<Action>)
    requires id in c.crs && Admitted(c, id) && T.Admissible(OperatorKey(id), spec)
    ensures var s := Exec(c, Start, acts); SubmittedThere(c, s, id, spec) && s.recs == [Rec(id, 0, Finished)]
    ensures SentOnly(acts, id, spec)
  {
    acts := Forges(c, id, spec);
    var s := Exec(c, Start, acts);
    TurnWrites(c, s, id, 0);
    assert Answer(c.crs[id].spec, s.b.db, id, NewJob) == Accepted(T.Some(1));
    assert Reconciled(c.crs[id].maxRetries, NewJob, Accepted(T.Some(1)), 0) == T.Some(Sent());
    assert [NewJob] + [Sent()] == [NewJob, Sent()];
    acts := TurnRun(c, acts, id);
  }

  /** Nobody but the operator posts, or only somebody who has chosen this key for this submission. */
  predicate SentOnly(acts: seq<Action>, id: CrId, spec: T.Spec)
  {
    forall i | 0 <= i < |acts| && acts[i].Submit? :: acts[i] == Submit(Explicit(OperatorKey(id)), spec)
  }

  /** An object whose request the schema lets through can be submitted for any submission that its
      key can be stored with; if that is its own, nobody else need post. */
  lemma GetsSubmitted(c: Config, id: CrId, spec: T.Spec) returns (acts: seq<Action>)
    requires id in c.crs && Admitted(c, id) && T.Admissible(OperatorKey(id), spec)
    ensures var s := Exec(c, Start, acts); SubmittedThere(c, s, id, spec) && s.recs == [Rec(id, 0, Finished)]
    ensures SentOnly(acts, id, spec) && (spec == c.crs[id].spec ==> forall i | 0 <= i < |acts| :: !acts[i].Submit?)
  {
    if spec == c.crs[id].spec { acts := OwnSubmission(c, id); } else { acts := ForgedSubmission(c, id, spec); }
  }

  // ---- up to Running ----

  /** The object is Running, and a worker is about to call the engine for its benchmark. */
  ghost predicate RunningThere(c: Config, s: State, id: CrId, spec: T.Spec)
  {
    && id in c.crs && id in s.hists && s.hists[id] == [NewJob, Sent(), Sent().(phase := Running)]
    && Engaged(s.b, OperatorKey(id), spec)
  }

  /** A worker has marked the benchmark. */
  ghost predicate Engaged(b: B.State, key: string, spec: T.Spec)
  {
    && b.db.index == map[key := 1] && b.db.results == map[]
    && 1 in b.db.rows && b.db.rows[1].key == key && b.db.rows[1].status == T.Running
    && b.db.rows[1].modelId in b.db.models && SpecOf(b.db, 1) == spec
    && b.workers == [B.Executing(T.Message(1, spec, 0))] && b.queue == []
  }

  lemma Marks(limit: int, b: B.State, key: string, spec: T.Spec)
    requires Pushed(b, key, spec)
    ensures Engaged(B.Exec(limit, b, [B.Hire, B.Work(0, W.Bad), B.Work(0, W.Good)]), key, spec)
  {
    var first := [B.Hire, B.Work(0, W.Bad)];
    FirstWorker(limit, b, key, spec);
    W.MarkStep(limit, B.Exec(limit, b, first), 0, W.Good);
    W.ExecMore(limit, b, first, B.Work(0, W.Good));
    assert first + [B.Work(0, W.Good)] == [B.Hire, B.Work(0, W.Bad), B.Work(0, W.Good)];
  }

  lemma GetsRunning(c: Config, acts: seq<Action>, id: CrId, spec: T.Spec) returns (more: seq<Action>)
    requires SubmittedThere(c, Exec(c, Start, acts), id, spec)
    ensures RunningThere(c, Exec(c, Start, more), id, spec) && Continues(acts, more)
  {
    more := BackRun(c, acts, [B.Hire, B.Work(0, W.Bad), B.Work(0, W.Good)]);
    Marks(c.limit, Exec(c, Start, acts).b, OperatorKey(id), spec);
    var s := Exec(c, Start, more);
    TurnWrites(c, s, id, 0);
    StatusNamesDiffer(T.Running);
    var answer := Answer(c.crs[id].spec, s.b.db, id, Sent());
    assert answer.Polled? && answer.status == "running";
    assert Reconciled(c.crs[id].maxRetries, Sent(), answer, 0) == T.Some(Sent().(phase := Running));
    assert [NewJob, Sent()] + [Sent().(phase := Running)] == [NewJob, Sent(), Sent().(phase := Running)];
    more := TurnRun(c, more, id);
  }

  // ---- up to the end ----

  lemma Finishes(limit: int, b: B.State, key: string, spec: T.Spec, metrics: T.Metrics)
    requires Engaged(b, key, spec)
    ensures var t := B.Exec(limit, b, [B.Work(0, B.Yields(metrics)), B.Work(0, W.Good)]);
      && t.db.index == map[key := 1] && 1 in t.db.rows && t.db.rows[1].status == T.Completed
      && t.db.rows[1].modelId in t.db.models && SpecOf(t.db, 1) == spec
  {
    var call := B.Work(0, B.Yields(metrics));
    W.EngineStep(limit, b, 0, B.Yields(metrics));
    W.ExecMore(limit, b, [], call);
    W.StoreStep(limit, B.Exec(limit, b, [] + [call]), 0, true);
    W.ExecMore(limit, b, [] + [call], B.Work(0, W.Good));
    assert [] + [call] + [B.Work(0, W.Good)] == [call, B.Work(0, W.Good)];
  }

  /** Who posts in these runs. */
  predicate PostedFor(c: Config, acts: seq<Action>, id: CrId, spec: T.Spec)
    requires id in c.crs
  {
    SentOnly(acts, id, spec) && (spec == c.crs[id].spec ==> forall i | 0 <= i < |acts| :: !acts[i].Submit?)
  }

  lemma PostedStays(c: Config, acts: seq<Action>, more: seq<Action>, id: CrId, spec: T.Spec)
    requires id in c.crs && PostedFor(c, acts, id, spec) && Continues(acts, more)
    ensures PostedFor(c, more, id, spec)
  {
    forall i | 0 <= i < |more| && more[i].Submit? ensures i < |acts| && more[i] == acts[i] {}
  }

  /** A key carries its sender's submission all the way into the object: it ends Completed with the
      result of a run on `spec`. */
  lemma ForgedCompletes(c: Config, id: CrId, spec: T.Spec, metrics: T.Metrics) returns (acts: seq<Action>)
    requires id in c.crs && Admitted(c, id) && T.Admissible(OperatorKey(id), spec)
    ensures PostedFor(c, acts, id, spec)
    ensures var s := Exec(c, Start, acts); var db := s.b.db;
      && id in s.hists && |s.hists[id]| > 0 && Tip(s, id).phase == Completed
      && OperatorKey(id) in db.index && var b := db.index[OperatorKey(id)];
      && b in db.rows && db.rows[b].modelId in db.models && SpecOf(db, b) == spec
  {
    var first := GetsSubmitted(c, id, spec);
    var mid := GetsRunning(c, first, id, spec);
    PostedStays(c, first, mid, id, spec);
    acts := RunningToCompleted(c, mid, id, spec, metrics);
    PostedStays(c, mid, acts, id, spec);
  }

  lemma RunningToCompleted(c: Config, acts: seq<Action>, id: CrId, spec: T.Spec, metrics: T.Metrics)
    returns (more: seq<Action>)
    requires RunningThere(c, Exec(c, Start, acts), id, spec)
    ensures Continues(acts, more)
    ensures var s := Exec(c, Start, more); var db := s.b.db;
      && id in s.hists && |s.hists[id]| > 0 && Tip(s, id).phase == Completed
      && OperatorKey(id) in db.index && var b := db.index[OperatorKey(id)];
      && b in db.rows && db.rows[b].modelId in db.models && SpecOf(db, b) == spec
  {
    var u := Exec(c, Start, acts);
    more := BackRun(c, acts, [B.Work(0, B.Yields(metrics)), B.Work(0, W.Good)]);
    Finishes(c.limit, u.b, OperatorKey(id), spec, metrics);
    var s := Exec(c, Start, more);
    TurnWrites(c, s, id, 0);
    StatusNamesDiffer(T.Completed);
    var answer := Answer(c.crs[id].spec, s.b.db, id, Tip(s, id));
    assert answer.Polled? && answer.status == "completed";
    more := TurnRun(c, more, id);
  }

  /** The benchmark of a BenchmarkJob can complete between its submission and its first poll, and
      then the object stays short of Running for good. */
  lemma CanMiss(c: Config, id: CrId, spec: T.Spec, metrics: T.Metrics) returns (acts: seq<Action>)
    requires id in c.crs && Admitted(c, id) && T.Admissible(OperatorKey(id), spec)
    ensures PostedFor(c, acts, id, spec)
    ensures Missed(Exec(c, Start, acts), id) && Tip(Exec(c, Start, acts), id).phase == Submitted
  {
    var first := GetsSubmitted(c, id, spec);
    var s := Exec(c, Start, first);
    var mid := BackRun(c, first, [B.Hire, B.Work(0, W.Bad), B.Work(0, W.Good)]);
    PostedStays(c, first, mid, id, spec);
    Marks(c.limit, s.b, OperatorKey(id), spec);
    var t := Exec(c, Start, mid);
    acts := BackRun(c, mid, [B.Work(0, B.Yields(metrics)), B.Work(0, W.Good)]);
    PostedStays(c, mid, acts, id, spec);
    Finishes(c.limit, t.b, OperatorKey(id), spec, metrics);
  }

  /** A benchmark that was seen running can fail, whatever `worker_max_retries` is. */
  lemma RunsAndFails(c: Config, id: CrId, spec: T.Spec) returns (acts: seq<Action>)
    requires id in c.crs && Admitted(c, id) && T.Admissible(OperatorKey(id), spec)
    ensures PostedFor(c, acts, id, spec)
    ensures var s := Exec(c, Start, acts);
      && id in s.hists && s.hists[id] == [NewJob, Sent(), Sent().(phase := Running)]
      && Stands(s, id, T.Failed)
  {
    var first := GetsSubmitted(c, id, spec);
    var mid := GetsRunning(c, first, id, spec);
    PostedStays(c, first, mid, id, spec);
    var s := Exec(c, Start, mid);
    var bs := Fails(c.limit, s.b, OperatorKey(id), spec);
    acts := BackRun(c, mid, bs);
    PostedStays(c, mid, acts, id, spec);
  }

  lemma TurnsRun(c: Config, acts: seq<Action>, id: CrId, n: nat, clock: nat -> Time) returns (more: seq<Action>)
    ensures Continues(acts, more)
    ensures Exec(c, Start, more) == Turns(c, Exec(c, Start, acts), id, n, clock)
  {
    var turns := TurnsFrom(c, Exec(c, Start, acts), id, n, clock);
    ExecConcat(c, Start, acts, turns);
    more := acts + turns;
  }

  lemma Fails(limit: int, b: B.State, key: string, spec: T.Spec) returns (bs: seq<B.Action>)
    requires Engaged(b, key, spec)
    ensures forall i | 0 <= i < |bs| :: !bs[i].Arrive?
    ensures var t := B.Exec(limit, b, bs); t.db == MarkFailed(b.db, 1)
  {
    W.EngineStep(limit, b, 0, W.Bad);
    W.ExecMore(limit, b, [], B.Work(0, W.Bad));
    bs := GivesUp(limit, b, [] + [B.Work(0, W.Bad)]);
    W.FailStep(limit, B.Exec(limit, b, bs), 0, true);
    W.ExecMore(limit, b, bs, B.Work(0, W.Good));
    bs := bs + [B.Work(0, W.Good)];
  }
}
