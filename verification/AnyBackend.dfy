/** One BenchmarkJob under any number of reconcilers on stale copies, against a backend that may
    reply anything at any time. */
module AnyBackend {
  import opened Operator
  import T = Types

  datatype RecPc = Fetched | Writing(job: Job) | Finished

  /** A reconcile on version `v`, which may be an old one. */
  datatype Rec = Rec(v: nat, pc: RecPc)

  datatype State = State(hist: seq<Job>, recs: seq<Rec>)

  datatype Action =
    | Delete
    | Touch
    | Fetch(v: nat)
    | Hear(r: nat, reply: Reply, now: Time)     // the one HTTP call, with any reply
    | Store(r: nat)
    | Drop(r: nat)

  function Start(finalizer: bool): State { State([NewJob.(finalizer := finalizer)], []) }

  function SetRec(s: State, r: nat, pc: RecPc): State
    requires r < |s.recs|
  {
    s.(recs := s.recs[r := s.recs[r].(pc := pc)])
  }

  predicate Live(s: State) { |s.hist| > 0 && !Gone(s.hist[|s.hist| - 1]) }

  function Next(maxRetries: int, s: State, a: Action): State
  {
    match a
    case Delete => if Live(s) then s.(hist := s.hist + [s.hist[|s.hist| - 1].(deleting := true)]) else s
    case Touch => if Live(s) then s.(hist := s.hist + [s.hist[|s.hist| - 1]]) else s
    case Fetch(v) => if v < |s.hist| then s.(recs := s.recs + [Rec(v, Fetched)]) else s
    case Hear(r, reply, now) =>
      if r < |s.recs| && s.recs[r].pc.Fetched? && s.recs[r].v < |s.hist| then
        var w := Reconciled(maxRetries, s.hist[s.recs[r].v], reply, now);
        SetRec(s, r, if w.Some? then Writing(w.value) else Finished)
      else s
    case Store(r) =>
      if r < |s.recs| && s.recs[r].pc.Writing? then
        if s.recs[r].v + 1 == |s.hist| && Live(s) then SetRec(s, r, Finished).(hist := s.hist + [s.recs[r].pc.job])
        else SetRec(s, r, Finished)
      else s
    case Drop(r) => if r < |s.recs| then SetRec(s, r, Finished) else s
  }

  function Exec(maxRetries: int, s: State, acts: seq<Action>): State
    decreases |acts|
  {
    if acts == [] then s else Next(maxRetries, Exec(maxRetries, s, acts[..|acts| - 1]), acts[|acts| - 1])
  }

  ghost predicate RecOk(maxRetries: int, s: State, x: Rec)
  {
    x.v < |s.hist| && (x.pc.Writing? ==> ReconcileEdge(maxRetries, s.hist[x.v], x.pc.job))
  }

  ghost predicate Inv(maxRetries: int, s: State)
  {
    History(maxRetries, s.hist) && forall r | 0 <= r < |s.recs| :: RecOk(maxRetries, s, s.recs[r])
  }

  lemma HistoryGrows(maxRetries: int, hist: seq<Job>, k: Job)
    requires History(maxRetries, hist) && Edge(maxRetries, hist[|hist| - 1], k)
    ensures History(maxRetries, hist + [k])
  {
    var longer := hist + [k];
    forall v | 0 < v < |longer| ensures EdgeAt(maxRetries, longer, v) {
      if v < |hist| { assert EdgeAt(maxRetries, hist, v); }
    }
  }

  lemma RecsStay(maxRetries: int, s: State, t: State)
    requires Inv(maxRetries, s) && s.hist <= t.hist && |t.recs| == |s.recs|
    requires forall r | 0 <= r < |s.recs| :: t.recs[r] == s.recs[r] || t.recs[r] == s.recs[r].(pc := Finished)
    ensures forall r | 0 <= r < |t.recs| :: RecOk(maxRetries, t, t.recs[r])
  {
    forall r | 0 <= r < |t.recs| ensures RecOk(maxRetries, t, t.recs[r]) { assert RecOk(maxRetries, s, s.recs[r]); }
  }

  lemma HearKeeps(maxRetries: int, s: State, r: nat, reply: Reply, now: Time)
    requires Inv(maxRetries, s)
    ensures Inv(maxRetries, Next(maxRetries, s, Hear(r, reply, now)))
  {
    var t := Next(maxRetries, s, Hear(r, reply, now));
    forall q | 0 <= q < |t.recs| ensures RecOk(maxRetries, t, t.recs[q]) {
      assert RecOk(maxRetries, s, s.recs[q]);
      if q == r && t != s && t.recs[r].pc.Writing? {
        assert Reconciled(maxRetries, s.hist[s.recs[r].v], reply, now).Some?;
        assert ReconcileEdge(maxRetries, s.hist[s.recs[r].v], t.recs[r].pc.job);
      }
    }
  }

  /** A version is added by an edge of the atomic phase machine from the latest one, or none is. */
  lemma StepRefines(maxRetries: int, s: State, a: Action)
    requires Inv(maxRetries, s)
    ensures var t := Next(maxRetries, s, a);
      t.hist == s.hist || exists k :: t.hist == s.hist + [k] && Edge(maxRetries, s.hist[|s.hist| - 1], k)
  {
    var t := Next(maxRetries, s, a);
    if a.Store? && a.r < |s.recs| {
      assert RecOk(maxRetries, s, s.recs[a.r]);
      assert t.hist == s.hist || t.hist == s.hist + [s.recs[a.r].pc.job];
    } else if a.Delete? && t != s {
      assert t.hist == s.hist + [s.hist[|s.hist| - 1].(deleting := true)];
    } else if a.Touch? && t != s {
      assert t.hist == s.hist + [s.hist[|s.hist| - 1]];
    }
  }

  lemma InvStep(maxRetries: int, s: State, a: Action)
    requires Inv(maxRetries, s)
    ensures Inv(maxRetries, Next(maxRetries, s, a))
  {
    var t := Next(maxRetries, s, a);
    StepRefines(maxRetries, s, a);
    if t.hist != s.hist {
      var k :| t.hist == s.hist + [k] && Edge(maxRetries, s.hist[|s.hist| - 1], k);
      HistoryGrows(maxRetries, s.hist, k);
    }
    match a
    case Hear(r, reply, now) => HearKeeps(maxRetries, s, r, reply, now);
    case Fetch(v) =>
      forall r | 0 <= r < |t.recs| ensures RecOk(maxRetries, t, t.recs[r]) {
        if r < |s.recs| { assert RecOk(maxRetries, s, s.recs[r]); }
      }
    case _ => RecsStay(maxRetries, s, t);
  }

  lemma {:induction false} InvAlways(maxRetries: int, finalizer: bool, acts: seq<Action>)
    ensures Inv(maxRetries, Exec(maxRetries, Start(finalizer), acts))
    decreases |acts|
  {
    if acts != [] {
      InvAlways(maxRetries, finalizer, acts[..|acts| - 1]);
      InvStep(maxRetries, Exec(maxRetries, Start(finalizer), acts[..|acts| - 1]), acts[|acts| - 1]);
    }
  }

  /** The history that a run brings about. */
  ghost predicate IsRun(maxRetries: int, finalizer: bool, hist: seq<Job>, acts: seq<Action>)
  {
    Exec(maxRetries, Start(finalizer), acts).hist == hist
  }

  /** On every interleaving and with every reply: at most 3(R+1) status writes, every version sound,
      and terminal phases and deletion freeze the status. */
  lemma InterleavedBound(maxRetries: int, finalizer: bool, acts: seq<Action>, hist: seq<Job>, v: nat)
    requires IsRun(maxRetries, finalizer, hist, acts) && v < |hist|
    ensures StatusWrites(hist) <= 3 * (Retries(maxRetries) + 1) && Sound(maxRetries, hist[v])
    ensures Terminal(hist[v].phase) || hist[v].deleting ==> SameStatus(hist[v], hist[|hist| - 1])
  {
    InvAlways(maxRetries, finalizer, acts);
    HistoryPromises(maxRetries, hist, v);
  }

  lemma HistoryPromises(maxRetries: int, hist: seq<Job>, v: nat)
    requires History(maxRetries, hist) && v < |hist|
    ensures StatusWrites(hist) <= 3 * (Retries(maxRetries) + 1) && Sound(maxRetries, hist[v])
    ensures Terminal(hist[v].phase) || hist[v].deleting ==> SameStatus(hist[v], hist[|hist| - 1])
  {
    WritesAgainstAnyBackend(maxRetries, hist);
    HistorySound(maxRetries, hist, v);
    if Terminal(hist[v].phase) || hist[v].deleting { FrozenAfter(maxRetries, hist, v, |hist| - 1); }
  }

  /** A write in hand can be lost, and then it is never stored. */
  lemma WriteLost(maxRetries: int, s: State, r: nat)
    requires r < |s.recs|
    ensures var t := Next(maxRetries, s, Drop(r));
      t.hist == s.hist && t.recs == s.recs[r := Rec(s.recs[r].v, Finished)] && Next(maxRetries, t, Store(r)) == t
  {
  }

  // ---- every history is possible ----

  /** Nothing follows a version that is gone. */
  ghost predicate EndsWhenGone(hist: seq<Job>)
  {
    forall v | 0 <= v < |hist| - 1 :: !Gone(hist[v])
  }

  lemma ExecMore(maxRetries: int, s: State, acts: seq<Action>, a: Action)
    ensures Exec(maxRetries, s, acts + [a]) == Next(maxRetries, Exec(maxRetries, s, acts), a)
  {
    assert (acts + [a])[..|acts|] == acts;
  }

  /** One reconcile of the latest version, under the reply that brings about this edge. */
  lemma ReconcileRun(maxRetries: int, s: State, acts: seq<Action>, u: State, reply: Reply, now: Time)
    returns (more: seq<Action>)
    requires u == Exec(maxRetries, s, acts) && Live(u)
    requires Reconciled(maxRetries, u.hist[|u.hist| - 1], reply, now).Some?
    ensures Exec(maxRetries, s, more).hist
      == u.hist + [Reconciled(maxRetries, u.hist[|u.hist| - 1], reply, now).value]
  {
    var r := |u.recs|;
    var fetch, hear, store := Fetch(|u.hist| - 1), Hear(r, reply, now), Store(r);
    OneReconcile(maxRetries, u, reply, now);
    more := ThreeMore(maxRetries, s, acts, fetch, hear, store);
  }

  lemma ThreeMore(maxRetries: int, s: State, acts: seq<Action>, a: Action, b: Action, c: Action)
    returns (more: seq<Action>)
    ensures Exec(maxRetries, s, more)
      == Next(maxRetries, Next(maxRetries, Next(maxRetries, Exec(maxRetries, s, acts), a), b), c)
  {
    ExecMore(maxRetries, s, acts, a);
    ExecMore(maxRetries, s, acts + [a], b);
    ExecMore(maxRetries, s, acts + [a] + [b], c);
    more := acts + [a] + [b] + [c];
  }

  lemma OneReconcile(maxRetries: int, s: State, reply: Reply, now: Time)
    requires Live(s) && Reconciled(maxRetries, s.hist[|s.hist| - 1], reply, now).Some?
    ensures var r := |s.recs|;
      var fetched := Next(maxRetries, s, Fetch(|s.hist| - 1));
      var heard := Next(maxRetries, fetched, Hear(r, reply, now));
      Next(maxRetries, heard, Store(r)).hist
      == s.hist + [Reconciled(maxRetries, s.hist[|s.hist| - 1], reply, now).value]
  {
    var r := |s.recs|;
    var fetched := Next(maxRetries, s, Fetch(|s.hist| - 1));
    assert fetched.recs[r] == Rec(|s.hist| - 1, Fetched) && fetched.hist == s.hist;
    var heard := Next(maxRetries, fetched, Hear(r, reply, now));
    assert heard.recs[r].pc == Writing(Reconciled(maxRetries, s.hist[|s.hist| - 1], reply, now).value);
  }

  lemma EdgeRun(maxRetries: int, s: State, acts: seq<Action>, u: State, k: Job) returns (more: seq<Action>)
    requires u == Exec(maxRetries, s, acts) && Live(u) && Edge(maxRetries, u.hist[|u.hist| - 1], k)
    ensures Exec(maxRetries, s, more).hist == u.hist + [k]
  {
    var j := u.hist[|u.hist| - 1];
    if k == j {
      ExecMore(maxRetries, s, acts, Touch);
      more := acts + [Touch];
    } else if k == j.(deleting := true) {
      ExecMore(maxRetries, s, acts, Delete);
      more := acts + [Delete];
    } else {
      var reply, now :| Reconciled(maxRetries, j, reply, now) == T.Some(k);
      more := ReconcileRun(maxRetries, s, acts, u, reply, now);
    }
  }

  lemma PriorHistory(maxRetries: int, finalizer: bool, hist: seq<Job>)
    requires History(maxRetries, hist) && FromNew(finalizer, hist) && |hist| > 1
    ensures var prior := hist[..|hist| - 1];
      && History(maxRetries, prior) && FromNew(finalizer, prior) && !Gone(prior[|prior| - 1])
      && Edge(maxRetries, prior[|prior| - 1], hist[|hist| - 1])
  {
    var prior := hist[..|hist| - 1];
    forall v | 0 < v < |prior| ensures EdgeAt(maxRetries, prior, v) { assert EdgeAt(maxRetries, hist, v); }
    assert EdgeAt(maxRetries, hist, |hist| - 1);
  }

  lemma {:induction false} HistoryRun(maxRetries: int, finalizer: bool, hist: seq<Job>)
    returns (acts: seq<Action>, u: State)
    requires History(maxRetries, hist) && FromNew(finalizer, hist)
    ensures u == Exec(maxRetries, Start(finalizer), acts) && u.hist == hist
    decreases |hist|
  {
    if |hist| == 1 {
      acts, u := [], Start(finalizer);
    } else {
      PriorHistory(maxRetries, finalizer, hist);
      acts, u := HistoryRun(maxRetries, finalizer, hist[..|hist| - 1]);
      acts := EdgeRun(maxRetries, Start(finalizer), acts, u, hist[|hist| - 1]);
      u := Exec(maxRetries, Start(finalizer), acts);
    }
  }

  /** A history from this new object, which ends when it is gone. */
  ghost predicate FromNew(finalizer: bool, hist: seq<Job>)
  {
    |hist| > 0 && hist[0] == NewJob.(finalizer := finalizer) && EndsWhenGone(hist)
  }

  lemma GoneStep(maxRetries: int, finalizer: bool, s: State, a: Action)
    requires FromNew(finalizer, s.hist)
    ensures FromNew(finalizer, Next(maxRetries, s, a).hist)
  {
    var t := Next(maxRetries, s, a);
    if t.hist != s.hist { assert Live(s) && |t.hist| == |s.hist| + 1 && t.hist == s.hist + [t.hist[|s.hist|]]; }
  }

  lemma {:induction false} GoneEnds(maxRetries: int, finalizer: bool, acts: seq<Action>)
    ensures FromNew(finalizer, Exec(maxRetries, Start(finalizer), acts).hist)
    decreases |acts|
  {
    if acts != [] {
      GoneEnds(maxRetries, finalizer, acts[..|acts| - 1]);
      GoneStep(maxRetries, finalizer, Exec(maxRetries, Start(finalizer), acts[..|acts| - 1]), acts[|acts| - 1]);
    }
  }

  /** The interleaved reconcilers bring about exactly the histories of the atomic phase machine: those
      that begin with the new object, go along its edges, and end when the object is gone. */
  lemma HistoriesExactly(maxRetries: int, finalizer: bool, hist: seq<Job>)
    ensures (exists acts :: IsRun(maxRetries, finalizer, hist, acts))
      <==> History(maxRetries, hist) && FromNew(finalizer, hist)
  {
    if acts :| IsRun(maxRetries, finalizer, hist, acts) {
      InvAlways(maxRetries, finalizer, acts);
      GoneEnds(maxRetries, finalizer, acts);
    }
    if History(maxRetries, hist) && FromNew(finalizer, hist) {
      var acts, _ := HistoryRun(maxRetries, finalizer, hist);
      assert IsRun(maxRetries, finalizer, hist, acts);
    }
  }

  /** The bound is reached by a run of the interleaved reconcilers. */
  lemma InterleavedBoundReached(maxRetries: int) returns (acts: seq<Action>)
    ensures StatusWrites(Exec(maxRetries, Start(true), acts).hist) == 3 * (Retries(maxRetries) + 1)
  {
    var hist := SlowestRun(maxRetries, 3 * (Retries(maxRetries) + 1));
    var u;
    acts, u := HistoryRun(maxRetries, true, hist);
  }
}
