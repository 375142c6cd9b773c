/** Which BenchmarkJobs the API lets in at all. */
module Admission {
  import opened Keys
  import opened Operator
  import T = Types
  import Submission
  import opened Platform

  /** The operator's own POST for `id` gets past the schema. */
  predicate Admitted(c: Config, id: CrId)
    requires id in c.crs
  {
    T.Accepts(OperatorKey(id), c.crs[id].spec)
  }

  /** Whatever is stored, or about to be, beyond the empty phase belongs to an admitted object. */
  ghost predicate AdmissionInv(c: Config, s: State)
  {
    && (forall id | id in s.hists && id in c.crs :: HistAdmitted(c, s, id))
    && (forall r | 0 <= r < |s.recs| :: RecAdmitted(c, s.recs[r]))
  }

  ghost predicate HistAdmitted(c: Config, s: State, id: CrId)
    requires id in s.hists && id in c.crs
  {
    !Admitted(c, id) ==> forall v | 0 <= v < |s.hists[id]| :: s.hists[id][v].phase == Blank
  }

  predicate RecAdmitted(c: Config, x: Rec)
  {
    x.id in c.crs && x.pc.Writing? && !Admitted(c, x.id) ==> x.pc.job.phase == Blank
  }

  /** Only an accepted POST takes an object out of the empty phase. */
  lemma BlankStays(maxRetries: int, j: Job, reply: Reply, now: Time)
    requires j.phase == Blank && !reply.Accepted?
    ensures var w := Reconciled(maxRetries, j, reply, now); w.Some? ==> w.value.phase == Blank
  {
  }

  /** A rejected request gets no job. */
  lemma HearAdmitted(c: Config, s: State, r: nat, now: Time)
    requires r < |s.recs| && RecOk(c, s, s.recs[r]) && RecAdmitted(c, s.recs[r])
    requires s.recs[r].id in s.hists && HistAdmitted(c, s, s.recs[r].id)
    requires s.recs[r].pc.Posted? ==> Submission.HandlerOk(s.b.db, s.b.handlers[s.recs[r].pc.h])
    ensures r < |HearNext(c, s, r, now).recs| && RecAdmitted(c, HearNext(c, s, r, now).recs[r])
  {
    var x := s.recs[r];
    if !Admitted(c, x.id) {
      var j := s.hists[x.id][x.v];
      var m := c.crs[x.id].maxRetries;
      match x.pc
      case Posted(h) => BlankStays(m, j, PostReply(s.b.handlers[h].pc), now);
      case Polling => BlankStays(m, j, GetReply(s.b.db, j.jobId), now);
      case _ =>
    }
  }

  lemma SendAdmitted(c: Config, s: State, r: nat)
    requires r < |s.recs| && RecOk(c, s, s.recs[r]) && RecAdmitted(c, s.recs[r])
    requires s.recs[r].id in s.hists && HistAdmitted(c, s, s.recs[r].id)
    ensures r < |SendNext(c, s, r).recs| && RecAdmitted(c, SendNext(c, s, r).recs[r])
  {
    var x := s.recs[r];
    BlankStays(c.crs[x.id].maxRetries, s.hists[x.id][x.v].(phase := Blank), NoAnswer, 0);
  }

  lemma StepRec(c: Config, s: State, a: Action, r: nat)
    requires PlatformInv(c, s) && AdmissionInv(c, s) && r < |Next(c, s, a).recs|
    ensures RecAdmitted(c, Next(c, s, a).recs[r])
  {
    RecsKeep(c, s, a);
    if r < |s.recs| {
      assert RecOk(c, s, s.recs[r]) && HistAdmitted(c, s, s.recs[r].id) && RecAdmitted(c, s.recs[r]);
      if s.recs[r].pc.Posted? { assert Submission.HandlerOk(s.b.db, s.b.handlers[s.recs[r].pc.h]); }
      RecMoves(c, s, a, r);
      match a
      case Send(q) => if q == r && s.recs[r].pc.Fetched? { SendAdmitted(c, s, r); }
      case Hear(q, now) => if q == r { HearAdmitted(c, s, r, now); }
      case _ =>
    }
  }

  /** Only its own sending and hearing bring a reconciler to a write. */
  lemma RecMoves(c: Config, s: State, a: Action, r: nat)
    requires r < |s.recs|
    ensures var t := Next(c, s, a);
      && r < |t.recs|
      && (if a.Send? && a.r == r && s.recs[r].pc.Fetched? then t == SendNext(c, s, r)
          else if a.Hear? && a.r == r then t == HearNext(c, s, r, a.now)
          else t.recs[r] == s.recs[r] || t.recs[r].pc.Finished?)
  {
  }

  /** What one step adds to the versions of an object. */
  lemma StepHist(c: Config, s: State, a: Action, id: CrId, v: nat)
    requires PlatformInv(c, s) && AdmissionInv(c, s) && id in c.crs && !Admitted(c, id)
    requires id in Next(c, s, a).hists && v < |Next(c, s, a).hists[id]|
    ensures Next(c, s, a).hists[id][v].phase == Blank
  {
    if id in s.hists { assert HistAdmitted(c, s, id); }
    if a.Store? && a.r < |s.recs| { assert RecAdmitted(c, s.recs[a.r]); }
    NewVersion(c, s, a, id, v);
  }

  /** A version that a step adds is a new object, a copy of the latest with other metadata, or a write
      in hand. */
  lemma NewVersion(c: Config, s: State, a: Action, id: CrId, v: nat)
    requires id in Next(c, s, a).hists && v < |Next(c, s, a).hists[id]|
    ensures var k := Next(c, s, a).hists[id][v];
      || (id in s.hists && v < |s.hists[id]| && k == s.hists[id][v])
      || (id !in s.hists && k.phase == Blank)
      || (id in s.hists && |s.hists[id]| > 0 && k.phase == Tip(s, id).phase)
      || (a.Store? && a.r < |s.recs| && s.recs[a.r].id == id && s.recs[a.r].pc.Writing? && k == s.recs[a.r].pc.job)
  {
    if a.Send? && a.r < |s.recs| { assert SendNext(c, s, a.r).hists == s.hists; }
    if a.Hear? && a.r < |s.recs| { assert HearNext(c, s, a.r, a.now).hists == s.hists; }
  }

  lemma AdmissionStep(c: Config, s: State, a: Action)
    requires PlatformInv(c, s) && AdmissionInv(c, s)
    ensures AdmissionInv(c, Next(c, s, a))
  {
    var t := Next(c, s, a);
    forall r | 0 <= r < |t.recs| ensures RecAdmitted(c, t.recs[r]) { StepRec(c, s, a, r); }
    forall id | id in t.hists && id in c.crs ensures HistAdmitted(c, t, id) {
      if !Admitted(c, id) {
        forall v | 0 <= v < |t.hists[id]| ensures t.hists[id][v].phase == Blank { StepHist(c, s, a, id, v); }
      }
    }
  }

  lemma {:induction false} AdmissionAlways(c: Config, acts: seq<Action>)
    ensures AdmissionInv(c, Exec(c, Start, acts))
    decreases |acts|
  {
    if acts != [] {
      AdmissionAlways(c, acts[..|acts| - 1]);
      PlatformAlways(c, acts[..|acts| - 1]);
      AdmissionStep(c, Exec(c, Start, acts[..|acts| - 1]), acts[|acts| - 1]);
    }
  }

  /** An object whose own request the schema refuses, such as one with a namespace and name of more
      than 127 characters, stays in the empty phase on every run, whatever others send. */
  lemma RefusedStaysBlank(c: Config, s: State, id: CrId, v: nat)
    requires Reachable(c, s) && id in s.hists && v < |s.hists[id]|
    ensures id in c.crs && (!Admitted(c, id) ==> s.hists[id][v].phase == Blank)
  {
    var acts :| s == Exec(c, Start, acts);
    PlatformAlways(c, acts);
    AdmissionAlways(c, acts);
    assert HistOk(c, s, id) && HistAdmitted(c, s, id);
  }

  /** The same in numbers. */
  lemma TooLongStaysBlank(c: Config, s: State, id: CrId, v: nat)
    requires Reachable(c, s) && id in s.hists && v < |s.hists[id]|
    ensures id in c.crs
    ensures |id.namespace| + 1 + |id.name| > 128 || c.crs[id].spec.batch <= 0 ==> s.hists[id][v].phase == Blank
  {
    RefusedStaysBlank(c, s, id, v);
    OperatorKeyShape(id);
  }
}
