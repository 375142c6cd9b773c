/** The queue is first in, first out, over whole runs. */
module Fifo {
  import opened Types
  import opened Backend

  function Benches(q: seq<Message>): multiset<Uuid>
  {
    if q == [] then multiset{} else multiset{q[0].bench} + Benches(q[1..])
  }

  lemma {:induction false} BenchesConcat(a: seq<Message>, b: seq<Message>)
    ensures Benches(a + b) == Benches(a) + Benches(b)
  {
    if a == [] {
      assert a + b == b;
    } else {
      assert (a + b)[1..] == a[1..] + b;
      BenchesConcat(a[1..], b);
    }
  }

  /** From `s` to `t` the messages of `pushed`, the last one first, went in at the left, and as many as
      are missing at the right were taken by workers, who took nothing else. */
  ghost predicate Flows(s: State, t: State, pushed: seq<Message>)
  {
    && |t.queue| <= |pushed| + |s.queue|
    && t.queue == (pushed + s.queue)[..|t.queue|]
    && t.log.dequeued == s.log.dequeued + Benches((pushed + s.queue)[|t.queue|..])
  }

  /** What one step puts in: the first message of a new benchmark, or the next attempt of one. */
  function PutIn(limit: int, s: State, a: Action): seq<Message>
  {
    match a
    case Advance(h, _) =>
      if h < |s.handlers| && s.handlers[h].pc.Owing? then
        [Message(s.handlers[h].pc.bench, s.handlers[h].spec, 0)]
      else []
    case Work(w, _) =>
      if w < |s.workers| && s.workers[w].Recovering? && s.workers[w].m.attempt + 1 < limit then
        var m := s.workers[w].m;
        [Message(m.bench, m.spec, m.attempt + 1)]
      else []
    case _ => []
  }

  lemma StepFlows(limit: int, s: State, a: Action)
    ensures Flows(s, Next(limit, s, a), PutIn(limit, s, a))
  {
    var t := Next(limit, s, a);
    if a.Work? && a.w < |s.workers| && s.workers[a.w].Idle? && s.queue != [] {
      StepTakes(limit, s, a.w, a.outcome);
      FlowsOut(s, t);
    } else {
      StepPuts(limit, s, a);
      FlowsIn(s, t, PutIn(limit, s, a));
    }
  }

  lemma FlowsIn(s: State, t: State, pushed: seq<Message>)
    requires t.queue == pushed + s.queue && t.log.dequeued == s.log.dequeued
    ensures Flows(s, t, pushed)
  {
    assert (pushed + s.queue)[|t.queue|..] == [];
  }

  lemma FlowsOut(s: State, t: State)
    requires s.queue != []
    requires var n := |s.queue| - 1;
      t.queue == s.queue[..n] && t.log.dequeued == s.log.dequeued + multiset{s.queue[n].bench}
    ensures Flows(s, t, [])
  {
    var n := |s.queue| - 1;
    assert [] + s.queue == s.queue && s.queue[n..] == [s.queue[n]];
    assert Benches([s.queue[n]]) == multiset{s.queue[n].bench};
  }

  lemma StepTakes(limit: int, s: State, w: nat, o: Outcome)
    requires w < |s.workers| && s.workers[w].Idle? && s.queue != []
    ensures var t := Next(limit, s, Work(w, o)); var n := |s.queue| - 1;
      && t.queue == s.queue[..n] && t.log.dequeued == s.log.dequeued + multiset{s.queue[n].bench}
      && PutIn(limit, s, Work(w, o)) == []
  {
  }

  lemma StepPuts(limit: int, s: State, a: Action)
    requires !(a.Work? && a.w < |s.workers| && s.workers[a.w].Idle? && s.queue != [])
    ensures var t := Next(limit, s, a); t.queue == PutIn(limit, s, a) + s.queue && t.log.dequeued == s.log.dequeued
  {
    var t := Next(limit, s, a);
    if PutIn(limit, s, a) == [] { assert t.queue == s.queue; }
  }

  lemma FlowsTrans(s: State, t: State, u: State, p: seq<Message>, q: seq<Message>)
    requires Flows(s, t, p) && Flows(t, u, q)
    ensures Flows(s, u, q + p)
  {
    Reassembles(q, p + s.queue, |t.queue|, |u.queue|);
    assert q + p + s.queue == q + (p + s.queue);
    BenchesConcat((q + t.queue)[|u.queue|..], (p + s.queue)[|t.queue|..]);
  }

  /** Cutting off at the right twice is cutting off once. */
  lemma Reassembles(q: seq<Message>, r: seq<Message>, m: nat, n: nat)
    requires m <= |r| && n <= |q| + m
    ensures (q + r[..m])[..n] == (q + r)[..n]
    ensures (q + r)[n..] == (q + r[..m])[n..] + r[m..]
  {
    assert q + r == (q + r[..m]) + r[m..];
  }

  /** Over every run, from any state: the queue is what was there with what came in before it, less
      what the workers took from the other end, in that order and nothing else. */
  lemma {:induction false} FirstInFirstOut(limit: int, s: State, acts: seq<Action>) returns (pushed: seq<Message>)
    ensures Flows(s, Exec(limit, s, acts), pushed)
    decreases |acts|
  {
    if acts == [] {
      pushed := [];
      assert [] + s.queue == s.queue && s.queue[|s.queue|..] == [];
    } else {
      var n := |acts| - 1;
      var p := FirstInFirstOut(limit, s, acts[..n]);
      var t := Exec(limit, s, acts[..n]);
      StepFlows(limit, t, acts[n]);
      FlowsTrans(s, t, Exec(limit, s, acts), p, PutIn(limit, t, acts[n]));
      pushed := PutIn(limit, t, acts[n]) + p;
    }
  }

  /** So messages neither overtake nor are overtaken: the message at place `i` is still queued, behind
      the same messages or fewer of them, or it and all that were before it have been taken. */
  lemma NoOvertaking(limit: int, s: State, acts: seq<Action>, i: nat) returns (d: nat)
    requires i < |s.queue|
    ensures var t := Exec(limit, s, acts);
      if d + i < |t.queue| then |t.queue| <= d + |s.queue| && t.queue[d..] == s.queue[..|t.queue| - d]
      else s.log.dequeued + Benches(s.queue[i..]) <= t.log.dequeued
  {
    var pushed := FirstInFirstOut(limit, s, acts);
    d := |pushed|;
    FlowsTaken(s, Exec(limit, s, acts), pushed, i);
  }

  lemma FlowsTaken(s: State, t: State, pushed: seq<Message>, i: nat)
    requires Flows(s, t, pushed) && i < |s.queue|
    ensures var d := |pushed|;
      if d + i < |t.queue| then |t.queue| <= d + |s.queue| && t.queue[d..] == s.queue[..|t.queue| - d]
      else s.log.dequeued + Benches(s.queue[i..]) <= t.log.dequeued
  {
    var d := |pushed|;
    var all := pushed + s.queue;
    if d + i < |t.queue| {
      assert all[..|t.queue|][d..] == s.queue[..|t.queue| - d];
    } else {
      assert all[|t.queue|..] == all[|t.queue|..d + i] + s.queue[i..];
      BenchesConcat(all[|t.queue|..d + i], s.queue[i..]);
    }
  }
}
