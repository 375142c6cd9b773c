/** One worker by itself: what processing one message does, in what order retries come round, and
    how long it takes to empty the queue. */
module Worker {
  import opened Types
  import opened Tables
  import opened Tallies
  import B = Backend

  /** The database and the two lists as one worker sees them. */
  datatype Shop = Shop(db: Db, queue: seq<Message>, dlq: seq<DeadLetter>)

  /** How the external calls of one processing turn out: `mark_running` and, if it raises, whether in
      a transaction; the engine; the commit of the result; the text of the exception; `mark_failed`. */
  datatype Trial =
    Trial(marks: bool, breaks: bool, engine: B.Outcome, stores: bool, reason: string, fails: bool)

  /** The processing ends in the except branch. */
  predicate Raises(db: Db, m: Message, t: Trial)
  {
    || (m.bench in db.rows && !t.marks)
    || t.engine.Raises?
    || (m.bench in db.rows && (!t.stores || m.bench in db.results))
  }

  /** The exception came from a transaction, which nobody rolls back, so the session refuses all that
      the except branch asks of it. */
  predicate Broken(db: Db, m: Message, t: Trial)
  {
    if m.bench in db.rows && !t.marks then t.breaks else t.engine.Yields? || t.engine.broken
  }

  /** The exception branch ends in an exception of its own: that of `mark_failed`. */
  predicate Dies(limit: int, db: Db, m: Message, t: Trial)
  {
    Raises(db, m, t) && m.attempt + 1 >= limit && (Broken(db, m, t) || (m.bench in db.rows && !t.fails))
  }

  /** `_process_job` on a message that has been taken from the queue. */
  function Process(limit: int, s: Shop, m: Message, t: Trial): Shop
  {
    var marked := if t.marks then MarkRunning(s.db, m.bench) else s.db;
    if !Raises(s.db, m, t) then
      s.(db := Complete(MarkRunning(s.db, m.bench), m.bench, ResultRow(t.engine.metrics, m.attempt + 1)))
    else if m.attempt + 1 < limit then
      s.(db := marked, queue := [m.(attempt := m.attempt + 1)] + s.queue)
    else
      s.(db := if t.fails && !Broken(s.db, m, t) then MarkFailed(marked, m.bench) else marked,
         dlq := [DeadLetter(m, t.reason)] + s.dlq)
  }

  /** Take the oldest message and process it. */
  function Serve(limit: int, s: Shop, t: Trial): Shop
    requires s.queue != []
  {
    var n := |s.queue| - 1;
    Process(limit, s.(queue := s.queue[..n]), s.queue[n], t)
  }

  function Served(limit: int, s: Shop, n: nat, script: nat -> Trial): Shop
  {
    if n == 0 then s
    else
      var u := Served(limit, s, n - 1, script);
      if u.queue == [] then u else Serve(limit, u, script(n - 1))
  }

  /** Each state but the first comes from serving the one before. */
  ghost predicate Services(limit: int, trace: seq<Shop>, script: nat -> Trial)
  {
    |trace| > 0 && forall i | 0 < i < |trace| :: Service(limit, trace, script, i)
  }

  ghost predicate Service(limit: int, trace: seq<Shop>, script: nat -> Trial, i: nat)
    requires 0 < i < |trace|
  {
    trace[i - 1].queue != [] && trace[i] == Serve(limit, trace[i - 1], script(i - 1))
  }

  lemma {:induction false} ServicesServed(limit: int, trace: seq<Shop>, script: nat -> Trial, n: nat)
    requires Services(limit, trace, script) && n < |trace|
    ensures trace[n] == Served(limit, trace[0], n, script)
    ensures n > 0 ==> Served(limit, trace[0], n - 1, script).queue != []
  {
    if n > 0 {
      ServicesServed(limit, trace, script, n - 1);
      assert Service(limit, trace, script, n);
    }
  }

  // ---- retry rounds ----

  predicate AllAt(q: seq<Message>, k: nat)
  {
    forall i | 0 <= i < |q| :: q[i].attempt == k
  }

  function Ids(q: seq<Message>): seq<Uuid>
  {
    if q == [] then [] else [q[0].bench] + Ids(q[1..])
  }

  /** `a` is `b` with some members left out. */
  predicate Subsequence(a: seq<Uuid>, b: seq<Uuid>)
  {
    if a == [] then true
    else if b == [] then false
    else if a[0] == b[0] then Subsequence(a[1..], b[1..]) || Subsequence(a, b[1..])
    else Subsequence(a, b[1..])
  }

  /** The queue is a block at attempt `k`, next to be served, and behind it a block at `k + 1`; the
      two together keep the order of the original queue. */
  ghost predicate InRounds(q: seq<Message>, original: seq<Uuid>)
  {
    exists k: nat, j: nat :: RoundAt(q, original, k, j)
  }

  ghost predicate RoundAt(q: seq<Message>, original: seq<Uuid>, k: nat, j: nat)
  {
    && j <= |q| && AllAt(q[..j], k + 1) && AllAt(q[j..], k)
    && Subsequence(Ids(q[j..]) + Ids(q[..j]), original)
  }

  lemma {:induction false} IdsConcat(a: seq<Message>, b: seq<Message>)
    ensures Ids(a + b) == Ids(a) + Ids(b)
  {
    if a == [] {
      assert a + b == b;
    } else {
      assert (a + b)[1..] == a[1..] + b;
      IdsConcat(a[1..], b);
    }
  }

  lemma {:induction false} SubsequenceDrop(a: seq<Uuid>, x: Uuid, b: seq<Uuid>, c: seq<Uuid>)
    requires Subsequence(a + [x] + b, c)
    ensures Subsequence(a + b, c)
    decreases |c|
  {
    if a == [] {
      assert a + [x] + b == [x] + b && a + b == b;
      SubsequenceTail(x, b, c);
    } else if c != [] {
      assert (a + [x] + b)[1..] == a[1..] + [x] + b && (a + b)[1..] == a[1..] + b;
      if a[0] == c[0] && Subsequence((a + [x] + b)[1..], c[1..]) {
        SubsequenceDrop(a[1..], x, b, c[1..]);
      } else {
        SubsequenceDrop(a, x, b, c[1..]);
      }
    }
  }

  lemma {:induction false} SubsequenceTail(x: Uuid, b: seq<Uuid>, c: seq<Uuid>)
    requires Subsequence([x] + b, c)
    ensures Subsequence(b, c)
    decreases |c|
  {
    if b != [] {
      assert ([x] + b)[1..] == b;
      if x == c[0] && Subsequence(b, c[1..]) {
      } else {
        SubsequenceTail(x, b, c[1..]);
      }
    }
  }

  lemma {:induction false} SubsequenceRefl(a: seq<Uuid>)
    ensures Subsequence(a, a)
  {
    if a != [] { SubsequenceRefl(a[1..]); }
  }

  /** The last message of the older block is gone for good. */
  lemma RoundLeaves(q: seq<Message>, original: seq<Uuid>, k: nat, j: nat)
    requires RoundAt(q, original, k, j) && j < |q|
    ensures RoundAt(q[..|q| - 1], original, k, j)
  {
    var n := |q| - 1;
    assert q[j..] == q[j..n] + [q[n]];
    IdsConcat(q[j..n], [q[n]]);
    assert Ids([q[n]]) == [q[n].bench];
    SubsequenceDrop(Ids(q[j..n]), q[n].bench, Ids(q[..j]), original);
    assert q[..n][..j] == q[..j] && q[..n][j..] == q[j..n];
  }

  /** The last message of the older block comes round again. */
  lemma RoundReturns(q: seq<Message>, original: seq<Uuid>, k: nat, j: nat)
    requires RoundAt(q, original, k, j) && j < |q|
    ensures var n := |q| - 1; RoundAt([q[n].(attempt := k + 1)] + q[..n], original, k, j + 1)
  {
    var n := |q| - 1;
    var again := q[n].(attempt := k + 1);
    var u := [again] + q[..n];
    assert q[j..] == q[j..n] + [q[n]];
    IdsConcat(q[j..n], [q[n]]);
    assert Ids([q[n]]) == [q[n].bench] == Ids([again]);
    assert u[..j + 1] == [again] + q[..j] && u[j + 1..] == q[j..n];
    IdsConcat([again], q[..j]);
    assert Ids(q[j..n]) + ([q[n].bench] + Ids(q[..j])) == Ids(q[j..n]) + [q[n].bench] + Ids(q[..j]);
  }

  /** Serving the last message of the older block, whichever way it ends, keeps the rounds. */
  lemma RoundStep(limit: int, s: Shop, t: Trial, original: seq<Uuid>, k: nat, j: nat)
    requires RoundAt(s.queue, original, k, j) && j < |s.queue|
    ensures InRounds(Serve(limit, s, t).queue, original)
  {
    var n := |s.queue| - 1;
    assert s.queue[n] == s.queue[j..][n - j];
    RoundLeaves(s.queue, original, k, j);
    RoundReturns(s.queue, original, k, j);
  }

  /** When the older block is used up the newer one takes its place. */
  lemma NextRound(q: seq<Message>, original: seq<Uuid>, k: nat)
    requires RoundAt(q, original, k, |q|)
    ensures RoundAt(q, original, k + 1, 0)
  {
    assert q[..|q|] == q && q[|q|..] == [] && q[..0] == [] && q[0..] == q;
    assert Ids(q[|q|..]) + Ids(q) == Ids(q) == Ids(q) + Ids(q[..0]);
  }

  /** With one worker and no arrivals, a queue of equal attempts stays in rounds for ever ... */
  lemma {:induction false} RetryRounds(limit: int, s: Shop, k: nat, n: nat, script: nat -> Trial)
    requires AllAt(s.queue, k)
    ensures InRounds(Served(limit, s, n, script).queue, Ids(s.queue))
  {
    if n == 0 {
      assert s.queue[..0] == [] && s.queue[0..] == s.queue;
      SubsequenceRefl(Ids(s.queue));
      assert Ids(s.queue) + [] == Ids(s.queue);
      assert RoundAt(s.queue, Ids(s.queue), k, 0);
    } else {
      RetryRounds(limit, s, k, n - 1, script);
      var u := Served(limit, s, n - 1, script);
      if u.queue != [] {
        var i: nat, j: nat :| RoundAt(u.queue, Ids(s.queue), i, j);
        if j == |u.queue| {
          NextRound(u.queue, Ids(s.queue), i);
          i, j := i + 1, 0;
        }
        RoundStep(limit, u, script(n - 1), Ids(s.queue), i, j);
      }
    }
  }

  /** ... so the message served next never has more attempts behind it than any other: no job gets
      its next retry before every surviving job has had as many. */
  lemma OldestRoundFirst(limit: int, s: Shop, k: nat, n: nat, script: nat -> Trial)
    requires AllAt(s.queue, k)
    ensures var q := Served(limit, s, n, script).queue;
      q != [] ==> forall i | 0 <= i < |q| :: q[|q| - 1].attempt <= q[i].attempt <= q[|q| - 1].attempt + 1
  {
    RetryRounds(limit, s, k, n, script);
    var q := Served(limit, s, n, script).queue;
    var a: nat, j: nat :| RoundAt(q, Ids(s.queue), a, j);
    forall i | 0 <= i < |q| ensures q[i].attempt == if i < j then a + 1 else a {
      if i < j { assert q[i] == q[..j][i]; } else { assert q[i] == q[j..][i - j]; }
    }
  }

  // ---- draining ----

  /** The processings that a message can still cost. */
  function Chances(limit: int, m: Message): nat
    ensures Chances(limit, m) >= 1
  {
    if limit - m.attempt < 1 then 1 else limit - m.attempt
  }

  function Fuel(limit: int, q: seq<Message>): nat
  {
    if q == [] then 0 else Fuel(limit, q[..|q| - 1]) + Chances(limit, q[|q| - 1])
  }

  lemma {:induction false} FuelPush(limit: int, m: Message, q: seq<Message>)
    ensures Fuel(limit, [m] + q) == Chances(limit, m) + Fuel(limit, q)
  {
    if q == [] {
      assert [m] + q == [m] && [m][..0] == [];
    } else {
      assert ([m] + q)[..|q|] == [m] + q[..|q| - 1];
      FuelPush(limit, m, q[..|q| - 1]);
    }
  }

  /** The chances that a success leaves unused. */
  function Spared(limit: int, s: Shop, t: Trial): nat
    requires s.queue != []
  {
    var m := s.queue[|s.queue| - 1];
    if Raises(s.db, m, t) then 0 else Chances(limit, m) - 1
  }

  function SparedBy(limit: int, s: Shop, n: nat, script: nat -> Trial): nat
  {
    if n == 0 then 0
    else
      var u := Served(limit, s, n - 1, script);
      SparedBy(limit, s, n - 1, script) + (if u.queue == [] then 0 else Spared(limit, u, script(n - 1)))
  }

  lemma ServeFuel(limit: int, s: Shop, t: Trial)
    requires s.queue != []
    ensures Fuel(limit, s.queue) == 1 + Spared(limit, s, t) + Fuel(limit, Serve(limit, s, t).queue)
  {
    var n := |s.queue| - 1;
    var m := s.queue[n];
    FuelPush(limit, m.(attempt := m.attempt + 1), s.queue[..n]);
  }

  /** Where each benchmark of the queue ends up: at rest as a result or as a dead letter. */
  function Whereabouts(s: Shop, b: Uuid): nat
  {
    Tally(B.Names, s.queue, b) + Tally(B.Letters, s.dlq, b) + One(b in s.db.results)
  }

  /** Every queued, dead-lettered or completed benchmark is committed and is there once. */
  ghost predicate Tidy(s: Shop)
  {
    forall b: Uuid :: Whereabouts(s, b) <= One(b in s.db.rows)
  }

  lemma ProcessWhereabouts(limit: int, s: Shop, m: Message, t: Trial, b: Uuid)
    requires m.bench in s.db.rows && m.bench !in s.db.results
    ensures var u := Process(limit, s, m, t);
      && Whereabouts(u, b) == Whereabouts(s, b) + One(m.bench == b)
      && (b in u.db.rows <==> b in s.db.rows)
  {
    TallyAppend(B.Names, s.queue, m.(attempt := m.attempt + 1), b);
    TallyAppend(B.Letters, s.dlq, DeadLetter(m, t.reason), b);
  }

  lemma ServeWhereabouts(limit: int, s: Shop, t: Trial, b: Uuid)
    requires s.queue != [] && Tidy(s)
    ensures Whereabouts(Serve(limit, s, t), b) == Whereabouts(s, b)
    ensures b in Serve(limit, s, t).db.rows <==> b in s.db.rows
  {
    var n := |s.queue| - 1;
    var m := s.queue[n];
    assert s.queue == s.queue[..n] + [m];
    TallyAppend(B.Names, s.queue[..n], m, b);
    TallyAppend(B.Names, s.queue[..n], m, m.bench);
    assert Whereabouts(s, m.bench) <= One(m.bench in s.db.rows);
    ProcessWhereabouts(limit, s.(queue := s.queue[..n]), m, t, b);
  }

  /** Conservation while one worker serves: the places of each benchmark are kept. */
  lemma {:induction false} ServedTidy(limit: int, s: Shop, n: nat, script: nat -> Trial, b: Uuid)
    requires Tidy(s)
    ensures var u := Served(limit, s, n, script);
      Tidy(u) && Whereabouts(u, b) == Whereabouts(s, b)
  {
    if n > 0 {
      ServedTidy(limit, s, n - 1, script, b);
      var u := Served(limit, s, n - 1, script);
      if u.queue != [] {
        var v := Serve(limit, u, script(n - 1));
        ServeWhereabouts(limit, u, script(n - 1), b);
        forall i: Uuid ensures Whereabouts(v, i) <= One(i in v.db.rows) {
          assert Whereabouts(u, i) <= One(i in u.db.rows);
          ServeWhereabouts(limit, u, script(n - 1), i);
        }
      }
    }
  }

  /** The processings among the first `n` rounds of the loop: a round with no message does none. */
  function Processings(limit: int, s: Shop, n: nat, script: nat -> Trial): nat
  {
    if n == 0 then 0
    else Processings(limit, s, n - 1, script) + One(Served(limit, s, n - 1, script).queue != [])
  }

  /** Drain: processings use up the chances, besides those that successes spare. */
  lemma {:induction false} DrainCount(limit: int, s: Shop, n: nat, script: nat -> Trial)
    ensures Fuel(limit, s.queue) == Processings(limit, s, n, script) + SparedBy(limit, s, n, script)
      + Fuel(limit, Served(limit, s, n, script).queue)
  {
    if n > 0 {
      DrainCount(limit, s, n - 1, script);
      var u := Served(limit, s, n - 1, script);
      if u.queue != [] { ServeFuel(limit, u, script(n - 1)); }
    }
  }

  /** An empty queue stays empty, so up to the last message every round is a processing. */
  lemma {:induction false} AllProcessings(limit: int, s: Shop, n: nat, script: nat -> Trial)
    requires n > 0 ==> Served(limit, s, n - 1, script).queue != []
    ensures Processings(limit, s, n, script) == n
  {
    if n > 1 {
      assert Served(limit, s, n - 2, script).queue != [];
      AllProcessings(limit, s, n - 1, script);
    }
  }

  /** Each job of the queue is at every time in one place: still queued, completed, or in the
      dead-letter list; so when the queue is empty it has ended exactly once. */
  lemma DrainedOnce(limit: int, s: Shop, n: nat, script: nat -> Trial, b: Uuid)
    requires Tidy(s) && Tally(B.Names, s.queue, b) > 0
    ensures var u := Served(limit, s, n, script);
      && Tally(B.Names, s.queue, b) == 1
      && Tally(B.Names, u.queue, b) + Tally(B.Letters, u.dlq, b) + One(b in u.db.results) == 1
  {
    assert Whereabouts(s, b) <= One(b in s.db.rows);
    ServedTidy(limit, s, n, script, b);
  }

  /** The i-th processing fails, whichever of its calls raises, or was the last attempt anyway. */
  predicate UsesUp(limit: int, s: Shop, i: nat, script: nat -> Trial)
  {
    var u := Served(limit, s, i, script);
    u.queue != [] ==>
      var m := u.queue[|u.queue| - 1];
      Raises(u.db, m, script(i)) || m.attempt + 1 >= limit
  }

  lemma LastSpared(limit: int, s: Shop, n: nat, script: nat -> Trial)
    requires n > 0
    ensures SparedBy(limit, s, n, script) == 0
      <==> SparedBy(limit, s, n - 1, script) == 0 && UsesUp(limit, s, n - 1, script)
  {
  }

  /** The first `n` processings all use up a chance. */
  predicate AllUseUp(limit: int, s: Shop, n: nat, script: nat -> Trial)
  {
    n == 0 || (AllUseUp(limit, s, n - 1, script) && UsesUp(limit, s, n - 1, script))
  }

  /** Nothing is spared exactly when every processing fails or was the last attempt anyway. */
  lemma {:induction false} NothingSpared(limit: int, s: Shop, n: nat, script: nat -> Trial)
    ensures SparedBy(limit, s, n, script) == 0 <==> AllUseUp(limit, s, n, script)
  {
    if n > 0 {
      NothingSpared(limit, s, n - 1, script);
      LastSpared(limit, s, n, script);
    }
  }

  /** The i-th processing ends the process, by the exception of `mark_failed`. */
  predicate DiesAt(limit: int, s: Shop, i: nat, script: nat -> Trial)
  {
    var u := Served(limit, s, i, script);
    u.queue != [] && Dies(limit, u.db, u.queue[|u.queue| - 1], script(i))
  }
}
