/** Every committed benchmark is in exactly one place, whatever is interleaved or killed. */
module Conservation {
  import opened Types
  import opened Tallies
  import opened Backend
  import opened Submission

  /** Queued messages, dead letters, the stored result and losses, counted for one benchmark. */
  function AtRest(s: State, b: Uuid): nat
  {
    Tally(Names, s.queue, b) + Tally(Letters, s.dlq, b) + One(b in s.db.results) + s.log.lost[b]
  }

  /** ... and the enqueues still owed by handlers and the messages held by workers. */
  function Places(s: State, b: Uuid): nat
  {
    Tally(Owes, s.handlers, b) + Tally(Keeps, s.workers, b) + AtRest(s, b)
  }

  ghost predicate Conserved(s: State)
  {
    forall b: Uuid :: Places(s, b) == One(b in s.db.rows)
  }

  /** Replies with `created` come from pushes that happened or are still owed, at most one for
      each row. */
  ghost predicate CreatedOnce(s: State)
  {
    forall b: Uuid :: CreatedOnceAt(s, b)
  }

  ghost predicate CreatedOnceAt(s: State, b: Uuid)
  {
    Tally(Creates, s.handlers, b) <= s.log.pushed[b] + Tally(Owes, s.handlers, b) <= One(b in s.db.rows)
  }

  /** Replacing one handler changes the two handler counts at its own place only. */
  lemma HandlerCounts(s: State, h: nat, y: Handler, b: Uuid)
    requires h < |s.handlers|
    ensures Tally(Owes, s.handlers[h := y], b) + One(Owes(s.handlers[h], b))
      == Tally(Owes, s.handlers, b) + One(Owes(y, b))
    ensures Tally(Creates, s.handlers[h := y], b) + One(Creates(s.handlers[h], b))
      == Tally(Creates, s.handlers, b) + One(Creates(y, b))
  {
    TallyUpdate(Owes, s.handlers, h, y, b);
    TallyUpdate(Creates, s.handlers, h, y, b);
  }

  /** What a handler step can do to the counts: commit a row that it then owes, push what it owes,
      or neither. */
  ghost predicate HandlerEffect(s: State, t: State, h: nat)
    requires h < |s.handlers|
  {
    && h < |t.handlers| && t.handlers == s.handlers[h := t.handlers[h]]
    && t.workers == s.workers && t.dlq == s.dlq && t.db.results == s.db.results
    && var pc, pc' := s.handlers[h].pc, t.handlers[h].pc;
    if pc.Owing? then
      && t.db.rows == s.db.rows && t.log.lost == s.log.lost
      && pc' == Replied(pc.bench, true)
      && |t.queue| == |s.queue| + 1 && t.queue == [t.queue[0]] + s.queue && t.queue[0].bench == pc.bench
      && t.log.pushed == s.log.pushed + multiset{pc.bench}
    else
      && t.queue == s.queue && t.log.pushed == s.log.pushed && t.log.lost == s.log.lost
      && if pc'.Owing? then
           pc'.bench !in s.db.rows && t.db.rows.Keys == s.db.rows.Keys + {pc'.bench} && pc.Committing?
         else
           t.db.rows == s.db.rows && (pc' == pc || (pc'.Replied? ==> !pc'.created)) && !(pc.Replied? && pc' != pc)
  }

  lemma PushHasEffect(s: State, h: nat, pick: Uuid)
    requires h < |s.handlers| && s.handlers[h].pc.Owing?
    ensures HandlerEffect(s, HandlerNext(s, h, pick), h)
  {
  }

  lemma CommitHasEffect(s: State, h: nat, pick: Uuid)
    requires s.db.nextUuid !in s.db.rows && h < |s.handlers| && s.handlers[h].pc.Committing?
    ensures HandlerEffect(s, HandlerNext(s, h, pick), h)
  {
  }

  lemma ReadHasEffect(s: State, h: nat, pick: Uuid)
    requires h < |s.handlers| && !s.handlers[h].pc.Owing? && !s.handlers[h].pc.Committing?
    ensures HandlerEffect(s, HandlerNext(s, h, pick), h)
  {
    var t := HandlerNext(s, h, pick);
    assert t.handlers == s.handlers[h := t.handlers[h]];
  }

  lemma HandlerHasEffect(s: State, h: nat, pick: Uuid)
    requires s.db.nextUuid !in s.db.rows && h < |s.handlers|
    ensures HandlerEffect(s, HandlerNext(s, h, pick), h)
  {
    match s.handlers[h].pc
    case Owing(_) => PushHasEffect(s, h, pick);
    case Committing(_, _) => CommitHasEffect(s, h, pick);
    case _ => ReadHasEffect(s, h, pick);
  }

  lemma EffectPlaces(s: State, t: State, h: nat, b: Uuid)
    requires h < |s.handlers| && HandlerEffect(s, t, h)
    requires Places(s, b) == One(b in s.db.rows) && CreatedOnceAt(s, b)
    ensures Places(t, b) == One(b in t.db.rows) && CreatedOnceAt(t, b)
  {
    HandlerCounts(s, h, t.handlers[h], b);
    if s.handlers[h].pc.Owing? { TallyAppend(Names, s.queue, t.queue[0], b); }
  }

  /** What a worker gives up turns up at rest, and the other way round. */
  ghost predicate Hands(s: State, t: State, w: nat, b: Uuid)
    requires w < |s.workers|
  {
    && w < |t.workers| && t.workers == s.workers[w := t.workers[w]]
    && t.handlers == s.handlers && t.db.rows.Keys == s.db.rows.Keys
    && AtRest(t, b) + One(Keeps(t.workers[w], b)) == AtRest(s, b) + One(Keeps(s.workers[w], b))
  }

  lemma HandsKeeps(s: State, t: State, w: nat, b: Uuid)
    requires w < |s.workers| && Hands(s, t, w, b)
    requires Places(s, b) == One(b in s.db.rows)
    ensures Places(t, b) == One(b in t.db.rows)
  {
    TallyUpdate(Keeps, s.workers, w, t.workers[w], b);
  }

  lemma DequeueHands(limit: int, s: State, w: nat, o: Outcome, b: Uuid)
    requires w < |s.workers| && s.workers[w].Idle?
    ensures Hands(s, WorkerNext(limit, s, w, o), w, b)
  {
    if s.queue != [] {
      var n := |s.queue| - 1;
      assert s.queue == s.queue[..n] + [s.queue[n]];
      TallyAppend(Names, s.queue[..n], s.queue[n], b);
    }
  }

  lemma RecoverHands(limit: int, s: State, w: nat, o: Outcome, b: Uuid)
    requires w < |s.workers| && s.workers[w].Recovering?
    ensures Hands(s, WorkerNext(limit, s, w, o), w, b)
  {
    var t := WorkerNext(limit, s, w, o);
    if s.workers[w].m.attempt + 1 < limit {
      TallyAppend(Names, s.queue, t.queue[0], b);
    } else {
      TallyAppend(Letters, s.dlq, t.dlq[0], b);
    }
  }

  lemma MarkHands(limit: int, s: State, w: nat, o: Outcome, b: Uuid)
    requires w < |s.workers| && s.workers[w].Marking?
    ensures Hands(s, WorkerNext(limit, s, w, o), w, b)
  {
  }

  lemma CompleteHands(limit: int, s: State, w: nat, o: Outcome, b: Uuid)
    requires w < |s.workers| && s.workers[w].Completing? && s.workers[w].m.bench in s.db.rows
    ensures Hands(s, WorkerNext(limit, s, w, o), w, b)
  {
  }

  lemma OtherHands(limit: int, s: State, w: nat, o: Outcome, b: Uuid)
    requires w < |s.workers| && (s.workers[w].Executing? || s.workers[w].Failing? || s.workers[w].Dead?)
    ensures Hands(s, WorkerNext(limit, s, w, o), w, b)
  {
  }

  lemma WorkerPlaces(limit: int, s: State, w: nat, o: Outcome, b: Uuid)
    requires Conserved(s) && w < |s.workers|
    ensures var t := WorkerNext(limit, s, w, o); Places(t, b) == One(b in t.db.rows)
  {
    assert Places(s, b) == One(b in s.db.rows);
    match s.workers[w] {
      case Idle => DequeueHands(limit, s, w, o, b);
      case Recovering(m, _) => RecoverHands(limit, s, w, o, b);
      case Marking(m) => MarkHands(limit, s, w, o, b);
      case Completing(m, _) =>
        Alone(s, w);
        CompleteHands(limit, s, w, o, b);
      case _ => OtherHands(limit, s, w, o, b);
    }
    HandsKeeps(s, WorkerNext(limit, s, w, o), w, b);
  }

  /** Apart from worker `w`, no message, enqueue or dead letter is about benchmark `b`. */
  ghost predicate NoOther(s: State, b: Uuid, w: nat)
  {
    && (forall j | 0 <= j < |s.queue| :: !Names(s.queue[j], b))
    && (forall i | 0 <= i < |s.dlq| :: !Letters(s.dlq[i], b))
    && (forall h | 0 <= h < |s.handlers| :: !Owes(s.handlers[h], b))
    && (forall v | 0 <= v < |s.workers| && v != w :: !Keeps(s.workers[v], b))
  }

  lemma {:induction false} ZeroTally<T>(carries: (T, nat) -> bool, xs: seq<T>, id: nat)
    requires Tally(carries, xs, id) == 0
    ensures forall i | 0 <= i < |xs| :: !carries(xs[i], id)
  {
    forall i | 0 <= i < |xs| ensures !carries(xs[i], id) { TallySplit(carries, xs, i, id); }
  }

  /** The message that a worker holds is the only trace of its benchmark. */
  lemma Alone(s: State, w: nat)
    requires Conserved(s) && w < |s.workers| && Holding(s.workers[w])
    ensures var b := s.workers[w].m.bench;
      b in s.db.rows && AtRest(s, b) == 0 && NoOther(s, b, w)
  {
    var b := s.workers[w].m.bench;
    assert Places(s, b) == One(b in s.db.rows) && Keeps(s.workers[w], b);
    TallySplit(Keeps, s.workers, w, b);
    forall v | 0 <= v < |s.workers| && v != w ensures !Keeps(s.workers[v], b) {
      if Keeps(s.workers[v], b) { TallyPair(Keeps, s.workers, v, w, b); }
    }
    ZeroTally(Names, s.queue, b);
    ZeroTally(Letters, s.dlq, b);
    ZeroTally(Owes, s.handlers, b);
  }

  /** So is the message at the right end of the queue. */
  lemma AloneInQueue(s: State, w: nat)
    requires Conserved(s) && s.queue != [] && w < |s.workers| && s.workers[w].Idle?
    ensures var n := |s.queue| - 1; var b := s.queue[n].bench;
      && b in s.db.rows && b !in s.db.results && Tally(Letters, s.dlq, b) == 0
      && NoOther(s.(queue := s.queue[..n]), b, w)
  {
    var n := |s.queue| - 1;
    var b := s.queue[n].bench;
    assert Places(s, b) == One(b in s.db.rows) && Names(s.queue[n], b);
    TallySplit(Names, s.queue, n, b);
    ZeroTally(Names, s.queue[..n], b);
    ZeroTally(Letters, s.dlq, b);
    ZeroTally(Owes, s.handlers, b);
    ZeroTally(Keeps, s.workers, b);
  }

  lemma ArrivePlaces(s: State, x: Handler, b: Uuid)
    requires Places(s, b) == One(b in s.db.rows) && CreatedOnceAt(s, b) && (x.pc.Finding? || x.pc.Rejected?)
    ensures var t := s.(handlers := s.handlers + [x]); Places(t, b) == One(b in t.db.rows) && CreatedOnceAt(t, b)
  {
    TallyAppend(Owes, s.handlers, x, b);
    TallyAppend(Creates, s.handlers, x, b);
  }

  lemma QuitPlaces(limit: int, s: State, a: Action, b: Uuid)
    requires Places(s, b) == One(b in s.db.rows) && CreatedOnceAt(s, b)
    requires a.Abort? || a.KillHandler?
    ensures var t := Next(limit, s, a); Places(t, b) == One(b in t.db.rows) && CreatedOnceAt(t, b)
  {
    var t := Next(limit, s, a);
    if t != s { HandlerCounts(s, a.h, t.handlers[a.h], b); }
  }

  lemma KillWorkerHands(limit: int, s: State, w: nat, b: Uuid)
    requires w < |s.workers|
    ensures Hands(s, Next(limit, s, KillWorker(w)), w, b)
  {
  }

  lemma KillWorkerPlaces(limit: int, s: State, w: nat, b: Uuid)
    requires w < |s.workers| && Places(s, b) == One(b in s.db.rows) && CreatedOnceAt(s, b)
    ensures var t := Next(limit, s, KillWorker(w)); Places(t, b) == One(b in t.db.rows) && CreatedOnceAt(t, b)
  {
    KillWorkerHands(limit, s, w, b);
    HandsKeeps(s, Next(limit, s, KillWorker(w)), w, b);
  }

  lemma WorkerStepPlaces(limit: int, s: State, a: Action, b: Uuid)
    requires Conserved(s) && CreatedOnceAt(s, b)
    requires a.Hire? || a.Work? || a.KillWorker?
    ensures var t := Next(limit, s, a); Places(t, b) == One(b in t.db.rows) && CreatedOnceAt(t, b)
  {
    assert Places(s, b) == One(b in s.db.rows);
    match a
    case Hire => TallyAppend(Keeps, s.workers, Idle, b);
    case Work(w, o) =>
      if w < |s.workers| {
        WorkerCreates(limit, s, w, o, b);
        WorkerPlaces(limit, s, w, o, b);
      }
    case KillWorker(w) => if w < |s.workers| { KillWorkerPlaces(limit, s, w, b); }
  }

  lemma PlacesStep(limit: int, s: State, a: Action, b: Uuid)
    requires s.db.nextUuid !in s.db.rows && Conserved(s) && CreatedOnceAt(s, b)
    ensures var t := Next(limit, s, a); Places(t, b) == One(b in t.db.rows) && CreatedOnceAt(t, b)
  {
    assert Places(s, b) == One(b in s.db.rows);
    match a
    case Arrive(key, spec) => ArrivePlaces(s, Arrived(key, spec), b);
    case Advance(h, pick) =>
      if h < |s.handlers| {
        HandlerHasEffect(s, h, pick);
        EffectPlaces(s, HandlerNext(s, h, pick), h, b);
      }
    case Abort(_) => QuitPlaces(limit, s, a, b);
    case KillHandler(_) => QuitPlaces(limit, s, a, b);
    case _ => WorkerStepPlaces(limit, s, a, b);
  }

  lemma WorkerCreates(limit: int, s: State, w: nat, o: Outcome, b: Uuid)
    requires w < |s.workers| && CreatedOnceAt(s, b)
    ensures CreatedOnceAt(WorkerNext(limit, s, w, o), b)
  {
    var t := WorkerNext(limit, s, w, o);
    WorkFrame(limit, s, w, o);
    WorkSame(s.db, s.workers[w], o, t.db);
    assert t.db.rows.Keys == s.db.rows.Keys;
  }

  lemma ConservationStep(limit: int, s: State, a: Action)
    requires SubmissionInv(s) && Conserved(s) && CreatedOnce(s)
    ensures Conserved(Next(limit, s, a)) && CreatedOnce(Next(limit, s, a))
  {
    forall b: Uuid
      ensures var t := Next(limit, s, a); Places(t, b) == One(b in t.db.rows) && CreatedOnceAt(t, b)
    {
      FreshUuid(s.db);
      assert CreatedOnceAt(s, b);
      PlacesStep(limit, s, a, b);
    }
  }
}
