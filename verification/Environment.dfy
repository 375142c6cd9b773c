/** What anybody may do at any time, stated outright: the guarantees hold against all of it. */
module Environment {
  import opened Keys
  import opened Operator
  import T = Types
  import B = Backend
  import opened Platform
  import opened Progress

  /** A POST of a client that is not the operator is stored under the key that it brings, or under the
      digest of what it asks for, or under the name of the provider's resource; it is let through if and
      only if that key has at most 128 characters and the batch size is positive. */
  lemma ClientPosts(c: Config, s: State, client: Client, spec: T.Spec)
    requires !client.Operator?
    ensures var t := Next(c, s, Submit(client, spec)); var n := |s.b.handlers|;
      && t == s.(b := s.b.(handlers := t.b.handlers))
      && |t.b.handlers| == n + 1 && t.b.handlers[..n] == s.b.handlers && t.b.handlers[n].spec == spec
      && (client.Explicit? && client.key != "" ==> t.b.handlers[n].key == client.key)
      && (client.Explicit? && client.key == "" ==> t.b.handlers[n].key == c.digest(PreImage(spec)))
      && (client.Anonymous? ==> t.b.handlers[n].key == c.digest(PreImage(spec)))
      && (client.Provider? ==> t.b.handlers[n].key == "/" + client.name)
      && t.b.handlers[n].pc == if |t.b.handlers[n].key| <= 128 && spec.batch > 0 then B.Finding else B.Rejected
  {
  }

  /** The operator posts the namespace, a '/', and the name as the key, with the object's own spec, from
      an object in the empty or the Pending phase that has its finalizer and is not being deleted. */
  lemma OperatorPosts(c: Config, s: State, r: nat)
    requires r < |s.recs| && s.recs[r].pc.Fetched? && s.recs[r].id in s.hists && s.recs[r].id in c.crs
    requires var x := s.recs[r]; x.v < |s.hists[x.id]|
    ensures var t := Next(c, s, Send(r)); var id := s.recs[r].id; var n := |s.b.handlers|;
      var j := s.hists[id][s.recs[r].v];
      && t.hists == s.hists && t.b.db == s.b.db
      && if (j.phase == Blank || j.phase == Pending) && j.finalizer && !j.deleting then
           && |t.b.handlers| == n + 1 && t.b.handlers[..n] == s.b.handlers
           && t.b.handlers[n].key == id.namespace + "/" + id.name && t.b.handlers[n].spec == c.crs[id].spec
         else t.b == s.b
  {
  }

  /** An object can be created with or without the finalizer, and starts in the empty phase. */
  lemma ObjectsAppear(c: Config, s: State, id: CrId, finalizer: bool)
    requires id in c.crs && id !in s.hists
    ensures Next(c, s, Create(id, finalizer)).hists
      == s.hists[id := [Job(finalizer, false, Blank, T.None, 0, T.None, T.None, T.None, T.None, T.None)]]
  {
  }

  /** A whole reconcile may work on any old version, and then it stores nothing. */
  lemma StaleReconcile(c: Config, s: State, id: CrId, v: nat, now: Time)
    requires id in s.hists && id in c.crs && v + 1 < |s.hists[id]|
    ensures var r := |s.recs|;
      var sent := Next(c, Next(c, s, Fetch(id, v)), Send(r));
      var t := Next(c, Next(c, sent, Hear(r, now)), Store(r));
      && t.hists == s.hists && |t.recs| == r + 1 && t.recs[..r] == s.recs
      && t.recs[r].id == id && t.recs[r].v == v && !t.recs[r].pc.Fetched?
  {
    var r := |s.recs|;
    var fetched := Next(c, s, Fetch(id, v));
    assert fetched.recs == s.recs + [Rec(id, v, Fetched)];
    StaleSends(c, fetched, id, r);
    StaleStores(c, Next(c, fetched, Send(r)), id, r, now);
  }

  lemma StaleSends(c: Config, s: State, id: CrId, r: nat)
    requires r + 1 == |s.recs| && s.recs[r].id == id && s.recs[r].pc.Fetched? && id in s.hists && id in c.crs
    requires s.recs[r].v < |s.hists[id]|
    ensures var t := Next(c, s, Send(r));
      t.hists == s.hists && !t.recs[r].pc.Fetched? && t.recs == s.recs[..r] + [Rec(id, s.recs[r].v, t.recs[r].pc)]
  {
  }

  lemma StaleStores(c: Config, s: State, id: CrId, r: nat, now: Time)
    requires r + 1 == |s.recs| && s.recs[r].id == id && !s.recs[r].pc.Fetched? && id in s.hists && id in c.crs
    requires s.recs[r].v + 1 < |s.hists[id]|
    ensures var t := Next(c, Next(c, s, Hear(r, now)), Store(r));
      && t.hists == s.hists && |t.recs| == r + 1 && t.recs[..r] == s.recs[..r]
      && t.recs[r].id == id && t.recs[r].v == s.recs[r].v && !t.recs[r].pc.Fetched?
  {
  }

  /** Somebody else's change of an object makes every write in hand fail. */
  lemma TouchDefeats(c: Config, s: State, id: CrId, r: nat)
    requires Live(s, id) && r < |s.recs| && s.recs[r].id == id && s.recs[r].v < |s.hists[id]|
    ensures var t := Next(c, s, Touch(id));
      && t.hists == s.hists[id := s.hists[id] + [Tip(s, id)]] && t.b == s.b && t.recs == s.recs
      && Next(c, t, Store(r)).hists == t.hists
  {
  }

  /** A reconcile may come to nothing at any point: a lost reply, a refused update, a crash. */
  lemma ReconcileLost(c: Config, s: State, r: nat, now: Time)
    requires r < |s.recs|
    ensures var t := Next(c, s, Drop(r));
      && t == s.(recs := s.recs[r := Rec(s.recs[r].id, s.recs[r].v, Finished)])
      && Next(c, t, Send(r)) == t && Next(c, t, Hear(r, now)) == t && Next(c, t, Store(r)) == t
  {
  }
}
