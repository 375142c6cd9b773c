/** The POST and GET routes: commit first, then push one message if the commit created the row. */
module BenchmarksApi {
  import opened Types
  import opened Tables
  import opened Keys
  import opened BenchmarkService
  import opened QueueService

  datatype PostReply = Accepted(job: Uuid, status: Status) | Unprocessable | ServerError

  datatype GetReply = Found(body: StatusResponse) | NotFound

  /** The key that a request with or without `idempotency_key` is stored under. */
  function RequestKey(digest: string -> string, key: Option<string>, spec: Spec): string
  {
    KeyOf(digest, if key.Some? then Explicit(key.value) else Anonymous, spec)
  }

  /** The schema lets the request through; only a key that the client sends has a length limit. */
  predicate Valid(key: Option<string>, spec: Spec)
  {
    spec.batch > 0 && (key.Some? ==> |key.value| <= 128)
  }

  /** A digest is short enough, so the limit can be put on the key of the row as well. */
  lemma ValidIsAccepts(digest: string -> string, key: Option<string>, spec: Spec)
    requires HexDigest(digest(PreImage(spec)))
    ensures Valid(key, spec) <==> Accepts(RequestKey(digest, key, spec), spec)
  {
  }

  /** Two requests that bring keys of their own go under one key if and only if they bring the same. */
  lemma ClientKeysKept(digest: string -> string, k: string, r: Spec, key: string, t: Spec)
    requires k != "" && key != ""
    ensures RequestKey(digest, Some(k), r) == RequestKey(digest, Some(key), t) <==> k == key
    ensures RequestKey(digest, Some(""), r) == RequestKey(digest, None, r) == digest(PreImage(r))
  {
  }

  /** What the tables and the reply say about one POST: a created row was inserted in one commit, any
      other success names the row under the key, and a key that was there before always succeeds. */
  ghost predicate Answers(
    before: Db, seen: Seen, k: string, spec: Spec, commits: bool, after: Db, reply: PostReply, created: bool)
  {
    && (created <==> MayCreate(before, seen, k, spec) && commits)
    && (reply.ServerError? <==>
          || (MayCreate(before, seen, k, spec) && !commits)
          || Refused(before, seen, k, spec.model) || Overflows(before, seen, k, spec))
    && !reply.Unprocessable?
    && (created ==> reply == Accepted(seen.commit.nextUuid, Queued) && Inserted(seen.commit, k, spec, after))
    && (reply.Accepted? && !created ==> k in after.index && after.index[k] == reply.job)
    && (k in before.index ==> reply.Accepted? && !created && reply.job == before.index[k] && after == before)
  }

  class Router {
    const database: Database
    const queue: RedisQueueService

    constructor (database: Database, queue: RedisQueueService)
      ensures this.database == database && this.queue == queue
    {
      this.database, this.queue := database, queue;
    }

    /** The push after a commit that created the row, if the process lives. */
    method Announce(made: PostReply, created: bool, spec: Spec, pushes: bool) returns (reply: PostReply)
      requires created ==> made.Accepted?
      modifies queue`queue
      ensures reply == if created && !pushes then ServerError else made
      ensures queue.queue
        == (if created && pushes then [Message(made.job, spec, 0)] else []) + old(queue.queue)
    {
      reply := made;
      if created {
        if !pushes { return ServerError; }
        var payload := new Payload(Message(made.job, spec, 0));
        queue.Enqueue(payload);
      }
    }

    /** The transaction, and the reply that the client gets if the process lives. */
    method Record(k: string, spec: Spec, seen: Seen, commits: bool) returns (reply: PostReply, created: bool)
      requires Race(database.Committed(), seen, k, spec.model)
      modifies database
      ensures Answers(old(database.Committed()), seen, k, spec, commits, database.Committed(), reply, created)
    {
      var r := database.CreateBenchmark(k, spec, seen, commits);
      if !r.Reply? { return ServerError, false; }
      return Accepted(r.job, r.status), r.created;
    }

    /** `made` is the reply that is sent if the process lives to push. */
    method Serve(k: string, spec: Spec, seen: Seen, commits: bool, pushes: bool)
      returns (reply: PostReply, ghost made: PostReply, created: bool)
      requires Race(database.Committed(), seen, k, spec.model)
      modifies database, queue`queue
      ensures reply == (if created && !pushes then ServerError else made) && !made.Unprocessable?
      ensures Answers(old(database.Committed()), seen, k, spec, commits, database.Committed(), made, created)
      ensures queue.queue
        == (if created && pushes then [Message(seen.commit.nextUuid, spec, 0)] else []) + old(queue.queue)
    {
      var sent;
      sent, created := Record(k, spec, seen, commits);
      made := sent;
      ghost var now := database.Committed();
      assert created ==> sent == Accepted(seen.commit.nextUuid, Queued);
      reply := Announce(sent, created, spec, pushes);
      assert database.Committed() == now;
    }

    /** A request that the schema refuses changes nothing; any other runs the transaction and pushes
        what it created. `k` is the key that the request is stored under. */
    method CreateBenchmarkJob(
      digest: string -> string, key: Option<string>, spec: Spec, seen: Seen, commits: bool, pushes: bool)
      returns (reply: PostReply, ghost made: PostReply, created: bool, k: string)
      requires Valid(key, spec) ==> Race(database.Committed(), seen, RequestKey(digest, key, spec), spec.model)
      modifies database, queue`queue
      ensures k == RequestKey(digest, key, spec)
      ensures k == if key.Some? && key.value != "" then key.value else digest(PreImage(spec))
      ensures reply.Unprocessable? <==> spec.batch <= 0 || (key.Some? && |key.value| > 128)
      ensures reply == if created && !pushes then ServerError else made
      ensures !Valid(key, spec) ==> !created && database.Committed() == old(database.Committed())
      ensures Valid(key, spec) ==>
        Answers(old(database.Committed()), seen, k, spec, commits, database.Committed(), made, created)
      ensures queue.queue
        == (if created && pushes then [Message(seen.commit.nextUuid, spec, 0)] else []) + old(queue.queue)
    {
      k := RequestKey(digest, key, spec);
      if Valid(key, spec) {
        assert Race(database.Committed(), seen, k, spec.model);
        reply, made, created := Serve(k, spec, seen, commits, pushes);
      } else {
        reply, made, created := Unprocessable, Unprocessable, false;
      }
    }

    method GetBenchmarkStatus(job: Uuid) returns (reply: GetReply)
      requires Consistent(database.Committed())
      ensures reply.NotFound? <==> job !in database.rows
      ensures reply.Found? ==>
        && database.rows[job].modelId in database.models
        && reply.body.spec == SpecOf(database.Committed(), job)
        && reply.body.status == database.rows[job].status
        && reply.body.result == if job in database.results then Some(database.results[job].metrics) else None
    {
      var r := database.GetBenchmark(job);
      if r.None? { return NotFound; }
      return Found(r.value);
    }
  }
}
