/** The controller in the source's own form: handlers that change the object they have read in
    place and then write it back under optimistic concurrency. */
module Reconciler {
  import opened Keys
  import opened Operator
  import T = Types

  /** What the API server stores under a name. */
  datatype Stored = Stored(version: nat, maxRetries: int, job: Job)

  /** The in-memory copy that a reconcile works on; `version` is its resourceVersion. */
  class BenchmarkJob {
    const id: CrId
    const maxRetries: int
    const version: nat
    const deleting: bool
    var finalizer: bool
    var phase: Phase
    var jobId: T.Option<T.Uuid>
    var retryCount: int
    var throughput: T.Option<real>
    var latencyMs: T.Option<real>
    var bandwidthGbps: T.Option<real>
    var startTime: T.Option<Time>
    var completionTime: T.Option<Time>

    constructor (id: CrId, stored: Stored)
      ensures this.id == id && maxRetries == stored.maxRetries && version == stored.version
      ensures View() == stored.job
    {
      this.id, maxRetries, version, deleting := id, stored.maxRetries, stored.version, stored.job.deleting;
      finalizer, phase := stored.job.finalizer, stored.job.phase;
      jobId, retryCount := stored.job.jobId, stored.job.retryCount;
      throughput, latencyMs, bandwidthGbps := stored.job.throughput, stored.job.latencyMs, stored.job.bandwidthGbps;
      startTime, completionTime := stored.job.startTime, stored.job.completionTime;
    }

    function View(): Job
      reads this
    {
      Job(finalizer, deleting, phase, jobId, retryCount,
          throughput, latencyMs, bandwidthGbps, startTime, completionTime)
    }
  }

  /** The stored objects after one update: refused unless the version is the stored one; an object
      that is being deleted goes with its last finalizer. */
  function Updated(objects: map<CrId, Stored>, id: CrId, version: nat, job: Job): (r: map<CrId, Stored>)
    ensures id !in objects || objects[id].version != version ==> r == objects
    ensures id in objects && objects[id].version == version ==>
      if job.deleting && !job.finalizer then id !in r
      else id in r && r[id] == Stored(version + 1, objects[id].maxRetries, job)
    ensures forall i | i != id :: (i in r <==> i in objects) && (i in r ==> r[i] == objects[i])
  {
    if id !in objects || objects[id].version != version then objects
    else if Gone(job) then objects - {id}
    else objects[id := Stored(version + 1, objects[id].maxRetries, job)]
  }

  class ApiServer {
    var objects: map<CrId, Stored>

    constructor ()
      ensures objects == map[]
    {
      objects := map[];
    }

    /** Metadata only: the status sub-resource keeps what is stored. */
    method Update(job: BenchmarkJob) returns (ok: bool)
      modifies this
      ensures ok <==> job.id in old(objects) && old(objects)[job.id].version == job.version
      ensures ok ==>
        objects == Updated(old(objects), job.id, job.version, old(objects)[job.id].job.(finalizer := job.finalizer))
      ensures !ok ==> objects == old(objects)
    {
      if job.id !in objects || objects[job.id].version != job.version { return false; }
      var stored := objects[job.id].job.(finalizer := job.finalizer);
      if Gone(stored) {
        objects := objects - {job.id};
      } else {
        objects := objects[job.id := Stored(job.version + 1, objects[job.id].maxRetries, stored)];
      }
      return true;
    }

    /** Status only: metadata keeps what is stored. */
    method UpdateStatus(job: BenchmarkJob) returns (ok: bool)
      modifies this
      ensures ok <==> job.id in old(objects) && old(objects)[job.id].version == job.version
      ensures ok ==> objects == old(objects)[job.id := Stored(job.version + 1, old(objects)[job.id].maxRetries,
        job.View().(finalizer := old(objects)[job.id].job.finalizer, deleting := old(objects)[job.id].job.deleting))]
      ensures !ok ==> objects == old(objects)
    {
      if job.id !in objects || objects[job.id].version != job.version { return false; }
      var stored := objects[job.id].job;
      objects := objects[job.id := Stored(job.version + 1, objects[job.id].maxRetries,
        job.View().(finalizer := stored.finalizer, deleting := stored.deleting))];
      return true;
    }
  }

  class BenchmarkJobReconciler {
    const api: ApiServer

    constructor (api: ApiServer)
      ensures this.api == api
    {
      this.api := api;
    }

    /** The copy is the stored object, unless it is out of date. */
    ghost predicate Current(job: BenchmarkJob)
      reads api, job
    {
      job.id in api.objects && api.objects[job.id].version == job.version ==>
        api.objects[job.id].job == job.View() && api.objects[job.id].maxRetries == job.maxRetries
    }

    /** Only the status of the copy has been changed since it was read. */
    ghost predicate StatusOf(job: BenchmarkJob)
      reads api, job
    {
      job.id in api.objects && api.objects[job.id].version == job.version ==>
        SameMetadata(api.objects[job.id].job, job.View()) && api.objects[job.id].maxRetries == job.maxRetries
    }

    /** `Reconcile` on a copy from the cache, with the reply that its one HTTP call gets. It stores
        what the atomic phase machine writes if the copy is the latest version, and nothing else. */
    method Reconcile(id: CrId, cached: T.Option<Stored>, reply: Reply, now: Time)
      requires cached.Some? && id in api.objects && api.objects[id].version == cached.value.version ==>
        api.objects[id] == cached.value
      modifies api
      ensures cached.None? ==> api.objects == old(api.objects)
      ensures forall i | i != id ::
        (i in api.objects <==> i in old(api.objects)) && (i in api.objects ==> api.objects[i] == old(api.objects)[i])
      ensures cached.Some? && id in old(api.objects) && old(api.objects)[id].version == cached.value.version ==>
        var was := cached.value;
        && (was.job.deleting && was.job.finalizer ==> id !in api.objects)
        && (was.job.deleting && !was.job.finalizer ==> api.objects == old(api.objects))
        && (!was.job.deleting && !was.job.finalizer ==>
              id in api.objects
              && api.objects[id] == Stored(was.version + 1, was.maxRetries, was.job.(finalizer := true)))
        && (!was.job.deleting && (was.job.phase == Completed || was.job.phase == Failed) && was.job.finalizer ==>
              api.objects == old(api.objects))
      ensures cached.Some? && (id !in old(api.objects) || old(api.objects)[id].version != cached.value.version) ==>
        api.objects == old(api.objects)
      ensures cached.Some? ==>
        var w := Reconciled(cached.value.maxRetries, cached.value.job, reply, now);
        api.objects == if w.None? then old(api.objects)
                       else Updated(old(api.objects), id, cached.value.version, w.value)
    {
      if cached.None? { return; }
      var job := new BenchmarkJob(id, cached.value);
      if job.deleting {
        HandleDeletion(job);
        return;
      }
      if !job.finalizer {
        job.finalizer := true;
        var ok := api.Update(job);
        return;
      }
      match job.phase {
        case Blank => HandlePending(job, reply, now);
        case Pending => HandlePending(job, reply, now);
        case Submitted => HandleSubmitted(job, reply, now);
        case Running => HandleRunning(job, reply, now);
        case Completed =>
        case Failed =>
      }
    }

    method HandlePending(job: BenchmarkJob, reply: Reply, now: Time)
      requires Current(job) && !job.deleting
      modifies job, api
      ensures api.objects ==
        if !reply.Accepted? then old(api.objects)
        else Updated(old(api.objects), job.id, job.version,
                     old(job.View()).(jobId := reply.job, startTime := T.Some(now), phase := Submitted))
    {
      if !reply.Accepted? { return; }
      job.jobId := reply.job;
      job.startTime := T.Some(now);
      SetPhase(job, Submitted);
    }

    method HandleSubmitted(job: BenchmarkJob, reply: Reply, now: Time)
      requires Current(job) && !job.deleting
      modifies job, api
      ensures var was := old(job.View());
        api.objects ==
          if reply.Polled? && reply.status == "running" then
            Updated(old(api.objects), job.id, job.version, was.(phase := Running))
          else if reply.Polled? && reply.status == "failed" then
            Updated(old(api.objects), job.id, job.version, AfterFailure(job.maxRetries, was, now))
          else old(api.objects)
    {
      if !reply.Polled? { return; }
      if reply.status == "running" {
        SetPhase(job, Running);
      } else if reply.status == "queued" {
        return;
      } else if reply.status == "failed" {
        HandleFailure(job, now);
      }
    }

    method HandleRunning(job: BenchmarkJob, reply: Reply, now: Time)
      requires Current(job) && !job.deleting
      modifies job, api
      ensures var was := old(job.View());
        reply.Polled? && reply.status == "completed" ==>
          && job.View() == was.(
               phase := Completed, completionTime := T.Some(now),
               throughput := if reply.result.Some? then T.Some(reply.result.value.throughput) else was.throughput,
               latencyMs := if reply.result.Some? then T.Some(reply.result.value.latencyMs) else was.latencyMs,
               bandwidthGbps :=
                 if reply.result.Some? then T.Some(reply.result.value.bandwidthGbps) else was.bandwidthGbps)
          && api.objects == Updated(old(api.objects), job.id, job.version, job.View())
      ensures reply.Polled? && reply.status == "failed" ==>
        api.objects ==
          Updated(old(api.objects), job.id, job.version, AfterFailure(job.maxRetries, old(job.View()), now))
      ensures !reply.Polled? || (reply.status != "completed" && reply.status != "failed") ==>
        api.objects == old(api.objects)
    {
      if !reply.Polled? { return; }
      if reply.status == "completed" {
        job.completionTime := T.Some(now);
        if reply.result.Some? {
          job.throughput := T.Some(reply.result.value.throughput);
          job.latencyMs := T.Some(reply.result.value.latencyMs);
          job.bandwidthGbps := T.Some(reply.result.value.bandwidthGbps);
        }
        SetPhase(job, Completed);
      } else if reply.status == "failed" {
        HandleFailure(job, now);
      }
    }

    method HandleFailure(job: BenchmarkJob, now: Time)
      requires Current(job) && !job.deleting
      modifies job, api
      ensures job.View() == AfterFailure(job.maxRetries, old(job.View()), now)
      ensures var was := old(job.View()); var m := job.maxRetries;
        job.View() ==
          if (m != 0 && was.retryCount < m) || (m == 0 && was.retryCount < 3) then
            was.(retryCount := was.retryCount + 1, jobId := T.None, phase := Pending)
          else was.(completionTime := T.Some(now), phase := Failed)
      ensures api.objects == Updated(old(api.objects), job.id, job.version, job.View())
    {
      var maxRetries := job.maxRetries;
      if maxRetries == 0 { maxRetries := 3; }
      if job.retryCount < maxRetries {
        job.retryCount := job.retryCount + 1;
        job.jobId := T.None;
        SetPhase(job, Pending);
        return;
      }
      job.completionTime := T.Some(now);
      SetPhase(job, Failed);
    }

    /** The DELETE that goes to the backend finds no route there, so only the object changes. */
    method HandleDeletion(job: BenchmarkJob)
      requires Current(job) && job.deleting
      modifies job, api
      ensures api.objects == if old(job.finalizer)
        then Updated(old(api.objects), job.id, job.version, old(job.View()).(finalizer := false))
        else old(api.objects)
    {
      if job.finalizer {
        job.finalizer := false;
        var ok := api.Update(job);
      }
    }

    method SetPhase(job: BenchmarkJob, phase: Phase)
      requires StatusOf(job) && !job.deleting
      modifies job`phase, api
      ensures job.View() == old(job.View()).(phase := phase)
      ensures api.objects == Updated(old(api.objects), job.id, job.version, job.View())
    {
      job.phase := phase;
      var ok := api.UpdateStatus(job);
    }
  }
}
