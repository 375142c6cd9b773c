/** The Redis lists and the payload dictionary that travels through them. */
module QueueService {
  import opened Types

  /** The payload as a Python dictionary: the service writes to it in place. */
  class Payload {
    const bench: Uuid
    const spec: Spec
    var attempt: nat
    var reason: Option<string>       // dlq_reason, once it is set

    constructor (m: Message)
      ensures bench == m.bench && spec == m.spec && attempt == m.attempt && reason == None
    {
      bench, spec, attempt, reason := m.bench, m.spec, m.attempt, None;
    }

    /** `json.dumps` of the dictionary. */
    function Dump(): Message
      reads this
    {
      Message(bench, spec, attempt)
    }
  }

  /** `queue` and `dlq` are the lists from left to right. */
  class RedisQueueService {
    var queue: seq<Message>
    var dlq: seq<DeadLetter>

    constructor ()
      ensures queue == [] && dlq == []
    {
      queue, dlq := [], [];
    }

    method Enqueue(payload: Payload)
      modifies this`queue
      ensures queue == [payload.Dump()] + old(queue)
    {
      queue := [payload.Dump()] + queue;
    }

    method EnqueueRetry(payload: Payload)
      modifies this`queue, payload`attempt
      ensures payload.attempt == old(payload.attempt) + 1
      ensures queue == [old(payload.Dump()).(attempt := old(payload.attempt) + 1)] + old(queue)
    {
      payload.attempt := payload.attempt + 1;
      queue := [payload.Dump()] + queue;
    }

    /** `brpop`: the oldest message, as a new dictionary; null when the wait times out. */
    method Dequeue() returns (job: Payload?)
      modifies this`queue
      ensures old(queue) == [] ==> job == null && queue == []
      ensures old(queue) != [] ==>
        && job != null && fresh(job) && job.reason == None
        && old(queue) == queue + [job.Dump()]
    {
      if queue == [] { return null; }
      job := new Payload(queue[|queue| - 1]);
      queue := queue[..|queue| - 1];
    }

    method MoveToDlq(payload: Payload, reason: string)
      modifies this`dlq, payload`reason
      ensures payload.reason == Some(reason)
      ensures dlq == [DeadLetter(payload.Dump(), reason)] + old(dlq)
    {
      payload.reason := Some(reason);
      dlq := [DeadLetter(payload.Dump(), reason)] + dlq;
    }
  }
}
