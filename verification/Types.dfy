/** The values shared by the API, the workers and the operator. */
module Types {
  datatype Option<+T> = None | Some(value: T)

  /** A row id. `uuid4` is modelled by a counter: two draws never collide. */
  type Uuid = nat

  /** What is to be benchmarked: the three fields of a submission that reach the engine. */
  datatype Spec = Spec(model: string, workload: string, batch: int)

  /** A string that a column of this width can hold. */
  predicate Text(s: string, width: nat)
  {
    |s| <= width && '\0' !in s
  }

  /** What the API lets through; the key is the one the request is stored under. */
  predicate Accepts(key: string, spec: Spec)
  {
    |key| <= 128 && spec.batch > 0
  }

  /** The columns of `gpu_models` and of `benchmarks` can hold the request. */
  predicate FitsModel(name: string) { Text(name, 64) }

  predicate FitsRow(key: string, spec: Spec)
  {
    Text(key, 128) && Text(spec.workload, 64) && spec.batch <= 0x7fff_ffff
  }

  /** A request that can become a row. */
  predicate Admissible(key: string, spec: Spec)
  {
    Accepts(key, spec) && FitsModel(spec.model) && FitsRow(key, spec)
  }

  datatype Metrics = Metrics(throughput: real, latencyMs: real, bandwidthGbps: real)

  datatype Status = Queued | Running | Completed | Failed

  /** The JSON payload on the Redis list. */
  datatype Message = Message(bench: Uuid, spec: Spec, attempt: nat)

  /** A payload in the dead-letter list, with the reason added to it. */
  datatype DeadLetter = DeadLetter(message: Message, reason: string)

  /** The longest series of attempts that `worker_max_retries` allows one job. */
  function MaxAttempts(workerMaxRetries: int): (m: nat)
    ensures m >= 1 && m >= workerMaxRetries && (m == 1 || m == workerMaxRetries)
  {
    if workerMaxRetries < 1 then 1 else workerMaxRetries
  }
}
