/** Types shared by every part of the job queue: bytes, optional values and
    results, the two job types, and the runtime context a worker hands to
    its jobs (just_jobs/typing.py, just_jobs/job_type.py). */
module Common {

  datatype Option<+T> = None | Some(value: T)

  /** The outcome of an operation that the source ends by raising. */
  datatype Result<+T, +E> = Ok(value: T) | Err(error: E)

  /** One byte of a payload. Payloads travel through the store as bytes. */
  type byte = b: int | 0 <= b < 256
  type Bytes = seq<byte>

  /** JobType: how a synchronous job is offloaded. */
  datatype JobType = IoBound | CpuBound

  datatype PoolKind = ThreadPool | ProcessPool

  /** A thread or process pool executor. Only its kind, its worker bound
      and whether it has been shut down are modelled; running work on it
      is not. */
  class Executor {
    const kind: PoolKind
    const maxWorkers: Option<int>
    var isShutdown: bool

    constructor (kind: PoolKind, maxWorkers: Option<int>)
      ensures this.kind == kind && this.maxWorkers == maxWorkers
      ensures !isShutdown
    {
      this.kind := kind;
      this.maxWorkers := maxWorkers;
      isShutdown := false;
    }

    /** `shutdown(wait=True)`: the pool stops accepting work. */
    method Shutdown()
      modifies this
      ensures isShutdown
    {
      isShutdown := true;
    }
  }

  /** A value held in a worker's context dict: either the executor map
      that the startup hook installs, or anything else (the store
      connection, user data), which the model does not look into. */
  datatype CtxValue = ExecutorPools(pools: map<JobType, Executor>) | Opaque(id: nat)

  /** The context dict, keyed by strings. */
  type Context = map<string, CtxValue>

  /** The context key of the live store connection. */
  const REDIS_KEY: string := "redis"
  /** The context key of the executor map. */
  const EXECUTORS_KEY: string := "_executors"
}
