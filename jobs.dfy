/** Job definitions (just_jobs/jobs.py): the `job()` decorator wraps a
    function into a job object that checks at construction that a
    synchronous function declares how it is offloaded, strips the
    worker-only entries from the context it hands to the function, and
    routes a run either to the event loop or to the executor installed for
    its job type. */
module Jobs {
  import opened Common

  /** What calling a job's function gives back: a plain value, or a
      coroutine that yields `value` once awaited. */
  datatype CallResult<+R> = Plain(value: R) | Coroutine(value: R)

  /** The wrapped function: its qualified name, whether it is a coroutine
      function, and what a call gives back for the context bound to it
      (None on a direct call). How the remaining arguments are bound is
      not modelled. */
  datatype Func<+R> = Func(qualname: string, coroutineFunction: bool, call: Option<Context> -> CallResult<R>)

  datatype JobError = MissingJobType

  /** The construction check of `__post_init__`: a synchronous function
      without a job type is refused; otherwise construction succeeds and
      answers whether the "job type has no effect" warning is issued. */
  function CheckDefinition(coroutineFunction: bool, jobType: Option<JobType>): (r: Result<bool, JobError>)
    ensures r.Err? <==> !coroutineFunction && jobType.None?
    ensures r.Err? ==> r.error == MissingJobType
    ensures r.Ok? ==> (r.value <==> coroutineFunction && jobType.Some?)
  {
    if coroutineFunction then Ok(jobType.Some?)
    else if jobType.None? then Err(MissingJobType)
    else Ok(false)
  }

  /** The name `job()` gives the job: the one supplied, unless it is
      missing or empty, in which case the function's qualified name. */
  function JobName(name: Option<string>, qualname: string): (r: string)
    ensures name.Some? && name.value != [] ==> r == name.value
    ensures name.None? || name.value == [] ==> r == qualname
  {
    if name.Some? && name.value != [] then name.value else qualname
  }

  /** The context handed to the job's function: every entry except the
      store connection and the executor map, which cannot be pickled. */
  function StripContext(ctx: Context): (r: Context)
    ensures r.Keys == ctx.Keys - {REDIS_KEY, EXECUTORS_KEY}
    ensures forall k :: k in r ==> r[k] == ctx[k]
  {
    map k | k in ctx && k != REDIS_KEY && k != EXECUTORS_KEY :: ctx[k]
  }

  /** What the worker stores under the two stripped keys never reaches the
      job: replacing or removing either entry leaves the job's context as
      it was. */
  lemma StripIgnoresWorkerEntries(ctx: Context, k: string, v: CtxValue)
    requires k == REDIS_KEY || k == EXECUTORS_KEY
    ensures StripContext(ctx[k := v]) == StripContext(ctx)
    ensures StripContext(ctx - {k}) == StripContext(ctx)
  {
    assert StripContext(ctx[k := v]).Keys == StripContext(ctx).Keys;
    assert StripContext(ctx - {k}).Keys == StripContext(ctx).Keys;
  }

  /** Where a run goes: awaited on the event loop, or handed to an
      executor. */
  datatype Route = Awaited | InExecutor(executor: Executor)

  /** A run that was dispatched: its route, the context given to the
      function, and what the function's call gives back on that route. */
  datatype Dispatch<+R> = Dispatch(route: Route, jobContext: Context, outcome: CallResult<R>)

  /** Why a synchronous run cannot find its executor: no executor entry
      (KeyError), an entry that is not the executor map (the model's
      opaque values are not subscriptable), or no executor for the job
      type (KeyError). */
  datatype RunError = NoExecutors | ExecutorsNotAMap | NoExecutorForType

  /** The executor map that the startup hook installs: a thread pool for
      I/O-bound jobs and a process pool for CPU-bound ones. */
  predicate ExecutorsInstalled(ctx: Context) {
    && EXECUTORS_KEY in ctx
    && ctx[EXECUTORS_KEY].ExecutorPools?
    && ctx[EXECUTORS_KEY].pools.Keys == {IoBound, CpuBound}
    && ctx[EXECUTORS_KEY].pools[IoBound].kind == ThreadPool
    && ctx[EXECUTORS_KEY].pools[CpuBound].kind == ProcessPool
  }

  /** The pool kind a job type is meant to run on. */
  function PoolFor(t: JobType): PoolKind {
    match t
    case IoBound => ThreadPool
    case CpuBound => ProcessPool
  }

  /** `_job`: a function wrapped as a job. The dataclass constructor sets
      the fields and `iscoro` to False; `PostInit` then performs the
      construction check. */
  class Job<R> {
    const func: Func<R>
    const jobType: Option<JobType>
    const name: string
    var iscoro: bool

    /** Construction finished: `iscoro` reflects the function, and a
        synchronous job has a job type. */
    ghost predicate Valid()
      reads this
    {
      && iscoro == func.coroutineFunction
      && (iscoro || jobType.Some?)
    }

    /** The generated dataclass constructor. */
    constructor (func: Func<R>, jobType: Option<JobType>, name: string)
      ensures this.func == func && this.jobType == jobType && this.name == name
      ensures !iscoro
    {
      this.func := func;
      this.jobType := jobType;
      this.name := name;
      iscoro := false;
    }

    /** `__post_init__`: a coroutine function becomes a coroutine job, with
        a warning if it was given a job type; a synchronous function
        without a job type is refused. Answers whether it warned. */
    method PostInit() returns (r: Result<bool, JobError>)
      requires !iscoro
      modifies this
      ensures r == CheckDefinition(func.coroutineFunction, jobType)
      ensures r.Ok? ==> Valid()
      ensures r.Err? ==> !iscoro
    {
      if func.coroutineFunction {
        var warned := jobType.Some?;
        iscoro := true;
        return Ok(warned);
      } else if jobType.None? {
        return Err(MissingJobType);
      }
      r := Ok(false);
    }

    /** `run`: builds the job's context, then awaits a coroutine job
        directly, or looks up the executor for the job's type in the
        worker context. Only the lookup can fail. */
    function Run(ctx: Context): (r: Result<Dispatch<R>, RunError>)
      reads this
      ensures iscoro ==> r.Ok? && r.value.route == Awaited
      ensures r.Ok? ==> r.value.jobContext == StripContext(ctx)
      ensures r.Ok? ==> r.value.outcome == func.call(Some(StripContext(ctx)))
      ensures r.Ok? ==> (r.value.route.Awaited? <==> iscoro)
      ensures !iscoro ==>
        (r.Ok? <==> && EXECUTORS_KEY in ctx && ctx[EXECUTORS_KEY].ExecutorPools?
                    && jobType.Some? && jobType.value in ctx[EXECUTORS_KEY].pools)
      ensures !iscoro && r.Ok? ==> r.value.route.executor == ctx[EXECUTORS_KEY].pools[jobType.value]
      ensures r.Err? && r.error == NoExecutors <==> !iscoro && EXECUTORS_KEY !in ctx
    {
      var jobContext := StripContext(ctx);
      var outcome := func.call(Some(jobContext));
      if iscoro then Ok(Dispatch(Awaited, jobContext, outcome))
      else if EXECUTORS_KEY !in ctx then Err(NoExecutors)
      else
        match ctx[EXECUTORS_KEY]
        case Opaque(_) => Err(ExecutorsNotAMap)
        case ExecutorPools(pools) =>
          if jobType.None? || jobType.value !in pools then Err(NoExecutorForType)
          else Ok(Dispatch(InExecutor(pools[jobType.value]), jobContext, outcome))
    }

    /** `__call__`: runs the function at once, with None for its context. */
    function Call(): CallResult<R>
      reads this
    {
      func.call(None)
    }

    /** `now`: the result of a direct call, awaited when it is a
        coroutine. */
    function Now(): (r: R)
      reads this
      ensures r == func.call(None).value
      ensures Call().Plain? ==> r == Call().value
    {
      match Call()
      case Plain(v) => v
      case Coroutine(v) => v
    }
  }

  /** A direct call and a worker run call the same function but hand it
      different contexts: None on a direct call, and on a run the worker's
      context without its store connection and executors, which is never
      None. */
  lemma CallAndRunContexts<R>(j: Job<R>, ctx: Context)
    requires j.Run(ctx).Ok?
    ensures j.Call() == j.func.call(None)
    ensures j.Run(ctx).value.outcome == j.func.call(Some(StripContext(ctx)))
    ensures REDIS_KEY !in j.Run(ctx).value.jobContext && EXECUTORS_KEY !in j.Run(ctx).value.jobContext
  {
  }

  /** With the executors the startup hook installs, every constructed job
      is dispatched, and a synchronous job lands on the pool its type
      calls for: threads for I/O-bound work, processes for CPU-bound. */
  lemma RoutedByJobType<R>(j: Job<R>, ctx: Context)
    requires j.Valid() && ExecutorsInstalled(ctx)
    ensures j.Run(ctx).Ok?
    ensures !j.iscoro ==> j.Run(ctx).value.route.executor.kind == PoolFor(j.jobType.value)
  {
    if !j.iscoro {
      var pools := ctx[EXECUTORS_KEY].pools;
      assert j.jobType.value in pools by {
        assert j.jobType.value == IoBound || j.jobType.value == CpuBound;
        assert IoBound in pools.Keys && CpuBound in pools.Keys;
      }
    }
  }

  /** `job()` applied to a function: names the job, then constructs and
      checks it. A refused definition yields no job. */
  method Decorate<R>(jobType: Option<JobType>, name: Option<string>, func: Func<R>)
    returns (r: Result<Job<R>, JobError>)
    ensures r.Err? <==> !func.coroutineFunction && jobType.None?
    ensures r.Ok? ==> fresh(r.value) && r.value.Valid()
    ensures r.Ok? ==> r.value.func == func && r.value.jobType == jobType
    ensures r.Ok? ==> r.value.name == JobName(name, func.qualname)
  {
    var j := new Job(func, jobType, JobName(name, func.qualname));
    var checked := j.PostInit();
    if checked.Err? {
      return Err(checked.error);
    }
    r := Ok(j);
  }
}
