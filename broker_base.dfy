/** The abstract broker of just_jobs/brokers/base.py: the settings its
    constructor takes from keyword arguments, the job runner with its
    boolean contract, and the worker process body that drives a number of
    consumer slots for one queue. */
module BrokerBase {
  import opened Common

  /** A keyword argument value, as far as the broker constructors look at
      it: a slot count, a flag, an event loop, None, or anything else. */
  datatype Kw = KwNat(n: nat) | KwBool(b: bool) | KwLoop(loop: nat) | KwNone | KwText(text: string)
  type Kwargs = map<string, Kw>

  const COROUTINES_KEY: string := "coroutines_per_worker"
  const IS_WORKER_KEY: string := "is_worker"
  const EVENT_LOOP_KEY: string := "event_loop"
  const DEFAULT_COROUTINES_PER_WORKER: nat := 20

  /** The broker keywords carry values of the types the broker uses. */
  predicate KwargsTyped(kw: Kwargs) {
    && (COROUTINES_KEY in kw ==> kw[COROUTINES_KEY].KwNat?)
    && (IS_WORKER_KEY in kw ==> kw[IS_WORKER_KEY].KwBool?)
    && (EVENT_LOOP_KEY in kw ==> kw[EVENT_LOOP_KEY].KwLoop? || kw[EVENT_LOOP_KEY].KwNone?)
  }

  /** The fields `Broker.__init__` sets. `loop` names an event loop. */
  datatype BaseFields = BaseFields(coroutinesPerWorker: nat, isWorker: bool, loop: Option<nat>)

  /** `Broker.__init__`: each field is popped from the keywords, defaulting
      to 20 slots, not a worker, and no event loop. */
  function BaseInit(kw: Kwargs): (f: BaseFields)
    requires KwargsTyped(kw)
    ensures f.coroutinesPerWorker == if COROUTINES_KEY in kw then kw[COROUTINES_KEY].n else 20
    ensures f.isWorker <==> IS_WORKER_KEY in kw && kw[IS_WORKER_KEY].b
    ensures f.loop.Some? <==> EVENT_LOOP_KEY in kw && kw[EVENT_LOOP_KEY].KwLoop?
    ensures f.loop.Some? ==> f.loop.value == kw[EVENT_LOOP_KEY].loop
  {
    BaseFields(
      if COROUTINES_KEY in kw then kw[COROUTINES_KEY].n else DEFAULT_COROUTINES_PER_WORKER,
      if IS_WORKER_KEY in kw then kw[IS_WORKER_KEY].b else false,
      if EVENT_LOOP_KEY in kw && kw[EVENT_LOOP_KEY].KwLoop? then Some(kw[EVENT_LOOP_KEY].loop) else None)
  }

  // ---------------------------------------------------------------------
  // Running one job

  /** How a job's callable ends when it is called. */
  datatype JobExit = Completes | RaisesException | RaisesBaseException

  /** What `pickle.loads` gives back: a partial whose `func` is or is not a
      coroutine function, or an object without a callable `func`. */
  datatype Loaded = Partial(coroutineFunction: bool, exit: JobExit) | NotPartial

  /** Where the job body ran. */
  datatype Path = Awaited | DefaultExecutor

  /** What escapes `run_job` instead of a boolean. */
  datatype RaiseKind = LoadError | BaseExceptionRaised

  datatype RunOutcome = Returned(ok: bool, path: Option<Path>) | Raised(kind: RaiseKind)

  /** The outcome of a job body that ran along `path`. */
  function Finish(exit: JobExit, path: Path): RunOutcome {
    match exit
    case Completes => Returned(true, Some(path))
    case RaisesException => Returned(false, Some(path))
    case RaisesBaseException => Raised(BaseExceptionRaised)
  }

  /** `run_job`: loads the payload (outside the `try`), then awaits a
      coroutine function directly or hands anything else to the event
      loop's default executor. Answers True exactly when the job finished
      without raising; an `Exception` is swallowed into False, while a
      load failure or a bare `BaseException` escapes. A broker without an
      event loop cannot reach the executor, which fails like the job. */
  function RunJob(loads: Bytes -> Option<Loaded>, loop: Option<nat>, job: Bytes): (r: RunOutcome)
    ensures loads(job).None? ==> r == Raised(LoadError)
    ensures r.Returned? && r.ok <==>
      && loads(job).Some? && loads(job).value.Partial?
      && loads(job).value.exit == Completes
      && (loads(job).value.coroutineFunction || loop.Some?)
    ensures r.Raised? <==>
      || loads(job).None?
      || (&& loads(job).value.Partial?
          && loads(job).value.exit == RaisesBaseException
          && (loads(job).value.coroutineFunction || loop.Some?))
    ensures r.Returned? && r.path == Some(Awaited) <==>
      loads(job).Some? && loads(job).value.Partial? && loads(job).value.coroutineFunction
      && loads(job).value.exit != RaisesBaseException
    ensures r.Returned? && r.path == Some(DefaultExecutor) <==>
      loads(job).Some? && loads(job).value.Partial? && !loads(job).value.coroutineFunction
      && loop.Some? && loads(job).value.exit != RaisesBaseException
  {
    match loads(job)
    case None => Raised(LoadError)
    case Some(NotPartial) => Returned(false, None)
    case Some(Partial(coroutineFunction, exit)) =>
      if coroutineFunction then Finish(exit, Awaited)
      else if loop.None? then Returned(false, None)
      else Finish(exit, DefaultExecutor)
  }

  /** `run_job` answered True. */
  predicate RunSucceeds(loads: Bytes -> Option<Loaded>, loop: Option<nat>, job: Bytes) {
    RunJob(loads, loop, job).Returned? && RunJob(loads, loop, job).ok
  }

  /** An `Exception` raised by the job never escapes `run_job`. */
  lemma ExceptionNeverEscapes(loads: Bytes -> Option<Loaded>, loop: Option<nat>, job: Bytes)
    requires loads(job).Some? && loads(job).value.Partial?
    requires loads(job).value.exit == RaisesException
    ensures RunJob(loads, loop, job) == Returned(false, if loads(job).value.coroutineFunction then Some(Awaited) else if loop.Some? then Some(DefaultExecutor) else None)
  {
  }

  // ---------------------------------------------------------------------
  // The worker process body

  /** What the worker process body does, in order. */
  datatype WorkerEvent =
    | BrokerStarted
    | SlotStarted(queueName: string, slot: nat)
    | SlotCancelled(slot: nat)
    | BrokerShutDown

  /** `_spawn_worker`: starts the worker's broker, launches one consumer
      slot per configured coroutine, waits for the shutdown event
      (not modelled), cancels every slot it launched, and shuts the broker
      down. Answers the events in the order they happen. `started` is the
      outcome of the broker's startup: when it fails, `.result()`
      re-raises, so no slot starts, the event is not awaited and the broker
      is never shut down. */
  method SpawnWorker(queueName: string, coroutinesPerWorker: nat, started: bool) returns (trace: seq<WorkerEvent>)
    ensures !started ==> trace == []
    ensures started ==> |trace| == 2 * coroutinesPerWorker + 2
    ensures started ==> trace[0] == BrokerStarted && trace[|trace| - 1] == BrokerShutDown
    ensures started ==> forall i :: 1 <= i <= coroutinesPerWorker ==> trace[i] == SlotStarted(queueName, i - 1)
    ensures started ==> forall i :: coroutinesPerWorker < i <= 2 * coroutinesPerWorker ==>
      trace[i] == SlotCancelled(i - coroutinesPerWorker - 1)
  {
    if !started {
      return [];
    }
    trace := [BrokerStarted];
    var slots: seq<nat> := [];
    for s := 0 to coroutinesPerWorker
      invariant |trace| == s + 1 && trace[0] == BrokerStarted
      invariant slots == seq(s, k => k)
      invariant forall i :: 1 <= i <= s ==> trace[i] == SlotStarted(queueName, i - 1)
    {
      trace := trace + [SlotStarted(queueName, s)];
      slots := slots + [s];
    }
    for j := 0 to |slots|
      invariant |trace| == coroutinesPerWorker + j + 1 && trace[0] == BrokerStarted
      invariant forall i :: 1 <= i <= coroutinesPerWorker ==> trace[i] == SlotStarted(queueName, i - 1)
      invariant forall i :: coroutinesPerWorker < i <= coroutinesPerWorker + j ==>
        trace[i] == SlotCancelled(i - coroutinesPerWorker - 1)
    {
      trace := trace + [SlotCancelled(slots[j])];
    }
    trace := trace + [BrokerShutDown];
  }
}
