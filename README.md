# just-jobs, modelled in Dafny

just-jobs is a small background-job queue for asyncio applications. An
application creates a `Manager`, which starts a broker and one worker
process per queue name. It then enqueues pickled function calls. Each
worker runs a number of consumer coroutines. A consumer claims a payload
from the queue's pending list in Redis and moves it into an in-flight list.
It runs the payload and removes it from the in-flight list only when the
run succeeded. A second, arq-based path signs payloads with a keyed
blake2b digest. Its worker settings install thread and process pools in
each worker's context, and a `job()` decorator wraps functions into jobs.
Each job is routed to the event loop or to the pool its job type names.

The model is split by source file:

- `common.dfy` (module `Common`) holds the shared types: options and
  results, bytes, `JobType`, the executor pools and the worker context map.
- `settings.dfy` (module `Settings`) covers `just_jobs/settings.py`. It
  models the signed codec over an abstract keyed hash and an abstract
  dumps/loads pair. It also models the environment worker bounds, and the
  startup and shutdown hooks as methods on a context object that they
  change in place.
- `redis_store.dfy` (module `RedisStore`) models the Redis lists the
  broker uses. The store is a map from keys to byte-string lists. RPUSH,
  BRPOPLPUSH and LREM with count 0 are pure transitions. A `Store` object
  applies them in place.
- `broker_base.dfy` (module `BrokerBase`) covers `just_jobs/brokers/base.py`:
  the constructor defaults, `run_job` with its boolean contract, and the
  slot start/cancel sequence of the worker process body.
- `redis_queue.dfy` (module `RedisQueue`) covers
  `just_jobs/brokers/redis.py`. It models the queue keys and one
  `process_jobs` iteration as a store transition, with conservation and
  ordering lemmas. A `RedisBroker` class carries the startup/shutdown pool
  handling, `enqueue`, and the consumer loop.
- `jobs.dfy` (module `Jobs`) covers `just_jobs/jobs.py`: the construction
  check, the naming default, the context filter, run routing, direct calls
  and `now`.
- `manager.dfy` (module `JobManager`) covers `just_jobs/manager.py`: the
  `_initialized` flag, the list of worker records, the shutdown event, and
  the ordered checks in `enqueue`.

Behaviour of the code worth knowing before reading the model:

- Enqueue uses RPUSH and a claim uses BRPOPLPUSH, and both work on the
  right end of the pending list. A single consumer therefore takes the
  newest payload first (`RedisQueue.NewestClaimedFirst`), not the oldest.
- `run_job` calls `pickle.loads` before its `try`, so a payload that
  cannot be loaded makes it raise rather than answer False
  (`BrokerBase.RunJob`, outcome `Raised(LoadError)`). In the consumer loop
  such a raise ends the coroutine, and the payload stays in flight
  (`RedisQueue.RedisBroker.ProcessJobs`, halt `JobRaised`).
- The manager path serializes with plain `pickle` and does not sign. Only
  the arq settings path uses the signed codec.
- LREM with count 0 removes every copy of an acknowledged payload from the
  in-flight list, including copies claimed by other consumers.

## Model

| member | source | states |
|---|---|---|
| Settings.HexDigest | just_jobs/settings.py:79-82 | the hex digest has two lowercase hex digits per raw byte, so it never contains the `|` delimiter and is pure ASCII |
| Settings.HexDigestInjective | just_jobs/settings.py:81-82 | equal hex digests come from equal raw digests, so comparing hex forms compares the keyed hashes |
| Settings.SplitFirst | just_jobs/settings.py:92 | splitting at the first `|` fails exactly when there is no `|`; otherwise the head has no `|` and head, `|`, tail rebuild the input |
| Settings.SplitFirstOfJoin | just_jobs/settings.py:83-92 | joining a `|`-free head, `|` and any tail, then splitting at the first `|`, gives back head and tail |
| Settings.Signature | just_jobs/settings.py:79-82 | a signature is ASCII, free of `|`, and twice as long as the raw keyed hash |
| Settings.Serialize | just_jobs/settings.py:72-83 | the signed payload splits at its first `|` into exactly the signature of the body and the body itself, unchanged |
| Settings.Deserialize | just_jobs/settings.py:85-101 | a payload without `|` is refused before any digest or load; anything accepted is what `loads` gives for the body |
| Settings.RoundTrip | just_jobs/settings.py:72-101 | deserializing a serialized job gives the job back whenever dumps/loads round-trip on it |
| Settings.TamperedSignatureRejected | just_jobs/settings.py:92-99 | any `|`-free signature other than the recomputed one is refused as an invalid signature (or as undecodable when it is not ASCII), and the body is never loaded |
| Settings.SignatureByteChangeRejected | just_jobs/settings.py:92-99 | changing any single signature byte of a signed payload, to any other value including the delimiter, gets the payload refused before loading |
| Settings.AcceptedIsSigned | just_jobs/settings.py:92-101 | every accepted payload is exactly the signature of its body, `|`, and the body |
| Settings.WorkerBound | just_jobs/settings.py:19-20 | a missing or zero environment value means no bound; any other integer is kept |
| Settings.WorkerContext.OnStartup | just_jobs/settings.py:43-57 | installs fresh, running thread and process pools under `_executors` for IO_BOUND and CPU_BOUND with the configured bounds; other keys are unchanged; a non-positive bound is refused and changes nothing |
| Settings.WorkerContext.OnShutdown | just_jobs/settings.py:59-67 | shuts down every installed executor, then removes `_executors` and leaves every other key; a missing entry is a KeyError that changes nothing |
| RedisStore.Put | just_jobs/brokers/redis.py:56-71 | storing a list changes only its key, and an emptied list disappears as in Redis |
| RedisStore.PushRight | just_jobs/brokers/redis.py:55-56 | RPUSH appends at the right end, answers the new length, and leaves other keys alone |
| RedisStore.PopRightPushLeft | just_jobs/brokers/redis.py:64 | BRPOPLPUSH moves the last element of the source to the front of the destination, or answers nothing and changes nothing when the source is empty |
| RedisStore.RemoveAll | just_jobs/brokers/redis.py:70-71 | removal deletes exactly the copies of the value, keeps every other element, and reports how many went |
| RedisStore.RemoveAllConcat | just_jobs/brokers/redis.py:70-71 | removal keeps the relative order of what remains |
| RedisStore.RemoveEvery | just_jobs/brokers/redis.py:70-71 | LREM with count 0 leaves no copy of the value in the list and answers the number of copies it held |
| RedisStore.Store.RPush | just_jobs/brokers/redis.py:55-56 | the store's lists become the RPUSH transition of the old lists |
| RedisStore.Store.BRPopLPush | just_jobs/brokers/redis.py:64 | the store's lists become the BRPOPLPUSH transition of the old lists |
| RedisStore.Store.LRem | just_jobs/brokers/redis.py:70-71 | the store's lists become the LREM 0 transition of the old lists |
| BrokerBase.BaseInit | just_jobs/brokers/base.py:9-15 | the slot count defaults to 20, the worker flag to False and the event loop to None, each taken from the keywords when present |
| BrokerBase.RunJob | just_jobs/brokers/base.py:76-95 | True exactly when the payload loads to a partial whose call completes and that has a path to run on; at most one of the awaited and executor paths is taken (none for a payload that is not a partial, or for a synchronous job without an event loop); a load failure or a bare BaseException escapes |
| BrokerBase.ExceptionNeverEscapes | just_jobs/brokers/base.py:84-95 | an Exception raised by the job is turned into False on whichever path it ran |
| BrokerBase.SpawnWorker | just_jobs/brokers/base.py:45-74 | when the broker's startup fails nothing else happens, because `.result()` re-raises; otherwise the worker starts the broker, starts one `process_jobs` slot per configured coroutine in order, cancels each after the event, then shuts the broker down |
| RedisQueue.PendingKey | just_jobs/brokers/redis.py:59 | a queue's pending list is the queue name behind the prefix `jobqueue:` |
| RedisQueue.ProcessingKey | just_jobs/brokers/redis.py:60 | a queue's in-flight list is its pending key followed by `-processing` |
| RedisQueue.KeysDistinct | just_jobs/brokers/redis.py:59-60 | a queue's pending and in-flight keys differ, and distinct queues have distinct pending keys |
| RedisQueue.PendingMeetsProcessing | just_jobs/brokers/redis.py:59-60 | queue `q2`'s pending key is queue `q1`'s in-flight key exactly when `q2` is `q1` followed by `-processing` |
| RedisQueue.Step | just_jobs/brokers/redis.py:62-71 | one iteration is idle exactly when nothing is pending; otherwise it claims the newest pending payload; an empty payload is skipped; it acknowledges exactly when the payload is non-empty and its run answered True, and then the in-flight list is the old one with the payload pushed in front and every copy of it removed, and the count removed is one more than the copies already in flight; it crashes exactly when the run raised; otherwise the payload stays in front of the in-flight list; other keys are untouched |
| RedisQueue.StepConserves | just_jobs/brokers/redis.py:62-71 | an iteration loses no payload: pending plus in flight before equals pending plus in flight after plus what was acknowledged |
| RedisQueue.NewestClaimedFirst | just_jobs/brokers/redis.py:56-64 | after enqueuing `a` then `b` on an empty queue, two successive claims take `b`, then `a`, and leave nothing pending (a single consumer makes the second claim only if the run of `b` did not raise) |
| RedisQueue.RedisInitAsWritten | just_jobs/brokers/redis.py:14-21 | as written, the base fields are the slot count (default 20), not a worker and no event loop, whatever the keywords say, and every keyword but the slot count is kept for the client |
| RedisQueue.AsWrittenWorkerFailsSyncJobs | just_jobs/brokers/redis.py:14-21 | as written, a worker built with `is_worker` and `event_loop` keeps neither, so a synchronous job that would complete is reported as failed |
| RedisQueue.RedisInit | just_jobs/brokers/base.py:9-15 | corrected constructor: the base keywords reach the base broker and only the rest is forwarded to the client |
| RedisQueue.WorkerRunsSyncJobs | just_jobs/brokers/base.py:76-89 | with the corrected constructor a worker keeps its loop, and a completing synchronous job runs in the default executor and answers True |
| RedisQueue.RedisBroker.constructor | just_jobs/brokers/redis.py:14-39 | as written: the slot count is taken from the keywords (default 20), the broker is never a worker and has no event loop, the other keywords are kept for the client, and there is no client yet |
| RedisQueue.RedisBroker.Corrected | just_jobs/brokers/base.py:9-15 | corrected constructor: the base fields come from all base keywords, and only the rest is kept for the client |
| RedisQueue.RedisBroker.Startup | just_jobs/brokers/redis.py:41-47 | uses the supplied pool when there is one; otherwise builds a client from the URL and records its fresh, connected pool; with neither, refuses and changes nothing |
| RedisQueue.RedisBroker.Shutdown | just_jobs/brokers/redis.py:49-53 | closes the client and disconnects the pool only when `shutdown_with_pool`; before startup it refuses |
| RedisQueue.RedisBroker.Enqueue | just_jobs/brokers/redis.py:55-56 | the store becomes the RPUSH of the payload onto `jobqueue:<queue>`, and the new length is returned |
| RedisQueue.RedisBroker.ProcessStep | just_jobs/brokers/redis.py:62-71 | the store makes the `Step` transition |
| RedisQueue.Steps | just_jobs/brokers/redis.py:62-71 | a run of `n` iterations chains the single-iteration transitions, each on the store the previous one left; it ends either cancelled after all `n` iterations or raised after fewer than `n` |
| RedisQueue.Advance | just_jobs/brokers/redis.py:62-71 | one more iteration of a running loop: the store is the iteration's new store, its acknowledgement joins the earlier ones, and the loop stops exactly when the run raised, with that payload and error |
| RedisQueue.RemainingAdvance | just_jobs/brokers/redis.py:62-71 | `k` further iterations of a running loop come to the same as one iteration followed by `k - 1` others, or to that one iteration alone if it raised |
| RedisQueue.AdvanceConserves | just_jobs/brokers/redis.py:62-71 | an iteration keeps pending plus in flight plus acknowledged unchanged |
| RedisQueue.AdvanceAcknowledgesSucceeded | just_jobs/brokers/redis.py:68-71 | a payload newly acknowledged by an iteration is one whose run answered True |
| RedisQueue.AdvanceKeepsPromises | just_jobs/brokers/redis.py:62-71 | an iteration of a running loop keeps all of the loop's promises: nothing lost, only successful payloads acknowledged, other keys unchanged, pending consumed from the right, a raise leaves its payload at the front of the in-flight list |
| RedisQueue.RemainingKeepsPromises | just_jobs/brokers/redis.py:62-71 | a run that keeps the loop's promises keeps them through any number of further iterations |
| RedisQueue.StepsKeepPromises | just_jobs/brokers/redis.py:62-71 | for every store, job decoder and iteration count: no payload of the queue is lost, only payloads whose run answered True are acknowledged, no other key changes, the pending list keeps the prefix left after one claim per iteration, and a raise leaves its payload in front of the in-flight list |
| RedisQueue.RedisBroker.Iterate | just_jobs/brokers/redis.py:62-71 | one iteration on the broker's store gives the state `Advance` describes |
| RedisQueue.RedisBroker.ConsumeLoop | just_jobs/brokers/redis.py:62-71 | the loop changes the store and returns the acknowledged payloads, the way it ended and the iterations run exactly as `Steps` does from the store it started on |
| RedisQueue.RedisBroker.ProcessJobs | just_jobs/brokers/redis.py:58-71 | without a client it fails at once and changes nothing; otherwise the new store, the acknowledged payloads, the way the loop ended and the iterations run are those of `Steps` from the old store, so every promise of `StepsKeepPromises` holds of them |
| Jobs.CheckDefinition | just_jobs/jobs.py:31-47 | a synchronous function without a job type is refused; a coroutine function is always accepted and warns exactly when it has a job type |
| Jobs.Job.PostInit | just_jobs/jobs.py:31-50 | construction answers the definition check, and an accepted job has `iscoro` equal to whether its function is a coroutine function |
| Jobs.JobName | just_jobs/jobs.py:116-120 | the job's name is the one supplied, or the function's qualified name when none (or an empty one) is given |
| Jobs.StripContext | just_jobs/jobs.py:78-80 | the job's context is the worker context without exactly `redis` and `_executors`, with every other value kept |
| Jobs.StripIgnoresWorkerEntries | just_jobs/jobs.py:78-80 | what the worker stores under `redis` or `_executors` never reaches the job |
| Jobs.Job.Run | just_jobs/jobs.py:77-91 | a coroutine job is awaited with no executor lookup; any other job goes to `ctx["_executors"][job_type]` and fails exactly when that lookup fails; either way the function is called with the stripped context |
| Jobs.RoutedByJobType | just_jobs/jobs.py:84-89 | with the executors the startup hook installs, every constructed job is dispatched, and a synchronous job lands on a thread pool if IO-bound and a process pool if CPU-bound |
| Jobs.CallAndRunContexts | just_jobs/jobs.py:66-91 | a direct call hands the function None as its context, while a worker run hands it the worker's context without `redis` and `_executors` |
| Jobs.Job.Now | just_jobs/jobs.py:52-75 | `now` yields what a direct call yields, awaited when it is a coroutine |
| Jobs.Decorate | just_jobs/jobs.py:100-125 | `job()` yields a fresh, checked job with the given function, job type and default name, or the construction error |
| JobManager.QueueNamesOrDefault | just_jobs/manager.py:21 | queue names that are missing or empty become the single queue `default` |
| JobManager.QueueOrDefault | just_jobs/manager.py:87 | an enqueue that names no queue uses `default` |
| JobManager.DefaultQueueAdmission | just_jobs/manager.py:87-100 | without a queue name, a callable is admitted on a manager built without queue names, and refused as an invalid queue on a started manager whose queues lack `default` |
| JobManager.WorkerRecords | just_jobs/manager.py:55-63 | one record per queue name, in order, named `brokingworker-<queue>` and waiting on the given event |
| JobManager.WorkerRecordsConcat | just_jobs/manager.py:55-63 | spawning for two lists of queues in turn equals spawning for the two lists joined |
| JobManager.Admission | just_jobs/manager.py:97-102 | NotReady when not started, else InvalidQueue for an unknown queue, else InvalidEnqueueableFunction for a non-callable, in that order |
| JobManager.Manager.constructor | just_jobs/manager.py:15-43 | a new manager has the defaulted queue names, no processes and is not initialized |
| JobManager.Manager.Startup | just_jobs/manager.py:45-66 | a broker failure propagates and changes nothing else; otherwise a new event is made, one record per queue is appended after any earlier ones, and the manager is initialized |
| JobManager.Manager.Shutdown | just_jobs/manager.py:68-84 | refuses before startup; otherwise sets the current event and joins every worker; the join blocks while any worker waits on an unset event; then the broker is shut down and the manager is no longer initialized; the process list is kept |
| JobManager.Manager.Enqueue | just_jobs/manager.py:86-110 | the queue defaults to `default`; the admission checks come first, so a started manager without a `default` queue refuses an enqueue that names no queue; then the pickled partial is pushed onto the queue's pending list and the broker's answer is returned; any refusal leaves the store unchanged |
| JobManager.StartupTwiceBlocksShutdown | just_jobs/manager.py:55-81 | two startups without a shutdown leave the first workers on an event nobody sets, so the following shutdown blocks |

## Left out

- Pickle and dill are parameters (`dumps`, `loads`). A round trip is assumed per value where a lemma needs it, and what is inside a payload is not modelled.
- blake2b is an abstract keyed function `mac(secret, body)` that returns raw digest bytes. `compare_digest` is plain equality, because constant-time comparison cannot be expressed here.
- The secret comes from `JOB_SERIALIZATION_SECRET` or defaults to `thisisasecret`. It is a field of the codec. Reading the environment and UTF-8 encoding are not modelled.
- Settings.WorkerBound: the integer the environment string parses to is the input, because string-to-int parsing and its ValueError are not modelled.
- Settings.SignatureByteChangeRejected: changing a signature byte to the delimiter is proved only for a keyed hash whose digests all have one length, as blake2b's do for a fixed digest size.
- Settings.Deserialize: a non-ASCII signature raises UnicodeDecodeError or TypeError in the source. The model merges them into one error, `UndecodableSignature`.
- The `BaseSettings` metaclass `__new__` only copies the four hooks onto the settings class. It has no behaviour of its own.
- `BaseSettings.create_pool` and just_jobs/broker.py wrap the arq library, which is not part of this model.
- aioredis is replaced by a map of lists. Connections, network errors, client options and the 5-second blocking timeout are not modelled. A timed-out claim is the idle step.
- Concurrency is not modelled. This covers the event-loop thread, `run_coroutine_threadsafe`, several consumers interleaving on one queue, worker processes, `Event.wait` and `Process.join`. The model keeps the records, their order and which event each waits on.
- BrokerBase.SpawnWorker: answers the sequence of actions it takes, not the running coroutines, and does not wait on the event.
- RedisQueue.RedisBroker.ProcessJobs: the source loops until it is cancelled. The model runs a given number of whole iterations, so cancellation happens only between iterations. In the source, `fut.cancel` (just_jobs/brokers/base.py:65-66) lands at whichever await the slot is parked on: the claim, the run of the job, or the LREM. A payload already claimed then stays in flight, whatever its run answers, and no state of the model shows this.
- Executors and `run_in_executor`: only the routing choice is modelled, not the execution. A value stored in the context is either the executor map or an opaque value.
- `convert_kwargs` is not part of this model. The job's function receives the context it would be bound (None on a direct call), and how other arguments are bound is not modelled.
- Jobs.Job.PostInit: `warnings.warn` becomes a returned flag. `update_wrapper` and the `coroutine = run` assignment only copy attributes, and they are not modelled.
- arq's `Function` fields (timeouts, `keep_result`, `max_tries`) pass through `job()` unchanged, and only the name is modelled.
- `RedisQueue.RedisInitAsWritten` keeps `is_worker` and `event_loop` in the client keywords. How aioredis treats those unexpected options is not modelled.
- `Manager.__aenter__` and `__aexit__` only call startup and shutdown.
- `Manager` takes an already constructed `RedisBroker`, because constructing a broker class from keywords is dynamic dispatch. A custom `Broker` subclass is not modelled.
- just_jobs/errors.py does not define `InvalidEnqueueableFunction`, which just_jobs/manager.py:9 imports. The model gives the check in just_jobs/manager.py:101-102 its evident meaning.
- `styled_text`, colorama and print output are console styling only.

## Findings

| source | as written | input that shows it | evidently intended | confidence | as-written member | corrected member |
|---|---|---|---|---|---|---|
| just_jobs/brokers/redis.py:21 | `RedisBroker.__init__` passes only the slot count to `Broker.__init__`, so `is_worker` and `event_loop` stay in the client keywords and the base fields take their defaults | a worker from `_spawn_worker` (just_jobs/brokers/base.py:52) gets `is_worker=True` and an event loop; if the client tolerates the extra keywords, any synchronous job that completes then answers False, because `self.loop` is None, and stays in flight; otherwise the worker fails earlier, at startup or at its first claim | the worker keeps its event loop, and synchronous jobs run in its default executor | not executed | RedisQueue.AsWrittenWorkerFailsSyncJobs | RedisQueue.WorkerRunsSyncJobs |
