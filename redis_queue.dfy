/** The Redis broker of just_jobs/brokers/redis.py: the two store keys of a
    queue, enqueue by RPUSH, and the consumer loop that claims with
    BRPOPLPUSH, runs the job and acknowledges with LREM. */
module RedisQueue {
  import opened Common
  import opened RedisStore
  import opened BrokerBase

  // ---------------------------------------------------------------------
  // Store keys

  /** The pending list of a queue. */
  function PendingKey(queueName: string): (key: string)
    ensures |key| == |queueName| + 9
    ensures key[..9] == "jobqueue:" && key[9..] == queueName
  {
    "jobqueue:" + queueName
  }

  /** The in-flight list of a queue. */
  function ProcessingKey(queueName: string): (key: string)
    ensures |key| == |PendingKey(queueName)| + 11
    ensures key[..|PendingKey(queueName)|] == PendingKey(queueName)
    ensures key[|PendingKey(queueName)|..] == "-processing"
  {
    PendingKey(queueName) + "-processing"
  }

  lemma PrefixCancels(a: string, x: string, y: string)
    requires a + x == a + y
    ensures x == y
  {
    assert x == (a + x)[|a|..];
    assert y == (a + y)[|a|..];
  }

  /** The pending list and the in-flight list of one queue are distinct
      keys, and distinct queues have distinct pending lists. */
  lemma KeysDistinct(q1: string, q2: string)
    ensures PendingKey(q1) != ProcessingKey(q1)
    ensures PendingKey(q1) == PendingKey(q2) <==> q1 == q2
  {
    assert |PendingKey(q1)| < |ProcessingKey(q1)|;
    if PendingKey(q1) == PendingKey(q2) {
      PrefixCancels("jobqueue:", q1, q2);
    }
  }

  /** The naming scheme is not injective across queues: the pending list
      of a queue is the in-flight list of another exactly when its name is
      the other's name followed by "-processing". */
  lemma PendingMeetsProcessing(q1: string, q2: string)
    ensures PendingKey(q2) == ProcessingKey(q1) <==> q2 == q1 + "-processing"
  {
    assert ProcessingKey(q1) == "jobqueue:" + (q1 + "-processing");
    if PendingKey(q2) == ProcessingKey(q1) {
      PrefixCancels("jobqueue:", q2, q1 + "-processing");
    }
  }

  // ---------------------------------------------------------------------
  // One iteration of the consumer loop

  /** What one iteration of `process_jobs` did. */
  datatype StepResult =
    | Idle                                    // the claim timed out
    | SkippedEmpty(payload: Bytes)            // the claimed payload is empty, so falsy
    | Acked(payload: Bytes, removed: nat)     // the job ran and LREM removed `removed` copies
    | Failed(payload: Bytes)                  // the job returned False
    | Crashed(payload: Bytes, kind: RaiseKind) // `run_job` raised and the loop ends

  /** One iteration of `process_jobs`, as a transition of the store.
      `loop` is the broker's event loop; `loads` is pickle's. */
  function Step(m: Lists, queueName: string, loads: Bytes -> Option<Loaded>, loop: Option<nat>)
    : (r: (Lists, StepResult))
    ensures Get(m, PendingKey(queueName)) == [] <==> r.1.Idle?
    ensures r.1.Idle? ==> r.0 == m
    ensures !r.1.Idle? ==>
      var pending := Get(m, PendingKey(queueName));
      && r.1.payload == pending[|pending| - 1]
      && Get(r.0, PendingKey(queueName)) == pending[..|pending| - 1]
    ensures r.1.Acked? <==> !r.1.Idle? && r.1.payload != [] && RunSucceeds(loads, loop, r.1.payload)
    ensures r.1.Acked? ==> r.1.payload !in Get(r.0, ProcessingKey(queueName))
    ensures r.1.Acked? ==>
      && Get(r.0, ProcessingKey(queueName)) == RemoveAll([r.1.payload] + Get(m, ProcessingKey(queueName)), r.1.payload)
      && r.1.removed == 1 + multiset(Get(m, ProcessingKey(queueName)))[r.1.payload]
    ensures r.1.Crashed? <==> !r.1.Idle? && r.1.payload != [] && RunJob(loads, loop, r.1.payload).Raised?
    ensures r.1.Crashed? ==> RunJob(loads, loop, r.1.payload) == Raised(r.1.kind)
    ensures r.1.SkippedEmpty? <==> !r.1.Idle? && r.1.payload == []
    ensures !r.1.Idle? && !r.1.Acked? ==>
      Get(r.0, ProcessingKey(queueName)) == [r.1.payload] + Get(m, ProcessingKey(queueName))
    ensures forall k :: k != PendingKey(queueName) && k != ProcessingKey(queueName) ==>
      Get(r.0, k) == Get(m, k)
    ensures NoEmptyLists(m) ==> NoEmptyLists(r.0)
  {
    KeysDistinct(queueName, queueName);
    var jqueue, pqueue := PendingKey(queueName), ProcessingKey(queueName);
    var claim := PopRightPushLeft(m, jqueue, pqueue);
    match claim.1
    case None => (m, Idle)
    case Some(payload) =>
      if payload == [] then (claim.0, SkippedEmpty(payload))
      else match RunJob(loads, loop, payload)
        case Raised(kind) => (claim.0, Crashed(payload, kind))
        case Returned(ok, _) =>
          if ok then
            var ack := RemoveEvery(claim.0, pqueue, payload);
            (ack.0, Acked(payload, ack.1))
          else (claim.0, Failed(payload))
  }

  /** The payloads of a queue, pending or in flight. */
  function InQueue(m: Lists, queueName: string): multiset<Bytes> {
    multiset(Get(m, PendingKey(queueName))) + multiset(Get(m, ProcessingKey(queueName)))
  }

  /** What a step removed from the store for good. */
  function Acknowledged(r: StepResult): multiset<Bytes> {
    if r.Acked? then multiset{}[r.payload := r.removed] else multiset{}
  }

  /** A claim moves one payload between two distinct lists and loses
      nothing. */
  lemma ClaimConserves(m: Lists, src: string, dst: string)
    requires src != dst
    ensures var r := PopRightPushLeft(m, src, dst);
            multiset(Get(r.0, src)) + multiset(Get(r.0, dst))
            == multiset(Get(m, src)) + multiset(Get(m, dst))
  {
    var s := Get(m, src);
    if s != [] {
      assert s == s[..|s| - 1] + [s[|s| - 1]];
    }
  }

  /** LREM 0 removes exactly the copies it reports. */
  lemma RemovalCounted(m: Lists, key: string, v: Bytes)
    ensures var r := RemoveEvery(m, key, v);
            multiset(Get(r.0, key)) + multiset{}[v := r.1] == multiset(Get(m, key))
  {
    var s := Get(m, key);
    var r := RemoveEvery(m, key, v);
    assert multiset(Get(r.0, key)) == multiset(s)[v := 0];
  }

  /** Conservation: a step loses no payload. Every payload is still pending
      or in flight, except the copies a successful run acknowledged. */
  lemma StepConserves(m: Lists, queueName: string, loads: Bytes -> Option<Loaded>, loop: Option<nat>)
    ensures var r := Step(m, queueName, loads, loop);
            InQueue(r.0, queueName) + Acknowledged(r.1) == InQueue(m, queueName)
  {
    KeysDistinct(queueName, queueName);
    var jqueue, pqueue := PendingKey(queueName), ProcessingKey(queueName);
    var claim := PopRightPushLeft(m, jqueue, pqueue);
    ClaimConserves(m, jqueue, pqueue);
    assert InQueue(claim.0, queueName) == InQueue(m, queueName);
    var r := Step(m, queueName, loads, loop);
    if r.1.Acked? {
      var p := claim.1.value;
      assert r.0 == RemoveEvery(claim.0, pqueue, p).0;
      RemovalCounted(claim.0, pqueue, p);
      assert Get(r.0, jqueue) == Get(claim.0, jqueue);
    } else if !r.1.Idle? {
      assert r.0 == claim.0;
    }
  }

  /** Only a payload whose run answered True is ever acknowledged. */
  lemma AcknowledgedSucceeded(m: Lists, queueName: string, loads: Bytes -> Option<Loaded>, loop: Option<nat>)
    ensures forall p :: p in Acknowledged(Step(m, queueName, loads, loop).1) ==> RunSucceeds(loads, loop, p)
  {
  }

  /** Enqueue and claim both work on the right end, so two successive
      claims take the most recently enqueued payload first and the older
      one second. */
  lemma NewestClaimedFirst(m: Lists, queueName: string, a: Bytes, b: Bytes,
                           loads: Bytes -> Option<Loaded>, loop: Option<nat>)
    requires Get(m, PendingKey(queueName)) == []
    ensures var m1 := PushRight(PushRight(m, PendingKey(queueName), a).0, PendingKey(queueName), b).0;
            var first := Step(m1, queueName, loads, loop);
            var second := Step(first.0, queueName, loads, loop);
            && first.1.payload == b
            && second.1.payload == a
            && Get(second.0, PendingKey(queueName)) == []
  {
    var jqueue := PendingKey(queueName);
    var m1 := PushRight(PushRight(m, jqueue, a).0, jqueue, b).0;
    assert Get(m1, jqueue) == [a, b];
    var first := Step(m1, queueName, loads, loop);
    assert Get(first.0, jqueue) == [a];
  }

  // ---------------------------------------------------------------------
  // The consumer loop

  /** Where a run of the consumer loop stands: the store, the payloads
      acknowledged so far, whether the loop is still going (Cancelled once
      it is stopped) or was ended by a raise, and how many iterations
      finished. */
  datatype LoopState = LoopState(lists: Lists, acknowledged: multiset<Bytes>, halt: Halt, ran: nat)

  /** `n` iterations of `process_jobs` from the store `m`, each one the
      `Step` transition of the store the previous one left. A run that
      raises ends the loop at once, so no iteration follows it. */
  function Steps(m: Lists, queueName: string, loads: Bytes -> Option<Loaded>, loop: Option<nat>, n: nat)
    : (r: LoopState)
    ensures !r.halt.NoClient?
    ensures r.halt.Cancelled? ==> r.ran == n
    ensures r.halt.JobRaised? ==> r.ran < n
    decreases n
  {
    if n == 0 then LoopState(m, multiset{}, Cancelled, 0)
    else
      var step := Step(m, queueName, loads, loop);
      if step.1.Crashed? then LoopState(step.0, multiset{}, JobRaised(step.1.payload, step.1.kind), 0)
      else
        var rest := Steps(step.0, queueName, loads, loop, n - 1);
        LoopState(rest.lists, Acknowledged(step.1) + rest.acknowledged, rest.halt, rest.ran + 1)
  }

  /** A run that stands at `done`, continued by the iterations that give
      `rest`. */
  function Resume(done: LoopState, rest: LoopState): LoopState {
    LoopState(rest.lists, done.acknowledged + rest.acknowledged, rest.halt, done.ran + rest.ran)
  }

  /** The iterations that claimed a payload: those that finished, and the
      one that raised. */
  function Claims(s: LoopState): nat {
    s.ran + if s.halt.JobRaised? then 1 else 0
  }

  function Min(a: nat, b: nat): nat {
    if a < b then a else b
  }

  /** What the consumer loop promises about a run from the store `m` that
      stands at `s`: no payload of the queue is lost (everything not
      acknowledged is still pending or in flight); only payloads whose run
      answered True are acknowledged; no other key changes; the pending
      list is consumed from the right, one payload per iteration that
      found one; and a run that raised ended the loop with its payload at
      the front of the in-flight list. */
  ghost predicate LoopPromises(m: Lists, s: LoopState, queueName: string,
                               loads: Bytes -> Option<Loaded>, loop: Option<nat>)
  {
    var pending := Get(m, PendingKey(queueName));
    && InQueue(s.lists, queueName) + s.acknowledged == InQueue(m, queueName)
    && (forall p :: p in s.acknowledged ==> RunSucceeds(loads, loop, p))
    && (forall k :: k != PendingKey(queueName) && k != ProcessingKey(queueName) ==> Get(s.lists, k) == Get(m, k))
    && Get(s.lists, PendingKey(queueName)) == pending[..|pending| - Min(Claims(s), |pending|)]
    && (s.halt.JobRaised? ==>
          && RunJob(loads, loop, s.halt.payload) == Raised(s.halt.kind)
          && Get(s.lists, ProcessingKey(queueName)) != []
          && Get(s.lists, ProcessingKey(queueName))[0] == s.halt.payload)
  }

  /** Dropping the last element of a prefix of `pending` gives the prefix
      one element shorter. */
  lemma TrimOne(pending: seq<Bytes>, c: nat)
    ensures var before := pending[..|pending| - Min(c, |pending|)];
            (if before == [] then [] else before[..|before| - 1]) == pending[..|pending| - Min(c + 1, |pending|)]
  {
  }

  /** One more iteration of a run that is still going. */
  function Advance(s: LoopState, queueName: string, loads: Bytes -> Option<Loaded>, loop: Option<nat>)
    : (r: LoopState)
    ensures var step := Step(s.lists, queueName, loads, loop);
      && r.lists == step.0
      && r.acknowledged == s.acknowledged + Acknowledged(step.1)
      && (r.halt.JobRaised? <==> step.1.Crashed?)
      && (step.1.Crashed? ==> r.halt == JobRaised(step.1.payload, step.1.kind) && r.ran == s.ran)
      && (!step.1.Crashed? ==> r.halt == Cancelled && r.ran == s.ran + 1)
  {
    var step := Step(s.lists, queueName, loads, loop);
    LoopState(step.0, s.acknowledged + Acknowledged(step.1),
              if step.1.Crashed? then JobRaised(step.1.payload, step.1.kind) else Cancelled,
              if step.1.Crashed? then s.ran else s.ran + 1)
  }

  /** What a run that stands at `s` comes to after `k` more iterations. */
  function Remaining(s: LoopState, queueName: string, loads: Bytes -> Option<Loaded>, loop: Option<nat>, k: nat)
    : LoopState
  {
    if s.halt.Cancelled? then Resume(s, Steps(s.lists, queueName, loads, loop, k)) else s
  }

  /** A run still going, with `k` iterations left, comes to the same as
      one iteration followed by the `k - 1` others. */
  lemma RemainingAdvance(s: LoopState, queueName: string, loads: Bytes -> Option<Loaded>, loop: Option<nat>, k: nat)
    requires s.halt.Cancelled? && k > 0
    ensures Remaining(s, queueName, loads, loop, k) ==
            Remaining(Advance(s, queueName, loads, loop), queueName, loads, loop, k - 1)
  {
    var step := Step(s.lists, queueName, loads, loop);
    var next := Advance(s, queueName, loads, loop);
    if !step.1.Crashed? {
      var rest := Steps(step.0, queueName, loads, loop, k - 1);
      assert Steps(s.lists, queueName, loads, loop, k)
          == LoopState(rest.lists, Acknowledged(step.1) + rest.acknowledged, rest.halt, rest.ran + 1);
      assert next == LoopState(step.0, s.acknowledged + Acknowledged(step.1), Cancelled, s.ran + 1);
      assert s.acknowledged + (Acknowledged(step.1) + rest.acknowledged)
          == (s.acknowledged + Acknowledged(step.1)) + rest.acknowledged;
    } else {
      assert Steps(s.lists, queueName, loads, loop, k)
          == LoopState(step.0, multiset{}, JobRaised(step.1.payload, step.1.kind), 0);
      assert next == LoopState(step.0, s.acknowledged + multiset{}, JobRaised(step.1.payload, step.1.kind), s.ran);
    }
  }

  /** An iteration moves payloads between the queue's lists and the
      acknowledged ones, and loses none. */
  lemma AdvanceConserves(s: LoopState, queueName: string, loads: Bytes -> Option<Loaded>, loop: Option<nat>)
    ensures var next := Advance(s, queueName, loads, loop);
            InQueue(next.lists, queueName) + next.acknowledged == InQueue(s.lists, queueName) + s.acknowledged
  {
    var step := Step(s.lists, queueName, loads, loop);
    var next := Advance(s, queueName, loads, loop);
    StepConserves(s.lists, queueName, loads, loop);
    assert InQueue(next.lists, queueName) + next.acknowledged
        == (InQueue(step.0, queueName) + Acknowledged(step.1)) + s.acknowledged;
  }

  /** An iteration acknowledges only a payload whose run answered True. */
  lemma AdvanceAcknowledgesSucceeded(s: LoopState, queueName: string, loads: Bytes -> Option<Loaded>, loop: Option<nat>)
    ensures forall p :: p in Advance(s, queueName, loads, loop).acknowledged ==>
              p in s.acknowledged || RunSucceeds(loads, loop, p)
  {
    var step := Step(s.lists, queueName, loads, loop);
    AcknowledgedSucceeded(s.lists, queueName, loads, loop);
    assert forall p :: p in Advance(s, queueName, loads, loop).acknowledged ==>
             p in s.acknowledged || p in Acknowledged(step.1);
  }

  /** Every iteration keeps the loop's promises. */
  lemma AdvanceKeepsPromises(m: Lists, s: LoopState, queueName: string, loads: Bytes -> Option<Loaded>, loop: Option<nat>)
    requires s.halt.Cancelled? && LoopPromises(m, s, queueName, loads, loop)
    ensures LoopPromises(m, Advance(s, queueName, loads, loop), queueName, loads, loop)
  {
    AdvanceConserves(s, queueName, loads, loop);
    AdvanceAcknowledgesSucceeded(s, queueName, loads, loop);
    TrimOne(Get(m, PendingKey(queueName)), Claims(s));
  }

  /** A run that keeps the promises keeps them through any number of
      further iterations. */
  lemma {:induction false} RemainingKeepsPromises(m: Lists, s: LoopState, queueName: string,
                                                  loads: Bytes -> Option<Loaded>, loop: Option<nat>, k: nat)
    requires LoopPromises(m, s, queueName, loads, loop)
    ensures LoopPromises(m, Remaining(s, queueName, loads, loop, k), queueName, loads, loop)
    decreases k
  {
    var r := Remaining(s, queueName, loads, loop, k);
    if !s.halt.Cancelled? {
      assert r == s;
    } else if k == 0 {
      assert s.acknowledged + multiset{} == s.acknowledged;
      assert r == s;
    } else {
      var next := Advance(s, queueName, loads, loop);
      RemainingAdvance(s, queueName, loads, loop, k);
      AdvanceKeepsPromises(m, s, queueName, loads, loop);
      RemainingKeepsPromises(m, next, queueName, loads, loop, k - 1);
      assert r == Remaining(next, queueName, loads, loop, k - 1);
    }
  }

  /** Every run of the consumer loop keeps its promises, whatever the
      store, the jobs and the number of iterations. */
  lemma StepsKeepPromises(m: Lists, queueName: string, loads: Bytes -> Option<Loaded>, loop: Option<nat>, n: nat)
    ensures LoopPromises(m, Steps(m, queueName, loads, loop, n), queueName, loads, loop)
  {
    var start := LoopState(m, multiset{}, Cancelled, 0);
    assert multiset{} + Steps(m, queueName, loads, loop, n).acknowledged == Steps(m, queueName, loads, loop, n).acknowledged;
    assert Remaining(start, queueName, loads, loop, n) == Steps(m, queueName, loads, loop, n);
    RemainingKeepsPromises(m, start, queueName, loads, loop, n);
  }

  // ---------------------------------------------------------------------
  // The broker's keyword handling

  /** `RedisBroker.__init__` as written: it pops `coroutines_per_worker`
      and passes only that to `Broker.__init__`. Any `is_worker` or
      `event_loop` keyword stays in the keywords forwarded to the client,
      so the base fields fall back to their defaults. */
  function RedisInitAsWritten(kw: Kwargs): (r: (BaseFields, Kwargs))
    requires KwargsTyped(kw)
    ensures r.0 == BaseFields(if COROUTINES_KEY in kw then kw[COROUTINES_KEY].n else DEFAULT_COROUTINES_PER_WORKER, false, None)
    ensures r.1 == kw - {COROUTINES_KEY}
  {
    var slots := if COROUTINES_KEY in kw then kw[COROUTINES_KEY] else KwNat(DEFAULT_COROUTINES_PER_WORKER);
    (BaseInit(map[COROUTINES_KEY := slots]), kw - {COROUTINES_KEY})
  }

  /** The evident intent: the base broker keywords reach `Broker.__init__`
      and only the rest is forwarded to the client. */
  function RedisInit(kw: Kwargs): (r: (BaseFields, Kwargs))
    requires KwargsTyped(kw)
    ensures r.0 == BaseInit(kw)
    ensures r.1 == kw - {COROUTINES_KEY, IS_WORKER_KEY, EVENT_LOOP_KEY}
  {
    (BaseInit(kw), kw - {COROUTINES_KEY, IS_WORKER_KEY, EVENT_LOOP_KEY})
  }

  /** The keywords `_spawn_worker` adds for a worker: marked as a worker and
      given the event loop of its thread. */
  predicate WorkerKeywords(kw: Kwargs, loop: nat) {
    && IS_WORKER_KEY in kw && kw[IS_WORKER_KEY] == KwBool(true)
    && EVENT_LOOP_KEY in kw && kw[EVENT_LOOP_KEY] == KwLoop(loop)
  }

  /** As written, a Redis worker has no event loop and is not marked as a
      worker, so a synchronous job that would complete is reported as a
      failure without running, and stays in flight. */
  lemma AsWrittenWorkerFailsSyncJobs(kw: Kwargs, loop: nat, loads: Bytes -> Option<Loaded>, job: Bytes)
    requires KwargsTyped(kw) && WorkerKeywords(kw, loop)
    requires loads(job) == Some(Partial(false, Completes))
    ensures RedisInitAsWritten(kw).0.loop.None? && !RedisInitAsWritten(kw).0.isWorker
    ensures RunJob(loads, RedisInitAsWritten(kw).0.loop, job) == Returned(false, None)
  {
    var slots := if COROUTINES_KEY in kw then kw[COROUTINES_KEY] else KwNat(DEFAULT_COROUTINES_PER_WORKER);
    var base := map[COROUTINES_KEY := slots];
    assert IS_WORKER_KEY !in base && EVENT_LOOP_KEY !in base;
  }

  /** Corrected, a Redis worker keeps its event loop and runs a synchronous
      job in the default executor. */
  lemma WorkerRunsSyncJobs(kw: Kwargs, loop: nat, loads: Bytes -> Option<Loaded>, job: Bytes)
    requires KwargsTyped(kw) && WorkerKeywords(kw, loop)
    requires loads(job) == Some(Partial(false, Completes))
    ensures RedisInit(kw).0.loop == Some(loop) && RedisInit(kw).0.isWorker
    ensures RunJob(loads, RedisInit(kw).0.loop, job) == Returned(true, Some(DefaultExecutor))
  {
  }

  // ---------------------------------------------------------------------
  // The broker object

  /** A client connection pool; a pool the caller supplies is shared with
      the caller. */
  class ConnectionPool {
    const url: string
    var connected: bool

    constructor (url: string)
      ensures this.url == url && connected
    {
      this.url := url;
      connected := true;
    }

    method Disconnect()
      modifies this
      ensures !connected
    {
      connected := false;
    }
  }

  /** A client: the pool it draws connections from and the keywords it
      was created with. */
  datatype Client = Client(pool: ConnectionPool, options: Kwargs)

  datatype BrokerError =
    | NoConnectionTarget  // neither a pool nor a URL to build one from
    | NotStarted          // `self.redis` does not exist before startup

  /** How a run of the consumer loop ended. */
  datatype Halt = Cancelled | NoClient | JobRaised(payload: Bytes, kind: RaiseKind)

  class RedisBroker {
    // Broker settings
    var coroutinesPerWorker: nat
    var isWorker: bool
    var loop: Option<nat>
    // Redis settings
    var url: Option<string>
    var connectionPool: ConnectionPool?
    var shutdownWithPool: bool
    var kwargs: Kwargs
    // Operational
    var redis: Option<Client>
    var clientClosed: bool
    /** The Redis server every client of this broker talks to. */
    const store: Store

    ghost predicate Valid()
      reads this, store
    {
      && store.Valid()
      && (redis.Some? ==> connectionPool != null && redis.value.pool == connectionPool)
    }

    /** `RedisBroker.__init__` as written: only the slot count reaches the
        base broker, so the broker is never marked as a worker and has no
        event loop, and the remaining keywords, `is_worker` and
        `event_loop` included, are kept for the client (see
        RedisInitAsWritten). */
    constructor (shutdownWithPool: bool, url: Option<string>, connectionPool: ConnectionPool?,
                 kw: Kwargs, store: Store)
      requires KwargsTyped(kw) && store.Valid()
      ensures Valid()
      ensures coroutinesPerWorker == if COROUTINES_KEY in kw then kw[COROUTINES_KEY].n else DEFAULT_COROUTINES_PER_WORKER
      ensures !isWorker && loop.None?
      ensures kwargs == kw - {COROUTINES_KEY}
      ensures this.url == url && this.connectionPool == connectionPool
      ensures this.shutdownWithPool == shutdownWithPool && this.store == store
      ensures redis.None? && !clientClosed
    {
      var fields := RedisInitAsWritten(kw);
      coroutinesPerWorker := fields.0.coroutinesPerWorker;
      isWorker := fields.0.isWorker;
      loop := fields.0.loop;
      kwargs := fields.1;
      this.url := url;
      this.connectionPool := connectionPool;
      this.shutdownWithPool := shutdownWithPool;
      this.store := store;
      redis := None;
      clientClosed := false;
    }

    /** `RedisBroker.__init__` as evidently intended: the base keywords
        reach the base broker and only the rest is kept for the client
        (see RedisInit). */
    constructor Corrected(shutdownWithPool: bool, url: Option<string>, connectionPool: ConnectionPool?,
                          kw: Kwargs, store: Store)
      requires KwargsTyped(kw) && store.Valid()
      ensures Valid()
      ensures coroutinesPerWorker == RedisInit(kw).0.coroutinesPerWorker
      ensures isWorker == RedisInit(kw).0.isWorker && loop == RedisInit(kw).0.loop
      ensures kwargs == RedisInit(kw).1
      ensures this.url == url && this.connectionPool == connectionPool
      ensures this.shutdownWithPool == shutdownWithPool && this.store == store
      ensures redis.None? && !clientClosed
    {
      var fields := RedisInit(kw);
      coroutinesPerWorker := fields.0.coroutinesPerWorker;
      isWorker := fields.0.isWorker;
      loop := fields.0.loop;
      kwargs := fields.1;
      this.url := url;
      this.connectionPool := connectionPool;
      this.shutdownWithPool := shutdownWithPool;
      this.store := store;
      redis := None;
      clientClosed := false;
    }

    /** `startup`: a client over the supplied pool if there is one;
        otherwise a client built from the URL, whose new pool is recorded. */
    method Startup() returns (r: Result<(), BrokerError>)
      requires Valid()
      modifies this
      ensures Valid()
      ensures r.Err? <==> old(connectionPool) == null && url.None?
      ensures r.Err? ==>
        r.error == NoConnectionTarget && redis == old(redis) && connectionPool == old(connectionPool)
      ensures old(connectionPool) != null ==>
        connectionPool == old(connectionPool) && redis == Some(Client(connectionPool, kwargs))
      ensures old(connectionPool) == null && url.Some? ==>
        && connectionPool != null && fresh(connectionPool)
        && connectionPool.url == url.value && connectionPool.connected
        && redis == Some(Client(connectionPool, kwargs))
      ensures !clientClosed <==> r.Ok? || !old(clientClosed)
      ensures url == old(url) && kwargs == old(kwargs) && loop == old(loop)
      ensures shutdownWithPool == old(shutdownWithPool)
    {
      if connectionPool != null {
        redis := Some(Client(connectionPool, kwargs));
      } else if url.Some? {
        var pool := new ConnectionPool(url.value);
        redis := Some(Client(pool, kwargs));
        connectionPool := pool;
      } else {
        return Err(NoConnectionTarget);
      }
      clientClosed := false;
      r := Ok(());
    }

    /** `shutdown`: closes the client, and disconnects the pool only when
        the broker was told to shut down with it. */
    method Shutdown() returns (r: Result<(), BrokerError>)
      requires Valid()
      modifies this, connectionPool
      ensures Valid()
      ensures r.Err? <==> old(redis).None?
      ensures r.Err? ==> r.error == NotStarted && clientClosed == old(clientClosed)
      ensures r.Ok? ==> clientClosed
      ensures redis == old(redis) && connectionPool == old(connectionPool)
      ensures r.Ok? && shutdownWithPool ==> connectionPool != null && !connectionPool.connected
      ensures !(r.Ok? && shutdownWithPool) && connectionPool != null ==>
        connectionPool.connected == old(connectionPool.connected)
      ensures url == old(url) && kwargs == old(kwargs) && loop == old(loop)
      ensures shutdownWithPool == old(shutdownWithPool)
    {
      if redis.None? {
        return Err(NotStarted);
      }
      clientClosed := true;
      if shutdownWithPool {
        connectionPool.Disconnect();
      }
      r := Ok(());
    }

    /** `enqueue`: RPUSH of the payload onto the queue's pending list;
        answers the new length. */
    method Enqueue(queueName: string, job: Bytes) returns (r: Result<nat, BrokerError>)
      requires Valid()
      modifies store
      ensures Valid()
      ensures r.Err? <==> redis.None?
      ensures r.Err? ==> r.error == NotStarted && store.lists == old(store.lists)
      ensures r.Ok? ==> (store.lists, r.value) == PushRight(old(store.lists), PendingKey(queueName), job)
    {
      if redis.None? {
        return Err(NotStarted);
      }
      var length := store.RPush(PendingKey(queueName), job);
      r := Ok(length);
    }

    /** One iteration of `process_jobs`. */
    method ProcessStep(queueName: string, loads: Bytes -> Option<Loaded>) returns (r: Result<StepResult, BrokerError>)
      requires Valid()
      modifies store
      ensures Valid()
      ensures r.Err? <==> redis.None?
      ensures r.Err? ==> r.error == NotStarted && store.lists == old(store.lists)
      ensures r.Ok? ==> (store.lists, r.value) == Step(old(store.lists), queueName, loads, loop)
    {
      if redis.None? {
        return Err(NotStarted);
      }
      ghost var before := store.lists;
      KeysDistinct(queueName, queueName);
      var jqueue := PendingKey(queueName);
      var pqueue := ProcessingKey(queueName);
      var serialized := store.BRPopLPush(jqueue, pqueue);
      if serialized.None? {
        return Ok(Idle);
      }
      var payload := serialized.value;
      if payload == [] {
        return Ok(SkippedEmpty(payload));
      }
      var outcome := RunJob(loads, loop, payload);
      if outcome.Raised? {
        return Ok(Crashed(payload, outcome.kind));
      }
      if outcome.ok {
        var removed := store.LRem(pqueue, payload);
        r := Ok(Acked(payload, removed));
      } else {
        r := Ok(Failed(payload));
      }
    }

    /** One iteration of the loop of `process_jobs`, folded into the run
        that stands at `s`. */
    method Iterate(s: LoopState, queueName: string, loads: Bytes -> Option<Loaded>) returns (t: LoopState)
      requires Valid() && redis.Some? && s.lists == store.lists && s.halt.Cancelled?
      modifies store
      ensures Valid()
      ensures t.lists == store.lists && t == Advance(s, queueName, loads, loop)
    {
      var r := ProcessStep(queueName, loads);
      var step := r.value;
      var acked := s.acknowledged + Acknowledged(step);
      if step.Crashed? {
        t := LoopState(store.lists, acked, JobRaised(step.payload, step.kind), s.ran);
      } else {
        t := LoopState(store.lists, acked, Cancelled, s.ran + 1);
      }
    }

    /** The `while True` loop of `process_jobs`, cancelled after
        `iterations` iterations unless a raise ends it earlier: the store
        and the result are those of `Steps`, and the loop keeps its
        promises. */
    method ConsumeLoop(queueName: string, loads: Bytes -> Option<Loaded>, iterations: nat)
      returns (s: LoopState)
      requires Valid() && redis.Some?
      modifies store
      ensures Valid()
      ensures s.lists == store.lists && s == Steps(old(store.lists), queueName, loads, loop, iterations)
    {
      ghost var run := Steps(store.lists, queueName, loads, loop, iterations);
      s := LoopState(store.lists, multiset{}, Cancelled, 0);
      var i := 0;
      while i < iterations && s.halt.Cancelled?
        invariant i <= iterations
        invariant Valid()
        invariant s.lists == store.lists
        invariant run == Remaining(s, queueName, loads, loop, iterations - i)
      {
        RemainingAdvance(s, queueName, loads, loop, iterations - i);
        s := Iterate(s, queueName, loads);
        i := i + 1;
      }
      assert s.acknowledged + multiset{} == s.acknowledged;
    }

    /** `process_jobs`: without a client (`self.redis` is only set by
        `startup`) it fails at once; otherwise it runs the loop. The store,
        the acknowledged payloads, the way the loop ended and the
        iterations that finished are those of `Steps`, so the loop keeps
        its promises: no payload of the queue is lost, only payloads whose
        run returned True are acknowledged, other keys are left alone, and
        a raising payload stays at the front of the in-flight list. */
    method ProcessJobs(queueName: string, loads: Bytes -> Option<Loaded>, iterations: nat)
      returns (acknowledged: multiset<Bytes>, halt: Halt, ran: nat)
      requires Valid()
      modifies store
      ensures Valid()
      ensures redis.Some? ==>
        LoopState(store.lists, acknowledged, halt, ran) == Steps(old(store.lists), queueName, loads, loop, iterations)
      ensures redis.None? ==>
        store.lists == old(store.lists) && acknowledged == multiset{} && halt == NoClient && ran == 0
      ensures LoopPromises(old(store.lists), LoopState(store.lists, acknowledged, halt, ran), queueName, loads, loop)
      ensures halt == NoClient <==> redis.None?
      ensures halt == Cancelled ==> ran == iterations
      ensures halt.JobRaised? ==> ran < iterations
    {
      if redis.None? {
        return multiset{}, NoClient, 0;
      }
      var s := ConsumeLoop(queueName, loads, iterations);
      StepsKeepPromises(old(store.lists), queueName, loads, loop, iterations);
      acknowledged, halt, ran := s.acknowledged, s.halt, s.ran;
    }
  }
}
