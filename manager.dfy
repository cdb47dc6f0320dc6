/** The job manager (just_jobs/manager.py): the entry point an application
    uses. It starts the broker and one worker process per queue, shuts
    them down through a shared event, and admits jobs onto its queues. */
module JobManager {
  import opened Common
  import opened RedisStore
  import opened RedisQueue
  import BrokerBase

  const DEFAULT_QUEUE: string := "default"
  const WORKER_NAME_PREFIX: string := "brokingworker-"

  /** The queue names a manager serves: the ones given, or the default
      queue alone when none (or an empty list) is given. */
  function QueueNamesOrDefault(queueNames: Option<seq<string>>): (r: seq<string>)
    ensures r != []
    ensures queueNames.Some? && queueNames.value != [] ==> r == queueNames.value
    ensures queueNames.None? || queueNames.value == [] ==> r == [DEFAULT_QUEUE]
  {
    if queueNames.Some? && queueNames.value != [] then queueNames.value else [DEFAULT_QUEUE]
  }

  /** The queue `enqueue` uses: the one named, or the default queue when
      the caller names none. */
  function QueueOrDefault(queueName: Option<string>): (q: string)
    ensures queueName.Some? ==> q == queueName.value
    ensures queueName.None? ==> q == DEFAULT_QUEUE
  {
    if queueName.Some? then queueName.value else DEFAULT_QUEUE
  }

  /** A spawned worker process: its name, the queue it consumes and the
      shutdown event it waits on (events are numbered as they are made). */
  datatype WorkerRecord = WorkerRecord(name: string, queueName: string, event: nat)

  /** The records `startup` appends for `queueNames`, in order, all waiting
      on `event`. */
  function WorkerRecords(queueNames: seq<string>, event: nat): (r: seq<WorkerRecord>)
    ensures |r| == |queueNames|
    ensures forall i :: 0 <= i < |r| ==>
      r[i] == WorkerRecord(WORKER_NAME_PREFIX + queueNames[i], queueNames[i], event)
  {
    if queueNames == [] then []
    else
      var last := queueNames[|queueNames| - 1];
      WorkerRecords(queueNames[..|queueNames| - 1], event) + [WorkerRecord(WORKER_NAME_PREFIX + last, last, event)]
  }

  /** Spawning for two lists of queues in turn is spawning for the two
      lists joined. */
  lemma {:induction false} WorkerRecordsConcat(a: seq<string>, b: seq<string>, event: nat)
    ensures WorkerRecords(a + b, event) == WorkerRecords(a, event) + WorkerRecords(b, event)
  {
    if b != [] {
      assert (a + b)[..|a + b| - 1] == a + b[..|b| - 1];
      WorkerRecordsConcat(a, b[..|b| - 1], event);
    } else {
      assert a + b == a;
    }
  }

  datatype ManagerError =
    | NotReady                        // NotReadyException
    | InvalidQueue                    // InvalidQueueException
    | InvalidEnqueueableFunction      // the function is not callable
    | PicklingFailed                  // pickle.dumps raised
    | BrokerFailed(cause: BrokerError)
    | JoinBlocks                      // a worker never sees its event set

  /** Something handed to `enqueue`: callable or not. Its identity stands
      for the object itself. */
  datatype Callee = Callee(id: nat, isCallable: bool)

  /** `functools.partial(func, *args, **kwargs)`; argument values are
      opaque. */
  datatype PartialCall = PartialCall(func: Callee, args: seq<nat>, kwargs: map<string, nat>)

  /** The checks `enqueue` makes before it serializes anything, in order:
      the manager is started, the queue is one of its queues, and the
      function is callable. */
  function Admission(initialized: bool, queueNames: seq<string>, queueName: string, func: Callee)
    : (r: Option<ManagerError>)
    ensures r == Some(NotReady) <==> !initialized
    ensures r == Some(InvalidQueue) <==> initialized && queueName !in queueNames
    ensures r == Some(InvalidEnqueueableFunction) <==>
      initialized && queueName in queueNames && !func.isCallable
    ensures r.None? <==> initialized && queueName in queueNames && func.isCallable
  {
    if !initialized then Some(NotReady)
    else if queueName !in queueNames then Some(InvalidQueue)
    else if !func.isCallable then Some(InvalidEnqueueableFunction)
    else None
  }

  /** An enqueue that names no queue is admitted on a manager built
      without queue names, and refused as an invalid queue on a started
      manager whose queues do not include "default". */
  lemma DefaultQueueAdmission(queueNames: Option<seq<string>>, func: Callee)
    requires func.isCallable
    ensures queueNames.None? ==>
      Admission(true, QueueNamesOrDefault(queueNames), QueueOrDefault(None), func).None?
    ensures DEFAULT_QUEUE !in QueueNamesOrDefault(queueNames) ==>
      Admission(true, QueueNamesOrDefault(queueNames), QueueOrDefault(None), func) == Some(InvalidQueue)
  {
  }

  class Manager {
    const queueNames: seq<string>
    const broker: RedisBroker
    /** The keywords passed on to every worker process. */
    const bkwargs: BrokerBase.Kwargs
    var processes: seq<WorkerRecord>
    var initialized: bool
    /** The event the latest `startup` made, the events set so far, and
        how many events have been made. */
    var pevent: Option<nat>
    var signalled: set<nat>
    var eventsMade: nat

    ghost predicate Valid()
      reads this, broker, broker.store
    {
      && broker.Valid()
      && queueNames != []
      && (initialized ==> broker.redis.Some? && pevent.Some?)
      && (pevent.Some? ==> pevent.value < eventsMade)
      && (forall e :: e in signalled ==> e < eventsMade)
      && (forall i :: 0 <= i < |processes| ==> processes[i].event < eventsMade)
    }

    /** `Manager.__init__`: the queue names (with the default), the
        broker, and no processes yet. */
    constructor (broker: RedisBroker, queueNames: Option<seq<string>>, bkwargs: BrokerBase.Kwargs)
      requires broker.Valid()
      ensures Valid()
      ensures this.queueNames == QueueNamesOrDefault(queueNames)
      ensures this.broker == broker && this.bkwargs == bkwargs
      ensures processes == [] && !initialized
    {
      this.queueNames := QueueNamesOrDefault(queueNames);
      this.broker := broker;
      this.bkwargs := bkwargs;
      processes := [];
      initialized := false;
      pevent := None;
      signalled := {};
      eventsMade := 0;
    }

    /** `startup`: starts the broker (a failure propagates and nothing
        else happens), makes a new shutdown event, appends one worker
        record per queue in order, and marks the manager initialized.
        Records of earlier startups are kept. */
    method Startup() returns (r: Result<(), ManagerError>)
      requires Valid()
      modifies this, broker
      ensures Valid()
      ensures r.Err? ==> r.error.BrokerFailed?
      ensures r.Err? <==> old(broker.connectionPool) == null && broker.url.None?
      ensures r.Err? ==>
        processes == old(processes) && initialized == old(initialized) && pevent == old(pevent)
      ensures r.Ok? ==>
        && initialized
        && pevent == Some(old(eventsMade))
        && processes == old(processes) + WorkerRecords(queueNames, old(eventsMade))
        && eventsMade == old(eventsMade) + 1
      ensures signalled == old(signalled)
      ensures broker.connectionPool == old(broker.connectionPool) || fresh(broker.connectionPool)
      ensures broker.url == old(broker.url)
    {
      var started := broker.Startup();
      if started.Err? {
        return Err(BrokerFailed(started.error));
      }
      var event := eventsMade;
      pevent := Some(event);
      eventsMade := eventsMade + 1;
      var spawned := processes;
      for i := 0 to |queueNames|
        invariant spawned == old(processes) + WorkerRecords(queueNames[..i], event)
      {
        var q := queueNames[i];
        assert queueNames[..i + 1][..i] == queueNames[..i];
        spawned := spawned + [WorkerRecord(WORKER_NAME_PREFIX + q, q, event)];
      }
      assert queueNames[..|queueNames|] == queueNames;
      processes := spawned;
      initialized := true;
      r := Ok(());
    }

    /** `shutdown`: refuses before startup; sets the current event and
        joins every worker. A worker from an earlier startup waits on an
        event that is never set, so the join blocks. Otherwise the broker
        is shut down and the manager is no longer initialized. */
    method Shutdown() returns (r: Result<(), ManagerError>)
      requires Valid()
      modifies this, broker, broker.connectionPool
      ensures Valid()
      ensures r == Err(NotReady) <==> !old(initialized)
      ensures !old(initialized) ==> signalled == old(signalled) && !initialized
      ensures old(initialized) ==> signalled == old(signalled) + {old(pevent).value}
      ensures r == Err(JoinBlocks) <==>
        old(initialized) && exists i :: 0 <= i < |processes| && processes[i].event !in signalled
      ensures r.Ok? <==> old(initialized) && !initialized
      ensures r.Ok? ==> broker.clientClosed
      ensures r == Err(JoinBlocks) ==> initialized
      ensures processes == old(processes)
    {
      if !initialized {
        return Err(NotReady);
      }
      signalled := signalled + {pevent.value};
      for i := 0 to |processes|
        invariant forall j :: 0 <= j < i ==> processes[j].event in signalled
      {
        if processes[i].event !in signalled {
          return Err(JoinBlocks);
        }
      }
      var closed := broker.Shutdown();
      initialized := false;
      r := Ok(());
    }

    /** `enqueue`, on the default queue when none is named: after the
        admission checks, serializes the call as a partial (plain pickle,
        unsigned) and pushes it onto the queue through the broker,
        answering the broker's result. */
    method Enqueue(func: Callee, args: seq<nat>, kwargs: map<string, nat>, queueName: Option<string>,
                   dumps: PartialCall -> Option<Bytes>)
      returns (r: Result<nat, ManagerError>)
      requires Valid()
      modifies broker.store
      ensures Valid()
      ensures initialized && queueName.None? && DEFAULT_QUEUE !in queueNames ==> r == Err(InvalidQueue)
      ensures var admitted := Admission(initialized, queueNames, QueueOrDefault(queueName), func);
        && (admitted.Some? ==> r == Err(admitted.value))
        && (admitted.None? && dumps(PartialCall(func, args, kwargs)).None? ==> r == Err(PicklingFailed))
      ensures r.Err? ==> broker.store.lists == old(broker.store.lists)
      ensures r.Ok? <==>
        Admission(initialized, queueNames, QueueOrDefault(queueName), func).None? && dumps(PartialCall(func, args, kwargs)).Some?
      ensures r.Ok? ==>
        (broker.store.lists, r.value) ==
        PushRight(old(broker.store.lists), PendingKey(QueueOrDefault(queueName)), dumps(PartialCall(func, args, kwargs)).value)
    {
      var q := QueueOrDefault(queueName);
      var admitted := Admission(initialized, queueNames, q, func);
      if admitted.Some? {
        return Err(admitted.value);
      }
      var serialized := dumps(PartialCall(func, args, kwargs));
      if serialized.None? {
        return Err(PicklingFailed);
      }
      var pushed := broker.Enqueue(q, serialized.value);
      assert pushed.Ok?;
      r := Ok(pushed.value);
    }
  }

  /** Starting a manager twice without shutting it down leaves the first
      workers waiting on an event nobody sets: the following shutdown
      blocks. */
  method StartupTwiceBlocksShutdown(m: Manager) returns (r: Result<(), ManagerError>)
    requires m.Valid() && !m.initialized && m.processes == []
    requires m.broker.connectionPool != null || m.broker.url.Some?
    modifies m, m.broker, m.broker.connectionPool
    ensures r == Err(JoinBlocks)
  {
    ghost var firstEvent := m.eventsMade;
    var first := m.Startup();
    var second := m.Startup();
    assert m.processes[0].event == firstEvent && firstEvent !in m.signalled;
    r := m.Shutdown();
  }
}
