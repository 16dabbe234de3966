/**
 * The metric updates of celery_exporter/monitor.py. The Prometheus metrics
 * are maps from label tuples to values:
 *   - `celery_tasks_total`, a counter labelled (namespace, name, state, queue);
 *   - `celery_tasks_runtime_seconds` and `celery_tasks_latency_seconds`,
 *     histograms labelled (namespace, name, queue), kept as their count and sum;
 *   - `celery_workers`, a gauge labelled by namespace.
 * `TaskThread._process_event` feeds each event through the tracker of
 * src/lib.rs; `setup_metrics` creates the zero-valued series of the routing
 * table; `WorkerMonitoringThread.update_workers_count` sets the gauge from a
 * ping reply.
 */
module Monitor {
  import opened Wrappers
  import opened Events
  import opened CeleryStateLib
  import Utils

  /** `celery.states.ALL_STATES`; REJECTED is not one of them. */
  const AllStates: seq<string> := ["PENDING", "RECEIVED", "STARTED", "SUCCESS", "FAILURE", "REVOKED", "RETRY"]

  /** Labels of a `celery_tasks_total` series. */
  datatype TaskKey = TaskKey(namespace: string, name: string, state: string, queue: string)

  /** Labels of a runtime or latency histogram series. */
  datatype SeriesKey = SeriesKey(namespace: string, name: string, queue: string)

  /** A histogram series, by its observation count and sum (buckets left out). */
  datatype Histogram = Histogram(count: nat, sum: real)

  /** A histogram series that has just been created. */
  const NoObservations: Histogram := Histogram(0, 0.0)

  /** All four metrics. */
  datatype Metrics = Metrics(
    tasks: map<TaskKey, nat>,
    runtime: map<SeriesKey, Histogram>,
    latency: map<SeriesKey, Histogram>,
    workers: map<string, int>)

  /** The value of a counter series; one that does not exist reads 0. */
  function Count(m: map<TaskKey, nat>, k: TaskKey): nat {
    if k in m then m[k] else 0
  }

  /** A histogram series; one that does not exist has no observations. */
  function HistOf(m: map<SeriesKey, Histogram>, k: SeriesKey): Histogram {
    if k in m then m[k] else NoObservations
  }

  /** `.labels(**k).inc()`: series `k` goes up by one and no other series changes. */
  function Inc(m: map<TaskKey, nat>, k: TaskKey): (r: map<TaskKey, nat>)
    ensures Count(r, k) == Count(m, k) + 1
    ensures forall j | j != k :: Count(r, j) == Count(m, j)
    ensures r.Keys == m.Keys + {k}
  {
    m[k := Count(m, k) + 1]
  }

  /** `.labels(**k).observe(v)`: series `k` gains one observation of `v`; no other series changes. */
  function Observe(m: map<SeriesKey, Histogram>, k: SeriesKey, v: real): (r: map<SeriesKey, Histogram>)
    ensures HistOf(r, k) == Histogram(HistOf(m, k).count + 1, HistOf(m, k).sum + v)
    ensures forall j | j != k :: HistOf(r, j) == HistOf(m, j)
    ensures r.Keys == m.Keys + {k}
  {
    m[k := Histogram(HistOf(m, k).count + 1, HistOf(m, k).sum + v)]
  }

  /** The record is one whose arrival `latency` measures: STARTED, with a RECEIVED record cached. */
  predicate Measured(tr: Tracker, task: Task) {
    task.state == Started && task.uuid in tr.tasks.entries && tr.tasks.entries[task.uuid].state == Received
  }

  /** The first half of `_process_event`: observe the latency `latency` returned, if any. */
  function ObserveLatency(ns: string, m: Metrics, lo: LatencyOutcome): (r: Metrics)
    requires lo.latency.Some? ==> lo.name.Some? && lo.queue.Some?
    ensures r.tasks == m.tasks && r.runtime == m.runtime && r.workers == m.workers
    ensures lo.latency.None? ==> r == m
  {
    if lo.latency.Some? then m.(latency := Observe(m.latency, SeriesKey(ns, lo.name.value, lo.queue.value), lo.latency.value))
    else m
  }

  /** The second half: when `collect` named the task, observe its runtime if any and count it. */
  function RecordCollect(ns: string, m: Metrics, co: CollectOutcome): (r: Metrics)
    requires co.name.Some? ==> co.state.Some? && co.queue.Some?
    ensures r.latency == m.latency && r.workers == m.workers
    ensures co.name.None? ==> r == m
  {
    if co.name.Some? then
      var m1 := if co.runtime.Some? then m.(runtime := Observe(m.runtime, SeriesKey(ns, co.name.value, co.queue.value), co.runtime.value)) else m;
      m1.(tasks := Inc(m1.tasks, TaskKey(ns, co.name.value, co.state.value, co.queue.value)))
    else m
  }

  /**
   * `_process_event` on the record `task` decoded from an event with
   * `queue`: look up the latency first and observe it when there is one,
   * then collect, observe the runtime when there is one, and count the
   * event under (namespace, name, state, queue).
   */
  function ProcessTask(ns: string, tr: Tracker, m: Metrics, task: Task, queue: Option<string>): (r: (Tracker, Metrics))
    requires Good(tr)
    ensures Good(r.0) && r.0 == CollectTask(LatencyTask(tr, task).0, task, queue).0
    ensures r.1.workers == m.workers
  {
    var lat := LatencyTask(tr, task);
    var col := CollectTask(lat.0, task, queue);
    (col.0, RecordCollect(ns, ObserveLatency(ns, m, lat.1), col.1))
  }

  /** The labels `_process_event` counts a record under: the name and queue `collect` reports. */
  function CountedKey(ns: string, tr: Tracker, task: Task, queue: Option<string>): TaskKey
    requires Good(tr)
  {
    var co := CollectTask(LatencyTask(tr, task).0, task, queue).1;
    TaskKey(ns, co.name.value, StateLabel(task.state), co.queue.value)
  }

  /** Every event adds one to exactly one `celery_tasks_total` series, labelled with the record's state. */
  lemma ProcessCountsOnce(ns: string, tr: Tracker, m: Metrics, task: Task, queue: Option<string>)
    requires Good(tr)
    ensures
      var r := ProcessTask(ns, tr, m, task, queue).1;
      var k := CountedKey(ns, tr, task, queue);
      && k.state == StateLabel(task.state)
      && Count(r.tasks, k) == Count(m.tasks, k) + 1
      && forall j | j != k :: Count(r.tasks, j) == Count(m.tasks, j)
  {
  }

  /** The latency metric after `_process_event` is the one its first half leaves. */
  lemma ProcessLatencyHalf(ns: string, tr: Tracker, m: Metrics, task: Task, queue: Option<string>)
    requires Good(tr)
    ensures ProcessTask(ns, tr, m, task, queue).1.latency == ObserveLatency(ns, m, LatencyTask(tr, task).1).latency
  {
  }

  /** The first half observes the measured gap. */
  lemma LatencyHalfObserved(ns: string, tr: Tracker, m: Metrics, task: Task)
    requires Good(tr) && Measured(tr, task)
    ensures
      var p := tr.tasks.entries[task.uuid];
      ObserveLatency(ns, m, LatencyTask(tr, task).1).latency ==
        Observe(m.latency, SeriesKey(ns, p.name, QueueOf(tr.queueByTask, p.name)), task.localReceived - p.localReceived)
  {
  }

  /**
   * A latency is observed for a STARTED record whose cached record is
   * RECEIVED: the gap between their `local_received`, under the cached
   * name and its queue.
   */
  lemma ProcessLatencyObserved(ns: string, tr: Tracker, m: Metrics, task: Task, queue: Option<string>)
    requires Good(tr) && Measured(tr, task)
    ensures
      var p := tr.tasks.entries[task.uuid];
      ProcessTask(ns, tr, m, task, queue).1.latency ==
        Observe(m.latency, SeriesKey(ns, p.name, QueueOf(tr.queueByTask, p.name)), task.localReceived - p.localReceived)
  {
    LatencyHalfObserved(ns, tr, m, task);
    ProcessLatencyHalf(ns, tr, m, task, queue);
  }

  /** For any other record no latency is observed. */
  lemma ProcessLatencyNotObserved(ns: string, tr: Tracker, m: Metrics, task: Task, queue: Option<string>)
    requires Good(tr) && !Measured(tr, task)
    ensures ProcessTask(ns, tr, m, task, queue).1.latency == m.latency
  {
    ProcessLatencyHalf(ns, tr, m, task, queue);
  }

  /** A runtime is observed exactly for a terminal record that carries one, under the collected name and queue. */
  lemma ProcessRuntime(ns: string, tr: Tracker, m: Metrics, task: Task, queue: Option<string>)
    requires Good(tr)
    ensures IsTerminal(task.state) && task.runtime.Some? ==>
      var k := CountedKey(ns, tr, task, queue);
      ProcessTask(ns, tr, m, task, queue).1.runtime == Observe(m.runtime, SeriesKey(ns, k.name, k.queue), task.runtime.value)
    ensures !(IsTerminal(task.state) && task.runtime.Some?) ==> ProcessTask(ns, tr, m, task, queue).1.runtime == m.runtime
  {
  }

  /** `_process_event(evt)`: decode the event, then process the record. */
  function ProcessStep(ns: string, tr: Tracker, m: Metrics, e: Event): (Tracker, Metrics)
    requires Good(tr) && '-' in e.kind
  {
    ProcessTask(ns, tr, m, FromEvent(e), e.queue)
  }

  /**
   * Every event goes through `_process_event`, worker events included: the
   * first "worker-online" event is counted as a task named "undefined" in
   * the state UNDEFINED.
   */
  lemma WorkerEventCounted(ns: string, tr: Tracker, m: Metrics, e: Event)
    requires Good(tr) && e.kind == "worker-online" && MissingData !in tr.tasks.entries
    ensures '-' in e.kind
    ensures
      var k := CountedKey(ns, tr, FromEvent(e), e.queue);
      && k.name == MissingData && k.state == "UNDEFINED"
      && Count(ProcessStep(ns, tr, m, e).1.tasks, k) == Count(m.tasks, k) + 1
  {
    WorkerEventIsDefault(e);
    ProcessCountsOnce(ns, tr, m, DefaultTask, e.queue);
  }

  /**
   * The end of `test_tasks_events`: a "started" event without a name for a
   * uuid that is no longer cached (its record was popped on success) is
   * counted under the name "undefined" and, no queue being known for that
   * name, the queue "undefined"; no latency is observed.
   */
  lemma StartedAfterPop(ns: string, tr: Tracker, m: Metrics, e: Event, id: string)
    requires Good(tr) && e.kind == "task-started" && e.uuid == Some(id) && id !in tr.tasks.entries
    requires e.name.None? && e.queue.None? && MissingData !in tr.queueByTask
    ensures '-' in e.kind
    ensures
      var k := TaskKey(ns, MissingData, "STARTED", MissingData);
      var r := ProcessStep(ns, tr, m, e).1;
      && Count(r.tasks, k) == Count(m.tasks, k) + 1
      && r.latency == m.latency
  {
    DecodeTaskEvent(e, "started");
    var task := FromEvent(e);
    assert task == Task(id, MissingData, e.localReceived, e.runtime, Started);
    StartedUncached(ns, tr, m, task);
  }

  /** A nameless, queueless STARTED record for an uncached uuid, whose name has no known queue. */
  lemma StartedUncached(ns: string, tr: Tracker, m: Metrics, task: Task)
    requires Good(tr) && task.state == Started && task.uuid !in tr.tasks.entries
    requires task.name == MissingData && MissingData !in tr.queueByTask
    ensures
      var k := TaskKey(ns, MissingData, "STARTED", MissingData);
      var r := ProcessTask(ns, tr, m, task, None).1;
      && Count(r.tasks, k) == Count(m.tasks, k) + 1
      && r.latency == m.latency
  {
    ProcessCountsOnce(ns, tr, m, task, None);
    ProcessLatencyNotObserved(ns, tr, m, task, None);
    UncachedKey(ns, tr, task);
  }

  /** Such a record is counted under the name and the queue "undefined". */
  lemma UncachedKey(ns: string, tr: Tracker, task: Task)
    requires Good(tr) && task.state == Started && task.uuid !in tr.tasks.entries
    requires task.name == MissingData && MissingData !in tr.queueByTask
    ensures CountedKey(ns, tr, task, None) == TaskKey(ns, MissingData, "STARTED", MissingData)
  {
    var lat := LatencyTask(tr, task).0;
    assert task.uuid !in lat.tasks.entries && lat.queueByTask == tr.queueByTask;
    var co := CollectTask(lat, task, None).1;
    assert co.name == Some(MissingData) && co.queue == Some(MissingData);
  }

  /**
   * The latency has to be looked up before `collect`: collecting the
   * STARTED record first overwrites the cached RECEIVED state, after which
   * `latency` finds nothing to measure.
   */
  lemma LatencyBeforeCollect(tr: Tracker, task: Task, queue: Option<string>)
    requires Good(tr) && Measured(tr, task)
    ensures LatencyTask(tr, task).1.latency.Some?
    ensures LatencyTask(CollectTask(tr, task, queue).0, task).1.latency.None?
  {
  }

  /** A "sent" record with a queue for an uncached uuid: cached, its queue recorded, PENDING counted. */
  lemma SentStep(ns: string, tr: Tracker, m: Metrics, id: string, name: string, queue: string, t0: real)
    requires Good(tr) && id !in tr.tasks.entries
    ensures
      var s := ProcessTask(ns, tr, m, Task(id, name, t0, None, Pending), Some(queue));
      && id in s.0.tasks.entries && s.0.tasks.entries[id] == Task(id, name, t0, None, Pending)
      && name in s.0.queueByTask && s.0.queueByTask[name] == queue
      && s.1 == m.(tasks := Inc(m.tasks, TaskKey(ns, name, "PENDING", queue)))
  {
  }

  /** A "received" record for a cached PENDING one: only the cached state changes; RECEIVED counted. */
  lemma ReceivedStep(ns: string, tr: Tracker, m: Metrics, id: string, name: string, queue: string, t0: real, t1: real)
    requires Good(tr) && id in tr.tasks.entries && tr.tasks.entries[id] == Task(id, name, t0, None, Pending)
    requires name in tr.queueByTask && tr.queueByTask[name] == queue
    ensures
      var s := ProcessTask(ns, tr, m, Task(id, name, t1, None, Received), None);
      && id in s.0.tasks.entries && s.0.tasks.entries[id] == Task(id, name, t0, None, Received)
      && s.0.queueByTask == tr.queueByTask
      && s.1 == m.(tasks := Inc(m.tasks, TaskKey(ns, name, "RECEIVED", queue)))
  {
  }

  /** A "started" record for a cached RECEIVED one: the latency is observed; STARTED counted. */
  lemma StartedStep(ns: string, tr: Tracker, m: Metrics, id: string, name: string, queue: string, t0: real, t2: real)
    requires Good(tr) && id in tr.tasks.entries && tr.tasks.entries[id] == Task(id, name, t0, None, Received)
    requires name in tr.queueByTask && tr.queueByTask[name] == queue
    ensures
      var s := ProcessTask(ns, tr, m, Task(id, name, t2, None, Started), None);
      && id in s.0.tasks.entries && s.0.tasks.entries[id].name == name
      && s.0.queueByTask == tr.queueByTask
      && s.1 == m.(tasks := Inc(m.tasks, TaskKey(ns, name, "STARTED", queue)),
                   latency := Observe(m.latency, SeriesKey(ns, name, queue), t2 - t0))
  {
    var task := Task(id, name, t2, None, Started);
    var lat := LatencyTask(tr, task);
    assert lat.1 == LatencyOutcome(Some(name), Some(queue), Some(t2 - t0));
    var m1 := ObserveLatency(ns, m, lat.1);
    assert m1 == m.(latency := Observe(m.latency, SeriesKey(ns, name, queue), t2 - t0));
    var col := CollectTask(lat.0, task, None);
    assert col.1 == CollectOutcome(Some(name), Some("STARTED"), None, Some(queue));
    assert ProcessTask(ns, tr, m, task, None).1 == RecordCollect(ns, m1, col.1);
  }

  /** A "succeeded" record with a runtime: the cached record is popped, the runtime observed; SUCCESS counted. */
  lemma SucceededStep(ns: string, tr: Tracker, m: Metrics, id: string, name: string, queue: string, t3: real, runtime: real)
    requires Good(tr) && id in tr.tasks.entries && tr.tasks.entries[id].name == name
    requires name in tr.queueByTask && tr.queueByTask[name] == queue
    ensures
      var s := ProcessTask(ns, tr, m, Task(id, MissingData, t3, Some(runtime), Success), None);
      && id !in s.0.tasks.entries
      && s.1 == m.(tasks := Inc(m.tasks, TaskKey(ns, name, "SUCCESS", queue)),
                   runtime := Observe(m.runtime, SeriesKey(ns, name, queue), runtime))
  {
  }

  /**
   * `test_tasks_events`: a task sent (with a queue), received, started and
   * succeeded (with a runtime, the event naming no task), whose uuid was
   * not cached. The record ends up evicted; the four states are counted
   * under the task's name and queue (`FourIncs` says what the four
   * increments leave), one runtime is observed and one latency: started
   * minus the FIRST sighting, the sent record (the test sends "sent" and
   * "received" with the same `local_received`).
   */
  lemma TaskLifecycle(ns: string, tr: Tracker, m: Metrics, id: string, name: string, queue: string,
                      t0: real, t1: real, t2: real, t3: real, runtime: real,
                      s1: (Tracker, Metrics), s2: (Tracker, Metrics), s3: (Tracker, Metrics), s4: (Tracker, Metrics))
    requires Good(tr) && id !in tr.tasks.entries
    requires s1 == ProcessTask(ns, tr, m, Task(id, name, t0, None, Pending), Some(queue))
    requires s2 == ProcessTask(ns, s1.0, s1.1, Task(id, name, t1, None, Received), None)
    requires s3 == ProcessTask(ns, s2.0, s2.1, Task(id, name, t2, None, Started), None)
    requires s4 == ProcessTask(ns, s3.0, s3.1, Task(id, MissingData, t3, Some(runtime), Success), None)
    ensures id !in s4.0.tasks.entries
    ensures
      var key := SeriesKey(ns, name, queue);
      s4.1 == m.(tasks := Inc(Inc(Inc(Inc(m.tasks, TaskKey(ns, name, "PENDING", queue)), TaskKey(ns, name, "RECEIVED", queue)),
                                  TaskKey(ns, name, "STARTED", queue)), TaskKey(ns, name, "SUCCESS", queue)),
                 latency := Observe(m.latency, key, t2 - t0),
                 runtime := Observe(m.runtime, key, runtime))
  {
    FirstHalf(ns, tr, m, id, name, queue, t0, t1, s1, s2);
    SecondHalf(ns, s2, id, name, queue, t0, t2, t3, runtime, s3, s4);
  }

  /** "sent" then "received" for an uncached uuid. */
  lemma FirstHalf(ns: string, tr: Tracker, m: Metrics, id: string, name: string, queue: string, t0: real, t1: real,
                  s1: (Tracker, Metrics), s2: (Tracker, Metrics))
    requires Good(tr) && id !in tr.tasks.entries
    requires s1 == ProcessTask(ns, tr, m, Task(id, name, t0, None, Pending), Some(queue))
    requires s2 == ProcessTask(ns, s1.0, s1.1, Task(id, name, t1, None, Received), None)
    ensures Good(s2.0) && id in s2.0.tasks.entries && s2.0.tasks.entries[id] == Task(id, name, t0, None, Received)
    ensures name in s2.0.queueByTask && s2.0.queueByTask[name] == queue
    ensures s2.1 == m.(tasks := Inc(Inc(m.tasks, TaskKey(ns, name, "PENDING", queue)), TaskKey(ns, name, "RECEIVED", queue)))
  {
    SentStep(ns, tr, m, id, name, queue, t0);
    ReceivedStep(ns, s1.0, s1.1, id, name, queue, t0, t1);
  }

  /** "started" then "succeeded" for a cached RECEIVED record. */
  lemma SecondHalf(ns: string, s2: (Tracker, Metrics), id: string, name: string, queue: string,
                   t0: real, t2: real, t3: real, runtime: real, s3: (Tracker, Metrics), s4: (Tracker, Metrics))
    requires Good(s2.0) && id in s2.0.tasks.entries && s2.0.tasks.entries[id] == Task(id, name, t0, None, Received)
    requires name in s2.0.queueByTask && s2.0.queueByTask[name] == queue
    requires s3 == ProcessTask(ns, s2.0, s2.1, Task(id, name, t2, None, Started), None)
    requires s4 == ProcessTask(ns, s3.0, s3.1, Task(id, MissingData, t3, Some(runtime), Success), None)
    ensures id !in s4.0.tasks.entries
    ensures
      var key := SeriesKey(ns, name, queue);
      s4.1 == s2.1.(tasks := Inc(Inc(s2.1.tasks, TaskKey(ns, name, "STARTED", queue)), TaskKey(ns, name, "SUCCESS", queue)),
                    latency := Observe(s2.1.latency, key, t2 - t0),
                    runtime := Observe(s2.1.runtime, key, runtime))
  {
    StartedStep(ns, s2.0, s2.1, id, name, queue, t0, t2);
    SucceededStep(ns, s3.0, s3.1, id, name, queue, t3, runtime);
  }

  /** Four increments of four distinct series raise each of them by one and leave every other series alone. */
  lemma FourIncs(m: map<TaskKey, nat>, a: TaskKey, b: TaskKey, c: TaskKey, d: TaskKey)
    requires a != b && a != c && a != d && b != c && b != d && c != d
    ensures
      var r := Inc(Inc(Inc(Inc(m, a), b), c), d);
      && Count(r, a) == Count(m, a) + 1 && Count(r, b) == Count(m, b) + 1
      && Count(r, c) == Count(m, c) + 1 && Count(r, d) == Count(m, d) + 1
      && forall j | j != a && j != b && j != c && j != d :: Count(r, j) == Count(m, j)
  {
  }

  // ---- setup_metrics ----

  /** Touching the series `ks` (`.labels(...)` without an update): each one missing is created at `zero`. */
  function TouchAll<K(==), V>(m: map<K, V>, ks: set<K>, zero: V): (r: map<K, V>)
    ensures r.Keys == m.Keys + ks
    ensures forall k | k in m :: r[k] == m[k]
    ensures forall k | k in ks && k !in m :: r[k] == zero
  {
    map k | k in m.Keys + ks :: if k in m then m[k] else zero
  }

  /** Touching twice is touching once. */
  lemma TouchAllIdempotent<K, V>(m: map<K, V>, ks: set<K>, zero: V)
    ensures TouchAll(TouchAll(m, ks, zero), ks, zero) == TouchAll(m, ks, zero)
  {
  }

  /** Touching `a` then `b` is touching both at once. */
  lemma TouchAllUnion<K, V>(m: map<K, V>, a: set<K>, b: set<K>, zero: V)
    ensures TouchAll(TouchAll(m, a, zero), b, zero) == TouchAll(m, a + b, zero)
  {
  }

  /** The counter series `setup_metrics` creates for the tasks `names` of the routing table `config`. */
  function TaskKeysOf(ns: string, config: map<string, string>, names: set<string>): set<TaskKey> {
    set t, s | t in names && t in config && s in AllStates :: TaskKey(ns, t, s, config[t])
  }

  /** The counter series of one (task, queue), one per state. */
  function StateKeys(ns: string, task: string, queue: string): set<TaskKey> {
    set s | s in AllStates :: TaskKey(ns, task, s, queue)
  }

  /** The counter series of one (task, queue) for the first `n` states. */
  function FirstStateKeys(ns: string, task: string, queue: string, n: nat): set<TaskKey>
    requires n <= |AllStates|
  {
    set s | s in AllStates[..n] :: TaskKey(ns, task, s, queue)
  }

  /** One state more is one series more. */
  lemma FirstStateKeysNext(ns: string, task: string, queue: string, i: nat)
    requires i < |AllStates|
    ensures FirstStateKeys(ns, task, queue, i + 1) == FirstStateKeys(ns, task, queue, i) + {TaskKey(ns, task, AllStates[i], queue)}
  {
    assert AllStates[..i + 1] == AllStates[..i] + [AllStates[i]];
  }

  /** The latency series `setup_metrics` creates for the tasks `names` of `config`. */
  function LatencyKeysOf(ns: string, config: map<string, string>, names: set<string>): set<SeriesKey> {
    set t | t in names && t in config :: SeriesKey(ns, t, config[t])
  }

  /**
   * `setup_metrics` with the routing table `config`: touch the namespace's
   * worker gauge; with an empty table re-touch the existing counter
   * series; otherwise touch, for every (task, queue) of the table, the
   * latency series and the counter series of every state.
   */
  function SetupStep(m: Metrics, ns: string, config: map<string, string>): Metrics {
    var m1 := m.(workers := TouchAll(m.workers, {ns}, 0));
    if |config| == 0 then m1.(tasks := TouchAll(m1.tasks, m1.tasks.Keys, 0))
    else
      m1.(latency := TouchAll(m1.latency, LatencyKeysOf(ns, config, config.Keys), NoObservations),
          tasks := TouchAll(m1.tasks, TaskKeysOf(ns, config, config.Keys), 0))
  }

  /**
   * After `setup_metrics` every (task, queue) of the table has a counter
   * series for every state and a latency series, each new one at zero.
   */
  lemma SetupCreatesSeries(m: Metrics, ns: string, config: map<string, string>, t: string, s: string)
    requires t in config && s in AllStates
    ensures
      var r := SetupStep(m, ns, config);
      var k := TaskKey(ns, t, s, config[t]);
      var l := SeriesKey(ns, t, config[t]);
      && k in r.tasks && (k !in m.tasks ==> r.tasks[k] == 0)
      && l in r.latency && (l !in m.latency ==> r.latency[l] == NoObservations)
      && ns in r.workers && (ns !in m.workers ==> r.workers[ns] == 0)
  {
    assert TaskKey(ns, t, s, config[t]) in TaskKeysOf(ns, config, config.Keys);
    assert SeriesKey(ns, t, config[t]) in LatencyKeysOf(ns, config, config.Keys);
  }

  /** `setup_metrics` never changes the value of a series that exists. */
  lemma SetupKeepsValues(m: Metrics, ns: string, config: map<string, string>)
    ensures
      var r := SetupStep(m, ns, config);
      && (forall k | k in m.tasks :: k in r.tasks && r.tasks[k] == m.tasks[k])
      && (forall k | k in m.latency :: k in r.latency && r.latency[k] == m.latency[k])
      && (forall k | k in m.workers :: k in r.workers && r.workers[k] == m.workers[k])
      && r.runtime == m.runtime
  {
  }

  /** Running `setup_metrics` again with the same table changes nothing. */
  lemma SetupIdempotent(m: Metrics, ns: string, config: map<string, string>)
    ensures SetupStep(SetupStep(m, ns, config), ns, config) == SetupStep(m, ns, config)
  {
    var r := SetupStep(m, ns, config);
    TouchAllIdempotent(m.workers, {ns}, 0);
    if |config| != 0 {
      TouchAllIdempotent(m.latency, LatencyKeysOf(ns, config, config.Keys), NoObservations);
      TouchAllIdempotent(m.tasks, TaskKeysOf(ns, config, config.Keys), 0);
    }
  }

  /**
   * `setup_metrics` as `get_config` ends: the series of the table, or, when
   * `get_config` raised, only the worker gauge it touched first.
   */
  function Setup(m: Metrics, ns: string, result: Utils.ConfigResult): Metrics {
    match result
    case Table(config) => SetupStep(m, ns, config)
    case Raised => m.(workers := TouchAll(m.workers, {ns}, 0))
  }

  /**
   * When no worker answered `conf()` while tasks are registered,
   * `setup_metrics` raises with only the worker gauge created: no counter,
   * latency or runtime series changes.
   */
  lemma SetupWithoutConfs(m: Metrics, ns: string, c: Utils.Cluster, order: seq<string>)
    requires c.confs.None? && Utils.Enumerates(order, c) && Utils.Registered(c) != {}
    ensures Utils.Config(Some(c), order).Raised?
    ensures
      var r := Setup(m, ns, Utils.Config(Some(c), order));
      && r.tasks == m.tasks && r.latency == m.latency && r.runtime == m.runtime
      && ns in r.workers && (ns !in m.workers ==> r.workers[ns] == 0)
      && (forall k | k in m.workers :: k in r.workers && r.workers[k] == m.workers[k])
  {
    Utils.KeysAreRegistered(Some(c), order);
  }

  /** `setup_metrics` creates no REJECTED counter series, since REJECTED is not in `ALL_STATES`. */
  lemma SetupNoRejected(m: Metrics, ns: string, config: map<string, string>, t: string, q: string)
    requires TaskKey(ns, t, "REJECTED", q) !in m.tasks
    ensures TaskKey(ns, t, "REJECTED", q) !in SetupStep(m, ns, config).tasks
  {
    assert "REJECTED" !in AllStates;
  }

  /** With an empty table, the counter and latency series stay exactly as they were. */
  lemma SetupEmptyConfig(m: Metrics, ns: string, config: map<string, string>)
    requires |config| == 0
    ensures SetupStep(m, ns, config).tasks == m.tasks
    ensures SetupStep(m, ns, config).latency == m.latency
  {
  }

  /**
   * `test_initial_metric_values`: on a fresh registry, `setup_metrics` with
   * the test's cluster creates every state's counter series and the latency
   * series of a task routed to "celery", all at zero, and the worker gauge
   * at zero.
   */
  lemma InitialMetricValues(ns: string, task: string, order: seq<string>, s: string)
    requires task != "trial" && s in AllStates
    requires Utils.Enumerates(order, Utils.Cluster([[task, "trial"]], Some(Utils.ExampleConfs)))
    ensures
      var r := Setup(Metrics(map[], map[], map[], map[]), ns, Utils.Config(Some(Utils.Cluster([[task, "trial"]], Some(Utils.ExampleConfs))), order));
      var k := TaskKey(ns, task, s, "celery");
      && k in r.tasks && r.tasks[k] == 0
      && SeriesKey(ns, task, "celery") in r.latency && r.latency[SeriesKey(ns, task, "celery")] == NoObservations
      && ns in r.workers && r.workers[ns] == 0
  {
    var config := Utils.Config(Some(Utils.Cluster([[task, "trial"]], Some(Utils.ExampleConfs))), order).table;
    Utils.RoutingExample(task, order);
    assert task in config && config[task] == "celery";
    SetupCreatesSeries(Metrics(map[], map[], map[], map[]), ns, config, task, s);
  }

  /** The series touched for one more task: its counter series for every state. */
  lemma TaskKeysStep(ns: string, config: map<string, string>, done: set<string>, t: string)
    requires t in config
    ensures TaskKeysOf(ns, config, done + {t}) == TaskKeysOf(ns, config, done) + StateKeys(ns, t, config[t])
  {
  }

  /** Adding a task of the table adds its latency series. */
  lemma LatencyKeysStep(ns: string, config: map<string, string>, done: set<string>, t: string)
    requires t in config
    ensures LatencyKeysOf(ns, config, done + {t}) == LatencyKeysOf(ns, config, done) + {SeriesKey(ns, t, config[t])}
  {
  }

  /** The metrics registry: the four metrics, updated in place. */
  class Registry {
    var tasks: map<TaskKey, nat>
    var runtime: map<SeriesKey, Histogram>
    var latency: map<SeriesKey, Histogram>
    var workers: map<string, int>

    function View(): Metrics
      reads this
    {
      Metrics(tasks, runtime, latency, workers)
    }

    /** A registry without series. */
    constructor ()
      ensures View() == Metrics(map[], map[], map[], map[])
    {
      tasks := map[];
      runtime := map[];
      latency := map[];
      workers := map[];
    }

    /** `TASKS.labels(**k).inc()`. */
    method IncTask(k: TaskKey)
      modifies this
      ensures View() == old(View()).(tasks := Inc(old(tasks), k))
    {
      tasks := Inc(tasks, k);
    }

    /** `TASKS_RUNTIME.labels(**k).observe(v)`. */
    method ObserveRuntime(k: SeriesKey, v: real)
      modifies this
      ensures View() == old(View()).(runtime := Observe(old(runtime), k, v))
    {
      runtime := Observe(runtime, k, v);
    }

    /** `LATENCY.labels(**k).observe(v)`. */
    method ObserveLatency(k: SeriesKey, v: real)
      modifies this
      ensures View() == old(View()).(latency := Observe(old(latency), k, v))
    {
      latency := Observe(latency, k, v);
    }

    /** `WORKERS.labels(namespace=ns).set(n)`. */
    method SetWorkers(ns: string, n: int)
      modifies this
      ensures View() == old(View()).(workers := old(workers)[ns := n])
    {
      workers := workers[ns := n];
    }

    /** `TASKS.labels(**k)`: create the series at 0 when it is missing. */
    method TouchTask(k: TaskKey)
      modifies this
      ensures View() == old(View()).(tasks := TouchAll(old(tasks), {k}, 0))
    {
      if k !in tasks {
        tasks := tasks[k := 0];
      }
    }

    /** `TASKS.labels(...)` for every state of `celery.states.ALL_STATES`. */
    method TouchStates(ns: string, task: string, queue: string)
      modifies this
      ensures View() == old(View()).(tasks := TouchAll(old(tasks), StateKeys(ns, task, queue), 0))
    {
      ghost var m0 := View();
      for i := 0 to |AllStates|
        invariant View() == m0.(tasks := TouchAll(m0.tasks, FirstStateKeys(ns, task, queue, i), 0))
      {
        var k := TaskKey(ns, task, AllStates[i], queue);
        FirstStateKeysNext(ns, task, queue, i);
        TouchAllUnion(m0.tasks, FirstStateKeys(ns, task, queue, i), {k}, 0);
        TouchTask(k);
      }
      assert AllStates[..|AllStates|] == AllStates;
    }

    /** `LATENCY.labels(**k)`: create the series without observations when it is missing. */
    method TouchLatency(k: SeriesKey)
      modifies this
      ensures View() == old(View()).(latency := TouchAll(old(latency), {k}, NoObservations))
    {
      if k !in latency {
        latency := latency[k := NoObservations];
      }
    }

    /** `WORKERS.labels(namespace=ns)`: create the gauge at 0 when it is missing. */
    method TouchWorkers(ns: string)
      modifies this
      ensures View() == old(View()).(workers := TouchAll(old(workers), {ns}, 0))
    {
      if ns !in workers {
        workers := workers[ns := 0];
      }
    }
  }

  /** `setup_metrics(app, namespace)`, with the inspection replies and task-name order of `get_config`. */
  method SetupMetrics(registry: Registry, ns: string, inspect: Option<Utils.Cluster>, order: seq<string>)
    returns (raised: bool)
    modifies registry
    ensures raised == Utils.Config(inspect, order).Raised?
    ensures registry.View() == Setup(old(registry.View()), ns, Utils.Config(inspect, order))
  {
    registry.TouchWorkers(ns);
    var result := Utils.GetConfig(inspect, order);
    if result.Raised? {
      return true;
    }
    raised := false;
    var config := result.table;
    if |config| == 0 {
      RetouchSamples(registry);
    } else {
      TouchConfig(registry, ns, config);
    }
  }

  /** The empty-table branch: every existing sample of `celery_tasks_total` re-touched. */
  method RetouchSamples(registry: Registry)
    modifies registry
    ensures registry.View() == old(registry.View()).(tasks := TouchAll(old(registry.tasks), old(registry.tasks).Keys, 0))
  {
    var left := registry.tasks.Keys;
    while left != {}
      invariant left <= registry.tasks.Keys
      invariant registry.View() == old(registry.View())
      decreases left
    {
      var k :| k in left;
      registry.TouchTask(k);
      left := left - {k};
    }
  }

  /** One entry of the routing table: its latency series and the counter series of every state. */
  method TouchSeries(registry: Registry, ns: string, task: string, queue: string)
    modifies registry
    ensures registry.View() == old(registry.View()).(
      latency := TouchAll(old(registry.latency), {SeriesKey(ns, task, queue)}, NoObservations),
      tasks := TouchAll(old(registry.tasks), StateKeys(ns, task, queue), 0))
  {
    registry.TouchLatency(SeriesKey(ns, task, queue));
    registry.TouchStates(ns, task, queue);
  }

  /** The loop over the routing table: its latency series and the counter series of every state. */
  method TouchConfig(registry: Registry, ns: string, config: map<string, string>)
    modifies registry
    ensures registry.View() == old(registry.View()).(
      latency := TouchAll(old(registry.latency), LatencyKeysOf(ns, config, config.Keys), NoObservations),
      tasks := TouchAll(old(registry.tasks), TaskKeysOf(ns, config, config.Keys), 0))
  {
    ghost var m1 := registry.View();
    var left := config.Keys;
    ghost var done: set<string> := {};
    while left != {}
      invariant left + done == config.Keys && left !! done
      invariant registry.View() == m1.(
        latency := TouchAll(m1.latency, LatencyKeysOf(ns, config, done), NoObservations),
        tasks := TouchAll(m1.tasks, TaskKeysOf(ns, config, done), 0))
      decreases left
    {
      var task :| task in left;
      var queue := config[task];
      TouchSeries(registry, ns, task, queue);
      LatencyKeysStep(ns, config, done, task);
      TouchAllUnion(m1.latency, LatencyKeysOf(ns, config, done), {SeriesKey(ns, task, queue)}, NoObservations);
      TaskKeysStep(ns, config, done, task);
      TouchAllUnion(m1.tasks, TaskKeysOf(ns, config, done), StateKeys(ns, task, queue), 0);
      left := left - {task};
      done := done + {task};
    }
    assert done == config.Keys;
  }

  /**
   * `WorkerMonitoringThread.update_workers_count` on a ping reply, `None`
   * when the ping raised. `WORKERS.labels(...)` is evaluated before the
   * ping, so the gauge series exists afterwards either way.
   */
  function WorkersStep(m: Metrics, ns: string, ping: Option<seq<string>>): (r: Metrics)
    ensures ping.Some? ==> r.workers == m.workers[ns := |ping.value|]
    ensures ping.None? ==> r.workers.Keys == m.workers.Keys + {ns}
    ensures ping.None? ==> forall k | k in m.workers :: r.workers[k] == m.workers[k]
    ensures ping.None? && ns !in m.workers ==> r.workers[ns] == 0
    ensures r.tasks == m.tasks && r.latency == m.latency && r.runtime == m.runtime
  {
    var touched := m.(workers := TouchAll(m.workers, {ns}, 0));
    if ping.None? then touched else touched.(workers := touched.workers[ns := |ping.value|])
  }

  /** A raised ping leaves the gauge as it was, or at 0 when it did not exist; a reply then sets it. */
  lemma WorkersAfterFailedPing(m: Metrics, ns: string, w: seq<string>)
    ensures WorkersStep(m, ns, None).workers == TouchAll(m.workers, {ns}, 0)
    ensures WorkersStep(WorkersStep(m, ns, None), ns, Some(w)) == WorkersStep(m, ns, Some(w))
  {
  }

  /** `test_workers_count`: no reply, one, two, then none again. */
  lemma WorkersCountExample(m: Metrics, ns: string, w: string)
    ensures
      var m1 := WorkersStep(m, ns, Some([]));
      var m2 := WorkersStep(m1, ns, Some([w]));
      var m3 := WorkersStep(m2, ns, Some([w, w]));
      var m4 := WorkersStep(m3, ns, Some([]));
      m1.workers[ns] == 0 && m2.workers[ns] == 1 && m3.workers[ns] == 2 && m4.workers[ns] == 0
  {
  }

  /** `TaskThread`: the namespace, a tracker, and the registry it reports to. */
  class TaskThread {
    const namespace: string
    const state: CeleryState
    const registry: Registry

    ghost predicate Valid()
      reads state, state.tasks
    {
      state.Valid()
    }

    /** `TaskThread(app, namespace, max_tasks_in_memory)`. */
    constructor (namespace: string, maxTasksInMemory: nat, registry: Registry)
      requires maxTasksInMemory > 0
      ensures Valid() && fresh(state) && fresh(state.tasks)
      ensures this.namespace == namespace && this.registry == registry
      ensures state.View() == Tracker(0, 0, map[], Lru.Empty(maxTasksInMemory))
    {
      this.namespace := namespace;
      this.registry := registry;
      state := new CeleryState(maxTasksInMemory);
    }

    /** `_process_event(evt)`. */
    method ProcessEvent(e: Event)
      requires Valid() && '-' in e.kind
      modifies state, state.tasks, registry
      ensures Valid()
      ensures (state.View(), registry.View()) == ProcessStep(namespace, old(state.View()), old(registry.View()), e)
    {
      ghost var tr, m, task := state.View(), registry.View(), FromEvent(e);
      var lo := state.Latency(e);
      ghost var lat := LatencyTask(tr, task);
      assert state.View() == lat.0 && lo == lat.1;
      if lo.latency.Some? {
        registry.ObserveLatency(SeriesKey(namespace, lo.name.value, lo.queue.value), lo.latency.value);
      }
      ghost var m1 := ObserveLatency(namespace, m, lo);
      assert registry.View() == m1;
      var co := state.Collect(e);
      assert (state.View(), co) == CollectTask(lat.0, task, e.queue);
      if co.name.Some? {
        if co.runtime.Some? {
          registry.ObserveRuntime(SeriesKey(namespace, co.name.value, co.queue.value), co.runtime.value);
        }
        registry.IncTask(TaskKey(namespace, co.name.value, co.state.value, co.queue.value));
      }
      assert registry.View() == RecordCollect(namespace, m1, co);
    }
  }

  /** `WorkerMonitoringThread`: the namespace and the registry holding its gauge. */
  class WorkerMonitoringThread {
    const namespace: string
    const registry: Registry

    constructor (namespace: string, registry: Registry)
      ensures this.namespace == namespace && this.registry == registry
    {
      this.namespace := namespace;
      this.registry := registry;
    }

    /** `update_workers_count()`, given the reply of `app.control.ping` (`None` when it raised). */
    method UpdateWorkersCount(ping: Option<seq<string>>)
      modifies registry
      ensures registry.View() == WorkersStep(old(registry.View()), namespace, ping)
    {
      registry.TouchWorkers(namespace);
      if ping.Some? {
        registry.SetWorkers(namespace, |ping.value|);
      }
    }
  }
}
