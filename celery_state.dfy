/**
 * The live task tracker of src/lib.rs (the `celery_state` extension): the
 * `CeleryState` object, its bounded LRU map from task uuid to task record,
 * its task-name to queue table and its two counters.
 *
 * Each operation is given twice: as a function on the tracker's value
 * (`CollectStep`, `LatencyStep`, `EventStep`), which the lemmas reason
 * about, and as a method of the `CeleryState` class that updates the fields
 * in place and is proved to agree with the function.
 */
module CeleryStateLib {
  import opened Wrappers
  import opened Events
  import Lru

  /** `CELERY_MISSING_DATA`: the label used when a name, uuid or queue is unknown. */
  const MissingData: string := "undefined"

  datatype TaskState =
    | Pending | Received | Started | Failure | Retry | Success | Revoked | Rejected | Undefined

  /** The text a state prints as (its variant name, through the derived `Debug`). */
  function StateLabel(s: TaskState): string {
    match s
    case Pending => "PENDING"
    case Received => "RECEIVED"
    case Started => "STARTED"
    case Failure => "FAILURE"
    case Retry => "RETRY"
    case Success => "SUCCESS"
    case Revoked => "REVOKED"
    case Rejected => "REJECTED"
    case Undefined => "UNDEFINED"
  }

  /** The event subject each defined state comes from. */
  function SubjectOf(s: TaskState): Option<string> {
    match s
    case Pending => Some("sent")
    case Received => Some("received")
    case Started => Some("started")
    case Failure => Some("failed")
    case Retry => Some("retried")
    case Success => Some("succeeded")
    case Revoked => Some("revoked")
    case Rejected => Some("rejected")
    case Undefined => None
  }

  /** `event_to_state`: the lifecycle state an event subject announces. */
  function EventToState(subject: string): TaskState {
    if subject == "sent" then Pending
    else if subject == "received" then Received
    else if subject == "started" then Started
    else if subject == "failed" then Failure
    else if subject == "retried" then Retry
    else if subject == "succeeded" then Success
    else if subject == "revoked" then Revoked
    else if subject == "rejected" then Rejected
    else Undefined
  }

  /**
   * `EventToState` and `SubjectOf` are inverse: a subject maps to a defined
   * state exactly when it is that state's subject; every other subject maps
   * to UNDEFINED.
   */
  lemma EventToStateInverse(subject: string, s: TaskState)
    ensures (EventToState(subject) == s && s != Undefined) <==> SubjectOf(s) == Some(subject)
    ensures EventToState(subject) == Undefined <==> forall t :: SubjectOf(t) != Some(subject)
  {
    if EventToState(subject) == Undefined {
      forall t ensures SubjectOf(t) != Some(subject) {
        match t
        case Pending => {} case Received => {} case Started => {} case Failure => {}
        case Retry => {} case Success => {} case Revoked => {} case Rejected => {}
        case Undefined => {}
      }
    } else {
      assert SubjectOf(EventToState(subject)) == Some(subject);
    }
  }

  /** Distinct states print differently, so a label identifies its state. */
  lemma StateLabelInjective(s: TaskState, t: TaskState)
    ensures StateLabel(s) == StateLabel(t) ==> s == t
  {
  }

  /** The task record (`struct Task`). */
  datatype Task = Task(
    uuid: string,
    name: string,
    localReceived: real,
    runtime: Option<real>,
    state: TaskState)

  /** `Task::default()`. */
  const DefaultTask: Task := Task(MissingData, MissingData, 0.0, None, Undefined)

  /** `Task::update_from_event`; a `type` without "-" makes the source panic, hence the requires. */
  function UpdateFromEvent(t: Task, e: Event): Task
    requires '-' in e.kind
  {
    if Contains(e.kind, "task") then
      Task(
        e.uuid.GetOr(t.uuid),
        e.name.GetOr(t.name),
        e.localReceived,
        if e.runtime.Some? then e.runtime else t.runtime,
        EventToState(SecondPiece(e.kind, '-')))
    else t
  }

  /**
   * The record an event decodes to (a default task updated from it). Only a
   * `type` containing "task" fills it in; then its state is the one the
   * second "-"-separated piece of the type announces.
   */
  function FromEvent(e: Event): (t: Task)
    requires '-' in e.kind
    ensures !Contains(e.kind, "task") ==> t == DefaultTask
    ensures Contains(e.kind, "task") ==>
      && t.state == EventToState(SecondPiece(e.kind, '-'))
      && t.uuid == e.uuid.GetOr(MissingData) && t.name == e.name.GetOr(MissingData)
      && t.localReceived == e.localReceived && t.runtime == e.runtime
    ensures t.state != Undefined ==> Contains(e.kind, "task")
  {
    UpdateFromEvent(DefaultTask, e)
  }

  /** `collect` treats these as terminal; REJECTED and UNDEFINED are not. */
  predicate IsTerminal(s: TaskState) {
    s == Success || s == Failure || s == Revoked
  }

  /** The tracker's state: `event_count`, `task_count`, `queue_by_task` and `tasks`. */
  datatype Tracker = Tracker(
    eventCount: int,
    taskCount: int,
    queueByTask: map<string, string>,
    tasks: Lru.Cache<string, Task>)

  /** The cache is well formed and bounded (the crate panics on the first put at capacity 0). */
  predicate Good(tr: Tracker) {
    Lru.WellFormed(tr.tasks) && tr.tasks.capacity > 0
  }

  /** `queue_by_task.get(name)`, falling back to "undefined". */
  function QueueOf(q: map<string, string>, name: string): (r: string)
    ensures name in q ==> r == q[name]
    ensures name !in q ==> r == MissingData
  {
    if name in q then q[name] else MissingData
  }

  /** `CollectOutcome`: (name, state, runtime, queue). */
  datatype CollectOutcome = CollectOutcome(
    name: Option<string>,
    state: Option<string>,
    runtime: Option<real>,
    queue: Option<string>)

  /** `LatencyOutcome`: (name, queue, latency). */
  datatype LatencyOutcome = LatencyOutcome(name: Option<string>, queue: Option<string>, latency: Option<real>)

  /**
   * `CeleryState::event`: count the event, insert the record when its uuid
   * is absent (a present one is only promoted, by `get`), and count RECEIVED
   * events as tasks.
   */
  function EventStep(tr: Tracker, task: Task): (r: Tracker)
    requires Good(tr)
    ensures Good(r) && r.tasks.capacity == tr.tasks.capacity
    ensures r.eventCount == tr.eventCount + 1
    ensures r.taskCount == tr.taskCount + (if task.state == Received then 1 else 0)
    ensures r.queueByTask == tr.queueByTask
    ensures task.uuid in r.tasks.entries && r.tasks.order[|r.tasks.order| - 1] == task.uuid
    ensures task.uuid in tr.tasks.entries ==> r.tasks.entries == tr.tasks.entries
    ensures task.uuid in tr.tasks.entries ==> r.tasks == Lru.Touch(tr.tasks, task.uuid)
    ensures task.uuid !in tr.tasks.entries ==> r.tasks == Lru.Insert(tr.tasks, task.uuid, task)
  {
    var cache :=
      if task.uuid in tr.tasks.entries then Lru.Touch(tr.tasks, task.uuid)
      else Lru.Insert(tr.tasks, task.uuid, task);
    Tracker(
      tr.eventCount + 1,
      if task.state == Received then tr.taskCount + 1 else tr.taskCount,
      tr.queueByTask,
      cache)
  }

  /**
   * `CeleryState::collect` on the record `task` decoded from the event, and
   * the event's `queue`. A SUCCESS, FAILURE or REVOKED record pops the
   * uuid's cached record and reports the cached name (the decoded name when
   * nothing was cached) with the decoded runtime. Any other record goes
   * through `event`, overwrites the cached record's state (only its state),
   * records the queue under the cached name, and reports no runtime.
   */
  function CollectTask(tr: Tracker, task: Task, queue: Option<string>): (r: (Tracker, CollectOutcome))
    requires Good(tr)
    ensures Good(r.0) && r.0.tasks.capacity == tr.tasks.capacity
    ensures r.1.name.Some? && r.1.queue.Some?
    ensures r.1.state == Some(StateLabel(task.state))
    ensures r.1.queue == Some(QueueOf(r.0.queueByTask, r.1.name.value))
    ensures IsTerminal(task.state) ==>
      && r.0 == tr.(tasks := Lru.Remove(tr.tasks, task.uuid))
      && r.1.name == Some(if task.uuid in tr.tasks.entries then tr.tasks.entries[task.uuid].name else task.name)
      && r.1.runtime == task.runtime
    ensures !IsTerminal(task.state) ==>
      && task.uuid in r.0.tasks.entries
      && r.0.tasks.entries[task.uuid].state == task.state
      && (task.uuid in tr.tasks.entries ==>
            r.0.tasks.entries == tr.tasks.entries[task.uuid := tr.tasks.entries[task.uuid].(state := task.state)])
      && (task.uuid !in tr.tasks.entries ==>
            r.0.tasks.entries == Lru.Insert(tr.tasks, task.uuid, task).entries)
      && r.1.name == Some(r.0.tasks.entries[task.uuid].name)
      && r.1.runtime == None
      && r.0.eventCount == tr.eventCount + 1
      && r.0.taskCount == tr.taskCount + (if task.state == Received then 1 else 0)
      && r.0.queueByTask ==
           (if queue.Some? then tr.queueByTask[r.1.name.value := queue.value] else tr.queueByTask)
  {
    if IsTerminal(task.state) then
      var cached := Lru.Lookup(tr.tasks, task.uuid);
      var name := (if cached.Some? then cached.value else task).name;
      (tr.(tasks := Lru.Remove(tr.tasks, task.uuid)),
       CollectOutcome(Some(name), Some(StateLabel(task.state)), task.runtime, Some(QueueOf(tr.queueByTask, name))))
    else
      var tr1 := EventStep(tr, task);
      var record := tr1.tasks.entries[task.uuid];
      var tr2 := tr1.(tasks := Lru.Insert(tr1.tasks, task.uuid, record.(state := task.state)));
      var q := if queue.Some? then tr2.queueByTask[record.name := queue.value] else tr2.queueByTask;
      (tr2.(queueByTask := q),
       CollectOutcome(Some(record.name), Some(StateLabel(task.state)), None, Some(QueueOf(q, record.name))))
  }

  /**
   * The order `collect` leaves: the uuid popped for a terminal record, and
   * otherwise moved (or inserted) last, as a single `put` of it would.
   */
  lemma CollectOrder(tr: Tracker, task: Task, queue: Option<string>)
    requires Good(tr)
    ensures
      var r := CollectTask(tr, task, queue).0;
      && (IsTerminal(task.state) ==> r.tasks == Lru.Remove(tr.tasks, task.uuid))
      && (!IsTerminal(task.state) && task.uuid in tr.tasks.entries ==>
            r.tasks.order == Lru.Erase(tr.tasks.order, task.uuid) + [task.uuid])
      && (!IsTerminal(task.state) && task.uuid !in tr.tasks.entries ==>
            r.tasks.order == Lru.Insert(tr.tasks, task.uuid, task).order)
  {
    if !IsTerminal(task.state) {
      var tr1 := EventStep(tr, task);
      var record := tr1.tasks.entries[task.uuid];
      var o1 := tr1.tasks.order;
      assert o1 == Lru.Erase(o1, task.uuid) + [task.uuid] by {
        var pre := if task.uuid in tr.tasks.entries then Lru.Erase(tr.tasks.order, task.uuid)
                   else if |tr.tasks.order| == tr.tasks.capacity then tr.tasks.order[1..] else tr.tasks.order;
        assert task.uuid !in pre;
        assert o1 == pre + [task.uuid];
        Lru.EraseAppended(pre, task.uuid);
      }
      assert CollectTask(tr, task, queue).0.tasks == Lru.Insert(tr1.tasks, task.uuid, record.(state := task.state));
    }
  }

  /**
   * `collect` keeps a cache ordered by last use ordered so, counting the
   * event as one use of its uuid.
   */
  lemma CollectRecency(tr: Tracker, task: Task, queue: Option<string>, h: seq<string>)
    requires Good(tr) && Lru.Increasing(tr.tasks.order, Lru.Recency(h))
    ensures Lru.Increasing(CollectTask(tr, task, queue).0.tasks.order, Lru.Recency(h + [task.uuid]))
  {
    CollectOrder(tr, task, queue);
    if IsTerminal(task.state) {
      Lru.RemoveRecency(tr.tasks, task.uuid, h);
    } else if task.uuid in tr.tasks.entries {
      Lru.TouchRecency(tr.tasks, task.uuid, h);
    } else {
      Lru.InsertRecency(tr.tasks, task.uuid, task, h);
    }
  }

  /**
   * In a cache ordered by last use, the only record `collect` drops besides
   * the popped uuid is the least recently used one: every record left was
   * used after it.
   */
  lemma CollectEvictsLeastRecent(tr: Tracker, task: Task, queue: Option<string>, h: seq<string>)
    requires Good(tr) && Lru.Increasing(tr.tasks.order, Lru.Recency(h))
    ensures
      var r := CollectTask(tr, task, queue).0;
      forall k, y | k in tr.tasks.entries && k !in r.tasks.entries && k != task.uuid && y in tr.tasks.entries && y != k ::
        Lru.LastUse(h, k) < Lru.LastUse(h, y)
  {
    var r := CollectTask(tr, task, queue).0;
    forall k, y | k in tr.tasks.entries && k !in r.tasks.entries && k != task.uuid && y in tr.tasks.entries && y != k
      ensures Lru.LastUse(h, k) < Lru.LastUse(h, y)
    {
      assert !IsTerminal(task.state) && task.uuid !in tr.tasks.entries;
      assert r.tasks.entries == Lru.Insert(tr.tasks, task.uuid, task).entries;
      assert |tr.tasks.order| == tr.tasks.capacity && k == tr.tasks.order[0];
      Lru.LeastRecentFirst(tr.tasks, h, y);
    }
  }

  /** `latency` keeps a cache ordered by last use ordered so; a STARTED lookup counts as a use. */
  lemma LatencyRecency(tr: Tracker, task: Task, h: seq<string>)
    requires Good(tr) && Lru.Increasing(tr.tasks.order, Lru.Recency(h))
    ensures task.state == Started ==> Lru.Increasing(LatencyTask(tr, task).0.tasks.order, Lru.Recency(h + [task.uuid]))
    ensures task.state != Started ==> LatencyTask(tr, task).0.tasks == tr.tasks
  {
    if task.state == Started {
      Lru.TouchRecency(tr.tasks, task.uuid, h);
    }
  }

  /** `CeleryState::collect(evt)`: decode the event, then collect the record. */
  function CollectStep(tr: Tracker, e: Event): (Tracker, CollectOutcome)
    requires Good(tr) && '-' in e.kind
  {
    CollectTask(tr, FromEvent(e), e.queue)
  }

  /**
   * `CeleryState::latency` on the decoded record `task`. Only a STARTED
   * record whose uuid's cached record is in state RECEIVED yields a value:
   * the decoded `local_received` minus the cached one. No record is added,
   * removed or changed; the lookup (the crate's `get`) does promote the uuid
   * to most recently used.
   */
  function LatencyTask(tr: Tracker, task: Task): (r: (Tracker, LatencyOutcome))
    requires Good(tr)
    ensures Good(r.0) && r.0.tasks.entries == tr.tasks.entries && r.0.tasks.capacity == tr.tasks.capacity
    ensures r.0 == tr.(tasks := r.0.tasks)
    ensures r.1.latency.Some? <==>
      task.state == Started && task.uuid in tr.tasks.entries && tr.tasks.entries[task.uuid].state == Received
    ensures r.1.latency.Some? ==>
      var p := tr.tasks.entries[task.uuid];
      && r.1.latency.value == task.localReceived - p.localReceived
      && r.1.name == Some(p.name)
      && r.1.queue == Some(QueueOf(tr.queueByTask, p.name))
    ensures r.1.latency.None? ==> r.1 == LatencyOutcome(None, None, None)
    ensures task.state == Started ==> r.0.tasks == Lru.Touch(tr.tasks, task.uuid)
    ensures task.state != Started ==> r.0 == tr
  {
    if task.state == Started then
      (tr.(tasks := Lru.Touch(tr.tasks, task.uuid)), Measure(Lru.Lookup(tr.tasks, task.uuid), task, tr.queueByTask))
    else (tr, LatencyOutcome(None, None, None))
  }

  /** The latency outcome of a STARTED record `task`, given what the cache held for its uuid. */
  function Measure(cached: Option<Task>, task: Task, queueByTask: map<string, string>): (r: LatencyOutcome)
    ensures r.latency.Some? <==> cached.Some? && cached.value.state == Received
    ensures r.latency.None? ==> r == LatencyOutcome(None, None, None)
  {
    if cached.Some? && cached.value.state == Received then
      var p := cached.value;
      LatencyOutcome(Some(p.name), Some(QueueOf(queueByTask, p.name)), Some(task.localReceived - p.localReceived))
    else LatencyOutcome(None, None, None)
  }

  /** `CeleryState::latency(evt)`: decode the event, then look the record up. */
  function LatencyStep(tr: Tracker, e: Event): (Tracker, LatencyOutcome)
    requires Good(tr) && '-' in e.kind
  {
    LatencyTask(tr, FromEvent(e))
  }

  /** Every event `type` holds a "-", or `update_from_event` panics. */
  predicate Splittable(es: seq<Event>) {
    forall i | 0 <= i < |es| :: '-' in es[i].kind
  }

  /** The tracker after `collect` has been called on each event of `es`, in order. */
  function CollectAll(tr: Tracker, es: seq<Event>): (r: Tracker)
    requires Good(tr) && Splittable(es)
    ensures Good(r) && r.tasks.capacity == tr.tasks.capacity
    decreases |es|
  {
    if es == [] then tr else CollectAll(CollectStep(tr, es[0]).0, es[1..])
  }

  /** However many events arrive, the cache never holds more than `max_tasks_in_memory` records. */
  lemma CacheBounded(tr: Tracker, es: seq<Event>)
    requires Good(tr) && Splittable(es)
    ensures |CollectAll(tr, es).tasks.entries| <= tr.tasks.capacity
  {
    Lru.Bounded(CollectAll(tr, es).tasks);
  }

  /** `e` is a non-terminal task event for `id`. */
  predicate NonTerminalFor(e: Event, id: string) {
    && '-' in e.kind
    && Contains(e.kind, "task")
    && e.uuid == Some(id)
    && !IsTerminal(FromEvent(e).state)
  }

  /**
   * After a non-empty run of non-terminal events for one uuid, the cache
   * holds that uuid with the state of the last event; the name and
   * `local_received` are those the record had when the run started, or those
   * of the run's first event when the uuid was not cached; and every event
   * of the run was counted.
   */
  lemma {:induction false} NonTerminalRun(tr: Tracker, es: seq<Event>, id: string)
    requires Good(tr) && es != []
    requires forall i | 0 <= i < |es| :: NonTerminalFor(es[i], id)
    ensures Splittable(es)
    ensures
      var r := CollectAll(tr, es);
      var first := if id in tr.tasks.entries then tr.tasks.entries[id] else FromEvent(es[0]);
      && id in r.tasks.entries
      && r.tasks.entries[id].state == FromEvent(es[|es| - 1]).state
      && r.tasks.entries[id].name == first.name
      && r.tasks.entries[id].localReceived == first.localReceived
      && r.eventCount == tr.eventCount + |es|
    decreases |es|
  {
    var tr1 := CollectStep(tr, es[0]).0;
    NonTerminalOne(tr, es[0], id);
    if |es| > 1 {
      NonTerminalRun(tr1, es[1..], id);
      assert es[1..][|es[1..]| - 1] == es[|es| - 1];
    }
  }

  /** One non-terminal event for `id`: its record is cached with the event's state, and the event counted. */
  lemma NonTerminalOne(tr: Tracker, e: Event, id: string)
    requires Good(tr) && NonTerminalFor(e, id)
    ensures
      var r := CollectStep(tr, e).0;
      var first := if id in tr.tasks.entries then tr.tasks.entries[id] else FromEvent(e);
      && id in r.tasks.entries
      && r.tasks.entries[id] == first.(state := FromEvent(e).state)
      && r.eventCount == tr.eventCount + 1
  {
    var task := FromEvent(e);
    assert task.uuid == id;
    if id in tr.tasks.entries {
      StateOverwritten(tr, task, e.queue, CollectTask(tr, task, e.queue).0);
    } else {
      FirstSightingKept(tr, task, e.queue, CollectTask(tr, task, e.queue).0);
    }
  }

  /**
   * A terminal event pops the uuid's record; a second terminal event for the
   * same uuid finds nothing and reports the event's own name, or "undefined".
   */
  lemma DuplicateTerminal(tr: Tracker, e1: Event, e2: Event)
    requires Good(tr) && '-' in e1.kind && '-' in e2.kind
    requires IsTerminal(FromEvent(e1).state) && IsTerminal(FromEvent(e2).state)
    requires FromEvent(e1).uuid == FromEvent(e2).uuid
    ensures
      var tr1 := CollectStep(tr, e1).0;
      && FromEvent(e1).uuid !in tr1.tasks.entries
      && CollectStep(tr1, e2).1.name == Some(e2.name.GetOr(MissingData))
  {
  }

  /** How a "task-<subject>" event decodes. */
  lemma DecodeTaskEvent(e: Event, subject: string)
    requires '-' !in subject && e.kind == "task-" + subject
    ensures '-' in e.kind
    ensures FromEvent(e) ==
      Task(e.uuid.GetOr(MissingData), e.name.GetOr(MissingData), e.localReceived, e.runtime, EventToState(subject))
  {
    TaskKind(subject);
  }

  /**
   * Sent then received records for a uuid that was not cached: the cache
   * holds the FIRST sighting (the sent record, with its `local_received`)
   * in state RECEIVED, because later non-terminal records overwrite only
   * the cached record's state. With `ReceivedLatency`, a started record
   * is then measured from the sent record's `local_received`.
   */
  lemma SentThenReceived(tr: Tracker, sent: Task, received: Task, q: Option<string>, tr1: Tracker, tr2: Tracker)
    requires Good(tr) && sent.uuid !in tr.tasks.entries
    requires received.uuid == sent.uuid && sent.state == Pending && received.state == Received
    requires tr1 == CollectTask(tr, sent, q).0 && tr2 == CollectTask(tr1, received, None).0
    ensures Good(tr2) && sent.uuid in tr2.tasks.entries && tr2.tasks.entries[sent.uuid] == sent.(state := Received)
  {
    FirstSightingKept(tr, sent, q, tr1);
    StateOverwritten(tr1, received, None, tr2);
  }

  /** A STARTED record whose cached record `p` is RECEIVED is measured from `p`'s `local_received`. */
  lemma ReceivedLatency(tr: Tracker, task: Task, p: Task)
    requires Good(tr) && task.state == Started
    requires task.uuid in tr.tasks.entries && tr.tasks.entries[task.uuid] == p && p.state == Received
    ensures LatencyTask(tr, task).1.latency == Some(task.localReceived - p.localReceived)
  {
  }

  /** Collecting a non-terminal record for an uncached uuid caches that very record. */
  lemma FirstSightingKept(tr: Tracker, task: Task, q: Option<string>, tr1: Tracker)
    requires Good(tr) && task.uuid !in tr.tasks.entries && !IsTerminal(task.state)
    requires tr1 == CollectTask(tr, task, q).0
    ensures Good(tr1) && task.uuid in tr1.tasks.entries && tr1.tasks.entries[task.uuid] == task
  {
    assert tr1.tasks.entries == Lru.Insert(tr.tasks, task.uuid, task).entries;
  }

  /** Collecting a non-terminal record for a cached uuid overwrites only the cached state. */
  lemma StateOverwritten(tr: Tracker, task: Task, q: Option<string>, tr1: Tracker)
    requires Good(tr) && task.uuid in tr.tasks.entries && !IsTerminal(task.state)
    requires tr1 == CollectTask(tr, task, q).0
    ensures Good(tr1) && task.uuid in tr1.tasks.entries
    ensures tr1.tasks.entries[task.uuid] == tr.tasks.entries[task.uuid].(state := task.state)
  {
    assert tr1.tasks.entries == tr.tasks.entries[task.uuid := tr.tasks.entries[task.uuid].(state := task.state)];
  }

  /** "notatask-sent" holds "task", so it is handled as a PENDING task event. */
  lemma NotATaskIsATask(e: Event)
    requires e.kind == "notatask-sent"
    ensures '-' in e.kind && Contains(e.kind, "task")
    ensures FromEvent(e).state == Pending && FromEvent(e).uuid == e.uuid.GetOr(MissingData)
  {
    assert e.kind == "notatask" + "-" + "sent";
    assert Contains("notatask", "task") by {
      assert OccursAt("notatask", "task", 4);
      ContainsIsSubstring("notatask", "task");
    }
    TaskInGroup(e, "notatask", "sent");
  }

  /**
   * A type whose group (the text before the first "-") contains "task" is
   * a task event, whatever else the group holds.
   */
  lemma TaskInGroup(e: Event, group: string, subject: string)
    requires '-' !in group && '-' !in subject && Contains(group, "task")
    requires e.kind == group + "-" + subject
    ensures '-' in e.kind && Contains(e.kind, "task")
    ensures FromEvent(e).state == EventToState(subject) && FromEvent(e).uuid == e.uuid.GetOr(MissingData)
  {
    FirstSeparator(group, '-', subject);
    assert SecondPiece(e.kind, '-') == subject;
    ContainsExtended(group, "task", "-" + subject);
    assert e.kind == group + ("-" + subject);
  }

  /** Without a 't', a text cannot contain "task". */
  lemma {:induction false} NoTNoTask(s: string)
    requires 't' !in s
    ensures !Contains(s, "task")
  {
    if |s| > 0 {
      assert s[0] != 't';
      assert 't' !in s[1..] by { assert forall i | 0 <= i < |s| - 1 :: s[1..][i] == s[i + 1]; }
      NoTNoTask(s[1..]);
    }
  }

  /** "worker-online" holds no "task": it decodes to the default record. */
  lemma WorkerEventIsDefault(e: Event)
    requires e.kind == "worker-online"
    ensures '-' in e.kind && !Contains(e.kind, "task")
    ensures FromEvent(e) == DefaultTask
  {
    assert e.kind[6] == '-';
    NoTNoTask(e.kind);
  }

  /**
   * The default record is not terminal, so `collect` counts it, caches it
   * under the uuid "undefined" and reports the state UNDEFINED.
   */
  lemma DefaultRecordIsCached(tr: Tracker, q: Option<string>)
    requires Good(tr)
    ensures
      var r := CollectTask(tr, DefaultTask, q);
      && MissingData in r.0.tasks.entries && r.0.eventCount == tr.eventCount + 1
      && r.1.state == Some("UNDEFINED")
  {
  }

  /** The `CeleryState` object. */
  class CeleryState {
    var eventCount: int
    var taskCount: int
    var queueByTask: map<string, string>
    const tasks: Lru.LruCache<string, Task>

    /** The tracker value the fields hold. */
    function View(): Tracker
      reads this, tasks
    {
      Tracker(eventCount, taskCount, queueByTask, tasks.Model())
    }

    ghost predicate Valid()
      reads this, tasks
    {
      Good(View())
    }

    /** `CeleryState::new(max_tasks_in_memory)`. */
    constructor (maxTasksInMemory: nat)
      requires maxTasksInMemory > 0
      ensures Valid() && fresh(tasks)
      ensures View() == Tracker(0, 0, map[], Lru.Empty(maxTasksInMemory))
    {
      eventCount := 0;
      taskCount := 0;
      queueByTask := map[];
      tasks := new Lru.LruCache(maxTasksInMemory);
    }

    /** `CeleryState::event`. */
    method Event(task: Task)
      requires Valid()
      modifies this, tasks
      ensures Valid() && View() == EventStep(old(View()), task)
    {
      eventCount := eventCount + 1;
      var cached := tasks.Get(task.uuid);
      if cached.None? {
        tasks.Put(task.uuid, task);
      }
      if task.state == Received {
        taskCount := taskCount + 1;
      }
    }

    /** `CeleryState::collect`. */
    method Collect(e: Event) returns (r: CollectOutcome)
      requires Valid() && '-' in e.kind
      modifies this, tasks
      ensures Valid() && (View(), r) == CollectStep(old(View()), e)
    {
      var task := FromEvent(e);
      if IsTerminal(task.state) {
        var popped := tasks.Pop(task.uuid);
        var name := (if popped.Some? then popped.value else task).name;
        r := CollectOutcome(Some(name), Some(StateLabel(task.state)), task.runtime, Some(QueueOf(queueByTask, name)));
      } else {
        Event(task);
        // `get_mut(..).unwrap()`: `event` has just cached the uuid
        assert task.uuid in tasks.entries;
        var record := tasks.entries[task.uuid];
        tasks.Put(task.uuid, record.(state := task.state));
        if e.queue.Some? {
          queueByTask := queueByTask[record.name := e.queue.value];
        }
        r := CollectOutcome(Some(record.name), Some(StateLabel(task.state)), None, Some(QueueOf(queueByTask, record.name)));
      }
    }

    /** `CeleryState::latency`. */
    method Latency(e: Event) returns (r: LatencyOutcome)
      requires Valid() && '-' in e.kind
      modifies tasks
      ensures Valid() && (View(), r) == LatencyStep(old(View()), e)
    {
      var task := FromEvent(e);
      if task.state == Started {
        var cached := tasks.Get(task.uuid);
        r := Measure(cached, task, queueByTask);
      } else {
        r := LatencyOutcome(None, None, None);
      }
    }
  }
}
