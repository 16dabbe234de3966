/**
 * The pure-Python tracker of celery_exporter/state.py, `CustomState`: an
 * event counter, a count of received tasks, and celery `Task` records in a
 * celery `LRUCache` keyed by task uuid.
 *
 * celery's `Task.event` (how a record folds an event into its fields) is
 * code outside this repository; it is the parameter `update`, which sees
 * the record's celery-side fields and returns them updated.
 */
module CustomStatePy {
  import opened Wrappers
  import opened Events
  import Lru
  import CeleryStateLib

  /** The `max_tasks_in_memory` of `CustomState()` when none is given. */
  const DefaultMaxTasksInMemory: nat := 10000

  /** `celery.states.READY_STATES`. */
  const ReadyStates: set<string> := {"SUCCESS", "FAILURE", "REVOKED"}

  /** The fields of a celery `Task` that `Task.event` maintains and the exporter reads. */
  datatype TaskInfo = TaskInfo(name: Option<string>, state: string)

  /** The fields of `Task(uuid, cluster_state=None)`: no name yet, PENDING. */
  const FreshInfo: TaskInfo := TaskInfo(None, "PENDING")

  /** A cached record: its uuid, the `client` that sent it, and the celery-side fields. */
  datatype Record = Record(uuid: string, client: Option<string>, info: TaskInfo)

  /** `Task.event(subject, timestamp, local_received, evt)`. */
  type Update = (TaskInfo, string, real, real, Event) -> TaskInfo

  /** `event_count`, `task_count` and `tasks`. */
  datatype PyState = PyState(eventCount: int, taskCount: int, tasks: Lru.Cache<string, Record>)

  predicate Good(st: PyState) {
    Lru.WellFormed(st.tasks)
  }

  /** The event's group ("task" in "task-sent"): the text before the first "-", as `partition` gives it. */
  function GroupOf(e: Event): string {
    Partition(e.kind, '-').0
  }

  /** The event's subject ("sent" in "task-sent"): everything after the first "-". */
  function SubjectOf(e: Event): string {
    Partition(e.kind, '-').1
  }

  predicate IsTaskEvent(e: Event) {
    GroupOf(e) == "task"
  }

  /** What `_event` returns: nothing for an event of another group, else `((task, task_created), subject)`. */
  datatype EventResult = Ignored | Handled(task: Record, created: bool, subject: string)

  /** What `collect` returns: `(name, state, runtime)`. */
  datatype Collected = Collected(name: string, state: string, runtime: Option<real>)

  /** The record a task event leaves in the cache, given the one it started from. */
  function Folded(prior: Record, e: Event, update: Update): Record {
    var withClient := if SubjectOf(e) == "sent" then prior.(client := Some(e.hostname)) else prior;
    withClient.(info := update(withClient.info, SubjectOf(e), e.timestamp, e.localReceived, e))
  }

  /**
   * `_event(evt)`. Every event is counted. An event of another group
   * changes nothing else. A task event (which must carry a uuid, or the
   * field lookup raises) reads its record, promoting it, or creates and
   * caches a fresh one; a "sent" event sets the record's client; a
   * "received" event is counted as a task; then `Task.event` updates the
   * record in place.
   */
  function EventOn(st: PyState, e: Event, update: Update): (r: (PyState, EventResult))
    requires Good(st) && (IsTaskEvent(e) ==> e.uuid.Some?)
    ensures Good(r.0) && r.0.tasks.capacity == st.tasks.capacity
    ensures r.0.eventCount == st.eventCount + 1
    ensures r.1.Ignored? <==> !IsTaskEvent(e)
    ensures !IsTaskEvent(e) ==> r.0.tasks == st.tasks && r.0.taskCount == st.taskCount
    ensures IsTaskEvent(e) ==>
      var id := e.uuid.value;
      && r.1.created == (id !in st.tasks.entries)
      && r.1.subject == SubjectOf(e)
      && r.1.task == Folded(if id in st.tasks.entries then st.tasks.entries[id] else Record(id, None, FreshInfo), e, update)
      && id in r.0.tasks.entries && r.0.tasks.entries[id] == r.1.task
      && r.0.tasks.order[|r.0.tasks.order| - 1] == id
      && r.0.taskCount == st.taskCount + (if SubjectOf(e) == "received" then 1 else 0)
  {
    if !IsTaskEvent(e) then (st.(eventCount := st.eventCount + 1), Ignored)
    else TaskStep(st.(eventCount := st.eventCount + 1), e, update)
  }

  /**
   * The task branch of `_event`, once the event is counted: read the
   * record (promoting it) or create and cache a fresh one, count
   * "received", and store the record back with the event folded in.
   */
  function TaskStep(st: PyState, e: Event, update: Update): (r: (PyState, EventResult))
    requires Good(st) && e.uuid.Some?
    ensures Good(r.0) && r.0.tasks.capacity == st.tasks.capacity && r.0.eventCount == st.eventCount
    ensures r.1.Handled? && r.1.created == (e.uuid.value !in st.tasks.entries)
  {
    var id := e.uuid.value;
    var created := id !in st.tasks.entries;
    var cached := if created then Lru.Insert(st.tasks, id, Record(id, None, FreshInfo)) else Lru.Touch(st.tasks, id);
    var task := Folded(cached.entries[id], e, update);
    var count := st.taskCount + (if SubjectOf(e) == "received" then 1 else 0);
    (PyState(st.eventCount, count, Lru.Insert(cached, id, task)), Handled(task, created, SubjectOf(e)))
  }

  /** The name `collect` reports for a record: `task.name or ""`, and "" where the lookup raised. */
  function NameOf(r: Option<Record>): string {
    if r.Some? then r.value.info.name.GetOr("") else ""
  }

  /**
   * `collect(evt, state)`. For a ready state the record is popped (a
   * missing uuid or record gives the name "") and the event's runtime is
   * reported; the event itself is not counted. For any other state the
   * event goes through `event`, then the record is read again (promoting
   * it) for its name, and no runtime is reported.
   */
  function CollectOn(st: PyState, e: Event, state: string, update: Update): (r: (PyState, Collected))
    requires Good(st) && (state !in ReadyStates && IsTaskEvent(e) ==> e.uuid.Some?)
    ensures Good(r.0)
  {
    if state in ReadyStates then
      if e.uuid.Some? then
        var popped := Lru.Lookup(st.tasks, e.uuid.value);
        (st.(tasks := Lru.Remove(st.tasks, e.uuid.value)), Collected(NameOf(popped), state, e.runtime))
      else (st, Collected("", state, e.runtime))
    else
      var st1 := EventOn(st, e, update).0;
      if e.uuid.Some? then
        var got := Lru.Lookup(st1.tasks, e.uuid.value);
        (st1.(tasks := Lru.Touch(st1.tasks, e.uuid.value)), Collected(NameOf(got), state, None))
      else (st1, Collected("", state, None))
  }

  /**
   * A task event replaces only its own record: every other record is kept
   * with its value, unless the event created a record in a full cache, in
   * which case the least recently used one, and only it, is evicted.
   */
  lemma EventKeepsOthers(st: PyState, e: Event, update: Update)
    requires Good(st) && IsTaskEvent(e) && e.uuid.Some?
    ensures
      var r := EventOn(st, e, update).0;
      var id := e.uuid.value;
      && (forall k | k in r.tasks.entries && k != id :: k in st.tasks.entries && r.tasks.entries[k] == st.tasks.entries[k])
      && (forall k | k in st.tasks.entries && k !in r.tasks.entries ::
            && id !in st.tasks.entries && st.tasks.capacity > 0 && |st.tasks.order| == st.tasks.capacity
            && k == st.tasks.order[0])
  {
    var id := e.uuid.value;
    var r := EventOn(st, e, update).0;
    if id !in st.tasks.entries {
      var cached := Lru.Insert(st.tasks, id, Record(id, None, FreshInfo));
      assert r.tasks.entries == cached.entries[id := r.tasks.entries[id]];
    } else {
      var cached := Lru.Touch(st.tasks, id);
      assert r.tasks.entries == st.tasks.entries[id := r.tasks.entries[id]];
    }
  }

  /**
   * A task event uses its record twice, reading (or creating) it and then
   * storing it back: a cache whose order is the order of last use keeps it.
   */
  lemma EventRecency(st: PyState, e: Event, update: Update, h: seq<string>)
    requires Good(st) && IsTaskEvent(e) && e.uuid.Some?
    requires Lru.Increasing(st.tasks.order, Lru.Recency(h))
    ensures Lru.Increasing(EventOn(st, e, update).0.tasks.order, Lru.Recency(h + [e.uuid.value] + [e.uuid.value]))
  {
    var id := e.uuid.value;
    var cached := if id !in st.tasks.entries then Lru.Insert(st.tasks, id, Record(id, None, FreshInfo)) else Lru.Touch(st.tasks, id);
    if id !in st.tasks.entries {
      Lru.InsertRecency(st.tasks, id, Record(id, None, FreshInfo), h);
    } else {
      Lru.TouchRecency(st.tasks, id, h);
    }
    var task := Folded(cached.entries[id], e, update);
    Lru.InsertRecency(cached, id, task, h + [id]);
    assert EventOn(st, e, update).0.tasks == TaskStep(st.(eventCount := st.eventCount + 1), e, update).0.tasks == Lru.Insert(cached, id, task);
  }

  /**
   * In a cache ordered by the uses `h`, the record a task event evicts is
   * the least recently used one: every record left was used after it.
   */
  lemma EventEvictsLeastRecent(st: PyState, e: Event, update: Update, h: seq<string>)
    requires Good(st) && IsTaskEvent(e) && e.uuid.Some?
    requires Lru.Increasing(st.tasks.order, Lru.Recency(h))
    ensures
      var r := EventOn(st, e, update).0;
      forall k, y | k in st.tasks.entries && k !in r.tasks.entries && y in st.tasks.entries && y != k ::
        Lru.LastUse(h, k) < Lru.LastUse(h, y)
  {
    var r := EventOn(st, e, update).0;
    EventKeepsOthers(st, e, update);
    forall k, y | k in st.tasks.entries && k !in r.tasks.entries && y in st.tasks.entries && y != k
      ensures Lru.LastUse(h, k) < Lru.LastUse(h, y)
    {
      Lru.LeastRecentFirst(st.tasks, h, y);
    }
  }

  /** The cache never holds more records than `max_tasks_in_memory` (0 meaning no limit). */
  lemma EventBounded(st: PyState, e: Event, update: Update)
    requires Good(st) && (IsTaskEvent(e) ==> e.uuid.Some?)
    ensures
      var r := EventOn(st, e, update).0;
      st.tasks.capacity > 0 ==> |r.tasks.entries| <= st.tasks.capacity
  {
    Lru.Bounded(EventOn(st, e, update).0.tasks);
  }

  /**
   * A record's client is the host of its "sent" event: a "sent" event sets
   * it, and any other task event keeps what the record had (nothing for a
   * record it creates).
   */
  lemma ClientOfRecord(st: PyState, e: Event, update: Update)
    requires Good(st) && IsTaskEvent(e) && e.uuid.Some?
    ensures
      var r := EventOn(st, e, update);
      var id := e.uuid.value;
      && (SubjectOf(e) == "sent" ==> r.0.tasks.entries[id].client == Some(e.hostname))
      && (SubjectOf(e) != "sent" && id in st.tasks.entries ==> r.0.tasks.entries[id].client == st.tasks.entries[id].client)
      && (SubjectOf(e) != "sent" && id !in st.tasks.entries ==> r.0.tasks.entries[id].client == None)
  {
  }

  /** A "sent" event from `h` and then other events of the same task: the record keeps `h` as its client. */
  lemma {:induction false} ClientSurvives(st: PyState, sent: Event, later: seq<Event>, update: Update, h: string)
    requires Good(st) && IsTaskEvent(sent) && sent.uuid.Some? && SubjectOf(sent) == "sent" && sent.hostname == h
    requires forall i | 0 <= i < |later| :: IsTaskEvent(later[i]) && later[i].uuid == sent.uuid && SubjectOf(later[i]) != "sent"
    ensures
      var r := Replay(EventOn(st, sent, update).0, later, update);
      sent.uuid.value in r.tasks.entries && r.tasks.entries[sent.uuid.value].client == Some(h)
  {
    var id := sent.uuid.value;
    var st1 := EventOn(st, sent, update).0;
    ClientOfRecord(st, sent, update);
    ClientKept(st1, later, update, id, h);
  }

  /** Events of one task that are not "sent" keep its client. */
  lemma {:induction false} ClientKept(st: PyState, later: seq<Event>, update: Update, id: string, h: string)
    requires Good(st) && id in st.tasks.entries && st.tasks.entries[id].client == Some(h)
    requires forall i | 0 <= i < |later| :: IsTaskEvent(later[i]) && later[i].uuid == Some(id) && SubjectOf(later[i]) != "sent"
    ensures
      var r := Replay(st, later, update);
      id in r.tasks.entries && r.tasks.entries[id].client == Some(h)
    decreases |later|
  {
    if later != [] {
      ClientOfRecord(st, later[0], update);
      ClientKept(EventOn(st, later[0], update).0, later[1..], update, id, h);
    }
  }

  /** `_event` applied to each event in turn (task events carrying a uuid, other events as they come). */
  function Replay(st: PyState, es: seq<Event>, update: Update): (r: PyState)
    requires Good(st) && forall i | 0 <= i < |es| :: IsTaskEvent(es[i]) ==> es[i].uuid.Some?
    ensures Good(r) && r.eventCount == st.eventCount + |es|
    decreases |es|
  {
    if es == [] then st else Replay(EventOn(st, es[0], update).0, es[1..], update)
  }

  /** Replaying events counts each of them, and counts a task for each "received" task event. */
  lemma {:induction false} ReplayCounts(st: PyState, es: seq<Event>, update: Update)
    requires Good(st) && forall i | 0 <= i < |es| :: IsTaskEvent(es[i]) ==> es[i].uuid.Some?
    ensures Replay(st, es, update).taskCount == st.taskCount + ReceivedIn(es)
    decreases |es|
  {
    if es != [] {
      ReplayCounts(EventOn(st, es[0], update).0, es[1..], update);
    }
  }

  /** The number of "received" task events in `es`. */
  function ReceivedIn(es: seq<Event>): nat {
    if es == [] then 0
    else (if IsTaskEvent(es[0]) && SubjectOf(es[0]) == "received" then 1 else 0) + ReceivedIn(es[1..])
  }

  /**
   * `collect` in a ready state pops the record: it is gone afterwards, the
   * name is the popped record's (or ""), the runtime is the event's, and
   * neither counter moves.
   */
  lemma CollectReady(st: PyState, e: Event, state: string, update: Update)
    requires Good(st) && state in ReadyStates
    ensures
      var r := CollectOn(st, e, state, update);
      && r.0.eventCount == st.eventCount && r.0.taskCount == st.taskCount
      && r.1.state == state && r.1.runtime == e.runtime
      && (e.uuid.Some? ==>
            && e.uuid.value !in r.0.tasks.entries
            && r.0.tasks.entries == st.tasks.entries - {e.uuid.value}
            && r.1.name == (if e.uuid.value in st.tasks.entries then st.tasks.entries[e.uuid.value].info.name.GetOr("") else ""))
      && (e.uuid.None? ==> r.0 == st && r.1.name == "")
  {
  }

  /**
   * `collect` in any other state goes through `event`: the event is
   * counted, no runtime is reported, and a task event's record stays cached
   * and gives its name as `Task.event` left it.
   */
  lemma CollectNotReady(st: PyState, e: Event, state: string, update: Update)
    requires Good(st) && state !in ReadyStates && (IsTaskEvent(e) ==> e.uuid.Some?)
    ensures
      var r := CollectOn(st, e, state, update);
      var ev := EventOn(st, e, update);
      && r.0.eventCount == st.eventCount + 1 && r.0.taskCount == ev.0.taskCount
      && r.0.tasks.entries == ev.0.tasks.entries
      && r.1.state == state && r.1.runtime == None
      && (IsTaskEvent(e) ==> e.uuid.value in r.0.tasks.entries && r.1.name == ev.1.task.info.name.GetOr(""))
  {
  }

  /** The event's type reads as `group` and `subject` when `group` holds no "-". */
  lemma KindParts(e: Event, group: string, subject: string)
    requires '-' !in group && e.kind == group + "-" + subject
    ensures GroupOf(e) == group && SubjectOf(e) == subject
  {
    IndexOfUnique(e.kind, '-', |group|);
    assert e.kind[..|group|] == group;
    assert e.kind[|group| + 1..] == subject;
  }

  /** "notatask-sent" is not a task event here: only the event counter moves. */
  lemma NotATaskIgnored(st: PyState, e: Event, update: Update)
    requires Good(st) && e.kind == "notatask-sent"
    ensures !IsTaskEvent(e)
    ensures EventOn(st, e, update).0 == st.(eventCount := st.eventCount + 1)
  {
    KindParts(e, "notatask", "sent");
  }

  /**
   * The two trackers disagree on what a task event is: src/lib.rs looks for
   * "task" anywhere in the type, this one for the group "task".
   */
  lemma TrackersDisagreeOnNotATask(st: PyState, e: Event, update: Update)
    requires Good(st) && e.kind == "notatask-sent"
    ensures !IsTaskEvent(e) && EventOn(st, e, update).1 == Ignored
    ensures CeleryStateLib.FromEvent(e).state == CeleryStateLib.Pending
  {
    NotATaskIgnored(st, e, update);
    CeleryStateLib.NotATaskIsATask(e);
  }

  /** Any "task-<subject>" event is a task event with that subject. */
  lemma TaskEventParts(e: Event, subject: string)
    requires e.kind == "task-" + subject
    ensures IsTaskEvent(e) && SubjectOf(e) == subject
  {
    assert e.kind == "task" + "-" + subject;
    KindParts(e, "task", subject);
  }

  /** The tracker: counters and the record cache, updated in place. */
  class CustomState {
    var eventCount: int
    var taskCount: int
    const tasks: Lru.LruCache<string, Record>

    /** The tracker value the fields hold. */
    function View(): PyState
      reads this, tasks
    {
      PyState(eventCount, taskCount, tasks.Model())
    }

    ghost predicate Valid()
      reads this, tasks
    {
      Good(View())
    }

    /** `CustomState(max_tasks_in_memory)`. */
    constructor (maxTasksInMemory: nat)
      ensures Valid() && fresh(tasks)
      ensures View() == PyState(0, 0, Lru.Empty(maxTasksInMemory))
    {
      eventCount := 0;
      taskCount := 0;
      tasks := new Lru.LruCache(maxTasksInMemory);
    }

    /** `CustomState()`, with the default limit. */
    constructor WithDefaultLimit()
      ensures Valid() && fresh(tasks)
      ensures View() == PyState(0, 0, Lru.Empty(DefaultMaxTasksInMemory))
    {
      eventCount := 0;
      taskCount := 0;
      tasks := new Lru.LruCache(DefaultMaxTasksInMemory);
    }

    /** `get_task(uuid)`, falling back on a `KeyError` to a fresh record stored under `id`. */
    method GetOrCreate(id: string) returns (task: Record, created: bool)
      requires Valid()
      modifies tasks
      ensures Valid()
      ensures created == (id !in old(tasks.Model()).entries)
      ensures tasks.Model() == if created then Lru.Insert(old(tasks.Model()), id, Record(id, None, FreshInfo))
                               else Lru.Touch(old(tasks.Model()), id)
      ensures id in tasks.Model().entries && task == tasks.Model().entries[id]
    {
      var got := tasks.Get(id);
      created := got.None?;
      if created {
        task := Record(id, None, FreshInfo);
        tasks.Put(id, task);
      } else {
        task := got.value;
      }
    }

    /** `_event(evt)`. */
    method EventUnlocked(e: Event, update: Update) returns (r: EventResult)
      requires Valid() && (IsTaskEvent(e) ==> e.uuid.Some?)
      modifies this, tasks
      ensures Valid() && (View(), r) == EventOn(old(View()), e, update)
    {
      ghost var st := View();
      eventCount := eventCount + 1;
      var group := GroupOf(e);
      if group != "task" {
        assert EventOn(st, e, update) == (View(), Ignored);
        return Ignored;
      }
      r := TaskEvent(e, update);
    }

    /** The task branch of `_event`, after the event was counted. */
    method TaskEvent(e: Event, update: Update) returns (r: EventResult)
      requires Valid() && e.uuid.Some?
      modifies this, tasks
      ensures Valid() && (View(), r) == TaskStep(old(View()), e, update)
    {
      var id, subject := e.uuid.value, SubjectOf(e);
      ghost var st := View();
      var task, created := GetOrCreate(id);
      ghost var cached := tasks.Model();
      if subject == "sent" {
        task := task.(client := Some(e.hostname));
      }
      if subject == "received" {
        taskCount := taskCount + 1;
      }
      task := task.(info := update(task.info, subject, e.timestamp, e.localReceived, e));
      assert task == Folded(cached.entries[id], e, update);
      ghost var count := taskCount;
      tasks.Put(id, task);
      r := Handled(task, created, subject);
      assert eventCount == st.eventCount && taskCount == count;
      assert View() == PyState(st.eventCount, count, Lru.Insert(cached, id, task));
    }

    /** `event(evt)`: `_event` under the tracker's lock. */
    method Event(e: Event, update: Update) returns (r: EventResult)
      requires Valid() && (IsTaskEvent(e) ==> e.uuid.Some?)
      modifies this, tasks
      ensures Valid() && (View(), r) == EventOn(old(View()), e, update)
    {
      r := EventUnlocked(e, update);
    }

    /** `collect(evt, state)`. */
    method Collect(e: Event, state: string, update: Update) returns (r: Collected)
      requires Valid() && (state !in ReadyStates && IsTaskEvent(e) ==> e.uuid.Some?)
      modifies this, tasks
      ensures Valid() && (View(), r) == CollectOn(old(View()), e, state, update)
    {
      if state in ReadyStates {
        var name := "";
        if e.uuid.Some? {
          var popped := tasks.Pop(e.uuid.value);
          name := NameOf(popped);
        }
        r := Collected(name, state, e.runtime);
      } else {
        var _ := Event(e, update);
        var name := "";
        if e.uuid.Some? {
          var got := tasks.Get(e.uuid.value);
          name := NameOf(got);
        }
        r := Collected(name, state, None);
      }
    }
  }
}
