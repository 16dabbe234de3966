# celery-exporter: the event-to-metrics engine, in Dafny

This project models the part of the Celery Prometheus exporter that turns
celery events into metric updates, and proves properties of that model.

- **`CeleryState` (src/lib.rs)** is the live task tracker.
  - State: a capacity-bounded LRU map from task uuid to task record, a table from task name to queue, and two counters.
  - `collect` pops the record on SUCCESS, FAILURE and REVOKED. Every other state goes through `event`, which inserts the record when the uuid is absent. Then `collect` overwrites the cached state and records the event's queue.
  - `latency` measures the gap from a cached RECEIVED record to a STARTED event.
- **celery_exporter/utils.py** builds the routing table from task to queue.
  - `_gen_wildcards` expands a dotted task name into its wildcard candidates.
  - `get_config` picks the first candidate route that names a queue, falling back to the worker's default queue. It has a tie-break across workers.
- **celery_exporter/monitor.py** puts the two together.
  - `_process_event` looks up the latency, then collects. It observes the latency and runtime histograms and increments one `celery_tasks_total` series.
  - `setup_metrics` creates zero-valued series for the routing table.
  - `update_workers_count` sets the worker gauge.
- **`CustomState` (celery_exporter/state.py)** is the Python alternative tracker. It keeps celery `Task` records in a celery `LRUCache`, with get-or-create on task events, pop on ready states and a `client` hostname.

Layout, one module per file:
- `wrappers.dfy` (Option) and `lru.dfy`. The second holds the bounded recency-ordered map shared by both trackers, as a value `Lru.Cache` and as a class `Lru.LruCache`.
- `events.dfy`: the event record and the string operations that take an event type apart.
- `celery_state.dfy` (src/lib.rs), `utils.dfy` (utils.py), `monitor.dfy` (monitor.py) and `custom_state.dfy` (state.py).

Each stateful operation appears twice:
- as a function on the state's value, which is what the lemmas reason about;
- as a method of a class that updates fields in place. Loops remain loops. The method's `ensures` proves it equal to the function.

Outside the model, or turned into parameters:
- Metric values are maps from label tuples to numbers. A histogram is kept as its count and sum.
- Timestamps and runtimes are `real`.
- The cluster snapshot and the ping reply are parameters; `None` stands for "the call raised". `update_workers_count` creates the gauge series before it pings, so a raised ping still leaves the series in place (`Monitor.WorkersStep`).
- celery answers `conf()` with `None` when no worker replies. `get_config` then raises at `confs.values()` if any task is registered (celery_exporter/utils.py:26, outside the `try`), and `setup_metrics` raises after creating only the worker gauge (`Utils.KeysAreRegistered`, `Monitor.SetupWithoutConfs`).
- Python's set iteration order in `get_config` is the parameter `order`. `Utils.Enumerates` requires it to list the set.
- celery's `Task.event` is the parameter `update`.

Behaviour of the code worth knowing:
- **REJECTED is not terminal in `collect`.** src/lib.rs:124 pops only on SUCCESS, FAILURE and REVOKED. REJECTED and UNDEFINED take the non-terminal branch and are cached.
- **A record keeps its first sighting.** A cached record's name and `local_received` are those of its first sighting, because later non-terminal events overwrite only its state (src/lib.rs:142-143, 196-199). So after sent, received and started, the measured latency is started minus *sent* (`CeleryStateLib.SentThenReceived` with `CeleryStateLib.ReceivedLatency`, and `Monitor.TaskLifecycle` end to end). Only because the unit test gives "sent" and "received" the same `local_received` does this equal started minus received.
- **Event types are matched by `contains("task")`, not by prefix.** src/lib.rs:45 processes "notatask-sent" as a PENDING task event. state.py ignores it (`CustomStatePy.TrackersDisagreeOnNotATask`).
- **Non-task events are counted.** An event without "task" in its type, such as "worker-online", decodes to the default record, which is cached under the uuid "undefined". `_process_event` then counts it under the name "undefined" in the state UNDEFINED (`Monitor.WorkerEventCounted`).

## Model

| member | source | states |
|---|---|---|
| Lru.Insert | src/lib.rs:197 | storing a key makes it the most recently used, the other keys keeping their order; a new key in a full cache evicts exactly the first key, `order[0]`; the result stays well formed |
| Lru.Remove | src/lib.rs:125 | popping takes out exactly that key, the other keys keeping their order, and keeps the cache well formed |
| Lru.Touch | src/lib.rs:196 | a read of a stored key moves it to the end, the other keys keeping their order, and changes no entry; a read of a missing key changes nothing |
| Lru.EraseKeepsOrder | src/lib.rs:125 | taking a key out of the order keeps the relative order of the rest: every ranking the order follows, the result follows |
| Lru.LastUse | celery_exporter/state.py:14 | the position of the last use of a key in a use history, or -1 exactly when it was never used |
| Lru.TouchRecency | src/lib.rs:196 | when the order is the order of last use, it still is after a read, counted as a use |
| Lru.InsertRecency | src/lib.rs:197 | when the order is the order of last use, it still is after a write, counted as a use |
| Lru.RemoveRecency | src/lib.rs:125 | when the order is the order of last use, it still is after a pop |
| Lru.ReplayRecency | celery_exporter/state.py:14 | after any run of gets, puts and pops from an empty cache, the keys are ordered by their last use |
| Lru.LeastRecentFirst | celery_exporter/state.py:14 | in a cache ordered by last use, the first key was used before every other stored key |
| Lru.EvictsLeastRecent | src/lib.rs:197 | a new key in a full cache ordered by last use evicts exactly one key, the one used before every other |
| Lru.Bounded | src/lib.rs:104 | a well-formed cache holds one entry per listed key and never more than its capacity |
| Lru.LruCache.Get | src/lib.rs:196 | `get` returns the stored value and promotes the key, as `Lookup` and `Touch` say |
| Lru.LruCache.Put | src/lib.rs:197 | `put` updates the cache as `Insert` says |
| Lru.LruCache.Pop | src/lib.rs:125 | `pop` returns the stored value and removes the key, as `Remove` says |
| Events.SplitAtFirst | celery_exporter/state.py:21 | the text before the first separator has no separator, and the text splits around it into head, separator and tail |
| Events.SecondPieceIsBetween | src/lib.rs:40-41 | the second `split("-")` piece holds no "-", follows the first piece and its separator, and ends at the next "-" or the end |
| Events.ContainsIsSubstring | src/lib.rs:45 | `contains` holds exactly when the pattern occurs at some position |
| Events.FirstSeparator | src/lib.rs:40-41 | a head without the separator, then the separator: the text splits there into that head and the rest |
| Events.ContainsExtended | src/lib.rs:45 | what a text contains, the text with more appended contains too |
| Events.TaskKind | src/lib.rs:40-45 | a "task-SUBJECT" type contains "task", its second piece is the subject, and `partition` gives ("task", subject) |
| CeleryStateLib.EventToStateInverse | src/lib.rs:85-97 | a subject maps to a defined state exactly when it is that state's subject (sent, received, started, failed, retried, succeeded, revoked, rejected); every other subject maps to UNDEFINED |
| CeleryStateLib.StateLabelInjective | src/lib.rs:78-83 | distinct states print as distinct labels |
| CeleryStateLib.FromEvent | src/lib.rs:35-64 | an event whose type lacks "task" decodes to the default record; otherwise the state comes from the second piece, uuid and name from the event or "undefined", and `local_received` and runtime from the event |
| CeleryStateLib.DecodeTaskEvent | src/lib.rs:22-64 | a "task-SUBJECT" event decodes to the record of its uuid, name, `local_received`, runtime and `event_to_state(subject)` |
| CeleryStateLib.EventStep | src/lib.rs:193-205 | `event` counts the event, inserts the record only when the uuid is absent (otherwise only promotes it to most recently used), counts RECEIVED as a task, and keeps the queue table |
| CeleryStateLib.CollectTask | src/lib.rs:119-160 | terminal records pop the uuid and report the cached name (or the decoded one) with the decoded runtime; other records stay cached with the event's state and nothing else changed, the queue is recorded under the cached name, no runtime is reported, and the reported queue is the table's or "undefined" |
| CeleryStateLib.CollectOrder | src/lib.rs:119-160 | a terminal record pops its uuid from the cache; any other record leaves its uuid most recently used, behind the other keys in their old order (or inserted as `put` would when it was absent) |
| CeleryStateLib.CollectRecency | src/lib.rs:119-160 | a cache whose order follows last use keeps following it once `collect` counts as one use of the uuid |
| CeleryStateLib.CollectEvictsLeastRecent | src/lib.rs:142-147 | in a cache ordered by last use, the only record `collect` can drop besides the popped uuid is the one used before every other record |
| CeleryStateLib.LatencyTask | src/lib.rs:162-189 | a latency is reported exactly for a STARTED event whose cached record is RECEIVED, as the difference of the `local_received` values under the cached name and its queue; the cache keeps its entries, a STARTED lookup promotes the uuid as `get` does, and any other event leaves the tracker unchanged |
| CeleryStateLib.LatencyRecency | src/lib.rs:162-189 | a cache whose order follows last use keeps following it, with a STARTED lookup counted as one use of the uuid |
| CeleryStateLib.CollectAll | src/lib.rs:119-160 | collecting a sequence of events keeps the tracker well formed at the same capacity |
| CeleryStateLib.CacheBounded | src/lib.rs:193-199 | however many events arrive, the cache holds at most `max_tasks_in_memory` records |
| CeleryStateLib.NonTerminalRun | src/lib.rs:139-144 | after a run of non-terminal events for one uuid, the record is cached with the last event's state, the first sighting's name and `local_received`, and every event was counted |
| CeleryStateLib.DuplicateTerminal | src/lib.rs:123-125 | a terminal event removes the record; a second one finds nothing and reports the event's own name or "undefined" |
| CeleryStateLib.SentThenReceived | src/lib.rs:139-143 | after sent and received for an uncached uuid, the cache holds the sent record (its name and `local_received`) in state RECEIVED |
| CeleryStateLib.ReceivedLatency | src/lib.rs:166-177 | a STARTED record whose cached record p is RECEIVED is measured as its `local_received` minus p's |
| CeleryStateLib.FirstSightingKept | src/lib.rs:139-143 | a non-terminal record for an uncached uuid is cached as it is (only its state is then rewritten, to the same value) |
| CeleryStateLib.StateOverwritten | src/lib.rs:139-143 | a non-terminal record for a cached uuid rewrites only the cached record's state |
| CeleryStateLib.NonTerminalOne | src/lib.rs:139-144 | one non-terminal event caches its uuid with the event's state over the first sighting, and counts the event |
| CeleryStateLib.Measure | src/lib.rs:168-182 | a value is measured exactly when the cached record is RECEIVED; otherwise the outcome is three `None`s |
| CeleryStateLib.TaskInGroup | src/lib.rs:40-49 | any type whose group contains "task" is decoded as a task event, with the state of its subject |
| CeleryStateLib.NotATaskIsATask | src/lib.rs:40-49 | "notatask-sent" contains "task" and decodes as a PENDING event of its uuid |
| CeleryStateLib.NoTNoTask | src/lib.rs:45 | a type without the letter t never contains "task" |
| CeleryStateLib.WorkerEventIsDefault | src/lib.rs:22-31 | "worker-online" decodes to the default record |
| CeleryStateLib.DefaultRecordIsCached | src/lib.rs:139-143 | collecting the default record caches it under "undefined", counts it, and reports the state UNDEFINED |
| CeleryStateLib.CeleryState.constructor | src/lib.rs:110-117 | a new tracker has zero counters, no queues and an empty cache of the given capacity |
| CeleryStateLib.CeleryState.Event | src/lib.rs:193-205 | the in-place `event` leaves the fields as `EventStep` says |
| CeleryStateLib.CeleryState.Collect | src/lib.rs:119-160 | the in-place `collect` returns and leaves what `CollectStep` says |
| CeleryStateLib.CeleryState.Latency | src/lib.rs:162-189 | the in-place `latency` returns and leaves what `LatencyStep` says |
| Utils.Split | celery_exporter/utils.py:8 | `split(".")` gives at least one piece, none holding "." |
| Utils.JoinSplit | celery_exporter/utils.py:8-12 | joining the pieces with "." gives the name back |
| Utils.CandidatesShape | celery_exporter/utils.py:10-12 | for k pieces there are k candidates, and candidate i keeps the first k-1-i pieces followed by "*" |
| Utils.WildcardsShape | celery_exporter/utils.py:7-13 | for k pieces there are k+1 results: the name first, "*" last, and in between the first k-i pieces joined by "." and followed by ".*" |
| Utils.WildcardsEndInStar | celery_exporter/utils.py:12 | every generated candidate after the name ends in "*" |
| Utils.SplitDot | celery_exporter/utils.py:8 | a piece without "." followed by "." splits off as the first piece |
| Utils.SplitTwo | celery_exporter/utils.py:8 | two dot-free pieces joined by "." split back into those pieces |
| Utils.SplitThree | celery_exporter/utils.py:8 | three dot-free pieces joined by "." split back into those pieces |
| Utils.SplitFour | celery_exporter/utils.py:8 | four dot-free pieces joined by "." split back into those pieces |
| Utils.CandidatesTwo | celery_exporter/utils.py:10-12 | two pieces give the candidates "a.*" and "*" |
| Utils.CandidatesThree | celery_exporter/utils.py:10-12 | three pieces give "a.b.*", "a.*" and "*" |
| Utils.CandidatesFour | celery_exporter/utils.py:10-12 | four pieces give "a.b.c.*", "a.b.*", "a.*" and "*" |
| Utils.WildcardsFour | celery_exporter/utils.py:7-13 | the candidates of any four-segment name |
| Utils.WildcardsOnePiece | test/test_unit.py:294-308 | "aaa" gives ["aaa", "*"] |
| Utils.WildcardsTwoPieces | test/test_unit.py:294-308 | "aaa.bbb" gives ["aaa.bbb", "aaa.*", "*"] |
| Utils.WildcardsFourPieces | test/test_unit.py:294-308 | "aaa.bbb.ccc.ddd" gives its five candidates |
| Utils.GenWildcards | celery_exporter/utils.py:7-13 | the popping loop returns exactly `Wildcards(name)` |
| Utils.DefaultList | celery_exporter/utils.py:26-28 | the collected defaults are each configuration's `task_default_queue`, or "celery" |
| Utils.FirstRoute | celery_exporter/utils.py:36-39 | the queue of the first candidate routed with a queue (entries without one are skipped), or the default when none is |
| Utils.MatchRoute | celery_exporter/utils.py:36-39 | the loop with its early break returns `FirstRoute` |
| Utils.GetConfig | celery_exporter/utils.py:16-42 | the nested loops with their break end as `Config` says: the table, an empty table when the inspection raised, and the error when `conf()` gave `None` and a task is visited |
| Utils.TaskPassFrame | celery_exporter/utils.py:26-41 | one task's pass over the configurations maps that task (if there is any configuration) and no other entry changes |
| Utils.FoldKeys | celery_exporter/utils.py:25 | the result's keys are exactly the visited task names, when there is a configuration |
| Utils.KeysAreRegistered | celery_exporter/utils.py:17-26 | the table is empty when the inspection raised; when `conf()` gave `None`, `get_config` raises exactly when some task is registered and returns an empty table otherwise; with configurations the keys are exactly the registered task names |
| Utils.FoldKeeps | celery_exporter/utils.py:25-30 | a task that is not visited again keeps its entry |
| Utils.FoldPass | celery_exporter/utils.py:25 | visiting each name once, a task whose pass gives v ends up mapped to v |
| Utils.SinglePass | celery_exporter/utils.py:32-41 | with one configuration, a task maps to that configuration's route or default |
| Utils.FirstWriterPass | celery_exporter/utils.py:29-30 | when the first worker maps a task to a queue that is no worker's default, later workers do not overwrite it |
| Utils.DefaultsOverwrite | celery_exporter/utils.py:27-30 | while a task is mapped to a collected default, each later worker overwrites it |
| Utils.LastDefaultPass | celery_exporter/utils.py:26-30 | when every worker resolves a task to its own default, the last worker's default wins |
| Utils.ConfigGives | celery_exporter/utils.py:25-41 | a registered task whose pass gives v is mapped to v in the result |
| Utils.NoRoutesGivesDefault | celery_exporter/utils.py:40-41 | a configuration without `task_routes` maps every task to its default, "celery" when it sets none |
| Utils.ExactRouteWins | celery_exporter/utils.py:33-39 | a route for the exact task name with a queue wins |
| Utils.ExampleTrial | test/test_unit.py:24-39 | with the test's workers, "trial" resolves to "deadbeef" |
| Utils.ExampleOther | test/test_unit.py:24-39 | with the test's workers, any other task resolves to "celery" (its route has no queue) |
| Utils.RoutingExample | test/test_unit.py:24-39 | the test's cluster gives the routing table {task: "celery", "trial": "deadbeef"} |
| Monitor.Inc | celery_exporter/monitor.py:48-50 | `.inc()` raises one series by one and leaves every other series alone |
| Monitor.Observe | celery_exporter/monitor.py:44-46 | `.observe(v)` adds one observation of v to one series and leaves every other series alone |
| Monitor.ObserveLatency | celery_exporter/monitor.py:35-39 | only the latency metric changes, and nothing changes without a latency |
| Monitor.RecordCollect | celery_exporter/monitor.py:40-50 | the latency and worker metrics do not change, and nothing changes when `collect` names no task |
| Monitor.ProcessTask | celery_exporter/monitor.py:34-50 | the tracker ends as latency-then-collect leaves it, and the worker gauge is untouched |
| Monitor.ProcessCountsOnce | celery_exporter/monitor.py:40-50 | every event raises exactly one `celery_tasks_total` series, labelled with its state, by one |
| Monitor.ProcessLatencyHalf | celery_exporter/monitor.py:34-40 | the latency metric after the event is what its latency half left |
| Monitor.LatencyHalfObserved | celery_exporter/monitor.py:35-39 | the latency half observes the measured gap under the cached name and queue |
| Monitor.ProcessLatencyObserved | celery_exporter/monitor.py:35-39 | for a STARTED record whose cached record is RECEIVED, one latency observation of the gap is recorded |
| Monitor.ProcessLatencyNotObserved | celery_exporter/monitor.py:35-39 | for any other record the latency metric is unchanged |
| Monitor.ProcessRuntime | celery_exporter/monitor.py:43-46 | the runtime is observed exactly for terminal records that carry one, under the counted name and queue |
| Monitor.WorkerEventCounted | celery_exporter/monitor.py:34-50 | the first "worker-online" event is counted as a task "undefined" in state UNDEFINED |
| Monitor.StartedAfterPop | test/test_unit.py:205-286 | a nameless "started" event for a popped uuid is counted under ("undefined", STARTED, "undefined"), without a latency |
| Monitor.StartedUncached | celery_exporter/monitor.py:34-50 | a nameless STARTED record for an uncached uuid is counted under "undefined" with the queue "undefined", and no latency is observed |
| Monitor.UncachedKey | src/lib.rs:139-157 | such a record is reported under the name "undefined" and the queue "undefined" |
| Monitor.LatencyBeforeCollect | celery_exporter/monitor.py:35-40 | the latency is measurable before `collect` but no longer after it |
| Monitor.SentStep | test/test_unit.py:138-153 | the sent event caches the record, records its queue and counts PENDING |
| Monitor.ReceivedStep | test/test_unit.py:155-169 | the received event changes only the cached state and counts RECEIVED |
| Monitor.StartedStep | test/test_unit.py:171-183 | the started event observes the latency and counts STARTED |
| Monitor.SucceededStep | test/test_unit.py:185-203 | the succeeded event pops the record, observes the runtime and counts SUCCESS |
| Monitor.FirstHalf | test/test_unit.py:138-169 | after sent and received, the RECEIVED record is cached with its queue, and PENDING and RECEIVED are counted |
| Monitor.SecondHalf | test/test_unit.py:171-203 | after started and succeeded, the record is gone, STARTED and SUCCESS are counted, and one latency and one runtime are observed |
| Monitor.TaskLifecycle | test/test_unit.py:111-261 | the four events evict the record, count each of the four states once, and observe one latency (started minus sent) and one runtime |
| Monitor.FourIncs | celery_exporter/monitor.py:48-50 | four increments of four distinct series raise each by one and leave every other series alone |
| Monitor.TouchAll | celery_exporter/monitor.py:117-128 | `.labels(...)` creates the missing series at zero and keeps every existing value |
| Monitor.TouchAllIdempotent | celery_exporter/monitor.py:112-128 | touching twice is touching once |
| Monitor.SetupCreatesSeries | celery_exporter/monitor.py:124-128 | every (task, queue) of the table gets a counter series for every state of `ALL_STATES` and a latency series, each new one at zero, and the worker gauge exists |
| Monitor.SetupNoRejected | celery_exporter/monitor.py:127-128 | no REJECTED counter series is created, since REJECTED is not in `ALL_STATES` |
| Monitor.Setup | celery_exporter/monitor.py:117-118 | when `get_config` raised, only the worker gauge has been touched |
| Monitor.SetupWithoutConfs | celery_exporter/monitor.py:117-118 | when no worker answered `conf()` and a task is registered, `setup_metrics` raises with no counter, latency or runtime series changed and the worker gauge created |
| Monitor.SetupKeepsValues | celery_exporter/monitor.py:112-128 | no existing series changes value, and the runtime metric is untouched |
| Monitor.SetupIdempotent | celery_exporter/monitor.py:112-128 | running `setup_metrics` twice with the same table equals running it once |
| Monitor.SetupEmptyConfig | celery_exporter/monitor.py:120-123 | with an empty table the counter and latency series stay exactly as they were |
| Monitor.InitialMetricValues | test/test_unit.py:41-62 | on a fresh registry, the test's cluster yields, for a task routed to "celery", a zero counter for every state of `ALL_STATES`, a latency series without observations, and a zero worker gauge |
| Monitor.Registry.constructor | celery_exporter/monitor.py:112 | a new registry has no series |
| Monitor.Registry.IncTask | celery_exporter/monitor.py:48-50 | the in-place increment is `Inc` |
| Monitor.Registry.ObserveRuntime | celery_exporter/monitor.py:44-46 | the in-place runtime observation is `Observe` |
| Monitor.Registry.ObserveLatency | celery_exporter/monitor.py:37-39 | the in-place latency observation is `Observe` |
| Monitor.Registry.SetWorkers | celery_exporter/monitor.py:85-87 | the gauge of the namespace is set and nothing else changes |
| Monitor.Registry.TouchTask | celery_exporter/monitor.py:123 | touching one counter series is `TouchAll` of it |
| Monitor.Registry.TouchStates | celery_exporter/monitor.py:127-128 | the loop over `ALL_STATES` touches exactly the task's state series |
| Monitor.Registry.TouchLatency | celery_exporter/monitor.py:126 | touching one latency series is `TouchAll` of it |
| Monitor.Registry.TouchWorkers | celery_exporter/monitor.py:117 | touching the gauge is `TouchAll` of the namespace |
| Monitor.SetupMetrics | celery_exporter/monitor.py:112-128 | the in-place `setup_metrics` raises exactly when `get_config` does, and leaves the registry as `Setup` says: `SetupStep` of the returned table, or only the gauge touched |
| Monitor.RetouchSamples | celery_exporter/monitor.py:120-123 | re-touching the existing counter samples changes nothing |
| Monitor.TouchSeries | celery_exporter/monitor.py:125-128 | one table entry touches its latency series and the counter series of every state of `ALL_STATES` |
| Monitor.FirstStateKeysNext | celery_exporter/monitor.py:127-128 | one state more in the loop is one counter series more |
| Monitor.LatencyKeysStep | celery_exporter/monitor.py:124-126 | adding a table entry adds exactly its latency series |
| Monitor.TaskKeysStep | celery_exporter/monitor.py:124-128 | adding a table entry adds exactly its state series |
| Monitor.TouchConfig | celery_exporter/monitor.py:124-128 | the loop over the table touches exactly its latency series and its state series |
| Monitor.WorkersStep | celery_exporter/monitor.py:83-89 | the gauge is set to the number of ping replies and no other series changes; when the ping raised, only the gauge series is created (at 0 if it was missing) and every value is kept |
| Monitor.WorkersAfterFailedPing | celery_exporter/monitor.py:85-86 | a raised ping only touches the gauge, and a later reply sets it as if the failure had not happened |
| Monitor.WorkersCountExample | test/test_unit.py:64-109 | no reply, one, two, then none again set the gauge to 0, 1, 2, 0 |
| Monitor.TaskThread.constructor | celery_exporter/monitor.py:21-29 | a new thread holds a fresh, empty tracker of the given capacity |
| Monitor.TaskThread.ProcessEvent | celery_exporter/monitor.py:34-50 | the in-place `_process_event` leaves the tracker and the registry as `ProcessStep` says |
| Monitor.WorkerMonitoringThread.constructor | celery_exporter/monitor.py:72-76 | the thread keeps its namespace and registry |
| Monitor.WorkerMonitoringThread.UpdateWorkersCount | celery_exporter/monitor.py:83-89 | the in-place gauge update is `WorkersStep` |
| CustomStatePy.EventOn | celery_exporter/state.py:17-38 | every event is counted; an event of another group is ignored and changes no record; a task event reports `created` exactly when its uuid was absent, leaves its record most recent and cached as `Folded` (client set on "sent", then `Task.event`), and counts a task exactly on "received" |
| CustomStatePy.CollectOn | celery_exporter/state.py:44-63 | `collect` keeps the cache well formed |
| CustomStatePy.EventKeepsOthers | celery_exporter/state.py:25-29 | a task event changes no other record; the only one that can disappear is the cache's first key, evicted when a new record enters a full cache |
| CustomStatePy.EventRecency | celery_exporter/state.py:25-36 | a task event uses its record twice (read or create, then store), and a cache ordered by last use stays so |
| CustomStatePy.EventEvictsLeastRecent | celery_exporter/state.py:25-29 | in a cache ordered by last use, the record a task event evicts was used before every record that stays |
| CustomStatePy.TaskStep | celery_exporter/state.py:22-38 | the task branch keeps the cache well formed at the same capacity, does not count the event again, and reports `created` exactly when the uuid was absent |
| CustomStatePy.EventBounded | celery_exporter/state.py:13-14 | the cache never holds more than `max_tasks_in_memory` records |
| CustomStatePy.ClientOfRecord | celery_exporter/state.py:30-31 | "sent" sets the client to the event's hostname; other subjects keep the record's client, or none for a created record |
| CustomStatePy.ClientSurvives | celery_exporter/state.py:30-31 | after a "sent" event from h, later non-"sent" events of the task leave h as its client |
| CustomStatePy.ClientKept | celery_exporter/state.py:30-31 | events of one task other than "sent" keep its client |
| CustomStatePy.Replay | celery_exporter/state.py:20 | replaying events counts each of them |
| CustomStatePy.ReplayCounts | celery_exporter/state.py:33-34 | replaying events adds one task per "received" task event |
| CustomStatePy.CollectReady | celery_exporter/state.py:46-55 | in a ready state the record is removed and its name (or "") is reported with the event's runtime, and neither counter moves |
| CustomStatePy.CollectNotReady | celery_exporter/state.py:56-63 | in any other state the event is recorded first, no runtime is reported, and a task event's record stays cached and gives its name (or "") |
| CustomStatePy.KindParts | celery_exporter/state.py:21 | `partition("-")` of "group-subject" gives the group and the subject |
| CustomStatePy.NotATaskIgnored | celery_exporter/state.py:21-22 | "notatask-sent" is not a task event, and only the event counter moves |
| CustomStatePy.TrackersDisagreeOnNotATask | celery_exporter/state.py:21-22 | this tracker ignores "notatask-sent" while src/lib.rs decodes it as PENDING |
| CustomStatePy.TaskEventParts | celery_exporter/state.py:21 | "task-SUBJECT" is a task event with that subject |
| CustomStatePy.CustomState.constructor | celery_exporter/state.py:13-15 | a new tracker has zero counters and an empty cache of the given limit |
| CustomStatePy.CustomState.WithDefaultLimit | celery_exporter/state.py:13-15 | `CustomState()` has zero counters and an empty cache of the default limit, 10000 |
| CustomStatePy.CustomState.GetOrCreate | celery_exporter/state.py:25-29 | `get_task(uuid)` promotes a cached record, and a `KeyError` stores a fresh one; either way it returns what is now cached under the uuid |
| CustomStatePy.CustomState.TaskEvent | celery_exporter/state.py:22-38 | the in-place task branch returns and leaves what `TaskStep` says |
| CustomStatePy.CustomState.EventUnlocked | celery_exporter/state.py:17-38 | the in-place `_event` returns and leaves what `EventOn` says |
| CustomStatePy.CustomState.Event | celery_exporter/state.py:40-42 | `event` acts as `_event` |
| CustomStatePy.CustomState.Collect | celery_exporter/state.py:44-63 | the in-place `collect` returns and leaves what `CollectOn` says |

## Left out

- The thread loops are left out: `TaskThread.run` and `_monitor`, `WorkerMonitoringThread.run` and `EnableEventsThread`. They are infinite loops over broker connections and sleeps, so they are I/O.
- The mutex in `CustomState` is left out. Every operation is modelled as sequential and atomic, and `CustomState.Event` is simply `_event`.
- The command line, startup and HTTP server (celery_exporter/__main__.py, celery_exporter/core.py) are not part of this model. Neither are the metric declarations of celery_exporter/metrics.py: the metrics are maps from the label tuples monitor.py uses.
- The SSL helpers `generate_broker_use_ssl` and `get_transport_scheme` are not part of this model, because their code does not appear in utils.py.
- Histogram buckets are left out; a histogram is its count and sum. Timestamps, latencies and runtimes are exact reals, not `f64`.
- The `i32` counters `event_count` and `task_count` are unbounded integers, so their overflow is not modelled.
- The panics of src/lib.rs are preconditions: a `type` without "-", and a missing `type` or `local_received`. A start with capacity 0 is one too, because the `lru` crate cannot store anything then (`CeleryState.constructor` requires a positive capacity).
- In state.py, a task event without a uuid makes the field lookup raise. The model makes this a precondition of `EventOn`, and of `CollectOn` in the non-ready branch. A missing hostname, timestamp or `local_received` cannot occur, because those fields are not optional in the event record.
- CustomStatePy.Folded: celery's `Task.event` is the parameter `update`, over the record's name and state only. The model assumes it does not change the uuid or the `client` field.
- celery's `LRUCache(limit)` with a negative limit is not modelled; the limit is a natural number, with 0 meaning unbounded.
- Utils.GetConfig: Python's iteration order over the set of registered names is the parameter `order`. Lemmas that depend on the order require `Enumerates`.
- Utils.GetConfig: a `task_routes` value is modelled as a dictionary whose "queue" entry is optional. celery also accepts a plain queue name there, and then `"queue" in routes[i]` is a substring test and `routes[i]["queue"]` raises `TypeError`. A `task_routes` that is a list of routers is not modelled either.
- An exception from `app.control.inspect()` or `ping` is the value `None`; the logging that follows it is left out.
- `TaskThread`'s unused fields `_known_states`, `_known_states_names` and `_tasks_started` are left out.
- Monitor.TaskLifecycle: states the run of the unit test with "succeeded" following "started" directly. The test's later events are stated separately: the nameless "started" of a popped uuid in `Monitor.StartedAfterPop`, and "notatask-sent" in `CeleryStateLib.NotATaskIsATask`.
