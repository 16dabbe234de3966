/**
 * The routing helpers of celery_exporter/utils.py: the wildcard names a
 * dotted task name can be routed by (`_gen_wildcards`) and the table from
 * task name to queue built from the workers' registered tasks and
 * configurations (`get_config`).
 *
 * The answers of `app.control.inspect()` come in as a value: `None` when
 * asking for them raised, otherwise the registered-task lists and the
 * configurations, each in the order the reply dictionaries iterate.
 * Python's iteration order over the set of task names is the parameter
 * `order`.
 */
module Utils {
  import opened Wrappers
  import Lru

  /** `CELERY_DEFAULT_QUEUE`. */
  const CeleryDefaultQueue: string := "celery"

  /** Python's `s.split(".")`: always at least one piece, "" pieces included. */
  function Split(s: string): (ps: seq<string>)
    ensures |ps| >= 1
    ensures forall i | 0 <= i < |ps| :: '.' !in ps[i]
    decreases |s|
  {
    if s == [] then [""]
    else if s[0] == '.' then [""] + Split(s[1..])
    else
      var rest := Split(s[1..]);
      assert '.' !in [s[0]] + rest[0];
      [[s[0]] + rest[0]] + rest[1..]
  }

  /** Python's `".".join(ps)`. */
  function Join(ps: seq<string>): string {
    if |ps| == 0 then ""
    else if |ps| == 1 then ps[0]
    else ps[0] + "." + Join(ps[1..])
  }

  /** Joining the pieces gives the name back. */
  lemma {:induction false} JoinSplit(s: string)
    ensures Join(Split(s)) == s
    decreases |s|
  {
    if s != [] {
      JoinSplit(s[1..]);
      var rest := Split(s[1..]);
      if s[0] == '.' {
        assert s == "." + s[1..];
      } else {
        var ps := Split(s);
        assert ps[1..] == rest[1..];
        if |rest| > 1 {
          assert Join(rest) == rest[0] + "." + Join(rest[1..]);
        }
        assert s == [s[0]] + s[1..];
      }
    }
  }

  /** Appending a piece to a join adds a "." and the piece. */
  lemma {:induction false} JoinSnoc(ps: seq<string>, x: string)
    ensures Join(ps + [x]) == if ps == [] then x else Join(ps) + "." + x
  {
    if |ps| > 1 {
      assert (ps + [x])[1..] == ps[1..] + [x];
      JoinSnoc(ps[1..], x);
    } else if |ps| == 1 {
      assert (ps + [x])[1..] == [x];
    }
  }

  /**
   * The wildcards after the name itself: dropping the last of the pieces
   * in `ps`, the remaining ones followed by "*", and so on down to "*".
   */
  function Candidates(ps: seq<string>): seq<string> {
    if ps == [] then []
    else
      var init := ps[..|ps| - 1];
      [Join(init + ["*"])] + Candidates(init)
  }

  /** `_gen_wildcards(name)`. */
  function Wildcards(name: string): seq<string> {
    [name] + Candidates(Split(name))
  }

  /** Wildcard `i` of the pieces `ps` keeps the first `|ps| - 1 - i` of them. */
  lemma {:induction false} CandidatesShape(ps: seq<string>)
    ensures |Candidates(ps)| == |ps|
    ensures forall i | 0 <= i < |ps| :: Candidates(ps)[i] == Join(ps[..|ps| - 1 - i] + ["*"])
  {
    if ps != [] {
      var init := ps[..|ps| - 1];
      CandidatesShape(init);
      forall i | 0 <= i < |ps| ensures Candidates(ps)[i] == Join(ps[..|ps| - 1 - i] + ["*"]) {
        if i > 0 {
          assert Candidates(ps)[i] == Candidates(init)[i - 1];
          assert init[..|init| - 1 - (i - 1)] == ps[..|ps| - 1 - i];
        }
      }
    }
  }

  /**
   * For a name of k pieces there are k + 1 wildcards: the name itself,
   * then for 1 <= i <= k the first k - i pieces joined by "." and followed
   * by ".*", which for i = k is just "*".
   */
  lemma WildcardsShape(name: string)
    ensures
      var ps := Split(name);
      var k := |ps|;
      var r := Wildcards(name);
      && |r| == k + 1 && r[0] == name && r[k] == "*"
      && forall i | 1 <= i <= k :: r[i] == if i == k then "*" else Join(ps[..k - i]) + ".*"
  {
    var ps := Split(name);
    var k := |ps|;
    CandidatesShape(ps);
    forall i | 1 <= i <= k
      ensures Wildcards(name)[i] == if i == k then "*" else Join(ps[..k - i]) + ".*"
    {
      assert Wildcards(name)[i] == Candidates(ps)[i - 1];
      JoinSnoc(ps[..k - i], "*");
    }
  }

  /** Every wildcard after the name itself ends in "*". */
  lemma WildcardsEndInStar(name: string, i: nat)
    requires 1 <= i < |Wildcards(name)|
    ensures |Wildcards(name)[i]| > 0 && Wildcards(name)[i][|Wildcards(name)[i]| - 1] == '*'
  {
    WildcardsShape(name);
  }

  /** A name without "." is a single piece. */
  lemma {:induction false} SplitNoDot(a: string)
    requires '.' !in a
    ensures Split(a) == [a]
  {
    if a != [] {
      assert '.' !in a[1..] by { assert forall i | 0 <= i < |a| - 1 :: a[1..][i] == a[i + 1]; }
      SplitNoDot(a[1..]);
      assert a == [a[0]] + a[1..];
    }
  }

  /** A piece without "." followed by "." starts the split. */
  lemma {:induction false} SplitDot(a: string, b: string)
    requires '.' !in a
    ensures Split(a + "." + b) == [a] + Split(b)
  {
    if a == [] {
      assert a + "." + b == "." + b;
      assert ("." + b)[1..] == b;
    } else {
      assert '.' !in a[1..] by { assert forall i | 0 <= i < |a| - 1 :: a[1..][i] == a[i + 1]; }
      SplitDot(a[1..], b);
      assert (a + "." + b)[1..] == a[1..] + "." + b;
      assert a == [a[0]] + a[1..];
    }
  }

  /** `test_gen_wildcards`: "aaa". */
  lemma WildcardsOnePiece()
    ensures Wildcards("aaa") == ["aaa", "*"]
  {
    SplitNoDot("aaa");
    assert ["aaa"][..0] == [];
  }

  /** `test_gen_wildcards`: "aaa.bbb". */
  lemma WildcardsTwoPieces()
    ensures Wildcards("aaa.bbb") == ["aaa.bbb", "aaa.*", "*"]
  {
    SplitNoDot("bbb");
    assert "aaa.bbb" == "aaa" + "." + "bbb";
    SplitDot("aaa", "bbb");
    var ps := ["aaa", "bbb"];
    assert ps[..1] == ["aaa"] && ["aaa"][..0] == [];
    assert Join(["aaa", "*"]) == "aaa.*";
  }

  /** Two pieces without "." joined by "." split back into those pieces. */
  lemma SplitTwo(c: string, d: string)
    requires '.' !in c && '.' !in d
    ensures Split(c + "." + d) == [c, d]
  {
    SplitNoDot(d);
    SplitDot(c, d);
  }

  /** Three pieces without "." joined by "." split back into those pieces. */
  lemma SplitThree(b: string, c: string, d: string)
    requires '.' !in b && '.' !in c && '.' !in d
    ensures Split(b + "." + c + "." + d) == [b, c, d]
  {
    SplitTwo(c, d);
    SplitDot(b, c + "." + d);
    var x := b + ".";
    Assoc(x, c, ".");
    Assoc(x, c + ".", d);
  }

  /** Four pieces without "." joined by "." split back into those pieces. */
  lemma SplitFour(a: string, b: string, c: string, d: string)
    requires '.' !in a && '.' !in b && '.' !in c && '.' !in d
    ensures Split(a + "." + b + "." + c + "." + d) == [a, b, c, d]
  {
    SplitThree(b, c, d);
    SplitDot(a, b + "." + c + "." + d);
    var x := a + ".";
    Assoc(x, b, ".");
    Assoc(x, b + ".", c);
    Assoc(x, b + "." + c, ".");
    Assoc(x, b + "." + c + ".", d);
  }

  /** Concatenation regroups. */
  lemma Assoc(x: string, y: string, z: string)
    ensures x + y + z == x + (y + z)
  {
    assert forall i | 0 <= i < |x| + |y| + |z| :: (x + y + z)[i] == (x + (y + z))[i];
  }

  /** The wildcards of four pieces. */
  lemma CandidatesFour(a: string, b: string, c: string, d: string)
    ensures Candidates([a, b, c, d]) == [a + "." + b + "." + c + ".*", a + "." + b + ".*", a + ".*", "*"]
  {
    assert [a, b, c, d][..3] == [a, b, c];
    CandidatesThree(a, b, c);
    assert Join([a, b, c, "*"]) == a + "." + b + "." + c + ".*" by {
      assert [a, b, c, "*"][1..] == [b, c, "*"];
      assert [b, c, "*"][1..] == [c, "*"];
      assert [c, "*"][1..] == ["*"];
      assert Join([c, "*"]) == c + ".*";
      assert Join([b, c, "*"]) == b + "." + c + ".*";
    }
    assert [a, b, c] + ["*"] == [a, b, c, "*"];
  }

  /** The candidates of three pieces. */
  lemma CandidatesThree(a: string, b: string, c: string)
    ensures Candidates([a, b, c]) == [a + "." + b + ".*", a + ".*", "*"]
  {
    assert [a, b, c][..2] == [a, b];
    CandidatesTwo(a, b);
    assert Join([a, b, "*"]) == a + "." + b + ".*" by {
      assert [a, b, "*"][1..] == [b, "*"];
      assert [b, "*"][1..] == ["*"];
      assert Join([b, "*"]) == b + ".*";
    }
    assert [a, b] + ["*"] == [a, b, "*"];
  }

  /** The candidates of two pieces. */
  lemma CandidatesTwo(a: string, b: string)
    ensures Candidates([a, b]) == [a + ".*", "*"]
  {
    assert [a, b][..1] == [a];
    assert [a][..0] == [];
    assert Candidates([a]) == ["*"] by {
      assert [] + ["*"] == ["*"];
    }
    assert Join([a, "*"]) == a + ".*" by {
      assert [a, "*"][1..] == ["*"];
    }
    assert [a] + ["*"] == [a, "*"];
  }

  /** A name of four pieces has the four wildcards after it. */
  lemma WildcardsFour(a: string, b: string, c: string, d: string)
    requires '.' !in a && '.' !in b && '.' !in c && '.' !in d
    ensures Wildcards(a + "." + b + "." + c + "." + d) ==
      [a + "." + b + "." + c + "." + d, a + "." + b + "." + c + ".*", a + "." + b + ".*", a + ".*", "*"]
  {
    SplitFour(a, b, c, d);
    CandidatesFour(a, b, c, d);
  }

  /** `test_gen_wildcards`: "aaa.bbb.ccc.ddd", with its pieces named. */
  lemma WildcardsFourPieces(a: string, b: string, c: string, d: string)
    requires a == "aaa" && b == "bbb" && c == "ccc" && d == "ddd"
    ensures a + "." + b + "." + c + "." + d == "aaa.bbb.ccc.ddd"
    ensures Wildcards(a + "." + b + "." + c + "." + d) ==
      ["aaa.bbb.ccc.ddd", "aaa.bbb.ccc.*", "aaa.bbb.*", "aaa.*", "*"]
  {
    WildcardsFour(a, b, c, d);
    var r := Wildcards(a + "." + b + "." + c + "." + d);
    assert r[0] == "aaa.bbb.ccc.ddd";
    assert r[1] == "aaa.bbb.ccc.*";
    assert r[2] == "aaa.bbb.*";
    assert r[3] == "aaa.*";
    assert r[4] == "*";
  }

  /** `_gen_wildcards`: pop the last piece and append the rest followed by "*", once per piece. */
  method GenWildcards(name: string) returns (res: seq<string>)
    ensures res == Wildcards(name)
  {
    var chunked := Split(name);
    var k := |chunked|;
    res := [name];
    // `for elem in reversed(chunked)` visits every piece once, although the body pops them
    for n := 0 to k
      invariant chunked == Split(name)[..k - n]
      invariant res + Candidates(chunked) == Wildcards(name)
    {
      var init := chunked[..|chunked| - 1];
      assert Candidates(chunked) == [Join(init + ["*"])] + Candidates(init);
      chunked := init;
      res := res + [Join(chunked + ["*"])];
    }
  }

  /** A `task_routes` entry; only its "queue" key is read. */
  datatype Route = Route(queue: Option<string>)

  /** A worker's configuration: `task_routes` (a dictionary) and `task_default_queue`, either possibly absent. */
  datatype Conf = Conf(taskRoutes: Option<map<string, Route>>, taskDefaultQueue: Option<string>)

  /**
   * The values of the `registered_tasks()` and `conf()` replies. celery
   * gives `None` rather than an empty dictionary when no worker answers;
   * `confs` is `None` then.
   */
  datatype Cluster = Cluster(registered: seq<seq<string>>, confs: Option<seq<Conf>>)

  /**
   * How `get_config` ends: with a table, or raising `AttributeError` at
   * `confs.values()` when `conf()` gave `None` and there is a task to visit.
   */
  datatype ConfigResult = Table(table: map<string, string>) | Raised

  /** `conf.get("task_default_queue", CELERY_DEFAULT_QUEUE)`. */
  function DefaultOf(conf: Conf): string {
    conf.taskDefaultQueue.GetOr(CeleryDefaultQueue)
  }

  /** The defaults of the configurations, in order. */
  function DefaultList(confs: seq<Conf>): (r: seq<string>)
    ensures |r| == |confs| && forall k | 0 <= k < |confs| :: r[k] == DefaultOf(confs[k])
  {
    if confs == [] then [] else [DefaultOf(confs[0])] + DefaultList(confs[1..])
  }

  /** `name in routes and "queue" in routes[name]`. */
  predicate Routed(routes: map<string, Route>, name: string) {
    name in routes && routes[name].queue.Some?
  }

  /**
   * The queue of the first candidate that is routed with a queue, or
   * `default` when there is none: both cases, each from its own side.
   */
  function FirstRoute(routes: map<string, Route>, names: seq<string>, default: string): (q: string)
    ensures (forall i | 0 <= i < |names| :: !Routed(routes, names[i])) ==> q == default
    ensures forall i | 0 <= i < |names| && Routed(routes, names[i]) && (forall j | 0 <= j < i :: !Routed(routes, names[j])) ::
      q == routes[names[i]].queue.value
  {
    if names == [] then default
    else if Routed(routes, names[0]) then routes[names[0]].queue.value
    else
      var q := FirstRoute(routes, names[1..], default);
      assert forall i | 1 <= i < |names| :: names[i] == names[1..][i - 1];
      q
  }

  /** The queue one configuration routes `task` to. */
  function Resolve(conf: Conf, task: string): string {
    if conf.taskRoutes.Some? then FirstRoute(conf.taskRoutes.value, Wildcards(task), DefaultOf(conf))
    else DefaultOf(conf)
  }

  /**
   * The inner loop of `get_config` for one task over `confs`: append the
   * configuration's default to `default_queues`, stop when the task is
   * already mapped to a queue not among them, and otherwise map it to the
   * configuration's queue.
   */
  function TaskPass(confs: seq<Conf>, task: string, res: map<string, string>, dq: seq<string>)
    : (map<string, string>, seq<string>)
    decreases |confs|
  {
    if confs == [] then (res, dq)
    else
      var dq1 := dq + [DefaultOf(confs[0])];
      if task in res && res[task] !in dq1 then (res, dq1)
      else TaskPass(confs[1..], task, res[task := Resolve(confs[0], task)], dq1)
  }

  /** The outer loop of `get_config` over the task names in `order`. */
  function ConfigFold(confs: seq<Conf>, order: seq<string>, res: map<string, string>, dq: seq<string>)
    : map<string, string>
    decreases |order|
  {
    if order == [] then res
    else
      var p := TaskPass(confs, order[0], res, dq);
      ConfigFold(confs, order[1..], p.0, p.1)
  }

  /**
   * What `get_config` does: an empty table when the inspection raised
   * (inside the `try`), the error when `conf()` gave `None` and a task is
   * registered (outside it), and otherwise the fold over the task names.
   */
  function Config(inspect: Option<Cluster>, order: seq<string>): ConfigResult {
    if inspect.None? then Table(map[])
    else if inspect.value.confs.None? then (if order == [] then Table(map[]) else Raised)
    else Table(ConfigFold(inspect.value.confs.value, order, map[], []))
  }

  /** The loop over the wildcard names in `get_config`: the first routed one's queue, else the default. */
  method MatchRoute(routes: map<string, Route>, names: seq<string>, default: string) returns (q: string)
    ensures q == FirstRoute(routes, names, default)
  {
    q := default;
    var i := 0;
    while i < |names|
      invariant 0 <= i <= |names|
      invariant FirstRoute(routes, names[i..], default) == FirstRoute(routes, names, default)
    {
      ghost var rest := names[i..];
      assert rest[0] == names[i] && rest[1..] == names[i + 1..];
      if names[i] in routes && routes[names[i]].queue.Some? {
        q := routes[names[i]].queue.value;
        assert Routed(routes, rest[0]) && FirstRoute(routes, rest, default) == q;
        return;
      }
      assert !Routed(routes, rest[0]) && FirstRoute(routes, rest, default) == FirstRoute(routes, names[i + 1..], default);
      i := i + 1;
    }
  }

  /** `get_config(app)`, with the inspection replies as `inspect` and the task-name set's order as `order`. */
  method GetConfig(inspect: Option<Cluster>, order: seq<string>) returns (r: ConfigResult)
    ensures r == Config(inspect, order)
  {
    var res: map<string, string> := map[];
    if inspect.None? {
      return Table(res);
    }
    var defaultQueues: seq<string> := [];
    for n := 0 to |order|
      invariant inspect.value.confs.None? ==> n == 0 && res == map[]
      invariant inspect.value.confs.Some? ==>
        Table(ConfigFold(inspect.value.confs.value, order[n..], res, defaultQueues)) == Config(inspect, order)
    {
      if inspect.value.confs.None? {
        // `confs.values()` on `None`
        return Raised;
      }
      var confs := inspect.value.confs.value;
      var task := order[n];
      assert order[n..][1..] == order[n + 1..];
      ghost var after := TaskPass(confs, task, res, defaultQueues);
      var j := 0;
      while j < |confs|
        invariant 0 <= j <= |confs|
        invariant TaskPass(confs[j..], task, res, defaultQueues) == after
      {
        var conf := confs[j];
        var default := DefaultOf(conf);
        defaultQueues := defaultQueues + [default];
        if task in res && res[task] !in defaultQueues {
          break;
        }
        var names := GenWildcards(task);
        if conf.taskRoutes.Some? {
          var q := MatchRoute(conf.taskRoutes.value, names, default);
          res := res[task := q];
        } else {
          res := res[task := default];
        }
        assert confs[j..][1..] == confs[j + 1..];
        j := j + 1;
      }
      assert (res, defaultQueues) == after;
    }
    return Table(res);
  }

  // ---- Properties of the routing table ----

  /** The task names of all registered-task lists. */
  function Registered(c: Cluster): set<string> {
    set ts, t | ts in c.registered && t in ts :: t
  }

  /** `order` lists each registered task exactly once (an iteration order of the set). */
  predicate Enumerates(order: seq<string>, c: Cluster) {
    && Lru.NoDup(order)
    && (forall t | t in order :: t in Registered(c))
    && (forall t | t in Registered(c) :: t in order)
  }

  /** One pass maps `task` (when there is a configuration) and leaves every other entry alone. */
  lemma {:induction false} TaskPassFrame(confs: seq<Conf>, task: string, res: map<string, string>, dq: seq<string>)
    ensures
      var p := TaskPass(confs, task, res, dq);
      && p.0.Keys == res.Keys + (if confs == [] then {} else {task})
      && (forall k | k in res && k != task :: p.0[k] == res[k])
      && (forall x | x in p.1 :: x in dq || x in DefaultList(confs))
    decreases |confs|
  {
    if confs != [] {
      var dq1 := dq + [DefaultOf(confs[0])];
      if !(task in res && res[task] !in dq1) {
        TaskPassFrame(confs[1..], task, res[task := Resolve(confs[0], task)], dq1);
      }
    }
  }

  /** The fold maps exactly the tasks it visits, once there is a configuration. */
  lemma {:induction false} FoldKeys(confs: seq<Conf>, order: seq<string>, res: map<string, string>, dq: seq<string>)
    ensures ConfigFold(confs, order, res, dq).Keys == res.Keys + (if confs == [] then {} else set t | t in order)
    decreases |order|
  {
    if order != [] {
      TaskPassFrame(confs, order[0], res, dq);
      var p := TaskPass(confs, order[0], res, dq);
      FoldKeys(confs, order[1..], p.0, p.1);
      assert (set t | t in order) == {order[0]} + (set t | t in order[1..]);
    }
  }

  /**
   * The table is empty when the inspection raised; `get_config` raises
   * exactly when no configuration came back and some task is registered;
   * otherwise the keys of the table are the registered task names (none
   * for an empty list of configurations).
   */
  lemma KeysAreRegistered(inspect: Option<Cluster>, order: seq<string>)
    requires inspect.Some? ==> Enumerates(order, inspect.value)
    ensures inspect.None? ==> Config(inspect, order) == Table(map[])
    ensures inspect.Some? && inspect.value.confs.None? ==>
      (Config(inspect, order).Raised? <==> Registered(inspect.value) != {})
    ensures inspect.Some? && inspect.value.confs.None? && Registered(inspect.value) == {} ==> Config(inspect, order) == Table(map[])
    ensures inspect.Some? && inspect.value.confs.Some? && inspect.value.confs.value != [] ==>
      Config(inspect, order).Table? && Config(inspect, order).table.Keys == Registered(inspect.value)
    ensures inspect.Some? && inspect.value.confs == Some([]) ==> Config(inspect, order) == Table(map[])
  {
    if inspect.Some? {
      if inspect.value.confs.Some? {
        FoldKeys(inspect.value.confs.value, order, map[], []);
      } else if order != [] {
        assert order[0] in Registered(inspect.value);
      }
    }
  }

  /** A task name not visited keeps its entry through the fold. */
  lemma {:induction false} FoldKeeps(confs: seq<Conf>, order: seq<string>, res: map<string, string>, dq: seq<string>, t: string)
    requires t !in order && t in res
    ensures t in ConfigFold(confs, order, res, dq) && ConfigFold(confs, order, res, dq)[t] == res[t]
    decreases |order|
  {
    if order != [] {
      TaskPassFrame(confs, order[0], res, dq);
      var p := TaskPass(confs, order[0], res, dq);
      FoldKeeps(confs, order[1..], p.0, p.1, t);
    }
  }

  /** Every queue in `dq` is the default of one of `confs`. */
  predicate AllDefaults(dq: seq<string>, confs: seq<Conf>) {
    forall x | x in dq :: x in DefaultList(confs)
  }

  /**
   * Whatever was mapped before (for other tasks) and whatever defaults
   * were collected, a pass over `confs` for a new `task` leaves it mapped
   * to `v`.
   */
  ghost predicate PassGives(confs: seq<Conf>, task: string, v: string) {
    forall res: map<string, string>, dq: seq<string> | task !in res && AllDefaults(dq, confs) ::
      var p := TaskPass(confs, task, res, dq);
      task in p.0 && p.0[task] == v
  }

  /** Visiting each name once, a task whose pass gives `v` ends up mapped to `v`. */
  lemma {:induction false} FoldPass(confs: seq<Conf>, order: seq<string>, res: map<string, string>, dq: seq<string>, t: string, v: string)
    requires Lru.NoDup(order) && t in order && t !in res && AllDefaults(dq, confs)
    requires PassGives(confs, t, v)
    ensures t in ConfigFold(confs, order, res, dq) && ConfigFold(confs, order, res, dq)[t] == v
    decreases |order|
  {
    TaskPassFrame(confs, order[0], res, dq);
    var p := TaskPass(confs, order[0], res, dq);
    assert AllDefaults(p.1, confs);
    if order[0] == t {
      assert t !in order[1..] by {
        forall i | 0 <= i < |order[1..]| ensures order[1..][i] != t {
          assert order[1..][i] == order[i + 1];
        }
      }
      FoldKeeps(confs, order[1..], p.0, p.1, t);
    } else {
      assert Lru.NoDup(order[1..]) by {
        forall i, j | 0 <= i < j < |order[1..]| ensures order[1..][i] != order[1..][j] {
          assert order[1..][i] == order[i + 1] && order[1..][j] == order[j + 1];
        }
      }
      FoldPass(confs, order[1..], p.0, p.1, t, v);
    }
  }

  /** With a single worker, each task gets that worker's queue. */
  lemma SinglePass(conf: Conf, task: string)
    ensures PassGives([conf], task, Resolve(conf, task))
  {
    forall res: map<string, string>, dq: seq<string> | task !in res && AllDefaults(dq, [conf])
      ensures var p := TaskPass([conf], task, res, dq); task in p.0 && p.0[task] == Resolve(conf, task)
    {
      assert [conf][1..] == [];
    }
  }

  /**
   * The first worker's queue sticks when it is not the default queue of
   * any worker: every later worker then stops at the tie-break.
   */
  lemma FirstWriterPass(confs: seq<Conf>, task: string)
    requires confs != [] && Resolve(confs[0], task) !in DefaultList(confs)
    ensures PassGives(confs, task, Resolve(confs[0], task))
  {
    var v := Resolve(confs[0], task);
    forall res: map<string, string>, dq: seq<string> | task !in res && AllDefaults(dq, confs)
      ensures var p := TaskPass(confs, task, res, dq); task in p.0 && p.0[task] == v
    {
      var dq1 := dq + [DefaultOf(confs[0])];
      var res1 := res[task := v];
      assert TaskPass(confs, task, res, dq) == TaskPass(confs[1..], task, res1, dq1);
      if |confs| > 1 {
        var rest := confs[1..];
        assert v !in dq1 + [DefaultOf(rest[0])] by {
          assert DefaultOf(confs[0]) == DefaultList(confs)[0];
          assert DefaultOf(rest[0]) == DefaultList(confs)[1];
        }
      }
    }
  }

  /**
   * When no worker routes `task` anywhere but to its own default queue,
   * every later worker overwrites the entry: the last worker's default wins.
   */
  lemma {:induction false} DefaultsOverwrite(confs: seq<Conf>, task: string, res: map<string, string>, dq: seq<string>)
    requires task in res && res[task] in dq
    requires forall k | 0 <= k < |confs| :: Resolve(confs[k], task) == DefaultOf(confs[k])
    ensures
      var p := TaskPass(confs, task, res, dq);
      task in p.0 && p.0[task] == if confs == [] then res[task] else DefaultOf(confs[|confs| - 1])
    decreases |confs|
  {
    if confs != [] {
      var dq1 := dq + [DefaultOf(confs[0])];
      assert forall k | 0 <= k < |confs| - 1 :: confs[1..][k] == confs[k + 1];
      DefaultsOverwrite(confs[1..], task, res[task := DefaultOf(confs[0])], dq1);
    }
  }

  /** The last worker's default, when every worker maps `task` to its own default. */
  lemma LastDefaultPass(confs: seq<Conf>, task: string)
    requires confs != []
    requires forall k | 0 <= k < |confs| :: Resolve(confs[k], task) == DefaultOf(confs[k])
    ensures PassGives(confs, task, DefaultOf(confs[|confs| - 1]))
  {
    forall res: map<string, string>, dq: seq<string> | task !in res && AllDefaults(dq, confs)
      ensures var p := TaskPass(confs, task, res, dq); task in p.0 && p.0[task] == DefaultOf(confs[|confs| - 1])
    {
      var d := DefaultOf(confs[0]);
      var dq1 := dq + [d];
      assert TaskPass(confs, task, res, dq) == TaskPass(confs[1..], task, res[task := d], dq1);
      assert forall k | 0 <= k < |confs| - 1 :: confs[1..][k] == confs[k + 1];
      DefaultsOverwrite(confs[1..], task, res[task := d], dq1);
    }
  }

  /** The table built from a cluster whose task names come in `order`. */
  lemma ConfigGives(c: Cluster, order: seq<string>, t: string, v: string)
    requires Enumerates(order, c) && t in Registered(c) && c.confs.Some? && PassGives(c.confs.value, t, v)
    ensures Config(Some(c), order).Table?
    ensures t in Config(Some(c), order).table && Config(Some(c), order).table[t] == v
  {
    FoldPass(c.confs.value, order, map[], [], t, v);
  }

  /** A configuration without `task_routes` maps every task to its default queue. */
  lemma NoRoutesGivesDefault(conf: Conf, task: string)
    requires conf.taskRoutes.None?
    ensures Resolve(conf, task) == DefaultOf(conf)
    ensures conf.taskDefaultQueue.None? ==> Resolve(conf, task) == "celery"
  {
  }

  /** A route for the task's own name, with a queue, wins over every wildcard. */
  lemma ExactRouteWins(conf: Conf, task: string)
    requires conf.taskRoutes.Some? && Routed(conf.taskRoutes.value, task)
    ensures Resolve(conf, task) == conf.taskRoutes.value[task].queue.value
  {
    assert Wildcards(task)[0] == task;
  }

  /** The `task_routes` of the first two workers in `TestMockedCelery`. */
  const ExampleRoutes: map<string, Route> := map["my_task" := Route(None), "trial" := Route(Some("deadbeef"))]

  /** The workers' configurations in `TestMockedCelery`: two with `ExampleRoutes`, one empty. */
  const ExampleConfs: seq<Conf> := [Conf(Some(ExampleRoutes), None), Conf(Some(ExampleRoutes), None), Conf(None, None)]

  /** In the example, "trial" is routed by its own name on the first worker, to "deadbeef". */
  lemma ExampleTrial()
    ensures PassGives(ExampleConfs, "trial", "deadbeef")
  {
    ExactRouteWins(ExampleConfs[0], "trial");
    assert DefaultList(ExampleConfs) == ["celery", "celery", "celery"];
    FirstWriterPass(ExampleConfs, "trial");
  }

  /** In the example, no wildcard of another task is routed, so every worker gives "celery". */
  lemma ExampleOther(task: string)
    requires task != "trial"
    ensures PassGives(ExampleConfs, task, "celery")
  {
    var names := Wildcards(task);
    forall i | 0 <= i < |names| ensures !Routed(ExampleRoutes, names[i]) {
      if i > 0 {
        WildcardsEndInStar(task, i);
        assert names[i] != "trial" by {
          assert "trial"[|"trial"| - 1] == 'l';
        }
      }
    }
    forall k | 0 <= k < |ExampleConfs| ensures Resolve(ExampleConfs[k], task) == DefaultOf(ExampleConfs[k]) {
    }
    LastDefaultPass(ExampleConfs, task);
  }

  /**
   * The configuration of `TestMockedCelery`, where the workers registered
   * `task` and "trial": "trial" goes to "deadbeef" and `task` to "celery".
   */
  lemma RoutingExample(task: string, order: seq<string>)
    requires task != "trial"
    requires Enumerates(order, Cluster([[task, "trial"]], Some(ExampleConfs)))
    ensures Config(Some(Cluster([[task, "trial"]], Some(ExampleConfs))), order) == Table(map[task := "celery", "trial" := "deadbeef"])
  {
    var c := Cluster([[task, "trial"]], Some(ExampleConfs));
    assert Registered(c) == {task, "trial"} by {
      var ts := [task, "trial"];
      assert ts in c.registered && task in ts && "trial" in ts;
      forall x | x in Registered(c) ensures x == task || x == "trial" {
      }
    }
    KeysAreRegistered(Some(c), order);
    ExampleTrial();
    ConfigGives(c, order, "trial", "deadbeef");
    ExampleOther(task);
    ConfigGives(c, order, task, "celery");
  }
}
