/** Graphs in which every edge, route and jump leads to the next level: there no task id is scheduled twice, so
    exit durability (graph/executor.py) is faithful. */
module LevelledGraphs {
  import opened Prelude
  import opened Channels
  import opened Interrupts
  import opened Supersteps
  import opened Durability
  import opened Transparency
  import opened ExitDurability
  import Suspension

  type Levels = string -> nat

  /** The start lies below every node. */
  function LevelOf(level: Levels, source: string): int { if source == START then -1 else level(source) }

  /** The target is the end, or lies above `from`: on the very next level if `exact`. */
  predicate Upward(level: Levels, from: int, target: string, exact: bool) {
    target == END || (if exact then level(target) == from + 1 else level(target) > from)
  }

  predicate AllUpward(level: Levels, from: int, targets: seq<Target>, exact: bool) {
    forall t :: t in targets ==> Upward(level, from, NodeOf(t), exact)
  }

  predicate EdgeAscends(level: Levels, edge: Edge, exact: bool) {
    edge.sources != [] && forall s :: s in edge.sources ==> Upward(level, LevelOf(level, s), edge.target, exact)
  }

  predicate RouteAscends(level: Levels, c: Conditional, state: State, exact: bool) {
    c.path(state).Ok? && MapTargets(c.pathMap, c.path(state).value).Ok? ==>
      AllUpward(level, LevelOf(level, c.source), MapTargets(c.pathMap, c.path(state).value).value, exact)
  }

  predicate BodyAscends(level: Levels, node: string, action: Action, exact: bool) {
    action.Return? ==> AllUpward(level, level(node), action.goto, exact)
  }

  /** Every edge, every route in any state and every jump after any answers leads upward. */
  ghost predicate Ascends(g: Graph, level: Levels, exact: bool) {
    && (forall i :: 0 <= i < |g.edges| ==> EdgeAscends(level, g.edges[i], exact))
    && (forall i, state :: 0 <= i < |g.conditionals| ==> RouteAscends(level, g.conditionals[i], state, exact))
    && (forall node, input, answers :: node in g.nodes ==>
          BodyAscends(level, node, g.body(node, input)(answers), exact))
  }

  ghost predicate Silent(g: Graph) {
    forall node, input :: node in g.nodes ==> g.body(node, input)([]).Return?
  }

  // ----- the invariant of a run ------------------------------------------------------------------------------

  predicate AtLevel(g: Graph, level: Levels, rs: RunState, k: nat) {
    && rs.deferred == {} && Gathering(g, rs.joins)
    && (forall n :: n in rs.active ==> level(n) == k)
    && (forall s :: s in rs.sends ==> Upward(level, k - 1, s.node, true))
  }

  predicate NamesUpward(level: Levels, k: int, names: set<string>) {
    forall n :: n in names ==> Upward(level, k, n, true)
  }

  /** A fan-in edge that fires completes one of its sources now. */
  lemma {:induction false} EdgeLevel(level: Levels, edge: Edge, completed: set<string>, progress: set<string>, k: nat)
    requires EdgeAscends(level, edge, true) && (FanIn(edge) ==> !Ready(edge, progress))
    requires START !in completed && forall n :: n in completed ==> level(n) == k
    ensures Fires(edge, completed, progress) ==> Upward(level, k, edge.target, true)
    ensures FanIn(edge) ==> !Ready(edge, Kept(edge, completed, progress))
  {
    if FanIn(edge) {
      var gathered := Gathered(edge, completed, progress);
      if Ready(edge, gathered) {
        assert gathered != progress;
        var s :| s in gathered && s !in progress;
        assert s in completed && s in edge.sources;
      }
      assert edge.sources[0] in Chosen(edge.sources);
    } else if edge.sources != [START] {
      assert edge.sources[0] in edge.sources;
    }
  }

  lemma {:induction false} EdgesLevel(g: Graph, level: Levels, i: nat, completed: set<string>, joins: Joins, k: nat)
    requires i <= |g.edges| && (forall j :: 0 <= j < |g.edges| ==> EdgeAscends(level, g.edges[j], true))
    requires START !in completed && forall n :: n in completed ==> level(n) == k
    requires Gathering(g, joins)
    ensures NamesUpward(level, k, EdgesFrom(g.edges, i, completed, joins).0)
    ensures Gathering(g, EdgesFrom(g.edges, i, completed, joins).1)
    decreases |g.edges| - i
  {
    hide EdgeAscends, Fires, Kept, Ready, FanIn, Upward;
    if i < |g.edges| {
      var edge, progress := g.edges[i], Progress(joins, i);
      var kept := Kept(edge, completed, progress);
      EdgeLevel(level, edge, completed, progress, k);
      NotFanInKeeps(edge, completed, progress);
      assert Gathering(g, SetProgress(joins, i, kept)) by {
        assert forall j: nat :: j != i ==> Progress(SetProgress(joins, i, kept), j) == Progress(joins, j);
        assert Progress(SetProgress(joins, i, kept), i) == kept;
      }
      EdgesLevel(g, level, i + 1, completed, SetProgress(joins, i, kept), k);
    }
  }

  lemma {:induction false} NotFanInKeeps(edge: Edge, completed: set<string>, progress: set<string>)
    ensures !FanIn(edge) ==> Kept(edge, completed, progress) == progress
  {
  }

  lemma {:induction false} RoutesLevel(g: Graph, level: Levels, cs: seq<Conditional>, completed: set<string>,
                                       state: State, k: nat)
    requires forall i :: 0 <= i < |cs| ==> RouteAscends(level, cs[i], state, true)
    requires START !in completed && forall n :: n in completed ==> level(n) == k
    requires RoutesFrom(cs, completed, state).Ok?
    ensures AllUpward(level, k, RoutesFrom(cs, completed, state).value, true)
    decreases |cs|
  {
    hide MapTargets, Upward;
    if cs != [] {
      RoutesLevel(g, level, cs[1..], completed, state, k);
      assert RouteAscends(level, cs[0], state, true);
    }
  }

  lemma {:induction false} EntryRoutesLevel(level: Levels, cs: seq<Conditional>, state: State)
    requires forall i :: 0 <= i < |cs| ==> RouteAscends(level, cs[i], state, true)
    requires EntryRoutes(cs, state).Ok?
    ensures AllUpward(level, -1, EntryRoutes(cs, state).value, true)
    decreases |cs|
  {
    hide MapTargets, Upward;
    if cs != [] {
      EntryRoutesLevel(level, cs[1..], state);
      assert RouteAscends(level, cs[0], state, true);
    }
  }

  lemma {:induction false} JumpsLevel(level: Levels, results: seq<Return>, k: nat)
    requires forall i :: 0 <= i < |results| ==> AllUpward(level, k, results[i].1, true)
    ensures AllUpward(level, k, Jumps(results), true)
    decreases |results|
  {
    hide Upward;
    if results != [] {
      JumpsLevel(level, results[1..], k);
      assert AllUpward(level, k, results[0].1, true);
    }
  }

  lemma {:induction false} TargetsLevel(level: Levels, k: int, targets: seq<Target>)
    requires AllUpward(level, k, targets, true)
    ensures NamesUpward(level, k, NamesOf(targets))
    ensures forall s :: s in SendsOf(targets) ==> Upward(level, k, s.node, true)
  {
    hide Upward;
    forall s | s in SendsOf(targets)
      ensures Upward(level, k, s.node, true)
    {
      SendsAre(targets, s);
      assert NodeOf(SendTo(s)) == s.node;
    }
    forall t | t in targets && t.Goto?
      ensures Upward(level, k, t.node, true)
    {
      assert NodeOf(t) == t.node;
    }
  }

  lemma {:induction false} NormalizedLevel(g: Graph, level: Levels, names: set<string>, k: nat)
    requires NamesUpward(level, k, names) && Normalize(g, names).Ok?
    ensures forall n :: n in Normalize(g, names).value ==> level(n) == k + 1
  {
    InOrderKeeps(g.nodes, names - {END});
  }

  lemma {:induction false} CommitLevel(g: Graph, level: Levels, rs: RunState, tasks: seq<Task>, results: seq<Return>,
                                       k: nat)
    requires Ascends(g, level, true) && AtLevel(g, level, rs, k) && Commit(g, rs, tasks, results).Ok?
    requires START !in Completed(tasks) && forall n :: n in Completed(tasks) ==> level(n) == k
    requires forall i :: 0 <= i < |results| ==> AllUpward(level, k, results[i].1, true)
    ensures AtLevel(g, level, Commit(g, rs, tasks, results).value, k + 1)
  {
    var completed := Completed(tasks);
    var state := MergeUpdates(rs.state, Updates(results), g.slots).value;
    var (names, joins) := EdgesFrom(g.edges, 0, completed, rs.joins);
    var routed, jumps := RoutesFrom(g.conditionals, completed, state).value, Jumps(results);
    var all := names + NamesOf(routed) + NamesOf(jumps);
    assert Commit(g, rs, tasks, results) ==
      Ok(RunState(state, Normalize(g, all).value, SendsOf(routed) + SendsOf(jumps), joins, {}, rs.step + 1,
                  Bump(rs.versions, results)));
    hide MergeUpdates, EdgesFrom, RoutesFrom, Jumps, SendsOf, NamesOf, Normalize, Commit, Completed, Bump, Upward,
      Gathering, EdgeAscends, RouteAscends, BodyAscends, AllUpward;
    EdgesLevel(g, level, 0, completed, rs.joins, k);
    RoutesLevel(g, level, g.conditionals, completed, state, k);
    JumpsLevel(level, results, k);
    TargetsLevel(level, k, routed);
    TargetsLevel(level, k, jumps);
    NormalizedLevel(g, level, all, k);
  }

  lemma {:induction false} EnterLevel(g: Graph, level: Levels, input: Update)
    requires Ascends(g, level, true) && Enter(g, input).Ok?
    ensures AtLevel(g, level, Enter(g, input).value, 0)
  {
    var state := MergeUpdates(map[], [input], g.slots).value;
    var routed := EntryRoutes(g.conditionals, state).value;
    EntryRoutesLevel(level, g.conditionals, state);
    TargetsLevel(level, -1, routed);
    assert NamesUpward(level, -1, EntryNames(g.edges)) by {
      forall i | 0 <= i < |g.edges| && g.edges[i].sources == [START]
        ensures Upward(level, -1, g.edges[i].target, true)
      {
        assert EdgeAscends(level, g.edges[i], true) && START in g.edges[i].sources;
      }
    }
    var names := EntryNames(g.edges) + NamesOf(routed);
    InOrderKeeps(g.nodes, names - {END});
    assert Gathering(g, map[]) by {
      forall i | 0 <= i < |g.edges| && FanIn(g.edges[i])
        ensures !Ready(g.edges[i], {})
      {
        assert EdgeAscends(level, g.edges[i], true) && g.edges[i].sources[0] in Chosen(g.edges[i].sources);
      }
    }
  }

  ghost predicate TasksLevel(g: Graph, level: Levels, tasks: seq<Task>, k: nat) {
    forall i :: 0 <= i < |tasks| ==> tasks[i].node in g.nodes && level(tasks[i].node) == k && IsIdOf(tasks[i])
  }

  /** A task is named after its node, or is a delivery to it. */
  ghost predicate IsIdOf(task: Task) {
    task.id == task.node || exists k: nat :: task.id == DeliveryId(task.node, k)
  }

  lemma {:induction false} PlanLevel(g: Graph, level: Levels, rs: RunState, k: nat)
    requires ValidGraph(g) && WellPlanned(g, rs) && AtLevel(g, level, rs, k) && Plan(g, rs).Ok?
    ensures TasksLevel(g, level, Plan(g, rs).value, k)
  {
    var tasks, n := Plan(g, rs).value, |rs.active|;
    forall i | 0 <= i < |tasks|
      ensures tasks[i].node in g.nodes && level(tasks[i].node) == k && IsIdOf(tasks[i])
    {
      if i < n {
        assert rs.active[i] in rs.active;
      } else {
        assert rs.sends[i - n] in rs.sends;
        assert tasks[i].id == DeliveryId(tasks[i].node, i - n);
      }
    }
  }

  lemma {:induction false} SilentAt(g: Graph, level: Levels, rs: RunState, k: nat)
    requires ValidGraph(g) && Silent(g) && g.deferring == {} && WellPlanned(g, rs) && AtLevel(g, level, rs, k)
    ensures NeverAsks(g, rs)
  {
    NobodyDefers(g, rs);
    hide ValidGraph, WellPlanned, AtLevel, Plan;
    if Plan(g, rs).Ok? {
      PlanLevel(g, level, rs, k);
    }
  }

  lemma {:induction false} LevelStep(g: Graph, level: Levels, oracle: Oracle, rs: RunState, k: nat)
    requires ValidGraph(g) && Silent(g) && g.deferring == {} && Ascends(g, level, true)
    requires WellPlanned(g, rs) && AtLevel(g, level, rs, k) && Undisturbed(g, oracle, rs).Ok?
    ensures AtLevel(g, level, Undisturbed(g, oracle, rs).value, k + 1)
  {
    NobodyDefers(g, rs);
    SilentAt(g, level, rs, k);
    AllDirect(g, oracle, rs);
    PlanLevel(g, level, rs, k);
    var tasks := Plan(g, rs).value;
    var jobs := JobsFrom(g, rs);
    var results := AllResults(jobs, oracle, rs.step);
    assert Undisturbed(g, oracle, rs) == Commit(g, rs, tasks, results);
    hide Commit, Plan, Settle, Upward, AllReturn, AllResults, Undisturbed, EdgeAscends, RouteAscends, WellPlanned,
      AtLevel, Unambiguous;
    forall i | 0 <= i < |results|
      ensures AllUpward(level, k, results[i].1, true)
    {
      assert BodyAscends(level, tasks[i].node, g.body(tasks[i].node, tasks[i].input)([]), true);
      assert results[i] == Direct(jobs[i].body);
    }
    CommitLevel(g, level, rs, tasks, results, k);
  }

  lemma {:induction false} ReferenceLevel(g: Graph, level: Levels, input: Update, oracle: Oracle, k: nat)
    requires ValidGraph(g) && Silent(g) && g.deferring == {} && Ascends(g, level, true)
    requires Reference(g, Fresh(input), oracle, k).Ok?
    ensures WellPlanned(g, Reference(g, Fresh(input), oracle, k).value)
    ensures AtLevel(g, level, Reference(g, Fresh(input), oracle, k).value, k)
  {
    hide ValidGraph, Silent, Ascends, AtLevel, WellPlanned, Undisturbed, Enter, Entered;
    ReferencePlanned(g, Fresh(input), oracle, k);
    if k == 0 {
      FreshEnters(g, input);
      EnterLevel(g, level, input);
    } else {
      ReferenceLevel(g, level, input, oracle, k - 1);
      LevelStep(g, level, oracle, Reference(g, Fresh(input), oracle, k - 1).value, k - 1);
    }
  }

  // ----- no id twice ----------------------------------------------------------------------------------------------

  /** The id belongs to a task of a node on this level. */
  ghost predicate IdAt(g: Graph, level: Levels, id: TaskId, k: nat) {
    exists node :: node in g.nodes && level(node) == k && (id == node || exists i: nat :: id == DeliveryId(node, i))
  }

  lemma {:induction false} IdHasOneLevel(g: Graph, level: Levels, id: TaskId, j: nat, k: nat)
    requires ValidGraph(g) && IdAt(g, level, id, j) && IdAt(g, level, id, k)
    ensures j == k
  {
    var m :| m in g.nodes && level(m) == j && (id == m || exists i: nat :: id == DeliveryId(m, i));
    var n :| n in g.nodes && level(n) == k && (id == n || exists i: nat :: id == DeliveryId(n, i));
    if id != m && id != n {
      var a: nat :| id == DeliveryId(m, a);
      var b: nat :| id == DeliveryId(n, b);
      SplitAtSeparator(m, a, n, b, '#');
    }
  }

  lemma {:induction false} IdsLevel(g: Graph, level: Levels, rs: RunState, k: nat)
    requires ValidGraph(g) && g.deferring == {} && WellPlanned(g, rs) && AtLevel(g, level, rs, k)
    ensures forall id :: id in IdsFrom(g, rs) ==> IdAt(g, level, id, k)
  {
    NobodyDefers(g, rs);
    hide ValidGraph, WellPlanned, AtLevel, Plan;
    if Plan(g, rs).Ok? {
      PlanLevel(g, level, rs, k);
    }
  }

  lemma {:induction false} IdsBeforeLevel(g: Graph, level: Levels, input: Update, oracle: Oracle, k: nat, id: TaskId)
    requires ValidGraph(g) && Silent(g) && g.deferring == {} && Ascends(g, level, true)
    requires id in IdsBefore(g, Fresh(input), oracle, k)
    ensures exists j: nat :: j < k && IdAt(g, level, id, j)
  {
    hide ValidGraph, Silent, Ascends, Reference, IdAt, IdsFrom;
    if id in IdsBefore(g, Fresh(input), oracle, k - 1) {
      IdsBeforeLevel(g, level, input, oracle, k - 1, id);
    } else {
      ReferenceLevel(g, level, input, oracle, k - 1);
      IdsLevel(g, level, Reference(g, Fresh(input), oracle, k - 1).value, k - 1);
      assert IdAt(g, level, id, k - 1);
    }
  }

  /** Where every edge, route and jump leads to the next level and nothing is deferred, no run schedules a task id
      twice. */
  lemma {:induction false} LevelledNeverRepeats(g: Graph, level: Levels, input: Update, oracle: Oracle, k: nat)
    requires ValidGraph(g) && Silent(g) && g.deferring == {} && Ascends(g, level, true)
    ensures NoRepeats(g, Fresh(input), oracle, k)
  {
    hide ValidGraph, Silent, Ascends, Reference, IdAt, IdsFrom, IdsBefore, NeverAsks;
    forall j | 0 <= j < k && Reference(g, Fresh(input), oracle, j).Ok?
      ensures NeverAsks(g, Reference(g, Fresh(input), oracle, j).value)
      ensures IdsFrom(g, Reference(g, Fresh(input), oracle, j).value) !! IdsBefore(g, Fresh(input), oracle, j)
    {
      var rs := Reference(g, Fresh(input), oracle, j).value;
      ReferenceLevel(g, level, input, oracle, j);
      SilentAt(g, level, rs, j);
      IdsLevel(g, level, rs, j);
      forall id | id in IdsFrom(g, rs) && id in IdsBefore(g, Fresh(input), oracle, j)
        ensures false
      {
        IdsBeforeLevel(g, level, input, oracle, j, id);
        var i: nat :| i < j && IdAt(g, level, id, i);
        IdHasOneLevel(g, level, id, i, j);
      }
    }
  }

  /** So exit durability is faithful to it, from every input. */
  lemma {:induction false} LevelledIsFaithful(g: Graph, level: Levels, input: Update, oracle: Oracle, k: nat)
    requires ValidGraph(g) && Silent(g) && g.deferring == {} && Ascends(g, level, true)
    ensures var x, rs := ExitAfter(g, Fresh(input), k), Reference(g, Fresh(input), oracle, k);
            (x.Ok? <==> rs.Ok?) && (x.Ok? ==> x.value.run == rs.value)
  {
    hide *;
    LevelledNeverRepeats(g, level, input, oracle, k);
    UnrepeatedIsFaithful(g, Fresh(input), oracle, k);
  }
}
