/** What runs of the engine schedule (graph/executor.py), beside the nodes validation reaches (graph/builder.py). */
module ReachableRuns {
  import opened Prelude
  import opened Channels
  import opened Interrupts
  import opened Supersteps
  import opened Reachability

  // ----- runs -------------------------------------------------------------------------------------------------

  /** One superstep, whatever its nodes return and wherever they route. */
  predicate Superstep(bp: Blueprint, rs: RunState, results: seq<Return>, next: RunState) {
    var settled := Settle(bp.graph, rs);
    && !Done(rs) && Plan(bp.graph, settled).Ok? && |results| == |Plan(bp.graph, settled).value|
    && Commit(bp.graph, settled, Plan(bp.graph, settled).value, results) == Ok(next)
  }

  /** A run from an input, with what the tasks of each superstep returned. */
  ghost predicate Run(bp: Blueprint, input: Update, run: seq<RunState>, returned: seq<seq<Return>>) {
    && |run| == |returned| + 1 && Enter(bp.graph, input) == Ok(run[0])
    && forall k :: 0 <= k < |returned| ==> Superstep(bp, run[k], returned[k], run[k + 1])
  }

  function TasksOf(g: Graph, rs: RunState): seq<Task> {
    var tasks := Plan(g, Settle(g, rs));
    if tasks.Ok? then tasks.value else []
  }

  /** Everything a schedule refers to is among these nodes. */
  predicate Inside(bp: Blueprint, reach: set<string>, rs: RunState) {
    && Chosen(rs.active) <= reach && rs.deferred <= reach
    && (forall s :: s in rs.sends ==> s.node in reach)
    && JoinsInside(bp, reach, rs.joins)
  }

  predicate JoinsInside(bp: Blueprint, reach: set<string>, joins: Joins) {
    forall i :: i in joins ==>
      joins[i] <= reach && (i < |bp.graph.edges| ==> joins[i] <= Chosen(bp.graph.edges[i].sources))
  }

  predicate TargetsInside(reach: set<string>, targets: seq<Target>) {
    forall t :: t in targets ==> NodeOf(t) in if t.Goto? then reach + {START, END} else reach
  }

  predicate TasksInside(bp: Blueprint, reach: set<string>, tasks: seq<Task>) {
    forall t :: t in tasks ==> t.node in reach && t.node in bp.Known()
  }

  /** Nodes never carry the names of the start and the end. */
  predicate NamesReserved(bp: Blueprint) { START !in bp.graph.nodes && END !in bp.graph.nodes }

  // ----- one superstep -----------------------------------------------------------------------------------------------

  /** An edge that fires has, by the lenient rule, its target among the nodes. */
  lemma {:induction false} EdgeInside(bp: Blueprint, reach: set<string>, i: nat, completed: set<string>,
        progress: set<string>)
    requires Closed(bp, reach, true) && i < |bp.graph.edges| && completed <= reach && progress <= reach
    requires progress <= Chosen(bp.graph.edges[i].sources)
    ensures Fires(bp.graph.edges[i], completed, progress) ==> bp.graph.edges[i].target in reach + {START, END}
    ensures Kept(bp.graph.edges[i], completed, progress) <= reach * Chosen(bp.graph.edges[i].sources)
  {
    hide RouteClosed, JumpClosed;
    var edge := bp.graph.edges[i];
    if Fires(edge, completed, progress) {
      assert EdgeClosed(edge, reach, true);
      if |edge.sources| == 1 {
        assert forall s :: s in edge.sources ==> s == edge.sources[0];
        assert edge.sources[0] in edge.sources && Live(edge.sources[0], reach);
      } else if edge.any {
        var s :| s in Gathered(edge, completed, progress);
        assert s in edge.sources && Live(s, reach);
      } else {
        assert forall s :: s in edge.sources ==> s in Chosen(edge.sources);
      }
    }
  }

  lemma {:induction false} EdgesInside(bp: Blueprint, reach: set<string>, i: nat, completed: set<string>, joins: Joins)
    requires Closed(bp, reach, true) && i <= |bp.graph.edges| && completed <= reach && JoinsInside(bp, reach, joins)
    ensures EdgesFrom(bp.graph.edges, i, completed, joins).0 <= reach + {START, END}
    ensures JoinsInside(bp, reach, EdgesFrom(bp.graph.edges, i, completed, joins).1)
    decreases |bp.graph.edges| - i
  {
    hide Closed, Fires, Kept;
    if i < |bp.graph.edges| {
      var edge, progress := bp.graph.edges[i], Progress(joins, i);
      EdgeInside(bp, reach, i, completed, progress);
      EdgesInside(bp, reach, i + 1, completed, SetProgress(joins, i, Kept(edge, completed, progress)));
    }
  }

  /** The names chosen are inside exactly when all that named them were. */
  lemma {:induction false} NormalizedInside(g: Graph, names: set<string>, reach: set<string>)
    requires Normalize(g, names).Ok? && START !in g.nodes && END !in g.nodes
    ensures Chosen(Normalize(g, names).value) <= reach <==> names <= reach + {START, END}
  {
    InOrderKeeps(g.nodes, names - {END});
    if Chosen(Normalize(g, names).value) <= reach {
      forall n | n in names
        ensures n in reach + {START, END}
      {
        assert Selectable(g, n);
      }
    }
  }

  lemma {:induction false} TargetsAre(reach: set<string>, targets: seq<Target>)
    ensures TargetsInside(reach, targets) <==>
            NamesOf(targets) <= reach + {START, END} && forall s :: s in SendsOf(targets) ==> s.node in reach
  {
    forall s
      ensures s in SendsOf(targets) <==> SendTo(s) in targets
    {
      SendsAre(targets, s);
    }
    hide SendsOf;
    if TargetsInside(reach, targets) {
      assert forall s :: SendTo(s) in targets ==> NodeOf(SendTo(s)) in reach;
    }
    if NamesOf(targets) <= reach + {START, END} && forall s :: s in SendsOf(targets) ==> s.node in reach {
      forall t | t in targets
        ensures NodeOf(t) in if t.Goto? then reach + {START, END} else reach
      {
        if t.SendTo? {
          assert t == SendTo(t.send);
        } else {
          assert t.node in NamesOf(targets);
        }
      }
    }
  }

  lemma {:induction false} FlushInside(bp: Blueprint, reach: set<string>, rs: RunState)
    requires NamesReserved(bp) && rs.deferred <= reach && Flush(bp.graph, rs).Ok?
    ensures Inside(bp, reach, Flush(bp.graph, rs).value) <==> Inside(bp, reach, rs)
    ensures Flush(bp.graph, rs).value.state == rs.state
  {
    hide JoinsInside, Normalize;
    if rs.deferred != {} && rs.active == [] && rs.sends == [] {
      NormalizedInside(bp.graph, rs.deferred, reach);
    }
  }

  /** What one commit takes up besides the edges. */
  predicate TakenInside(bp: Blueprint, reach: set<string>, tasks: seq<Task>, results: seq<Return>, state: State) {
    var routed := RoutesFrom(bp.graph.conditionals, Completed(tasks), state);
    (routed.Ok? ==> TargetsInside(reach, routed.value)) && TargetsInside(reach, Jumps(results))
  }

  /** One commit stays inside a set closed under the rules of a run exactly when the routes and jumps it takes do. */
  lemma {:induction false} CommitInside(bp: Blueprint, reach: set<string>, rs: RunState, tasks: seq<Task>,
        results: seq<Return>)
    requires Closed(bp, reach, true) && NamesReserved(bp) && Inside(bp, reach, rs) && TasksInside(bp, reach, tasks)
    requires Commit(bp.graph, rs, tasks, results).Ok?
    ensures var next := Commit(bp.graph, rs, tasks, results).value;
            Inside(bp, reach, next) <==> TakenInside(bp, reach, tasks, results, next.state)
  {
    var g, completed := bp.graph, Completed(tasks);
    var state := MergeUpdates(rs.state, Updates(results), g.slots).value;
    var (names, joins) := EdgesFrom(g.edges, 0, completed, rs.joins);
    var routed, jumps := RoutesFrom(g.conditionals, completed, state).value, Jumps(results);
    assert completed <= reach;
    var all := names + NamesOf(routed) + NamesOf(jumps);
    var next := RunState(state, Normalize(g, all).value, SendsOf(routed) + SendsOf(jumps), joins, rs.deferred,
                         rs.step + 1, Bump(rs.versions, results));
    assert Commit(g, rs, tasks, results) == Flush(g, next);
    assert RoutesFrom(g.conditionals, completed, state).Ok? && Normalize(g, all).Ok?;
    hide Closed, EdgesFrom, RoutesFrom, Jumps, Normalize, NamesOf, SendsOf, Commit, Flush, TargetsInside, JoinsInside,
      MergeUpdates, Bump, Completed;
    EdgesInside(bp, reach, 0, completed, rs.joins);
    TargetsAre(reach, routed);
    TargetsAre(reach, jumps);
    NormalizedInside(g, all, reach);
    FlushInside(bp, reach, next);
  }

  lemma {:induction false} SettleInside(bp: Blueprint, reach: set<string>, rs: RunState)
    requires Inside(bp, reach, rs)
    ensures Inside(bp, reach, Settle(bp.graph, rs))
  {
    hide JoinsInside;
    WithoutKeeps(rs.active, Chosen(rs.active) * bp.graph.deferring);
  }

  lemma {:induction false} PlanInside(bp: Blueprint, reach: set<string>, rs: RunState)
    requires Inside(bp, reach, rs) && reach <= bp.Known() && Plan(bp.graph, rs).Ok?
    ensures TasksInside(bp, reach, Plan(bp.graph, rs).value)
  {
    hide JoinsInside;
    var tasks := Plan(bp.graph, rs).value;
    forall i | 0 <= i < |tasks|
      ensures tasks[i].node in reach
    {
      if i < |rs.active| {
        assert rs.active[i] in Chosen(rs.active);
      } else {
        assert rs.sends[i - |rs.active|] in rs.sends;
      }
    }
  }

  lemma {:induction false} EntryNamesInside(bp: Blueprint, reach: set<string>)
    requires Closed(bp, reach, true)
    ensures EntryNames(bp.graph.edges) <= reach + {START, END}
  {
    hide RouteClosed, JumpClosed;
    forall i | 0 <= i < |bp.graph.edges| && bp.graph.edges[i].sources == [START]
      ensures bp.graph.edges[i].target in reach + {START, END}
    {
      assert EdgeClosed(bp.graph.edges[i], reach, true);
      assert START in bp.graph.edges[i].sources && Live(START, reach);
    }
  }

  lemma {:induction false} EnterInside(bp: Blueprint, reach: set<string>, input: Update)
    requires Closed(bp, reach, true) && NamesReserved(bp) && Enter(bp.graph, input).Ok?
    ensures var rs := Enter(bp.graph, input).value;
            Inside(bp, reach, rs) <==> TargetsInside(reach, EntryTargets(bp, rs.state))
  {
    var g := bp.graph;
    var state := MergeUpdates(map[], [input], g.slots).value;
    var routed := EntryRoutes(g.conditionals, state).value;
    var names := EntryNames(g.edges) + NamesOf(routed);
    assert Enter(g, input) == Ok(RunState(state, Normalize(g, names).value, SendsOf(routed), map[], {}, 0, map[]));
    hide Closed, Normalize, NamesOf, SendsOf, EntryNames, EntryRoutes, TargetsInside, MergeUpdates;
    EntryNamesInside(bp, reach);
    TargetsAre(reach, routed);
    NormalizedInside(g, names, reach);
  }

  function EntryTargets(bp: Blueprint, state: State): seq<Target> {
    var routed := EntryRoutes(bp.graph.conditionals, state);
    if routed.Ok? then routed.value else []
  }

  // ----- exactly when a run stays inside ----------------------------------------------------------------------------

  /** The routes taken at the entry and the routes and jumps taken after each superstep. */
  ghost predicate AllTakenInside(bp: Blueprint, reach: set<string>, run: seq<RunState>, returned: seq<seq<Return>>)
    requires |run| == |returned| + 1
  {
    && TargetsInside(reach, EntryTargets(bp, run[0].state))
    && forall k :: 0 <= k < |returned| ==>
         TakenInside(bp, reach, TasksOf(bp.graph, run[k]), returned[k], run[k + 1].state)
  }

  lemma {:induction false} SuperstepInside(bp: Blueprint, reach: set<string>, rs: RunState, results: seq<Return>,
                                           next: RunState)
    requires Closed(bp, reach, true) && reach <= bp.Known() && NamesReserved(bp)
    requires Inside(bp, reach, rs) && Superstep(bp, rs, results, next)
    ensures Inside(bp, reach, next) <==> TakenInside(bp, reach, TasksOf(bp.graph, rs), results, next.state)
  {
    hide Closed, Inside, Commit, Plan, Settle, TasksInside, TakenInside;
    var settled := Settle(bp.graph, rs);
    SettleInside(bp, reach, rs);
    PlanInside(bp, reach, settled);
    CommitInside(bp, reach, settled, Plan(bp.graph, settled).value, results);
  }

  lemma {:induction false} InsideSoFar(bp: Blueprint, reach: set<string>, input: Update, run: seq<RunState>,
                                       returned: seq<seq<Return>>, k: nat)
    requires Closed(bp, reach, true) && reach <= bp.Known() && NamesReserved(bp)
    requires Run(bp, input, run, returned) && k < |run| && AllTakenInside(bp, reach, run, returned)
    ensures Inside(bp, reach, run[k])
  {
    hide Closed, Inside, TakenInside, Superstep, TargetsInside;
    if k == 0 {
      EnterInside(bp, reach, input);
    } else {
      InsideSoFar(bp, reach, input, run, returned, k - 1);
      SuperstepInside(bp, reach, run[k - 1], returned[k - 1], run[k]);
    }
  }

  /** A run schedules nothing outside a set closed under the rules of a run if and only if every route and jump it takes
      leads inside. */
  lemma {:induction false} StaysInsideExactly(bp: Blueprint, reach: set<string>, input: Update, run: seq<RunState>,
                                              returned: seq<seq<Return>>)
    requires Closed(bp, reach, true) && reach <= bp.Known() && NamesReserved(bp) && Run(bp, input, run, returned)
    ensures (forall k :: 0 <= k < |run| ==> Inside(bp, reach, run[k])) <==> AllTakenInside(bp, reach, run, returned)
  {
    hide Closed, Inside, TakenInside, Superstep, TargetsInside;
    if AllTakenInside(bp, reach, run, returned) {
      forall k | 0 <= k < |run|
        ensures Inside(bp, reach, run[k])
      {
        InsideSoFar(bp, reach, input, run, returned, k);
      }
    }
    if forall k :: 0 <= k < |run| ==> Inside(bp, reach, run[k]) {
      EnterInside(bp, reach, input);
      forall k | 0 <= k < |returned|
        ensures TakenInside(bp, reach, TasksOf(bp.graph, run[k]), returned[k], run[k + 1].state)
      {
        SuperstepInside(bp, reach, run[k], returned[k], run[k + 1]);
      }
    }
  }

  // ----- where nodes and routes keep to what they declare -----------------------------------------------------------

  /** What one conditional edge may route to in a state: sends only to the values of its path map. */
  predicate RouteStays(c: Conditional, known: set<string>, state: State) {
    c.path(state).Ok? ==>
      forall t :: t in c.path(state).value ==>
        && (t.SendTo? ==> t.send.node in RouteTargets(c, known))
        && (t.Goto? && c.pathMap.None? ==> t.node in known + {START, END})
  }

  /** Nodes jump to END or where they declare, and send where they declare. */
  predicate JumpsDeclared(bp: Blueprint, tasks: seq<Task>, results: seq<Return>) {
    && |tasks| == |results|
    && forall i :: 0 <= i < |tasks| ==>
         forall t :: t in results[i].1 ==>
           NodeOf(t) in if t.Goto? then Chosen(bp.Declared(tasks[i].node)) + {END}
                        else Chosen(bp.Declared(tasks[i].node)) - {START, END}
  }

  ghost predicate RoutesStay(bp: Blueprint, state: State) {
    forall i :: 0 <= i < |bp.graph.conditionals| ==> RouteStays(bp.graph.conditionals[i], bp.Known(), state)
  }

  /** In every state of the run the conditional edges keep to their path maps, and every task jumps where its node
      declares.  The executor checks neither. */
  ghost predicate Disciplined(bp: Blueprint, run: seq<RunState>, returned: seq<seq<Return>>)
    requires |run| == |returned| + 1
  {
    && (forall k :: 0 <= k < |run| ==> RoutesStay(bp, run[k].state))
    && (forall k :: 0 <= k < |returned| ==> JumpsDeclared(bp, TasksOf(bp.graph, run[k]), returned[k]))
  }

  lemma {:induction false} MappedInside(c: Conditional, known: set<string>, reach: set<string>, targets: seq<Target>)
    requires RouteTargets(c, known) <= reach && MapTargets(c.pathMap, targets).Ok?
    requires forall t :: t in targets ==>
               && (t.SendTo? ==> t.send.node in RouteTargets(c, known))
               && (t.Goto? && c.pathMap.None? ==> t.node in known + {START, END})
    ensures TargetsInside(reach, MapTargets(c.pathMap, targets).value)
  {
    if targets != [] {
      MappedInside(c, known, reach, targets[1..]);
      assert targets[0] in targets;
      if targets[0].Goto? && c.pathMap.Some? {
        assert c.pathMap.value[targets[0].node] in c.pathMap.value.Values;
      }
    }
  }

  lemma {:induction false} RoutesInside(bp: Blueprint, reach: set<string>, i: nat, completed: set<string>, state: State)
    requires Closed(bp, reach, true) && RoutesStay(bp, state) && i <= |bp.graph.conditionals| && completed <= reach
    requires RoutesFrom(bp.graph.conditionals[i..], completed, state).Ok?
    ensures TargetsInside(reach, RoutesFrom(bp.graph.conditionals[i..], completed, state).value)
    decreases |bp.graph.conditionals| - i
  {
    hide EdgeClosed, JumpClosed, RouteTargets;
    var cs := bp.graph.conditionals;
    if i < |cs| {
      assert cs[i..][1..] == cs[i + 1..];
      RoutesInside(bp, reach, i + 1, completed, state);
      if cs[i].source != START && cs[i].source in completed {
        assert RouteClosed(cs[i], bp.Known(), reach) && RouteStays(cs[i], bp.Known(), state);
        MappedInside(cs[i], bp.Known(), reach, cs[i].path(state).value);
      }
    }
  }

  lemma {:induction false} EntryRoutesInside(bp: Blueprint, reach: set<string>, i: nat, state: State)
    requires Closed(bp, reach, true) && RoutesStay(bp, state) && i <= |bp.graph.conditionals|
    requires EntryRoutes(bp.graph.conditionals[i..], state).Ok?
    ensures TargetsInside(reach, EntryRoutes(bp.graph.conditionals[i..], state).value)
    decreases |bp.graph.conditionals| - i
  {
    hide EdgeClosed, JumpClosed, RouteTargets;
    var cs := bp.graph.conditionals;
    if i < |cs| {
      assert cs[i..][1..] == cs[i + 1..];
      EntryRoutesInside(bp, reach, i + 1, state);
      if cs[i].source == START {
        assert RouteClosed(cs[i], bp.Known(), reach) && RouteStays(cs[i], bp.Known(), state);
        MappedInside(cs[i], bp.Known(), reach, cs[i].path(state).value);
      }
    }
  }

  lemma {:induction false} JumpsInside(bp: Blueprint, reach: set<string>, tasks: seq<Task>, results: seq<Return>)
    requires Closed(bp, reach, true) && JumpsDeclared(bp, tasks, results)
    requires TasksInside(bp, reach, tasks)
    ensures TargetsInside(reach, Jumps(results))
    decreases |results|
  {
    hide EdgeClosed, RouteClosed;
    if results != [] {
      assert tasks[0] in tasks;
      var k :| 0 <= k < |bp.graph.nodes| && bp.graph.nodes[k] == tasks[0].node;
      assert JumpClosed(bp, tasks[0].node, reach);
      JumpsInside(bp, reach, tasks[1..], results[1..]);
    }
  }

  lemma {:induction false} DisciplineTaken(bp: Blueprint, reach: set<string>, tasks: seq<Task>, results: seq<Return>,
                                           state: State)
    requires Closed(bp, reach, true) && TasksInside(bp, reach, tasks)
    requires RoutesStay(bp, state) && JumpsDeclared(bp, tasks, results)
    ensures TakenInside(bp, reach, tasks, results, state)
  {
    JumpsInside(bp, reach, tasks, results);
    assert bp.graph.conditionals[0..] == bp.graph.conditionals;
    assert Completed(tasks) <= reach;
    hide Closed, RoutesStay, JumpsDeclared, RoutesFrom, Jumps, TargetsInside, Completed;
    if RoutesFrom(bp.graph.conditionals, Completed(tasks), state).Ok? {
      RoutesInside(bp, reach, 0, Completed(tasks), state);
    }
  }

  lemma {:induction false} EntryTaken(bp: Blueprint, reach: set<string>, state: State)
    requires Closed(bp, reach, true) && RoutesStay(bp, state)
    ensures TargetsInside(reach, EntryTargets(bp, state))
  {
    assert bp.graph.conditionals[0..] == bp.graph.conditionals;
    hide Closed, RoutesStay, EntryRoutes;
    if EntryRoutes(bp.graph.conditionals, state).Ok? {
      EntryRoutesInside(bp, reach, 0, state);
    }
  }

  /** A disciplined run never schedules a node outside a set closed under the rules of a run. */
  lemma {:induction false} RunStaysInside(bp: Blueprint, reach: set<string>, input: Update, run: seq<RunState>,
                                          returned: seq<seq<Return>>, k: nat)
    requires Closed(bp, reach, true) && reach <= bp.Known() && NamesReserved(bp)
    requires Run(bp, input, run, returned) && Disciplined(bp, run, returned) && k < |run|
    ensures Inside(bp, reach, run[k])
    ensures TasksInside(bp, reach, TasksOf(bp.graph, run[k]))
  {
    hide Closed, Inside, RoutesStay, JumpsDeclared, Commit, Plan, Settle, TasksInside, TakenInside, Superstep,
      TargetsInside, TasksOf;
    if k == 0 {
      EnterInside(bp, reach, input);
      EntryTaken(bp, reach, run[0].state);
    } else {
      RunStaysInside(bp, reach, input, run, returned, k - 1);
      DisciplineTaken(bp, reach, TasksOf(bp.graph, run[k - 1]), returned[k - 1], run[k].state);
      SuperstepInside(bp, reach, run[k - 1], returned[k - 1], run[k]);
    }
    TasksOfInside(bp, reach, run[k]);
  }

  lemma {:induction false} TasksOfInside(bp: Blueprint, reach: set<string>, rs: RunState)
    requires Inside(bp, reach, rs) && reach <= bp.Known()
    ensures TasksInside(bp, reach, TasksOf(bp.graph, rs))
  {
    hide Inside, Settle, Plan;
    SettleInside(bp, reach, rs);
    if Plan(bp.graph, Settle(bp.graph, rs)).Ok? {
      PlanInside(bp, reach, Settle(bp.graph, rs));
    }
  }

  // ----- what validation says about runs ----------------------------------------------------------------------------

  /** What the builder guarantees before validation. */
  predicate Built(bp: Blueprint) {
    NamesReserved(bp) && forall i :: 0 <= i < |bp.graph.edges| ==> bp.graph.edges[i].sources != []
  }

  lemma {:induction false} StrictOpens(edge: Edge, reach: set<string>)
    requires edge.sources != []
    ensures Opens(edge, reach, false) ==> Opens(edge, reach, true)
  {
    assert edge.sources[0] in edge.sources;
  }

  /** A set closed under the rules of a run is closed under those of validation. */
  lemma {:induction false} ClosedStrictly(bp: Blueprint, reach: set<string>)
    requires Built(bp) && Closed(bp, reach, true)
    ensures Closed(bp, reach, false)
  {
    hide RouteClosed, JumpClosed, Opens;
    forall i | 0 <= i < |bp.graph.edges|
      ensures EdgeClosed(bp.graph.edges[i], reach, false)
    {
      StrictOpens(bp.graph.edges[i], reach);
    }
  }

  /** What validation reaches, a run could. */
  lemma {:induction false} CheckedIsLive(bp: Blueprint, strict: set<string>, live: set<string>)
    requires Built(bp) && Least(bp, strict, false) && Least(bp, live, true)
    ensures strict <= live
  {
    hide Closed;
    ClosedStrictly(bp, live);
  }

  /** Validation reaches the whole lenient closure if and only if each 'any' edge it reaches a source of leads to a node
      it reaches. */
  lemma {:induction false} CheckIsExact(bp: Blueprint, strict: set<string>, live: set<string>)
    requires Built(bp) && Least(bp, strict, false) && Least(bp, live, true)
    ensures strict == live <==>
            forall i :: 0 <= i < |bp.graph.edges| && bp.graph.edges[i].any ==>
                          EdgeClosed(bp.graph.edges[i], strict, true)
  {
    hide RouteClosed, JumpClosed;
    CheckedIsLive(bp, strict, live);
    if forall i :: 0 <= i < |bp.graph.edges| && bp.graph.edges[i].any ==> EdgeClosed(bp.graph.edges[i], strict, true) {
      assert forall i :: 0 <= i < |bp.graph.edges| && !bp.graph.edges[i].any ==>
        (EdgeClosed(bp.graph.edges[i], strict, true) <==> EdgeClosed(bp.graph.edges[i], strict, false));
      assert Closed(bp, strict, true);
    }
  }

  /** In a graph without 'any' joins, a node validation calls unreachable never becomes a task of a disciplined run. */
  lemma {:induction false} UnreachableNeverRuns(bp: Blueprint, reach: set<string>, input: Update, run: seq<RunState>,
                             returned: seq<seq<Return>>, k: nat, task: Task)
    requires Built(bp) && Least(bp, reach, false) && reach <= bp.Known()
    requires forall i :: 0 <= i < |bp.graph.edges| ==> !bp.graph.edges[i].any
    requires Run(bp, input, run, returned) && Disciplined(bp, run, returned) && k < |run|
    requires task in TasksOf(bp.graph, run[k])
    ensures task.node in reach
  {
    hide RouteClosed, JumpClosed, Disciplined, Run, TasksOf, Inside, Below;
    assert Closed(bp, reach, true) by {
      assert forall i :: 0 <= i < |bp.graph.edges| ==>
        (EdgeClosed(bp.graph.edges[i], reach, true) <==> EdgeClosed(bp.graph.edges[i], reach, false));
    }
    RunStaysInside(bp, reach, input, run, returned, k);
  }
}
