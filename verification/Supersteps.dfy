/** One superstep of the Pregel loop: deferral, planning, merging, routing (graph/executor.py). */
module Supersteps {
  import opened Prelude
  import opened Channels
  import opened Interrupts
  import Suspension

  /** A named task reads the shared state; a delivery reads the argument it was sent. */
  datatype Input = FromState(state: State) | FromSend(arg: Value)

  datatype Edge = Edge(sources: seq<string>, target: string, any: bool)

  datatype Conditional = Conditional(
    source: string,
    path: State -> Result<seq<Target>, Error>,
    pathMap: Option<map<string, string>>)

  datatype Graph = Graph(
    nodes: seq<string>,
    deferring: set<string>,
    body: (string, Input) -> Body,
    edges: seq<Edge>,
    conditionals: seq<Conditional>,
    slots: seq<Slot>)

  /** Join progress by edge index; an edge without an entry has made none. */
  type Joins = map<nat, set<string>>

  /** What the loop carries from one superstep to the next. */
  datatype RunState = RunState(
    state: State,
    active: seq<string>,
    sends: seq<Send>,
    joins: Joins,
    deferred: set<string>,
    step: nat,
    versions: map<Key, nat>)

  datatype Task = Task(id: TaskId, node: string, input: Input)

  // ----- targets ------------------------------------------------------------------------------

  predicate Selectable(g: Graph, name: string) {
    name == END || (name != START && name in g.nodes)
  }

  function InOrder(nodes: seq<string>, chosen: set<string>): seq<string> {
    if nodes == [] then []
    else (if nodes[0] in chosen then [nodes[0]] else []) + InOrder(nodes[1..], chosen)
  }

  lemma {:induction false} InOrderKeeps(nodes: seq<string>, chosen: set<string>)
    ensures forall n :: n in InOrder(nodes, chosen) <==> n in nodes && n in chosen
    decreases |nodes|
  {
    if nodes != [] {
      InOrderKeeps(nodes[1..], chosen);
      assert nodes == [nodes[0]] + nodes[1..];
    }
  }

  /** `_normalize_targets`: each selected node once, in registration order; END is dropped. */
  function Normalize(g: Graph, names: set<string>): Result<seq<string>, Error> {
    if forall name :: name in names ==> Selectable(g, name) then Ok(InOrder(g.nodes, names - {END}))
    else Err(UnknownNode)
  }

  function NodeOf(t: Target): string { if t.Goto? then t.node else t.send.node }

  function NamesOf(targets: seq<Target>): set<string> {
    set t | t in targets && t.Goto? :: t.node
  }

  function SendsOf(targets: seq<Target>): seq<Send> {
    if targets == [] then []
    else (if targets[0].SendTo? then [targets[0].send] else []) + SendsOf(targets[1..])
  }

  lemma {:induction false} SendsAre(targets: seq<Target>, s: Send)
    ensures s in SendsOf(targets) <==> SendTo(s) in targets
  {
    if targets != [] {
      SendsAre(targets[1..], s);
      assert targets == [targets[0]] + targets[1..];
    }
  }

  // ----- deferral and planning -------------------------------------------------------------------

  function Without(names: seq<string>, dropped: set<string>): seq<string> {
    if names == [] then []
    else (if names[0] in dropped then [] else [names[0]]) + Without(names[1..], dropped)
  }

  lemma {:induction false} WithoutKeeps(names: seq<string>, dropped: set<string>)
    ensures forall n :: n in Without(names, dropped) <==> n in names && n !in dropped
    decreases |names|
  {
    if names != [] {
      WithoutKeeps(names[1..], dropped);
      assert names == [names[0]] + names[1..];
    }
  }

  /** Deferred nodes step aside while anything else is scheduled. */
  function Settle(g: Graph, rs: RunState): RunState {
    var waiting := Chosen(rs.active) * g.deferring;
    var others := Without(rs.active, waiting);
    if waiting != {} && (others != [] || rs.sends != []) then
      rs.(active := others, deferred := rs.deferred + waiting)
    else rs
  }

  lemma {:induction false} SettleKeepsJoins(g: Graph, rs: RunState)
    ensures Settle(g, rs).joins == rs.joins
  {
  }

  lemma {:induction false} NobodyDefers(g: Graph, rs: RunState)
    requires g.deferring == {}
    ensures Settle(g, rs) == rs
  {
  }

  function DeliveryId(node: string, index: nat): TaskId { node + "#" + Digits(index) }

  function NamedTasks(rs: RunState): seq<Task> {
    seq(|rs.active|, i requires 0 <= i < |rs.active| => Task(rs.active[i], rs.active[i], FromState(rs.state)))
  }

  function Deliveries(rs: RunState): seq<Task> {
    seq(|rs.sends|, i requires 0 <= i < |rs.sends| =>
      Task(DeliveryId(rs.sends[i].node, i), rs.sends[i].node, FromSend(rs.sends[i].arg)))
  }

  /** `_plan_tasks`: a task per active node and one per delivery. */
  function Plan(g: Graph, rs: RunState): Result<seq<Task>, Error> {
    if forall s :: s in rs.sends ==> s.node in g.nodes then Ok(NamedTasks(rs) + Deliveries(rs))
    else Err(UnknownNode)
  }

  function Jobs(g: Graph, tasks: seq<Task>): seq<Suspension.Job> {
    seq(|tasks|, i requires 0 <= i < |tasks| => Suspension.Job(tasks[i].id, g.body(tasks[i].node, tasks[i].input)))
  }

  /** The schedule refers to registered nodes, each at most once. */
  predicate WellPlanned(g: Graph, rs: RunState) {
    && Distinct(rs.active)
    && (forall n :: n in rs.active ==> n in g.nodes)
    && (forall n :: n in rs.deferred ==> n in g.nodes && n in g.deferring)
    && END !in rs.deferred && START !in rs.deferred
  }

  /** No registered name is the task id of a delivery to a registered node. */
  ghost predicate Unambiguous(nodes: seq<string>) {
    forall node, k: nat :: node in nodes ==> DeliveryId(node, k) !in nodes
  }

  /** Where that holds, task ids tell the tasks of a superstep apart. */
  lemma {:induction false} TaskIdsDistinct(g: Graph, rs: RunState)
    requires Unambiguous(g.nodes) && Distinct(rs.active) && (forall n :: n in rs.active ==> n in g.nodes)
    requires Plan(g, rs).Ok?
    ensures Suspension.DistinctIds(Jobs(g, Plan(g, rs).value))
  {
    var tasks := Plan(g, rs).value;
    var n := |rs.active|;
    forall i, j | 0 <= i < j < |tasks|
      ensures tasks[i].id != tasks[j].id
    {
      if j >= n {
        var send := rs.sends[j - n];
        assert send in rs.sends && tasks[j].id == DeliveryId(send.node, j - n);
        if i < n {
          assert rs.active[i] in g.nodes;
        } else if tasks[i].id == tasks[j].id {
          SplitAtSeparator(rs.sends[i - n].node, i - n, send.node, j - n, '#');
        }
      }
    }
  }

  /** A superstep that runs the node named like the k-th delivery, beside k + 1 deliveries. */
  function Clash(node: string, k: nat): RunState {
    RunState(map[], [DeliveryId(node, k)], seq(k + 1, i => Send(node, Null)), map[], {}, 0, map[])
  }

  /** Otherwise a schedule gives two of its tasks, of different nodes, the same id, so that one would be handed the
      stored result of the other. */
  lemma {:induction false} ClashCollides(g: Graph, node: string, k: nat)
    requires node in g.nodes && DeliveryId(node, k) in g.nodes
    ensures WellPlanned(g, Clash(node, k)) && Plan(g, Clash(node, k)).Ok?
    ensures var tasks := Plan(g, Clash(node, k)).value;
            |tasks| == k + 2 && tasks[0].id == tasks[k + 1].id && tasks[0].node != tasks[k + 1].node
  {
    assert |DeliveryId(node, k)| > |node|;
  }

  /** Every superstep that can be planned tells its tasks apart if and only if no registered name has the form of a
      delivery id of a registered node: a '#' in a name does no harm by itself. */
  lemma {:induction false} IdsDistinctExactly(g: Graph)
    ensures (forall rs :: WellPlanned(g, rs) && Plan(g, rs).Ok? ==>
                            Suspension.DistinctIds(Jobs(g, Plan(g, rs).value)))
            <==> Unambiguous(g.nodes)
  {
    if Unambiguous(g.nodes) {
      forall rs | WellPlanned(g, rs) && Plan(g, rs).Ok?
        ensures Suspension.DistinctIds(Jobs(g, Plan(g, rs).value))
      {
        TaskIdsDistinct(g, rs);
      }
    } else {
      var node, k: nat :| node in g.nodes && DeliveryId(node, k) in g.nodes;
      var rs := Clash(node, k);
      ClashCollides(g, node, k);
      hide WellPlanned, Plan, Clash;
      var jobs := Jobs(g, Plan(g, rs).value);
      assert jobs[0].id == jobs[k + 1].id;
    }
  }

  /** In particular names without '#' are never ambiguous. */
  lemma {:induction false} HashFreeIsUnambiguous(nodes: seq<string>)
    requires forall n :: n in nodes ==> '#' !in n
    ensures Unambiguous(nodes)
  {
    forall node, k: nat | node in nodes
      ensures DeliveryId(node, k) !in nodes
    {
      assert DeliveryId(node, k)[|node|] == '#';
    }
  }

  /** One graph whose names clash, and one whose names hold a '#' and do not. */
  lemma {:induction false} HashedNamesCollide()
    ensures var g := Graph(["a", "a#0"], {}, (n, i) => (v => Ask(Null)), [], [], []);
            var rs := RunState(map[], ["a#0"], [Send("a", Null)], map[], {}, 0, map[]);
            Plan(g, rs).Ok? && Plan(g, rs).value[0].id == Plan(g, rs).value[1].id &&
            Plan(g, rs).value[0].node != Plan(g, rs).value[1].node
    ensures Unambiguous(["a", "a#b"])
  {
    assert Digits(0) == "0";
    assert "a#0" != "a" by {
      assert |"a#0"| != |"a"|;
    }
    forall node, k: nat | node in ["a", "a#b"]
      ensures DeliveryId(node, k) !in ["a", "a#b"]
    {
      var id := DeliveryId(node, k);
      assert Digits(k)[0] in Digits(k);
      assert id[|node| + 1] == Digits(k)[0];
      if node == "a" {
        assert |id| >= 3 && id[2] != 'b';
      } else {
        assert |id| > |"a#b"|;
      }
    }
  }

  // ----- edges and joins -----------------------------------------------------------------------------

  function Progress(joins: Joins, index: nat): set<string> {
    if index in joins then joins[index] else {}
  }

  function SetProgress(joins: Joins, index: nat, progress: set<string>): Joins {
    if progress == {} then joins - {index} else joins[index := progress]
  }

  /** `_serialize_join_progress`: entries without progress are not stored. */
  function Tidy(raw: Joins): Joins {
    map index | index in raw && raw[index] != {} :: raw[index]
  }

  function Gathered(edge: Edge, completed: set<string>, progress: set<string>): set<string> {
    progress + completed * Chosen(edge.sources)
  }

  predicate Ready(edge: Edge, progress: set<string>) {
    if edge.any then progress != {} else Chosen(edge.sources) <= progress
  }

  predicate FanIn(edge: Edge) { edge.sources != [START] && |edge.sources| != 1 }

  predicate Fires(edge: Edge, completed: set<string>, progress: set<string>) {
    if edge.sources == [START] then false
    else if |edge.sources| == 1 then edge.sources[0] in completed
    else Ready(edge, Gathered(edge, completed, progress))
  }

  /** No fan-in edge has gathered enough to fire. */
  predicate Gathering(g: Graph, joins: Joins) {
    forall i :: 0 <= i < |g.edges| && FanIn(g.edges[i]) ==> !Ready(g.edges[i], Progress(joins, i))
  }

  /** The join progress an edge keeps after a superstep. */
  function Kept(edge: Edge, completed: set<string>, progress: set<string>): set<string> {
    if !FanIn(edge) then progress
    else if Fires(edge, completed, progress) then {}
    else Gathered(edge, completed, progress)
  }

  function EdgesFrom(edges: seq<Edge>, i: nat, completed: set<string>, joins: Joins): (r: (set<string>, Joins))
    requires i <= |edges|
    decreases |edges| - i
  {
    if i == |edges| then ({}, joins)
    else
      var edge, progress := edges[i], Progress(joins, i);
      var rest := EdgesFrom(edges, i + 1, completed, SetProgress(joins, i, Kept(edge, completed, progress)));
      (rest.0 + if Fires(edge, completed, progress) then {edge.target} else {}, rest.1)
  }

  /** Each edge keeps and fires by its own progress alone. */
  lemma {:induction false} EdgesPointwise(edges: seq<Edge>, i: nat, completed: set<string>, joins: Joins, j: nat)
    requires i <= |edges|
    ensures Progress(EdgesFrom(edges, i, completed, joins).1, j) ==
            if i <= j < |edges| then Kept(edges[j], completed, Progress(joins, j)) else Progress(joins, j)
    decreases |edges| - i
  {
    hide Kept, Fires;
    if i < |edges| {
      EdgesPointwise(edges, i + 1, completed, SetProgress(joins, i, Kept(edges[i], completed, Progress(joins, i))), j);
    }
  }

  lemma {:induction false} EdgeFires(edges: seq<Edge>, i: nat, completed: set<string>, joins: Joins, j: nat)
    requires i <= j < |edges| && Fires(edges[j], completed, Progress(joins, j))
    ensures edges[j].target in EdgesFrom(edges, i, completed, joins).0
    decreases |edges| - i
  {
    hide Kept, Fires;
    if i < j {
      EdgeFires(edges, i + 1, completed, SetProgress(joins, i, Kept(edges[i], completed, Progress(joins, i))), j);
    }
  }

  lemma {:induction false} NamedByFiring(edges: seq<Edge>, i: nat, completed: set<string>, joins: Joins, name: string)
    requires i <= |edges| && name in EdgesFrom(edges, i, completed, joins).0
    ensures exists j :: i <= j < |edges| && edges[j].target == name && Fires(edges[j], completed, Progress(joins, j))
    decreases |edges| - i
  {
    hide Kept, Fires;
    var joins' := SetProgress(joins, i, Kept(edges[i], completed, Progress(joins, i)));
    if name in EdgesFrom(edges, i + 1, completed, joins').0 {
      NamedByFiring(edges, i + 1, completed, joins', name);
      var j :| i + 1 <= j < |edges| && edges[j].target == name && Fires(edges[j], completed, Progress(joins', j));
      assert Progress(joins', j) == Progress(joins, j);
    } else {
      assert edges[i].target == name && Fires(edges[i], completed, Progress(joins, i));
    }
  }

  /** One edge: a fan-in edge gathers the sources just completed and clears its progress when it fires. */
  method AdvanceEdge(edge: Edge, i: nat, completed: set<string>, raw: Joins) returns (fired: bool, raw': Joins)
    ensures fired == Fires(edge, completed, Progress(Tidy(raw), i))
    ensures Tidy(raw') == SetProgress(Tidy(raw), i, Kept(edge, completed, Progress(Tidy(raw), i)))
  {
    fired, raw' := false, raw;
    assert Progress(Tidy(raw), i) == Progress(raw, i);
    if edge.sources != [START] {
      if |edge.sources| == 1 {
        fired := edge.sources[0] in completed;
      } else {
        var progress := Progress(raw, i);
        progress := progress + completed * Chosen(edge.sources);
        fired := if edge.any then progress != {} else Chosen(edge.sources) <= progress;
        if fired { progress := {}; }
        raw' := raw[i := progress];
      }
    }
  }

  method AdvanceEdges(edges: seq<Edge>, completed: set<string>, raw: Joins) returns (names: set<string>, raw': Joins)
    ensures (names, Tidy(raw')) == EdgesFrom(edges, 0, completed, Tidy(raw))
  {
    names, raw' := {}, raw;
    ghost var whole := EdgesFrom(edges, 0, completed, Tidy(raw));
    for i := 0 to |edges|
      invariant var rest := EdgesFrom(edges, i, completed, Tidy(raw'));
                names + rest.0 == whole.0 && rest.1 == whole.1
    {
      var fired;
      fired, raw' := AdvanceEdge(edges[i], i, completed, raw');
      if fired { names := names + {edges[i].target}; }
    }
  }

  // ----- conditional edges and jumps --------------------------------------------------------------------

  function MapTargets(pathMap: Option<map<string, string>>, targets: seq<Target>): Result<seq<Target>, Error> {
    if targets == [] then Ok([])
    else
      var rest :- MapTargets(pathMap, targets[1..]);
      match targets[0]
      case SendTo(send) => Ok([targets[0]] + rest)
      case Goto(name) =>
        if pathMap.None? then Ok([targets[0]] + rest)
        else if name in pathMap.value then Ok([Goto(pathMap.value[name])] + rest)
        else Err(UnmappedRoute)
  }

  function RoutesFrom(cs: seq<Conditional>, completed: set<string>, state: State): Result<seq<Target>, Error> {
    if cs == [] then Ok([])
    else if cs[0].source == START || cs[0].source !in completed then RoutesFrom(cs[1..], completed, state)
    else
      var route :- cs[0].path(state);
      var targets :- MapTargets(cs[0].pathMap, route);
      var rest :- RoutesFrom(cs[1..], completed, state);
      Ok(targets + rest)
  }

  type Return = Suspension.Return

  function Jumps(results: seq<Return>): seq<Target> {
    if results == [] then [] else results[0].1 + Jumps(results[1..])
  }

  function Updates(results: seq<Return>): seq<Update> {
    seq(|results|, i requires 0 <= i < |results| => map k | k in results[i].0 :: Plain(results[i].0[k]))
  }

  function BumpOne(versions: map<Key, nat>, update: map<Key, Value>): map<Key, nat> {
    map k | k in versions.Keys + update.Keys ::
      (if k in versions then versions[k] else 0) + (if k in update then 1 else 0)
  }

  function Bump(versions: map<Key, nat>, results: seq<Return>): map<Key, nat>
    decreases |results|
  {
    if results == [] then versions else Bump(BumpOne(versions, results[0].0), results[1..])
  }

  // ----- the commit --------------------------------------------------------------------------------------

  function Completed(tasks: seq<Task>): set<string> { set t | t in tasks :: t.node }

  /** Deferred nodes are scheduled once nothing else is. */
  function Flush(g: Graph, rs: RunState): Result<RunState, Error> {
    if rs.deferred != {} && rs.active == [] && rs.sends == [] then
      var active :- Normalize(g, rs.deferred);
      Ok(rs.(active := active, deferred := {}))
    else Ok(rs)
  }

  /** Merge the results of all tasks and schedule the next superstep. */
  function Commit(g: Graph, rs: RunState, tasks: seq<Task>, results: seq<Return>): Result<RunState, Error> {
    var state :- MergeUpdates(rs.state, Updates(results), g.slots);
    var completed := Completed(tasks);
    var (names, joins) := EdgesFrom(g.edges, 0, completed, rs.joins);
    var routed :- RoutesFrom(g.conditionals, completed, state);
    var jumps := Jumps(results);
    if exists s :: s in SendsOf(jumps) && s.node !in g.nodes then Err(UnknownNode)
    else
      var active :- Normalize(g, names + NamesOf(routed) + NamesOf(jumps));
      Flush(g, RunState(state, active, SendsOf(routed) + SendsOf(jumps), joins, rs.deferred,
                        rs.step + 1, Bump(rs.versions, results)))
  }

  lemma {:induction false} NoTargets()
    ensures NamesOf([]) == {} && SendsOf([]) == [] && SendsOf([]) + SendsOf([]) == []
  {
  }

  /** A commit without conditional edges, deliveries or anything deferred. */
  lemma {:induction false} PlainCommit(g: Graph, rs: RunState, tasks: seq<Task>, results: seq<Return>, state: State,
                                       names: set<string>, jumped: set<string>, active: seq<string>)
    requires g.conditionals == [] && rs.deferred == {}
    requires SendsOf(Jumps(results)) == [] && NamesOf(Jumps(results)) == jumped
    requires MergeUpdates(rs.state, Updates(results), g.slots) == Ok(state)
    requires EdgesFrom(g.edges, 0, Completed(tasks), rs.joins) == (names, map[])
    requires Normalize(g, names + jumped) == Ok(active)
    ensures Commit(g, rs, tasks, results) ==
            Ok(RunState(state, active, [], map[], {}, rs.step + 1, Bump(rs.versions, results)))
  {
    NoTargets();
    assert names + {} + jumped == names + jumped;
    assert RoutesFrom(g.conditionals, Completed(tasks), state) == Ok([]);
    hide MergeUpdates, Updates, EdgesFrom, RoutesFrom, Normalize, Jumps, NamesOf, SendsOf, Bump, Completed;
  }

  method BumpVersions(versions: map<Key, nat>, results: seq<Return>) returns (bumped: map<Key, nat>)
    ensures bumped == Bump(versions, results)
  {
    bumped := versions;
    for i := 0 to |results|
      invariant Bump(bumped, results[i..]) == Bump(versions, results)
    {
      assert results[i..][1..] == results[i + 1..];
      bumped := BumpOne(bumped, results[i].0);
    }
  }

  method RouteConditionals(cs: seq<Conditional>, completed: set<string>, state: State)
    returns (routed: Result<seq<Target>, Error>)
    ensures routed == RoutesFrom(cs, completed, state)
  {
    hide MapTargets;
    var targets: seq<Target> := [];
    for i := 0 to |cs|
      invariant var rest := RoutesFrom(cs[i..], completed, state);
                var whole := RoutesFrom(cs, completed, state);
                if rest.Err? then whole == rest else whole.Ok? && whole.value == targets + rest.value
    {
      assert cs[i..][1..] == cs[i + 1..];
      if cs[i].source != START && cs[i].source in completed {
        var route := cs[i].path(state);
        if route.Err? { return Err(route.error); }
        var mapped := MapTargets(cs[i].pathMap, route.value);
        if mapped.Err? { return Err(mapped.error); }
        targets := targets + mapped.value;
      }
    }
    assert RoutesFrom(cs, completed, state).value == targets;
    return Ok(targets);
  }

  method CollectJumps(results: seq<Return>) returns (jumps: seq<Target>)
    ensures jumps == Jumps(results)
  {
    jumps := [];
    for i := 0 to |results|
      invariant jumps + Jumps(results[i..]) == Jumps(results)
    {
      assert results[i..][1..] == results[i + 1..];
      jumps := jumps + results[i].1;
    }
  }

  method CommitStep(g: Graph, rs: RunState, raw: Joins, tasks: seq<Task>, results: seq<Return>)
    returns (next: Result<RunState, Error>, raw': Joins)
    requires rs.joins == Tidy(raw)
    ensures next == Commit(g, rs, tasks, results)
    ensures next.Ok? ==> next.value.joins == Tidy(raw')
  {
    hide MergeUpdates, Updates, Completed, EdgesFrom, RoutesFrom, Jumps, SendsOf, NamesOf, Normalize, Bump, Tidy;
    raw' := raw;
    var state := Merge(rs.state, Updates(results), g.slots);
    if state.Err? { return Err(state.error), raw'; }
    var versions := BumpVersions(rs.versions, results);
    var completed := Completed(tasks);
    var names;
    names, raw' := AdvanceEdges(g.edges, completed, raw);
    var routed := RouteConditionals(g.conditionals, completed, state.value);
    if routed.Err? { return Err(routed.error), raw'; }
    var jumps := CollectJumps(results);
    if exists s :: s in SendsOf(jumps) && s.node !in g.nodes { return Err(UnknownNode), raw'; }
    var active := Normalize(g, names + NamesOf(routed.value) + NamesOf(jumps));
    if active.Err? { return Err(active.error), raw'; }
    var sends, deferred, targets := SendsOf(routed.value) + SendsOf(jumps), rs.deferred, active.value;
    if deferred != {} && targets == [] && sends == [] {
      active := Normalize(g, deferred);
      if active.Err? { return Err(active.error), raw'; }
      deferred := {};
      targets := active.value;
    }
    next := Ok(RunState(state.value, targets, sends, Tidy(raw'), deferred, rs.step + 1, versions));
  }

  // ----- the entry ------------------------------------------------------------------------------------------

  function EntryNames(edges: seq<Edge>): set<string> {
    set e | e in edges && e.sources == [START] :: e.target
  }

  function EntryRoutes(cs: seq<Conditional>, state: State): Result<seq<Target>, Error> {
    if cs == [] then Ok([])
    else if cs[0].source != START then EntryRoutes(cs[1..], state)
    else
      var route :- cs[0].path(state);
      var targets :- MapTargets(cs[0].pathMap, route);
      var rest :- EntryRoutes(cs[1..], state);
      Ok(targets + rest)
  }

  predicate Done(rs: RunState) { rs.active == [] && rs.sends == [] }

  /** What a thread holds when a run on it has ended: nothing is scheduled and nothing deferred. */
  type Final = rs: RunState | Done(rs) && rs.deferred == {} && Tidy(rs.joins) == rs.joins witness BLANK

  const BLANK := RunState(map[], [], [], map[], {}, 0, map[])

  /** Entered with a mapping: merge the input and schedule the entry nodes.  Join progress and versions carry over. */
  function EnterFrom(g: Graph, input: Update, last: Final): Result<RunState, Error> {
    var state :- MergeUpdates(last.state, [input], g.slots);
    var routed :- EntryRoutes(g.conditionals, state);
    var active :- Normalize(g, EntryNames(g.edges) + NamesOf(routed));
    Ok(RunState(state, active, SendsOf(routed), last.joins, {}, 0, last.versions))
  }

  /** A fresh thread. */
  function Enter(g: Graph, input: Update): Result<RunState, Error> { EnterFrom(g, input, BLANK) }

  /** How a turn begins: with a first input, or with a new one on a thread whose last run has ended. */
  datatype Entry = Fresh(input: Update) | Turn(input: Update, last: Final)

  function Entered(g: Graph, entry: Entry): Result<RunState, Error> {
    EnterFrom(g, entry.input, if entry.Fresh? then BLANK else entry.last)
  }

  lemma {:induction false} FreshEnters(g: Graph, input: Update)
    ensures Entered(g, Fresh(input)) == Enter(g, input)
  {
  }
}
