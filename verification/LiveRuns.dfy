/** The converse of module ReachableRuns: where nothing is deferred, every node of the closure under the rules of a run
    is scheduled by some run whose nodes jump wherever they declare and whose routes go wherever they may. */
module LiveRuns {
  import opened Prelude
  import opened Channels
  import opened Interrupts
  import opened Supersteps
  import opened Reachability
  import opened ReachableRuns

  // ----- going everywhere ---------------------------------------------------------------------------------------

  function Gotos(names: seq<string>): (targets: seq<Target>)
    ensures |targets| == |names|
  {
    seq(|names|, i requires 0 <= i < |names| => Goto(names[i]))
  }

  ghost function Listed(names: set<string>): (list: seq<string>)
    ensures Chosen(list) == names
  {
    if names == {} then []
    else
      var name :| name in names;
      var rest := Listed(names - {name});
      assert Chosen([name] + rest) == {name} + Chosen(rest);
      [name] + rest
  }

  ghost function Ways(bp: Blueprint, c: Conditional): seq<string> {
    if c.pathMap.None? then bp.graph.nodes else Listed(c.pathMap.value.Keys)
  }

  /** The conditional edge that routes everywhere it may, in every state. */
  ghost function Widened(bp: Blueprint, c: Conditional): Conditional {
    var route: Result<seq<Target>, Error> := Ok(Gotos(Ways(bp, c)));
    Conditional(c.source, state => route, c.pathMap)
  }

  ghost function Wide(bp: Blueprint): Blueprint {
    var cs := bp.graph.conditionals;
    bp.(graph := bp.graph.(conditionals := seq(|cs|, i requires 0 <= i < |cs| => Widened(bp, cs[i]))))
  }

  /** The same graph up to what its nodes compute and how its conditional edges choose. */
  ghost predicate SameShape(a: Blueprint, b: Blueprint) {
    && a.graph.nodes == b.graph.nodes && a.graph.deferring == b.graph.deferring && a.graph.edges == b.graph.edges
    && a.graph.slots == b.graph.slots && a.destinations == b.destinations
    && |a.graph.conditionals| == |b.graph.conditionals|
    && forall i :: 0 <= i < |a.graph.conditionals| ==>
         a.graph.conditionals[i].source == b.graph.conditionals[i].source &&
         a.graph.conditionals[i].pathMap == b.graph.conditionals[i].pathMap
  }

  /** Closure depends on the shape alone. */
  lemma {:induction false} ShapeCloses(a: Blueprint, b: Blueprint, reach: set<string>, lenient: bool)
    requires SameShape(a, b)
    ensures Closed(a, reach, lenient) <==> Closed(b, reach, lenient)
  {
    hide EdgeClosed;
    forall i | 0 <= i < |a.graph.conditionals|
      ensures RouteClosed(a.graph.conditionals[i], a.Known(), reach) <==>
              RouteClosed(b.graph.conditionals[i], b.Known(), reach)
    {
    }
    forall i | 0 <= i < |a.graph.nodes|
      ensures JumpClosed(a, a.graph.nodes[i], reach) <==> JumpClosed(b, b.graph.nodes[i], reach)
    {
    }
  }

  /** Where the targets of a conditional edge end up. */
  function Ends(bp: Blueprint, c: Conditional): set<string> {
    if c.pathMap.None? then bp.Known() else c.pathMap.value.Values
  }

  lemma {:induction false} GotosNames(names: seq<string>)
    ensures NamesOf(Gotos(names)) == Chosen(names) && SendsOf(Gotos(names)) == []
  {
    var targets := Gotos(names);
    forall n | n in names
      ensures n in NamesOf(targets)
    {
      var i :| 0 <= i < |names| && names[i] == n;
      assert targets[i] in targets;
    }
    NoSends(targets);
  }

  lemma {:induction false} NoSends(targets: seq<Target>)
    requires forall i :: 0 <= i < |targets| ==> targets[i].Goto?
    ensures SendsOf(targets) == []
  {
    if targets != [] {
      NoSends(targets[1..]);
    }
  }

  lemma {:induction false} SendsAdd(a: seq<Target>, b: seq<Target>)
    ensures SendsOf(a + b) == SendsOf(a) + SendsOf(b)
  {
    if a == [] {
      assert a + b == b;
    } else {
      var first := if a[0].SendTo? then [a[0].send] else [];
      SendsAdd(a[1..], b);
      assert (a + b)[1..] == a[1..] + b;
      assert SendsOf(a + b) == first + SendsOf(a[1..] + b);
      assert first + (SendsOf(a[1..]) + SendsOf(b)) == (first + SendsOf(a[1..])) + SendsOf(b);
    }
  }

  lemma {:induction false} NamesAdd(a: seq<Target>, b: seq<Target>)
    ensures NamesOf(a + b) == NamesOf(a) + NamesOf(b)
    ensures SendsOf(a + b) == SendsOf(a) + SendsOf(b)
  {
    SendsAdd(a, b);
    hide SendsOf;
    assert forall t :: t in a + b <==> t in a || t in b;
  }

  function Image(m: map<string, string>, names: set<string>): set<string>
    requires names <= m.Keys
  {
    set n | n in names :: m[n]
  }

  lemma {:induction false} MappedNames(m: map<string, string>, names: seq<string>)
    requires Chosen(names) <= m.Keys
    ensures MapTargets(Some(m), Gotos(names)).Ok?
    ensures var targets := MapTargets(Some(m), Gotos(names)).value;
            NamesOf(targets) == Image(m, Chosen(names)) && SendsOf(targets) == []
  {
    if names == [] {
      assert Chosen(names) == {} && Gotos(names) == [];
    } else {
      var rest := names[1..];
      assert Chosen(names) == {names[0]} + Chosen(rest) by {
        assert names == [names[0]] + rest;
      }
      MappedNames(m, rest);
      assert Gotos(names)[1..] == Gotos(rest);
      var first, more := [Goto(m[names[0]])], MapTargets(Some(m), Gotos(rest)).value;
      assert MapTargets(Some(m), Gotos(names)) == Ok(first + more);
      OneName(m[names[0]]);
      hide Gotos, MapTargets, NamesOf, SendsOf;
      NamesAdd(first, more);
    }
  }

  lemma {:induction false} OneName(name: string)
    ensures NamesOf([Goto(name)]) == {name} && SendsOf([Goto(name)]) == []
  {
    assert [Goto(name)][0] in [Goto(name)];
    assert [Goto(name)][1..] == [];
  }

  lemma {:induction false} UnmappedNames(names: seq<string>)
    ensures MapTargets(None, Gotos(names)) == Ok(Gotos(names))
  {
    if names != [] {
      UnmappedNames(names[1..]);
      assert Gotos(names)[1..] == Gotos(names[1..]);
      assert Gotos(names) == [Goto(names[0])] + Gotos(names[1..]);
    }
  }

  lemma {:induction false} WideRoute(bp: Blueprint, c: Conditional, state: State)
    ensures var w := Widened(bp, c);
            && w.path(state).Ok? && MapTargets(w.pathMap, w.path(state).value).Ok?
            && NamesOf(MapTargets(w.pathMap, w.path(state).value).value) == Ends(bp, c)
            && SendsOf(MapTargets(w.pathMap, w.path(state).value).value) == []
  {
    var names := Ways(bp, c);
    GotosNames(names);
    if c.pathMap.None? {
      UnmappedNames(names);
    } else {
      MappedNames(c.pathMap.value, names);
      assert Image(c.pathMap.value, Chosen(names)) == c.pathMap.value.Values;
    }
  }

  // ----- nothing is written, so nothing fails ----------------------------------------------------------------------

  /** All a channel ever holds without a write. */
  predicate Unwritten(state: State) { forall k :: k in state ==> state[k].List? }

  lemma {:induction false} NoWritesFor(updates: seq<Update>, key: Key)
    requires forall i :: 0 <= i < |updates| ==> updates[i] == map[]
    ensures WritesFor(updates, key) == []
  {
    if updates != [] {
      NoWritesFor(updates[1..], key);
    }
  }

  lemma {:induction false} SlotsUnwritten(state: State, updates: seq<Update>, slots: seq<Slot>)
    requires Unwritten(state) && forall i :: 0 <= i < |updates| ==> updates[i] == map[]
    ensures MergeSlots(state, updates, slots).Ok? && Unwritten(MergeSlots(state, updates, slots).value)
    decreases |slots|
  {
    if slots != [] {
      NoWritesFor(updates, slots[0].key);
      var slot := Merged(slots[0].channel, Get(state, slots[0].key), []);
      assert slot.Ok? && (slot.value.Some? ==> slot.value.value.List?);
      SlotsUnwritten(Put(state, slots[0].key, slot.value), updates, slots[1..]);
    }
  }

  lemma {:induction false} MergeUnwritten(state: State, updates: seq<Update>, slots: seq<Slot>)
    requires Unwritten(state) && forall i :: 0 <= i < |updates| ==> updates[i] == map[]
    ensures MergeUpdates(state, updates, slots).Ok? && Unwritten(MergeUpdates(state, updates, slots).value)
  {
    hide MergeSlots;
    SlotsUnwritten(state, updates, slots);
  }

  // ----- one superstep that goes everywhere --------------------------------------------------------------------------

  /** Each task writes nothing and jumps wherever its node declares. */
  function Everywhere(bp: Blueprint, tasks: seq<Task>): seq<Return> {
    seq(|tasks|, i requires 0 <= i < |tasks| => (map[], Gotos(bp.Declared(tasks[i].node))))
  }

  lemma {:induction false} EverywhereWrites(bp: Blueprint, tasks: seq<Task>)
    ensures var updates := Updates(Everywhere(bp, tasks));
            forall i :: 0 <= i < |updates| ==> updates[i] == map[]
  {
  }

  function Declarations(bp: Blueprint, tasks: seq<Task>): set<string> {
    set t, n | t in tasks && n in bp.Declared(t.node) :: n
  }

  lemma {:induction false} JumpsEverywhere(bp: Blueprint, tasks: seq<Task>)
    ensures SendsOf(Jumps(Everywhere(bp, tasks))) == []
    ensures NamesOf(Jumps(Everywhere(bp, tasks))) == Declarations(bp, tasks)
  {
    if tasks == [] {
      assert Everywhere(bp, tasks) == [];
    } else {
      var results, rest, names := Everywhere(bp, tasks), tasks[1..], bp.Declared(tasks[0].node);
      JumpsEverywhere(bp, rest);
      assert results[1..] == Everywhere(bp, rest);
      assert Declarations(bp, tasks) == Chosen(names) + Declarations(bp, rest) by {
        assert tasks == [tasks[0]] + rest;
      }
      assert Jumps(results) == Gotos(names) + Jumps(results[1..]);
      GotosNames(names);
      hide Gotos, Jumps, NamesOf, SendsOf, Everywhere, Declarations;
      NamesAdd(Gotos(names), Jumps(Everywhere(bp, rest)));
    }
  }

  /** Where the conditional edges from these sources lead. */
  ghost function AllEnds(bp: Blueprint, cs: seq<Conditional>, sources: set<string>): set<string> {
    set i, n | 0 <= i < |cs| && cs[i].source in sources && n in Ends(bp, cs[i]) :: n
  }

  ghost function WidenedAll(bp: Blueprint, cs: seq<Conditional>): seq<Conditional> {
    seq(|cs|, i requires 0 <= i < |cs| => Widened(bp, cs[i]))
  }

  lemma {:induction false} RoutesEverywhere(bp: Blueprint, cs: seq<Conditional>, completed: set<string>, state: State)
    requires START !in completed
    ensures var routed := RoutesFrom(WidenedAll(bp, cs), completed, state);
            routed.Ok? && NamesOf(routed.value) == AllEnds(bp, cs, completed) && SendsOf(routed.value) == []
    decreases |cs|
  {
    if cs != [] {
      hide MapTargets, NamesOf, SendsOf, Widened, Ends;
      var ws := WidenedAll(bp, cs);
      RoutesEverywhere(bp, cs[1..], completed, state);
      assert ws[1..] == WidenedAll(bp, cs[1..]);
      AllEndsSplit(bp, cs, completed);
      WideRoute(bp, cs[0], state);
      if cs[0].source in completed {
        var first := MapTargets(ws[0].pathMap, ws[0].path(state).value).value;
        NamesAdd(first, RoutesFrom(ws[1..], completed, state).value);
      }
    } else {
      assert WidenedAll(bp, cs) == [];
    }
  }

  lemma {:induction false} EntryEverywhere(bp: Blueprint, cs: seq<Conditional>, state: State)
    ensures var routed := EntryRoutes(WidenedAll(bp, cs), state);
            routed.Ok? && NamesOf(routed.value) == AllEnds(bp, cs, {START}) && SendsOf(routed.value) == []
    decreases |cs|
  {
    if cs != [] {
      hide MapTargets, NamesOf, SendsOf, Widened, Ends;
      var ws := WidenedAll(bp, cs);
      EntryEverywhere(bp, cs[1..], state);
      assert ws[1..] == WidenedAll(bp, cs[1..]);
      AllEndsSplit(bp, cs, {START});
      WideRoute(bp, cs[0], state);
      if cs[0].source == START {
        var first := MapTargets(ws[0].pathMap, ws[0].path(state).value).value;
        NamesAdd(first, EntryRoutes(ws[1..], state).value);
      }
    } else {
      assert WidenedAll(bp, cs) == [];
    }
  }

  lemma {:induction false} AllEndsSplit(bp: Blueprint, cs: seq<Conditional>, sources: set<string>)
    requires cs != []
    ensures AllEnds(bp, cs, sources) ==
            AllEnds(bp, cs[1..], sources) + if cs[0].source in sources then Ends(bp, cs[0]) else {}
  {
    hide Ends;
    forall n | n in AllEnds(bp, cs[1..], sources)
      ensures n in AllEnds(bp, cs, sources)
    {
      var i :| 0 <= i < |cs[1..]| && cs[1..][i].source in sources && n in Ends(bp, cs[1..][i]);
      assert cs[i + 1] == cs[1..][i];
    }
    forall n | n in AllEnds(bp, cs, sources)
      ensures n in AllEnds(bp, cs[1..], sources) || (cs[0].source in sources && n in Ends(bp, cs[0]))
    {
      var i :| 0 <= i < |cs| && cs[i].source in sources && n in Ends(bp, cs[i]);
      if i > 0 {
        assert cs[1..][i - 1] == cs[i];
      }
    }
  }

  type Rank = string -> nat

  /** No cycle: every edge, every route and every declared jump leads to a higher rank. */
  ghost predicate Climbs(bp: Blueprint, rank: Rank) {
    && (forall i, s :: 0 <= i < |bp.graph.edges| && s in bp.graph.edges[i].sources && s != START ==>
          bp.graph.edges[i].target == END || rank(s) < rank(bp.graph.edges[i].target))
    && (forall i, n :: 0 <= i < |bp.graph.conditionals| && n in Ends(bp, bp.graph.conditionals[i]) ==>
          var source := bp.graph.conditionals[i].source;
          source == START || n == END || rank(source) < rank(n))
    && (forall m, n :: m in bp.graph.nodes && n in bp.Declared(m) ==> n == END || rank(m) < rank(n))
  }

  /** What the runs below need of a graph: it is built with registered endpoints, and nothing is deferred or nothing
      leads back. */
  ghost predicate Sturdy(bp: Blueprint) {
    Built(bp) && WellEnded(bp) && (bp.graph.deferring == {} || exists rank :: Climbs(bp, rank))
  }

  /** The names a superstep schedules: the edges that fire, every route and every declared jump. */
  ghost function NextNames(bp: Blueprint, rs: RunState): set<string> {
    EdgesFrom(bp.graph.edges, 0, Chosen(rs.active), rs.joins).0 +
    AllEnds(bp, bp.graph.conditionals, Chosen(rs.active)) + Declarations(bp, NamedTasks(rs))
  }

  predicate Nameable(bp: Blueprint, names: set<string>) { forall n :: n in names ==> GoodTarget(bp, n) }

  lemma {:induction false} EndsNameable(bp: Blueprint, sources: set<string>)
    requires Sturdy(bp)
    ensures Nameable(bp, AllEnds(bp, bp.graph.conditionals, sources))
  {
    forall i | 0 <= i < |bp.graph.conditionals|
      ensures Nameable(bp, Ends(bp, bp.graph.conditionals[i]))
    {
      assert GoodRoute(bp, bp.graph.conditionals[i]);
    }
  }

  lemma {:induction false} NextNameable(bp: Blueprint, rs: RunState)
    requires Sturdy(bp) && Chosen(rs.active) <= bp.Known()
    ensures Nameable(bp, NextNames(bp, rs))
  {
    hide EdgesFrom, AllEnds;
    EndsNameable(bp, Chosen(rs.active));
    forall n | n in EdgesFrom(bp.graph.edges, 0, Chosen(rs.active), rs.joins).0
      ensures GoodTarget(bp, n)
    {
      NamedByFiring(bp.graph.edges, 0, Chosen(rs.active), rs.joins, n);
      var j :| 0 <= j < |bp.graph.edges| && bp.graph.edges[j].target == n;
      assert GoodEdge(bp, bp.graph.edges[j]);
    }
    forall n | n in Declarations(bp, NamedTasks(rs))
      ensures GoodTarget(bp, n)
    {
      var t :| t in NamedTasks(rs) && n in bp.Declared(t.node);
      assert t.node in Chosen(rs.active);
    }
  }

  lemma {:induction false} NormalizeNameable(bp: Blueprint, names: set<string>)
    requires NamesReserved(bp) && Nameable(bp, names)
    ensures Normalize(bp.graph, names).Ok?
    ensures forall n :: n in Normalize(bp.graph, names).value <==> n in names && n != END
  {
    forall n | n in names
      ensures Selectable(bp.graph, n)
    {
      assert GoodTarget(bp, n);
    }
    InOrderKeeps(bp.graph.nodes, names - {END});
  }

  /** The states of the run below: nothing written or sent, no edge left ready, and nothing left deferred at the end. */
  predicate Steady(bp: Blueprint, rs: RunState) {
    && Unwritten(rs.state) && rs.sends == [] && rs.deferred <= bp.Known() && rs.deferred <= bp.graph.deferring
    && (rs.active == [] ==> rs.deferred == {})
    && Chosen(rs.active) <= bp.Known() && Gathering(bp.graph, rs.joins)
  }

  /** The same once deferred nodes have stepped aside. */
  predicate Settled(bp: Blueprint, rs: RunState) {
    && Unwritten(rs.state) && rs.sends == [] && rs.deferred <= bp.Known() && rs.deferred <= bp.graph.deferring
    && Chosen(rs.active) <= bp.Known() && Gathering(bp.graph, rs.joins)
  }

  lemma {:induction false} SettlesSteady(bp: Blueprint, rs: RunState)
    requires Steady(bp, rs)
    ensures Settled(bp, Settle(bp.graph, rs)) && Settle(bp.graph, rs).joins == rs.joins
    ensures Chosen(rs.active) <= Chosen(Settle(bp.graph, rs).active) + Settle(bp.graph, rs).deferred
    ensures Chosen(Settle(bp.graph, rs).active) <= Chosen(rs.active) && rs.deferred <= Settle(bp.graph, rs).deferred
    ensures rs.active != [] ==> Settle(bp.graph, rs).active != []
  {
    hide Gathering;
    WithoutKeeps(rs.active, Chosen(rs.active) * bp.graph.deferring);
  }

  lemma {:induction false} WideSettles(bp: Blueprint, rs: RunState)
    ensures Settle(Wide(bp).graph, rs) == Settle(bp.graph, rs)
  {
  }

  lemma {:induction false} GatheringStays(g: Graph, completed: set<string>, joins: Joins)
    requires forall i :: 0 <= i < |g.edges| ==> g.edges[i].sources != []
    ensures Gathering(g, EdgesFrom(g.edges, 0, completed, joins).1)
  {
    forall i | 0 <= i < |g.edges| && FanIn(g.edges[i])
      ensures !Ready(g.edges[i], Progress(EdgesFrom(g.edges, 0, completed, joins).1, i))
    {
      EdgesPointwise(g.edges, 0, completed, joins, i);
      assert g.edges[i].sources[0] in Chosen(g.edges[i].sources);
    }
  }

  lemma {:induction false} SettledTasks(bp: Blueprint, rs: RunState)
    requires Sturdy(bp) && Settled(bp, rs)
    ensures Plan(Wide(bp).graph, rs) == Ok(NamedTasks(rs))
    ensures Completed(NamedTasks(rs)) == Chosen(rs.active) && START !in Chosen(rs.active)
  {
    var tasks := NamedTasks(rs);
    assert Deliveries(rs) == [] && tasks + [] == tasks;
    assert forall i :: 0 <= i < |tasks| ==> tasks[i].node == rs.active[i];
    forall n | n in Chosen(rs.active)
      ensures n in Completed(tasks)
    {
      var i :| 0 <= i < |rs.active| && rs.active[i] == n;
      assert tasks[i] in tasks;
    }
  }

  /** The commit of a superstep that goes everywhere, once deferred nodes have stepped aside. */
  ghost function WideCommit(bp: Blueprint, rs: RunState): Result<RunState, Error> {
    Commit(Wide(bp).graph, rs, NamedTasks(rs), Everywhere(bp, NamedTasks(rs)))
  }

  /** It succeeds and schedules all it can; if that is nothing, the deferred nodes. */
  lemma {:induction false} WideStep(bp: Blueprint, rs: RunState)
    requires Sturdy(bp) && Settled(bp, rs)
    ensures var next, names := WideCommit(bp, rs), NextNames(bp, rs) - {END};
            && next.Ok? && Steady(bp, next.value)
            && Chosen(next.value.active) == (if names == {} then rs.deferred else names)
            && next.value.deferred == (if names == {} then {} else rs.deferred)
            && next.value.joins == EdgesFrom(bp.graph.edges, 0, Chosen(rs.active), rs.joins).1
  {
    var g, tasks, completed := Wide(bp).graph, NamedTasks(rs), Chosen(rs.active);
    var results := Everywhere(bp, tasks);
    SettledTasks(bp, rs);
    EverywhereWrites(bp, tasks);
    MergeUnwritten(rs.state, Updates(results), g.slots);
    var state := MergeUpdates(rs.state, Updates(results), g.slots).value;
    RoutesEverywhere(bp, bp.graph.conditionals, completed, state);
    JumpsEverywhere(bp, tasks);
    var names := NextNames(bp, rs);
    NextNameable(bp, rs);
    NormalizeNameable(bp, names);
    NormalizeAlike(bp, names);
    GatheringStays(bp.graph, completed, rs.joins);
    hide *;
    WideFlush(bp, rs, state);
    var active, joins := Normalize(g, names).value, EdgesFrom(bp.graph.edges, 0, completed, rs.joins).1;
    NamesChosen(bp, names, active);
    SettledPre(bp, rs, state, active, joins, Bump(rs.versions, results));
    NotEmptied(active);
    FlushesWide(bp, RunState(state, active, [], joins, rs.deferred, rs.step + 1, Bump(rs.versions, results)));
  }

  lemma {:induction false} NotEmptied(active: seq<string>)
    ensures active == [] <==> Chosen(active) == {}
  {
    if active != [] {
      HasAName(active);
    }
  }

  /** The commit, before deferred nodes are released. */
  lemma {:induction false} WideFlush(bp: Blueprint, rs: RunState, state: State)
    requires rs.sends == [] && Completed(NamedTasks(rs)) == Chosen(rs.active)
    requires var results := Everywhere(bp, NamedTasks(rs));
             && MergeUpdates(rs.state, Updates(results), Wide(bp).graph.slots) == Ok(state)
             && NamesOf(Jumps(results)) == Declarations(bp, NamedTasks(rs)) && SendsOf(Jumps(results)) == []
    requires var routed := RoutesFrom(Wide(bp).graph.conditionals, Chosen(rs.active), state);
             && routed.Ok? && NamesOf(routed.value) == AllEnds(bp, bp.graph.conditionals, Chosen(rs.active))
             && SendsOf(routed.value) == []
    requires Normalize(Wide(bp).graph, NextNames(bp, rs)).Ok?
    ensures WideCommit(bp, rs) ==
            Flush(Wide(bp).graph,
                  RunState(state, Normalize(Wide(bp).graph, NextNames(bp, rs)).value, [],
                           EdgesFrom(bp.graph.edges, 0, Chosen(rs.active), rs.joins).1, rs.deferred, rs.step + 1,
                           Bump(rs.versions, Everywhere(bp, NamedTasks(rs)))))
  {
    hide MergeUpdates, Updates, EdgesFrom, RoutesFrom, Jumps, NamesOf, SendsOf, Normalize, Bump, Completed, AllEnds,
      Declarations, Everywhere, NamedTasks, Flush;
    WideEdges(bp);
    var results := Everywhere(bp, NamedTasks(rs));
    var routed := RoutesFrom(Wide(bp).graph.conditionals, Chosen(rs.active), state).value;
    assert SendsOf(routed) + SendsOf(Jumps(results)) == [];
  }

  lemma {:induction false} WideEdges(bp: Blueprint)
    ensures Wide(bp).graph.edges == bp.graph.edges && Wide(bp).graph.nodes == bp.graph.nodes
    ensures Wide(bp).graph.conditionals == WidenedAll(bp, bp.graph.conditionals)
  {
  }

  lemma {:induction false} SettledPre(bp: Blueprint, rs: RunState, state: State, active: seq<string>, joins: Joins,
                                      versions: map<Key, nat>)
    requires Settled(bp, rs) && Unwritten(state) && Gathering(bp.graph, joins) && Chosen(active) <= bp.Known()
    ensures Settled(bp, RunState(state, active, [], joins, rs.deferred, rs.step + 1, versions))
  {
  }

  lemma {:induction false} NamesChosen(bp: Blueprint, names: set<string>, active: seq<string>)
    requires forall n :: n in active <==> n in names && n != END
    ensures Chosen(active) == names - {END}
  {
  }

  lemma {:induction false} FlushesWide(bp: Blueprint, pre: RunState)
    requires Sturdy(bp) && Settled(bp, pre)
    ensures var next := Flush(Wide(bp).graph, pre);
            && next.Ok? && Steady(bp, next.value) && next.value.joins == pre.joins
            && Chosen(next.value.active) == (if pre.active == [] then pre.deferred else Chosen(pre.active))
            && next.value.deferred == (if pre.active == [] then {} else pre.deferred)
  {
    hide Gathering, Unwritten, Normalize;
    assert Nameable(bp, pre.deferred);
    NormalizeNameable(bp, pre.deferred);
    NormalizeAlike(bp, pre.deferred);
    assert END !in pre.deferred;
    if pre.deferred != {} && pre.active == [] {
      var active := Normalize(bp.graph, pre.deferred).value;
      NamesChosen(bp, pre.deferred, active);
    }
  }

  lemma {:induction false} NormalizeAlike(bp: Blueprint, names: set<string>)
    ensures Normalize(Wide(bp).graph, names) == Normalize(bp.graph, names)
  {
  }

  lemma {:induction false} WideEnter(bp: Blueprint)
    requires Sturdy(bp)
    ensures var rs := Enter(Wide(bp).graph, map[]);
            && rs.Ok? && Steady(bp, rs.value) && rs.value.deferred == {}
            && (forall n :: n in rs.value.active <==>
                              n in EntryNames(bp.graph.edges) + AllEnds(bp, bp.graph.conditionals, {START}) && n != END)
  {
    var g := Wide(bp).graph;
    MergeUnwritten(map[], [map[]], g.slots);
    var state := MergeUpdates(map[], [map[]], g.slots).value;
    EntryEverywhere(bp, bp.graph.conditionals, state);
    var names := EntryNames(bp.graph.edges) + AllEnds(bp, bp.graph.conditionals, {START});
    EndsNameable(bp, {START});
    assert Nameable(bp, names) by {
      forall i | 0 <= i < |bp.graph.edges|
        ensures GoodTarget(bp, bp.graph.edges[i].target)
      {
        assert GoodEdge(bp, bp.graph.edges[i]);
      }
    }
    NormalizeNameable(bp, names);
    NormalizeAlike(bp, names);
    assert Gathering(bp.graph, map[]) by {
      forall i | 0 <= i < |bp.graph.edges| && FanIn(bp.graph.edges[i])
        ensures !Ready(bp.graph.edges[i], {})
      {
        assert bp.graph.edges[i].sources[0] in Chosen(bp.graph.edges[i].sources);
      }
    }
    hide MergeUpdates, EntryRoutes, NamesOf, SendsOf, Normalize, AllEnds, WidenedAll, Gathering, Nameable, Unwritten;
  }

  // ----- the run that goes everywhere ----------------------------------------------------------------------------

  ghost function StateAt(bp: Blueprint, k: nat): Result<RunState, Error> {
    if k == 0 then Enter(Wide(bp).graph, map[])
    else
      var rs :- StateAt(bp, k - 1);
      WideCommit(bp, Settle(bp.graph, rs))
  }

  lemma {:induction false} StateIsSteady(bp: Blueprint, k: nat)
    requires Sturdy(bp)
    ensures StateAt(bp, k).Ok? && Steady(bp, StateAt(bp, k).value)
  {
    hide Enter, WideCommit, Steady, Sturdy, Settle, Settled;
    if k == 0 {
      WideEnter(bp);
    } else {
      StateIsSteady(bp, k - 1);
      SettlesSteady(bp, StateAt(bp, k - 1).value);
      WideStep(bp, Settle(bp.graph, StateAt(bp, k - 1).value));
    }
  }

  /** What superstep k runs, once deferred nodes have stepped aside. */
  ghost function RunningAt(bp: Blueprint, k: nat): RunState
    requires Sturdy(bp)
  {
    StateIsSteady(bp, k);
    Settle(bp.graph, StateAt(bp, k).value)
  }

  /** One superstep of the run, from what it runs to what the next one runs. */
  lemma {:induction false} RunningNext(bp: Blueprint, k: nat)
    requires Sturdy(bp)
    ensures StateAt(bp, k).Ok? && Settled(bp, RunningAt(bp, k)) && StateAt(bp, k + 1).Ok?
    ensures var names := NextNames(bp, RunningAt(bp, k)) - {END};
            && Chosen(StateAt(bp, k + 1).value.active) == (if names == {} then RunningAt(bp, k).deferred else names)
            && StateAt(bp, k + 1).value.deferred == (if names == {} then {} else RunningAt(bp, k).deferred)
    ensures RunningAt(bp, k + 1).joins ==
            EdgesFrom(bp.graph.edges, 0, Chosen(RunningAt(bp, k).active), RunningAt(bp, k).joins).1
  {
    hide Enter, WideCommit, Steady, Sturdy, Settle, Settled, NextNames, EdgesFrom;
    StateIsSteady(bp, k);
    StateIsSteady(bp, k + 1);
    SettlesSteady(bp, StateAt(bp, k).value);
    SettlesSteady(bp, StateAt(bp, k + 1).value);
    WideStep(bp, RunningAt(bp, k));
  }

  /** Superstep k runs the node. */
  ghost predicate RunsAt(bp: Blueprint, k: nat, node: string)
    requires Sturdy(bp)
  {
    node in RunningAt(bp, k).active
  }

  ghost predicate EverRuns(bp: Blueprint, node: string)
    requires Sturdy(bp)
  {
    exists k: nat :: RunsAt(bp, k, node)
  }

  /** The nodes the run ever runs. */
  ghost function Visited(bp: Blueprint): set<string>
    requires Sturdy(bp)
  {
    set n | n in bp.graph.nodes && EverRuns(bp, n)
  }

  // ----- what is scheduled runs ------------------------------------------------------------------------------------

  predicate Above(nodes: seq<string>, rank: Rank, floor: nat) { forall n :: n in nodes ==> floor <= rank(n) }

  lemma {:induction false} RankBound(nodes: seq<string>, rank: Rank) returns (bound: nat)
    ensures forall n :: n in nodes ==> rank(n) <= bound
  {
    if nodes == [] {
      bound := 0;
    } else {
      var rest := RankBound(nodes[1..], rank);
      bound := if rest < rank(nodes[0]) then rank(nodes[0]) else rest;
      assert nodes == [nodes[0]] + nodes[1..];
    }
  }

  /** What is scheduled next lies above something that runs now. */
  lemma {:induction false} NextClimbs(bp: Blueprint, rank: Rank, rs: RunState, floor: nat)
    requires Climbs(bp, rank) && Settled(bp, rs) && Above(rs.active, rank, floor) && NamesReserved(bp)
    ensures forall n :: n in NextNames(bp, rs) - {END} ==> floor + 1 <= rank(n)
  {
    hide Unwritten;
    forall n | n in EdgesFrom(bp.graph.edges, 0, Chosen(rs.active), rs.joins).0 && n != END
      ensures floor + 1 <= rank(n)
    {
      NamedByFiring(bp.graph.edges, 0, Chosen(rs.active), rs.joins, n);
      var j :| 0 <= j < |bp.graph.edges| && bp.graph.edges[j].target == n &&
        Fires(bp.graph.edges[j], Chosen(rs.active), Progress(rs.joins, j));
      var s := FiringSource(bp.graph, j, Chosen(rs.active), rs.joins);
      assert s in bp.graph.edges[j].sources && s in rs.active && s != START;
    }
    forall n | n in AllEnds(bp, bp.graph.conditionals, Chosen(rs.active)) && n != END
      ensures floor + 1 <= rank(n)
    {
      var i :| 0 <= i < |bp.graph.conditionals| && bp.graph.conditionals[i].source in Chosen(rs.active) &&
        n in Ends(bp, bp.graph.conditionals[i]);
    }
    forall n | n in Declarations(bp, NamedTasks(rs)) && n != END
      ensures floor + 1 <= rank(n)
    {
      var t :| t in NamedTasks(rs) && n in bp.Declared(t.node);
      assert t.node in rs.active && t.node in Chosen(rs.active);
    }
  }

  /** An edge that fires has a source that completes now. */
  lemma {:induction false} FiringSource(g: Graph, j: nat, completed: set<string>, joins: Joins) returns (s: string)
    requires j < |g.edges| && Gathering(g, joins) && Fires(g.edges[j], completed, Progress(joins, j))
    ensures s in g.edges[j].sources && s in completed
  {
    var edge, progress := g.edges[j], Progress(joins, j);
    if |edge.sources| == 1 {
      s := edge.sources[0];
    } else {
      assert !Ready(edge, progress) && Gathered(edge, completed, progress) != progress;
      s :| s in Gathered(edge, completed, progress) && s !in progress;
    }
  }

  /** Where nothing leads back, whatever is set aside is released and runs. */
  lemma {:induction false} WaitingRuns(bp: Blueprint, rank: Rank, bound: nat, floor: nat, k: nat, node: string)
    requires Sturdy(bp) && Climbs(bp, rank) && (forall n :: n in bp.graph.nodes ==> rank(n) <= bound)
    requires Above(RunningAt(bp, k).active, rank, floor) && node in RunningAt(bp, k).deferred
    ensures EverRuns(bp, node)
    decreases if bound < floor then 0 else bound - floor + 1
  {
    RunningNext(bp, k);
    NextClimbs(bp, rank, RunningAt(bp, k), floor);
    var next := StateAt(bp, k + 1).value;
    var names := NextNames(bp, RunningAt(bp, k)) - {END};
    assert RunningAt(bp, k).deferred <= bp.graph.deferring;
    StateIsSteady(bp, k + 1);
    SettlesSteady(bp, next);
    if names == {} {
      DeferredRunTogether(bp.graph, next);
      assert node in Chosen(next.active);
      assert RunsAt(bp, k + 1, node);
    } else {
      var n :| n in names;
      assert n in Chosen(next.active) && n in bp.graph.nodes by {
        hide NextNames, Settle;
      }
      assert floor + 1 <= rank(n) <= bound;
      WaitingRuns(bp, rank, bound, floor + 1, k + 1, node);
    }
  }

  lemma {:induction false} HasAName(names: seq<string>)
    requires names != []
    ensures exists n :: n in names
    ensures Chosen(names) != {}
  {
    assert names[0] in names && names[0] in Chosen(names);
  }

  lemma {:induction false} NoName(names: seq<string>)
    requires Chosen(names) == {}
    ensures names == []
  {
    if names != [] {
      HasAName(names);
    }
  }

  lemma {:induction false} DeferredRunTogether(g: Graph, rs: RunState)
    requires Chosen(rs.active) <= g.deferring && rs.sends == []
    ensures Settle(g, rs) == rs
  {
    WithoutKeeps(rs.active, Chosen(rs.active) * g.deferring);
    var others := Without(rs.active, Chosen(rs.active) * g.deferring);
    if others != [] {
      HasAName(others);
    }
  }

  lemma {:induction false} ScheduledRuns(bp: Blueprint, k: nat, node: string)
    requires Sturdy(bp) && StateAt(bp, k).Ok? && node in StateAt(bp, k).value.active
    ensures EverRuns(bp, node) && node in Visited(bp)
  {
    StateIsSteady(bp, k);
    SettlesSteady(bp, StateAt(bp, k).value);
    assert node in Chosen(StateAt(bp, k).value.active);
    hide Settle, StateAt, Gathering;
    if node in RunningAt(bp, k).active {
      assert RunsAt(bp, k, node);
    } else {
      assert node in RunningAt(bp, k).deferred && bp.graph.deferring != {};
      var rank :| Climbs(bp, rank);
      var bound := RankBound(bp.graph.nodes, rank);
      WaitingRuns(bp, rank, bound, 0, k, node);
    }
  }

  lemma {:induction false} ChosenIs(names: seq<string>, node: string)
    ensures node in Chosen(names) <==> node in names
  {
  }

  lemma {:induction false} NextVisited(bp: Blueprint, k: nat, node: string)
    requires Sturdy(bp) && node in NextNames(bp, RunningAt(bp, k)) && node != END
    ensures node in Visited(bp)
  {
    hide *;
    RunningNext(bp, k);
    ChosenIs(StateAt(bp, k + 1).value.active, node);
    ScheduledRuns(bp, k + 1, node);
  }

  lemma {:induction false} EntryVisited(bp: Blueprint, node: string)
    requires Sturdy(bp) && node != END
    requires node in EntryNames(bp.graph.edges) + AllEnds(bp, bp.graph.conditionals, {START})
    ensures node in Visited(bp)
  {
    hide EntryNames, AllEnds, Sturdy, Enter, Visited;
    WideEnter(bp);
    ScheduledRuns(bp, 0, node);
  }

  // ----- what it visits is closed --------------------------------------------------------------------------------

  ghost predicate FiresAt(bp: Blueprint, i: nat, k: nat)
    requires Sturdy(bp) && i < |bp.graph.edges|
  {
    var rs := RunningAt(bp, k);
    Fires(bp.graph.edges[i], Chosen(rs.active), Progress(rs.joins, i))
  }

  lemma {:induction false} FiringVisits(bp: Blueprint, i: nat, k: nat)
    requires Sturdy(bp) && i < |bp.graph.edges| && FiresAt(bp, i, k) && bp.graph.edges[i].target != END
    ensures bp.graph.edges[i].target in Visited(bp)
  {
    hide Fires, Visited, RunningAt, Sturdy;
    var rs := RunningAt(bp, k);
    EdgeFires(bp.graph.edges, 0, Chosen(rs.active), rs.joins, i);
    NextVisited(bp, k, bp.graph.edges[i].target);
  }

  /** Until an 'all' edge fires it gathers every source the run completes. */
  lemma {:induction false} Accumulates(bp: Blueprint, i: nat, source: string, j: nat, k: nat)
    requires Sturdy(bp) && i < |bp.graph.edges| && FanIn(bp.graph.edges[i]) && source in bp.graph.edges[i].sources
    requires j < k && RunsAt(bp, j, source) && forall m :: j <= m < k ==> !FiresAt(bp, i, m)
    ensures source in Progress(RunningAt(bp, k).joins, i)
  {
    hide Sturdy, RunningAt, StateAt, NextNames, Settled, Fires, EdgesFrom;
    RunningNext(bp, k - 1);
    var rs := RunningAt(bp, k - 1);
    EdgesPointwise(bp.graph.edges, 0, Chosen(rs.active), rs.joins, i);
    assert !FiresAt(bp, i, k - 1);
    if j < k - 1 {
      Accumulates(bp, i, source, j, k - 1);
    }
  }

  ghost predicate SeenBefore(bp: Blueprint, node: string, k: nat)
    requires Sturdy(bp)
  {
    exists j: nat :: j < k && RunsAt(bp, j, node)
  }

  /** Nodes that are all visited have all been visited by some superstep. */
  lemma {:induction false} AllSeen(bp: Blueprint, nodes: seq<string>) returns (k: nat)
    requires Sturdy(bp) && forall n :: n in nodes ==> EverRuns(bp, n)
    ensures forall n :: n in nodes ==> SeenBefore(bp, n, k)
  {
    hide RunsAt, Sturdy;
    if nodes == [] {
      k := 0;
    } else {
      assert EverRuns(bp, nodes[0]) && forall n :: n in nodes[1..] ==> n in nodes;
      var rest := AllSeen(bp, nodes[1..]);
      var j: nat :| RunsAt(bp, j, nodes[0]);
      k := if j < rest then rest else j + 1;
      assert SeenBefore(bp, nodes[0], k);
      forall n | n in nodes
        ensures SeenBefore(bp, n, k)
      {
        if n != nodes[0] {
          assert n in nodes[1..] && SeenBefore(bp, n, rest);
        }
      }
    }
  }

  /** An 'all' edge whose sources are all visited fires. */
  lemma {:induction false} AllJoinFires(bp: Blueprint, i: nat)
    requires Sturdy(bp) && i < |bp.graph.edges| && FanIn(bp.graph.edges[i]) && !bp.graph.edges[i].any
    requires forall s :: s in bp.graph.edges[i].sources ==> EverRuns(bp, s)
    ensures exists k: nat :: FiresAt(bp, i, k)
  {
    hide FiresAt, RunsAt, RunningAt, StateAt, EverRuns, Sturdy;
    var edge := bp.graph.edges[i];
    var k := AllSeen(bp, edge.sources);
    RunningNext(bp, k);
    var progress := Progress(RunningAt(bp, k).joins, i);
    assert !Ready(edge, progress);
    if forall m: nat :: m < k ==> !FiresAt(bp, i, m) {
      forall s | s in edge.sources
        ensures s in progress
      {
        var j: nat :| j < k && RunsAt(bp, j, s);
        Accumulates(bp, i, s, j, k);
      }
    }
  }

  lemma {:induction false} OneSourceFires(bp: Blueprint, i: nat, source: string)
    requires Sturdy(bp) && i < |bp.graph.edges| && source in bp.graph.edges[i].sources && EverRuns(bp, source)
    requires |bp.graph.edges[i].sources| == 1 || bp.graph.edges[i].any
    ensures exists k: nat :: FiresAt(bp, i, k)
  {
    hide RunningAt, StateAt, Sturdy;
    var k: nat :| RunsAt(bp, k, source);
    RunningNext(bp, k);
    var rs, edge := RunningAt(bp, k), bp.graph.edges[i];
    SettledTasks(bp, rs);
    assert source in Chosen(rs.active) && source != START;
    if |edge.sources| == 1 {
      assert edge.sources[0] == source;
    } else {
      assert source in Gathered(edge, Chosen(rs.active), Progress(rs.joins, i));
    }
    assert FiresAt(bp, i, k);
  }

  lemma {:induction false} EdgeVisited(bp: Blueprint, i: nat)
    requires Sturdy(bp) && i < |bp.graph.edges|
    ensures EdgeClosed(bp.graph.edges[i], Visited(bp), true)
  {
    var edge := bp.graph.edges[i];
    assert GoodEdge(bp, edge) && edge.sources != [];
    hide Sturdy, FiresAt, EverRuns, EntryNames, AllEnds;
    if Opens(edge, Visited(bp), true) && edge.target != END {
      if START in edge.sources {
        assert edge.sources == [START];
        assert edge.target in EntryNames(bp.graph.edges) by {
          EntryEdge(bp.graph.edges, i);
        }
        EntryVisited(bp, edge.target);
      } else {
        assert forall s :: s in edge.sources && Live(s, Visited(bp)) ==> EverRuns(bp, s);
        if edge.any {
          var s :| s in edge.sources && Live(s, Visited(bp));
          OneSourceFires(bp, i, s);
        } else if |edge.sources| == 1 {
          assert edge.sources[0] in edge.sources;
          OneSourceFires(bp, i, edge.sources[0]);
        } else {
          AllJoinFires(bp, i);
        }
        var k: nat :| FiresAt(bp, i, k);
        FiringVisits(bp, i, k);
      }
    }
  }

  lemma {:induction false} EntryEdge(edges: seq<Edge>, i: nat)
    requires i < |edges| && edges[i].sources == [START]
    ensures edges[i].target in EntryNames(edges)
  {
    assert edges[i] in edges;
  }

  lemma {:induction false} RouteVisited(bp: Blueprint, i: nat)
    requires Sturdy(bp) && i < |bp.graph.conditionals|
    ensures RouteClosed(bp.graph.conditionals[i], bp.Known(), Visited(bp))
  {
    hide RunningAt;
    var cs := bp.graph.conditionals;
    var c := cs[i];
    if Live(c.source, Visited(bp)) {
      forall n | n in RouteTargets(c, bp.Known())
        ensures n in Visited(bp)
      {
        assert n in Ends(bp, c) && n != END by {
          assert END !in bp.Known();
        }
        if c.source == START {
          assert n in AllEnds(bp, cs, {START});
          EntryVisited(bp, n);
        } else {
          var k: nat :| RunsAt(bp, k, c.source);
          assert n in AllEnds(bp, cs, Chosen(RunningAt(bp, k).active));
          NextVisited(bp, k, n);
        }
      }
    }
  }

  lemma {:induction false} JumpVisited(bp: Blueprint, node: string)
    requires Sturdy(bp)
    ensures JumpClosed(bp, node, Visited(bp))
  {
    hide RunningAt;
    if node in Visited(bp) {
      var k: nat :| RunsAt(bp, k, node);
      var rs := RunningAt(bp, k);
      var i :| 0 <= i < |rs.active| && rs.active[i] == node;
      assert NamedTasks(rs)[i] in NamedTasks(rs) && NamedTasks(rs)[i].node == node;
      forall n | n in Chosen(bp.Declared(node)) - {START, END}
        ensures n in Visited(bp)
      {
        assert n in Declarations(bp, NamedTasks(rs));
        NextVisited(bp, k, n);
      }
    }
  }

  lemma {:induction false} VisitedIsClosed(bp: Blueprint)
    requires Sturdy(bp)
    ensures Closed(bp, Visited(bp), true)
  {
    hide *;
    forall i | 0 <= i < |bp.graph.edges|
      ensures EdgeClosed(bp.graph.edges[i], Visited(bp), true)
    {
      EdgeVisited(bp, i);
    }
    forall i | 0 <= i < |bp.graph.conditionals|
      ensures RouteClosed(bp.graph.conditionals[i], bp.Known(), Visited(bp))
    {
      RouteVisited(bp, i);
    }
    forall i | 0 <= i < |bp.graph.nodes|
      ensures JumpClosed(bp, bp.graph.nodes[i], Visited(bp))
    {
      JumpVisited(bp, bp.graph.nodes[i]);
    }
    ClosedIs(bp, Visited(bp));
  }

  lemma {:induction false} ClosedIs(bp: Blueprint, reach: set<string>)
    requires forall i :: 0 <= i < |bp.graph.edges| ==> EdgeClosed(bp.graph.edges[i], reach, true)
    requires forall i :: 0 <= i < |bp.graph.conditionals| ==> RouteClosed(bp.graph.conditionals[i], bp.Known(), reach)
    requires forall i :: 0 <= i < |bp.graph.nodes| ==> JumpClosed(bp, bp.graph.nodes[i], reach)
    ensures Closed(bp, reach, true)
  {
  }

  // ----- as a run of the engine -------------------------------------------------------------------------------------

  ghost function States(bp: Blueprint, k: nat): (run: seq<RunState>)
    requires Sturdy(bp)
    ensures |run| == k + 1 && forall j :: 0 <= j <= k ==> StateAt(bp, j) == Ok(run[j])
  {
    StateIsSteady(bp, k);
    if k == 0 then [StateAt(bp, k).value] else States(bp, k - 1) + [StateAt(bp, k).value]
  }

  ghost function Returned(bp: Blueprint, k: nat): seq<seq<Return>>
    requires Sturdy(bp)
  {
    seq(k, j requires 0 <= j < k => Everywhere(bp, NamedTasks(RunningAt(bp, j))))
  }

  lemma {:induction false} DoneNext(bp: Blueprint, k: nat)
    requires Sturdy(bp) && StateAt(bp, k).Ok? && Done(StateAt(bp, k).value)
    ensures StateAt(bp, k + 1).Ok? && Done(StateAt(bp, k + 1).value)
  {
    DoneSettles(bp.graph, StateAt(bp, k).value);
    assert RunningAt(bp, k) == StateAt(bp, k).value;
    StateIsSteady(bp, k);
    StateIsSteady(bp, k + 1);
    assert StateAt(bp, k).value.deferred == {} && StateAt(bp, k + 1).value.sends == [];
    hide *;
    RunningNext(bp, k);
    assert StateAt(bp, k).value.active == [] by {
      DoneIs(StateAt(bp, k).value);
    }
    NothingNext(bp, RunningAt(bp, k));
    assert NextNames(bp, RunningAt(bp, k)) - {END} == {};
    NoName(StateAt(bp, k + 1).value.active);
    DoneIs(StateAt(bp, k + 1).value);
  }

  lemma {:induction false} DoneIs(rs: RunState)
    ensures Done(rs) <==> rs.active == [] && rs.sends == []
  {
  }

  /** Once nothing is scheduled, nothing is scheduled again. */
  lemma {:induction false} DoneStaysDone(bp: Blueprint, j: nat, k: nat)
    requires Sturdy(bp) && j <= k && StateAt(bp, j).Ok? && Done(StateAt(bp, j).value)
    ensures StateAt(bp, k).Ok? && Done(StateAt(bp, k).value)
  {
    hide *;
    if j < k {
      DoneStaysDone(bp, j, k - 1);
      DoneNext(bp, k - 1);
    }
  }

  lemma {:induction false} DoneSettles(g: Graph, rs: RunState)
    requires Done(rs)
    ensures Settle(g, rs) == rs
  {
    assert Chosen(rs.active) * g.deferring == {};
  }

  lemma {:induction false} NothingNext(bp: Blueprint, rs: RunState)
    requires Sturdy(bp) && Settled(bp, rs) && rs.active == []
    ensures NextNames(bp, rs) == {}
  {
    var nobody := Chosen(rs.active);
    assert nobody == {} && NamedTasks(rs) == [];
    forall j | 0 <= j < |bp.graph.edges|
      ensures !Fires(bp.graph.edges[j], nobody, Progress(rs.joins, j))
    {
      assert Gathered(bp.graph.edges[j], nobody, Progress(rs.joins, j)) == Progress(rs.joins, j);
    }
    hide Fires;
    forall n | n in EdgesFrom(bp.graph.edges, 0, nobody, rs.joins).0
      ensures false
    {
      NamedByFiring(bp.graph.edges, 0, nobody, rs.joins, n);
    }
  }

  lemma {:induction false} RunningTasks(bp: Blueprint, k: nat)
    requires Sturdy(bp)
    ensures StateAt(bp, k).Ok?
    ensures TasksOf(Wide(bp).graph, StateAt(bp, k).value) == NamedTasks(RunningAt(bp, k))
    ensures Plan(Wide(bp).graph, RunningAt(bp, k)) == Ok(NamedTasks(RunningAt(bp, k)))
    ensures Settle(Wide(bp).graph, StateAt(bp, k).value) == RunningAt(bp, k)
  {
    hide Sturdy, Plan, Settle, Settled, Steady, StateAt, Wide;
    RunningNext(bp, k);
    WideSettles(bp, StateAt(bp, k).value);
    SettledTasks(bp, RunningAt(bp, k));
  }

  lemma {:induction false} WideSuperstep(bp: Blueprint, j: nat, k: nat)
    requires Sturdy(bp) && j < k && StateAt(bp, k).Ok? && !Done(StateAt(bp, k).value)
    ensures StateAt(bp, j).Ok? && StateAt(bp, j + 1).Ok?
    ensures Superstep(Wide(bp), StateAt(bp, j).value, Everywhere(bp, NamedTasks(RunningAt(bp, j))),
                      StateAt(bp, j + 1).value)
  {
    hide Sturdy, Enter, Steady, Settle, Plan, Wide, Commit;
    StateIsSteady(bp, j);
    StateIsSteady(bp, j + 1);
    if Done(StateAt(bp, j).value) {
      DoneStaysDone(bp, j, k);
    }
    RunningTasks(bp, j);
  }

  lemma {:induction false} WideIsDisciplined(bp: Blueprint, state: State, tasks: seq<Task>)
    ensures RoutesStay(Wide(bp), state) && JumpsDeclared(Wide(bp), tasks, Everywhere(bp, tasks))
    ensures SameShape(bp, Wide(bp))
  {
    var cs := bp.graph.conditionals;
    forall i | 0 <= i < |cs|
      ensures RouteStays(Wide(bp).graph.conditionals[i], Wide(bp).Known(), state)
    {
      var names := Ways(bp, cs[i]);
      assert Wide(bp).graph.conditionals[i].path(state) == Ok(Gotos(names));
      assert cs[i].pathMap.None? ==> forall n :: n in names ==> n in bp.Known();
    }
    var results := Everywhere(bp, tasks);
    forall i, t | 0 <= i < |tasks| && t in results[i].1
      ensures t.Goto? && t.node in Chosen(bp.Declared(tasks[i].node))
    {
    }
  }

  /** A disciplined run of this graph comes to execute the node. */
  ghost predicate Runs(bp: Blueprint, input: Update, run: seq<RunState>, returned: seq<seq<Return>>, node: string) {
    && Run(bp, input, run, returned) && Disciplined(bp, run, returned)
    && exists t :: t in TasksOf(bp.graph, run[|run| - 1]) && t.node == node
  }

  lemma {:induction false} WideIsARun(bp: Blueprint, k: nat)
    requires Sturdy(bp) && StateAt(bp, k).Ok? && !Done(StateAt(bp, k).value)
    ensures Run(Wide(bp), map[], States(bp, k), Returned(bp, k))
    ensures Disciplined(Wide(bp), States(bp, k), Returned(bp, k))
  {
    var run := States(bp, k);
    var returned := Returned(bp, k);
    assert StateAt(bp, 0) == Ok(run[0]);
    assert forall j :: 0 <= j < k ==> returned[j] == Everywhere(bp, NamedTasks(RunningAt(bp, j)));
    assert StateAt(bp, 0) == Enter(Wide(bp).graph, map[]);
    hide Wide, Superstep, RoutesStay, JumpsDeclared, TasksOf, Sturdy, Done, StateAt, States, Returned, RunningAt,
      Everywhere, Enter;
    forall j | 0 <= j < |returned|
      ensures Superstep(Wide(bp), run[j], returned[j], run[j + 1])
      ensures JumpsDeclared(Wide(bp), TasksOf(Wide(bp).graph, run[j]), returned[j])
    {
      WideSuperstep(bp, j, k);
      RunningTasks(bp, j);
      WideIsDisciplined(bp, run[j].state, NamedTasks(RunningAt(bp, j)));
    }
    forall j | 0 <= j < |run|
      ensures RoutesStay(Wide(bp), run[j].state)
    {
      WideIsDisciplined(bp, run[j].state, []);
    }
  }

  lemma {:induction false} RunningIsNotDone(bp: Blueprint, k: nat, node: string)
    requires Sturdy(bp) && RunsAt(bp, k, node)
    ensures StateAt(bp, k).Ok? && !Done(StateAt(bp, k).value)
  {
    StateIsSteady(bp, k);
    if Done(StateAt(bp, k).value) {
      DoneSettles(bp.graph, StateAt(bp, k).value);
    }
  }

  lemma {:induction false} VisitedRuns(bp: Blueprint, node: string)
    requires Sturdy(bp) && node in Visited(bp)
    ensures exists run, returned :: Runs(Wide(bp), map[], run, returned, node)
  {
    var k: nat :| RunsAt(bp, k, node);
    RunningIsNotDone(bp, k, node);
    TaskNamed(RunningAt(bp, k), node);
    hide Visited, Wide, TasksOf, Sturdy, StateAt, Returned, RunningAt, Run, Disciplined, NamedTasks;
    WideIsARun(bp, k);
    RunningTasks(bp, k);
    var run := States(bp, k);
    assert StateAt(bp, k) == Ok(run[k]);
    assert Runs(Wide(bp), map[], run, Returned(bp, k), node);
  }

  lemma {:induction false} TaskNamed(rs: RunState, node: string)
    requires node in rs.active
    ensures exists t :: t in NamedTasks(rs) && t.node == node
  {
    var i :| 0 <= i < |rs.active| && rs.active[i] == node;
    assert NamedTasks(rs)[i] in NamedTasks(rs);
  }

  lemma {:induction false} EveryLiveNodeRuns(bp: Blueprint, live: set<string>, node: string)
    requires Sturdy(bp) && Least(bp, live, true) && node in live
    ensures exists run, returned :: Runs(Wide(bp), map[], run, returned, node)
  {
    hide Closed, Sturdy, Visited, Runs;
    VisitedIsClosed(bp);
    assert live <= Visited(bp);
    VisitedRuns(bp, node);
  }

  /** Every node of a graph that validation accepts can run, if nothing is deferred or nothing leads back. */
  lemma {:induction false} AcceptedCanRun(bp: Blueprint, node: string)
    requires Sturdy(bp) && Complete(bp) && AllReachable(bp) && node in bp.Known()
    ensures exists run, returned :: Runs(Wide(bp), map[], run, returned, node)
  {
    var reach :| Least(bp, reach, false) && bp.Known() <= reach;
    VisitedIsClosed(bp);
    ClosedStrictly(bp, Visited(bp));
    assert reach <= Visited(bp);
    hide Visited, Runs;
    VisitedRuns(bp, node);
  }

  /** Where nothing is deferred, or nothing leads back, the closure under the rules of a run is exactly the set of nodes
      that some disciplined run of some graph of this shape executes. */
  lemma {:induction false} LiveExactly(bp: Blueprint, live: set<string>, node: string)
    requires Sturdy(bp) && Least(bp, live, true)
    ensures node in live <==>
            exists other, input, run, returned :: SameShape(bp, other) && Runs(other, input, run, returned, node)
  {
    assert Built(bp) && WellEnded(bp);
    hide Least, Sturdy, Runs, SameShape;
    if node in live {
      EveryLiveNodeRuns(bp, live, node);
      var run, returned :| Runs(Wide(bp), map[], run, returned, node);
      WideIsDisciplined(bp, map[], []);
    }
    if other, input, run, returned :| SameShape(bp, other) && Runs(other, input, run, returned, node) {
      RunsOnlyLive(bp, live, other, input, run, returned, node);
    }
  }

  lemma {:induction false} KnownIsClosed(bp: Blueprint)
    requires WellEnded(bp)
    ensures Closed(bp, bp.Known(), true)
  {
    forall i | 0 <= i < |bp.graph.edges|
      ensures EdgeClosed(bp.graph.edges[i], bp.Known(), true)
    {
      assert GoodEdge(bp, bp.graph.edges[i]);
    }
    forall i | 0 <= i < |bp.graph.conditionals|
      ensures RouteClosed(bp.graph.conditionals[i], bp.Known(), bp.Known())
    {
      assert GoodRoute(bp, bp.graph.conditionals[i]);
    }
    forall i | 0 <= i < |bp.graph.nodes|
      ensures JumpClosed(bp, bp.graph.nodes[i], bp.Known())
    {
    }
  }

  lemma {:induction false} RunsOnlyLive(bp: Blueprint, live: set<string>, other: Blueprint, input: Update,
                                        run: seq<RunState>, returned: seq<seq<Return>>, node: string)
    requires Built(bp) && WellEnded(bp) && Least(bp, live, true) && SameShape(bp, other)
    requires Runs(other, input, run, returned, node)
    ensures node in live
  {
    ShapeCloses(bp, other, live, true);
    KnownIsClosed(bp);
    assert live <= bp.Known();
    assert NamesReserved(other) && other.Known() == bp.Known();
    hide Run, Disciplined, Closed, Below, SameShape, Inside, TasksOf;
    RunIsLong(other, input, run, returned);
    RunStaysInside(other, live, input, run, returned, |run| - 1);
    var t :| t in TasksOf(other.graph, run[|run| - 1]) && t.node == node;
  }

  lemma {:induction false} RunIsLong(bp: Blueprint, input: Update, run: seq<RunState>, returned: seq<seq<Return>>)
    requires Run(bp, input, run, returned)
    ensures |run| == |returned| + 1
  {
  }
}
