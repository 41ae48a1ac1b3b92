/** Three graphs at the edges of module ReachableRuns: a run validation does not foresee, a jump it cannot know of,
    and a node that it accepts and that no run reaches. */
module ReachabilityExamples {
  import opened Prelude
  import opened Channels
  import opened Interrupts
  import opened Supersteps
  import opened Reachability
  import opened ReachableRuns
  import opened LiveRuns

  const NOTHING: Return := (map[], [])

  const SILENT: (string, Input) -> Body := (node, input) => (answers => Return(map[], []))

  /** A state of a graph without channels that runs these nodes next. */
  function Running(active: seq<string>, deferred: set<string>, step: nat): RunState {
    RunState(map[], active, [], map[], deferred, step, map[])
  }

  lemma {:induction false} OneTask(g: Graph, node: string, deferred: set<string>, step: nat)
    requires node !in g.deferring
    ensures var rs := Running([node], deferred, step);
            Settle(g, rs) == rs && Plan(g, rs) == Ok([Task(node, node, FromState(map[]))])
  {
    var rs := Running([node], deferred, step);
    assert Chosen(rs.active) == {node};
    assert NamedTasks(rs) + Deliveries(rs) == [Task(node, node, FromState(map[]))];
  }

  /** A superstep of one node that only jumps, in a graph without channels and conditional edges. */
  lemma {:induction false} OneCommit(g: Graph, node: string, step: nat, jumps: seq<string>, names: set<string>,
                                     next: string)
    requires node !in g.deferring && g.conditionals == [] && g.slots == []
    requires EdgesFrom(g.edges, 0, {node}, map[]) == (names, map[])
    requires Normalize(g, names + Chosen(jumps)) == Ok([next])
    ensures var rs := Running([node], {}, step);
            Commit(g, rs, Plan(g, Settle(g, rs)).value, [(map[], Gotos(jumps))]) == Ok(Running([next], {}, step + 1))
  {
    var rs, results: seq<Return> := Running([node], {}, step), [(map[], Gotos(jumps))];
    var tasks := [Task(node, node, FromState(map[]))];
    assert Completed(tasks) == {node} by {
      assert tasks[0] in tasks;
    }
    assert results[1..] == [] && Jumps(results) == Gotos(jumps);
    assert MergeUpdates(map[], Updates(results), g.slots) == Ok(map[]);
    var none: map<Key, nat> := map[];
    assert BumpOne(none, map[]) == none && Bump(none, results) == none;
    hide MergeUpdates, Updates, EdgesFrom, Normalize, NamesOf, SendsOf, Jumps, Completed, Bump, Gotos, Plan, Settle,
      Commit;
    OneTask(g, node, {}, step);
    GotosNames(jumps);
    PlainCommit(g, rs, tasks, results, map[], names, Chosen(jumps), [next]);
  }

  /** The same with the run as a whole: the next node is alone too. */
  lemma {:induction false} OneSuperstep(bp: Blueprint, node: string, step: nat, jumps: seq<string>,
                                        names: set<string>, next: string)
    requires node !in bp.graph.deferring && bp.graph.conditionals == [] && bp.graph.slots == []
    requires EdgesFrom(bp.graph.edges, 0, {node}, map[]) == (names, map[])
    requires Normalize(bp.graph, names + Chosen(jumps)) == Ok([next])
    ensures Superstep(bp, Running([node], {}, step), [(map[], Gotos(jumps))], Running([next], {}, step + 1))
  {
    OneTask(bp.graph, node, {}, step);
    hide Settle, Plan, EdgesFrom, Normalize, Commit, Gotos;
    OneCommit(bp.graph, node, step, jumps, names, next);
  }

  // ----- an 'any' join ------------------------------------------------------------------------------------------

  /** a is the entry, either of a and b leads to c, and c leads to b. */
  function Looped(): Blueprint {
    Blueprint(Graph(["a", "b", "c"], {}, SILENT,
                    [Edge([START], "a", false), Edge(["a", "b"], "c", true), Edge(["c"], "b", false)], [], []),
              map[], [])
  }

  lemma {:induction false} LoopedNames()
    ensures "a" != "b" && "a" != "c" && "b" != "c" && START != END
    ensures START !in ["a", "b", "c"] && END !in ["a", "b", "c"]
  {
    assert |"a"| == |"b"| == |"c"| == 1 && |START| == 9 && |END| == 7;
    assert "a"[0] == 'a' && "b"[0] == 'b' && "c"[0] == 'c';
  }

  lemma {:induction false} LoopedComplete()
    ensures Sturdy(Looped()) && Complete(Looped())
  {
    var bp := Looped();
    LoopedNames();
    assert bp.Known() == {"a", "b", "c"} by {
      assert bp.graph.nodes[0] == "a" && bp.graph.nodes[1] == "b" && bp.graph.nodes[2] == "c";
    }
    assert bp.graph.edges[0].sources == [START];
  }

  lemma {:induction false} LoopedReach()
    ensures Least(Looped(), {"a"}, false)
  {
    var bp := Looped();
    var edges := bp.graph.edges;
    LoopedNames();
    assert "b" in edges[1].sources && !Live("b", {"a"});
    assert "c" in edges[2].sources && !Live("c", {"a"});
    assert forall i :: 0 <= i < 3 ==> EdgeClosed(edges[i], {"a"}, false);
    forall s | Closed(bp, s, false)
      ensures {"a"} <= s
    {
      assert EdgeClosed(edges[0], s, false);
    }
  }

  /** One more edge, none of which keeps progress. */
  lemma {:induction false} EdgeAdds(edges: seq<Edge>, i: nat, completed: set<string>, names: set<string>)
    requires i < |edges| && EdgesFrom(edges, i + 1, completed, map[]) == (names, map[])
    requires Kept(edges[i], completed, {}) == {}
    ensures EdgesFrom(edges, i, completed, map[]) ==
            (if Fires(edges[i], completed, {}) then names + {edges[i].target} else names, map[])
  {
    hide Kept, Fires;
    var none: Joins := map[];
    assert SetProgress(none, i, {}) == none && names + {} == names;
  }

  /** The 'any' edge fires when a completes, and the edge from c when c does. */
  lemma {:induction false} LoopedFires()
    ensures var edges := Looped().graph.edges;
            && !Fires(edges[0], {"a"}, {}) && !Fires(edges[0], {"c"}, {})
            && Fires(edges[1], {"a"}, {}) && !Fires(edges[1], {"c"}, {})
            && !Fires(edges[2], {"a"}, {}) && Fires(edges[2], {"c"}, {})
    ensures forall i :: 0 <= i < 3 ==> Kept(Looped().graph.edges[i], {"a"}, {}) == {}
    ensures forall i :: 0 <= i < 3 ==> Kept(Looped().graph.edges[i], {"c"}, {}) == {}
  {
    var edges := Looped().graph.edges;
    LoopedNames();
    assert "a" in Gathered(edges[1], {"a"}, {});
    assert Gathered(edges[1], {"c"}, {}) == {};
  }

  lemma {:induction false} LoopedEdges()
    ensures EdgesFrom(Looped().graph.edges, 0, {"a"}, map[]) == ({"c"}, map[])
    ensures EdgesFrom(Looped().graph.edges, 0, {"c"}, map[]) == ({"b"}, map[])
  {
    var edges, nobody: set<string> := Looped().graph.edges, {};
    LoopedFires();
    assert EdgesFrom(edges, 3, {"a"}, map[]) == (nobody, map[]) && EdgesFrom(edges, 3, {"c"}, map[]) == (nobody, map[]);
    assert nobody + {"b"} == {"b"} && nobody + {"c"} == {"c"};
    hide EdgesFrom, Kept, Fires;
    EdgeAdds(edges, 2, {"a"}, nobody);
    EdgeAdds(edges, 1, {"a"}, nobody);
    EdgeAdds(edges, 0, {"a"}, {"c"});
    EdgeAdds(edges, 2, {"c"}, nobody);
    EdgeAdds(edges, 1, {"c"}, {"b"});
    EdgeAdds(edges, 0, {"c"}, {"b"});
  }

  lemma {:induction false} LoopedOrder(name: string)
    requires name in ["a", "b", "c"]
    ensures Normalize(Looped().graph, {name}) == Ok([name])
  {
    LoopedNames();
    var only := {name};
    assert only - {END} == only;
    assert ["c"][1..] == [] && ["b", "c"][1..] == ["c"] && ["a", "b", "c"][1..] == ["b", "c"];
    assert InOrder([], only) == [] && InOrder(["c"], only) == (if name == "c" then ["c"] else []);
    assert InOrder(["b", "c"], only) == if name == "a" then [] else [name];
    assert InOrder(["a", "b", "c"], only) == [name];
  }

  lemma {:induction false} LoopedEnter()
    ensures Enter(Looped().graph, map[]) == Ok(Running(["a"], {}, 0))
  {
    var g := Looped().graph;
    assert EntryNames(g.edges) == {"a"} by {
      LoopedNames();
      assert g.edges[0] in g.edges && g.edges[1].sources[0] == "a" && g.edges[2].sources[0] == "c";
    }
    LoopedOrder("a");
    NoTargets();
    assert {"a"} + {} == {"a"};
    assert MergeUpdates(map[], [map[]], g.slots) == Ok(map[]);
    hide MergeUpdates, EntryNames, Normalize, NamesOf, SendsOf;
  }

  lemma {:induction false} LoopedStep(node: string, next: string, step: nat)
    requires (node == "a" && next == "c") || (node == "c" && next == "b")
    ensures Superstep(Looped(), Running([node], {}, step), [NOTHING], Running([next], {}, step + 1))
  {
    LoopedEdges();
    assert next in ["a", "b", "c"] by {
      assert ["a", "b", "c"][1] == "b" && ["a", "b", "c"][2] == "c";
    }
    LoopedOrder(next);
    assert Gotos([]) == [] && Chosen([]) == {} && {next} + {} == {next};
    hide EdgesFrom, Normalize, Superstep, Gotos;
    OneSuperstep(Looped(), node, step, [], {next}, next);
  }

  /** Validation refuses this graph for b and c, though a run enters at a, and schedules first c and then b, with
      nodes that do nothing at all. */
  lemma {:induction false} AnyJoinIsRefused()
    ensures Sturdy(Looped()) && Complete(Looped()) && Least(Looped(), {"a"}, false)
    ensures Run(Looped(), map[], [Running(["a"], {}, 0), Running(["c"], {}, 1), Running(["b"], {}, 2)],
                [[NOTHING], [NOTHING]])
  {
    hide Enter, Superstep, Sturdy, Complete, Least, Looped;
    LoopedComplete();
    LoopedReach();
    LoopedEnter();
    LoopedStep("a", "c", 0);
    LoopedStep("c", "b", 1);
  }

  // ----- an undeclared jump -----------------------------------------------------------------------------------------

  /** a is the entry and declares no destination; b is registered and nothing leads to it. */
  function Apart(): Blueprint {
    Blueprint(Graph(["a", "b"], {}, SILENT, [Edge([START], "a", false)], [], []), map[], [])
  }

  lemma {:induction false} ApartReach(lenient: bool)
    ensures Built(Apart()) && Least(Apart(), {"a"}, lenient)
  {
    var bp := Apart();
    LoopedNames();
    assert EdgeClosed(bp.graph.edges[0], {"a"}, lenient);
    forall s | Closed(bp, s, lenient)
      ensures {"a"} <= s
    {
      assert START in bp.graph.edges[0].sources && Opens(bp.graph.edges[0], s, lenient);
      assert EdgeClosed(bp.graph.edges[0], s, lenient);
    }
  }

  lemma {:induction false} ApartOrder(name: string)
    requires name in ["a", "b"]
    ensures Normalize(Apart().graph, {name}) == Ok([name])
  {
    LoopedNames();
    var only := {name};
    assert only - {END} == only && ["b"][1..] == [] && ["a", "b"][1..] == ["b"];
    assert InOrder([], only) == [] && InOrder(["b"], only) == (if name == "b" then ["b"] else []);
    assert InOrder(["a", "b"], only) == [name];
  }

  lemma {:induction false} ApartEnter()
    ensures Enter(Apart().graph, map[]) == Ok(Running(["a"], {}, 0))
  {
    var g := Apart().graph;
    assert EntryNames(g.edges) == {"a"} by {
      assert g.edges[0] in g.edges;
    }
    ApartOrder("a");
    NoTargets();
    assert {"a"} + {} == {"a"};
    assert MergeUpdates(map[], [map[]], g.slots) == Ok(map[]);
    hide MergeUpdates, EntryNames, Normalize, NamesOf, SendsOf;
  }

  lemma {:induction false} ApartStep()
    ensures Superstep(Apart(), Running(["a"], {}, 0), [(map[], [Goto("b")])], Running(["b"], {}, 1))
  {
    var edges, nobody: set<string> := Apart().graph.edges, {};
    ApartOrder("b");
    assert Gotos(["b"]) == [Goto("b")];
    assert Chosen(["b"]) == {"b"} && nobody + {"b"} == {"b"};
    assert EdgesFrom(edges, 1, {"a"}, map[]) == (nobody, map[]);
    EdgeAdds(edges, 0, {"a"}, nobody);
    hide EdgesFrom, Normalize, Superstep, Gotos;
    OneSuperstep(Apart(), "a", 0, ["b"], nobody, "b");
  }

  /** Discipline is needed: both rules leave b outside, and a jump to it that a never declared schedules it. */
  lemma {:induction false} UndeclaredJumpEscapes()
    ensures Built(Apart()) && Least(Apart(), {"a"}, false) && Least(Apart(), {"a"}, true)
    ensures Run(Apart(), map[], [Running(["a"], {}, 0), Running(["b"], {}, 1)], [[(map[], [Goto("b")])]])
    ensures !Inside(Apart(), {"a"}, Running(["b"], {}, 1))
  {
    assert ["b"][0] in Chosen(["b"]) && "b" !in {"a"};
    hide Enter, Superstep, Built, Least, Apart;
    ApartReach(false);
    ApartReach(true);
    ApartEnter();
    ApartStep();
  }

  // ----- a deferred node ------------------------------------------------------------------------------------------

  /** a and d are the entries, a leads to b, b to itself and d to e; b and d are deferred, so that no edge leads from
      one of the other nodes to another. */
  function Postponed(): Blueprint {
    Blueprint(Graph(["a", "b", "d", "e"], {"b", "d"}, SILENT,
                    [Edge([START], "a", false), Edge([START], "d", false), Edge(["a"], "b", false),
                     Edge(["b"], "b", false), Edge(["d"], "e", false)], [], []),
              map[], [])
  }

  lemma {:induction false} PostponedNames()
    ensures "a" != "b" && "a" != "d" && "a" != "e" && "b" != "d" && "b" != "e" && "d" != "e" && START != END
    ensures START !in ["a", "b", "d", "e"] && END !in ["a", "b", "d", "e"]
  {
    assert |"a"| == |"b"| == |"d"| == |"e"| == 1 && |START| == 9 && |END| == 7;
    assert "a"[0] == 'a' && "b"[0] == 'b' && "d"[0] == 'd' && "e"[0] == 'e';
  }

  lemma {:induction false} PostponedReach()
    ensures Least(Postponed(), {"a", "b", "d", "e"}, false)
  {
    var bp, all := Postponed(), {"a", "b", "d", "e"};
    var edges := bp.graph.edges;
    assert START in edges[0].sources && START in edges[1].sources;
    assert "a" in edges[2].sources && "b" in edges[3].sources && "d" in edges[4].sources;
    forall s | Closed(bp, s, false)
      ensures all <= s
    {
      PostponedNames();
      assert EdgeClosed(edges[0], s, false) && EdgeClosed(edges[1], s, false);
      assert EdgeClosed(edges[2], s, false) && EdgeClosed(edges[4], s, false);
      assert Opens(edges[0], s, false) && Opens(edges[1], s, false);
    }
  }

  lemma {:induction false} PostponedAccepted()
    ensures Built(Postponed()) && Complete(Postponed()) && AllReachable(Postponed())
  {
    var bp := Postponed();
    PostponedNames();
    PostponedKnown();
    PostponedReach();
    assert bp.graph.edges[0].sources == [START];
    hide Least;
  }

  lemma {:induction false} PostponedKnown()
    ensures Postponed().Known() == {"a", "b", "d", "e"}
  {
    var nodes := Postponed().graph.nodes;
    assert nodes[0] == "a" && nodes[1] == "b" && nodes[2] == "d" && nodes[3] == "e";
  }

  /** Where every run of this shape stays: a is entered with d, and then b runs alone for ever. */
  predicate Stalled(rs: RunState) {
    (rs.active == ["a", "d"] || rs.active == ["b"]) && rs.sends == [] && rs.joins == map[]
  }

  function Runner(rs: RunState): string { if rs.active == ["b"] then "b" else "a" }

  lemma {:induction false} StalledSettles(g: Graph, rs: RunState)
    requires g.deferring == {"b", "d"} && Stalled(rs)
    ensures Settle(g, rs).active == [Runner(rs)] && Settle(g, rs).sends == [] && Settle(g, rs).joins == map[]
  {
    PostponedNames();
    if rs.active == ["b"] {
      assert Chosen(rs.active) <= g.deferring;
      DeferredRunTogether(g, rs);
    } else {
      assert ["a", "d"][0] == "a" && ["a", "d"][1] == "d" && ["a", "d"][1..] == ["d"] && ["d"][1..] == [];
      assert Chosen(rs.active) * g.deferring == {"d"} by {
        assert "d" in Chosen(rs.active);
      }
      assert Without(["d"], {"d"}) == [] && Without(["a", "d"], {"d"}) == ["a"];
      assert ["a"] != ["b"] by {
        assert ["a"][0] == "a" && ["b"][0] == "b";
      }
    }
  }

  lemma {:induction false} StalledTasks(g: Graph, rs: RunState)
    requires g.deferring == {"b", "d"} && Stalled(rs)
    ensures TasksOf(g, rs) == [Task(Runner(rs), Runner(rs), FromState(rs.state))]
  {
    StalledSettles(g, rs);
    var settled := Settle(g, rs);
    assert settled.state == rs.state;
    hide Settle, Runner;
    assert NamedTasks(settled) + Deliveries(settled) == [Task(Runner(rs), Runner(rs), FromState(rs.state))];
  }

  lemma {:induction false} PostponedFires()
    ensures var edges := Postponed().graph.edges;
            && !Fires(edges[0], {"a"}, {}) && !Fires(edges[0], {"b"}, {})
            && !Fires(edges[1], {"a"}, {}) && !Fires(edges[1], {"b"}, {})
            && Fires(edges[2], {"a"}, {}) && !Fires(edges[2], {"b"}, {})
            && !Fires(edges[3], {"a"}, {}) && Fires(edges[3], {"b"}, {})
            && !Fires(edges[4], {"a"}, {}) && !Fires(edges[4], {"b"}, {})
    ensures forall i :: 0 <= i < 5 ==> Kept(Postponed().graph.edges[i], {"a"}, {}) == {}
    ensures forall i :: 0 <= i < 5 ==> Kept(Postponed().graph.edges[i], {"b"}, {}) == {}
  {
    PostponedNames();
  }

  /** b is scheduled next, whichever of a and b completes. */
  lemma {:induction false} PostponedEdges(node: string)
    requires node == "a" || node == "b"
    ensures EdgesFrom(Postponed().graph.edges, 0, {node}, map[]) == ({"b"}, map[])
  {
    var edges, nobody: set<string> := Postponed().graph.edges, {};
    PostponedFires();
    assert EdgesFrom(edges, 5, {node}, map[]) == (nobody, map[]) && nobody + {"b"} == {"b"};
    hide EdgesFrom, Kept, Fires;
    EdgeAdds(edges, 4, {node}, nobody);
    EdgeAdds(edges, 3, {node}, nobody);
    EdgeAdds(edges, 2, {node}, if node == "b" then {"b"} else nobody);
    EdgeAdds(edges, 1, {node}, {"b"});
    EdgeAdds(edges, 0, {node}, {"b"});
  }

  lemma {:induction false} PostponedOrder(g: Graph, names: set<string>)
    requires g.nodes == Postponed().graph.nodes && (names - {END} == {"b"} || names - {END} == {"a", "d"})
    requires Normalize(g, names).Ok?
    ensures Normalize(g, names).value == if names - {END} == {"b"} then ["b"] else ["a", "d"]
  {
    PostponedNames();
    var chosen := names - {END};
    assert "e" !in chosen && ("a" in chosen <==> chosen != {"b"}) && ("d" in chosen <==> chosen != {"b"});
    assert "b" in chosen <==> chosen == {"b"};
    assert ["e"][1..] == [] && ["d", "e"][1..] == ["e"] && ["b", "d", "e"][1..] == ["d", "e"];
    assert ["a", "b", "d", "e"][1..] == ["b", "d", "e"];
    assert InOrder([], chosen) == [] && InOrder(["e"], chosen) == [];
    assert InOrder(["d", "e"], chosen) == if chosen == {"b"} then [] else ["d"];
    assert InOrder(["b", "d", "e"], chosen) == if chosen == {"b"} then ["b"] else ["d"];
    assert InOrder(["a", "b", "d", "e"], chosen) == if chosen == {"b"} then ["b"] else ["a"] + ["d"];
  }

  /** Jumps of a node without destinations lead to the end alone. */
  lemma {:induction false} EndsOnly(targets: seq<Target>)
    requires forall t :: t in targets ==> t == Goto(END)
    ensures NamesOf(targets) <= {END} && SendsOf(targets) == []
  {
    assert forall i :: 0 <= i < |targets| ==> targets[i] in targets;
    NoSends(targets);
  }

  lemma {:induction false} OneReturn(bp: Blueprint, tasks: seq<Task>, results: seq<Return>)
    requires |tasks| == 1 && bp.destinations == map[] && JumpsDeclared(bp, tasks, results)
    ensures NamesOf(Jumps(results)) <= {END} && SendsOf(Jumps(results)) == []
    ensures Completed(tasks) == {tasks[0].node}
  {
    var jumps := results[0].1;
    assert forall t :: t in jumps ==> t == Goto(END);
    EndsOnly(jumps);
    assert results[1..] == [] && Jumps([]) == [] && Jumps(results) == jumps + [];
    assert jumps + [] == jumps && tasks[0] in tasks;
    assert forall t :: t in tasks ==> t == tasks[0];
  }

  lemma {:induction false} StalledGoesOn(bp: Blueprint, rs: RunState, results: seq<Return>, next: RunState)
    requires SameShape(Postponed(), bp) && Stalled(rs) && Superstep(bp, rs, results, next)
    requires JumpsDeclared(bp, TasksOf(bp.graph, rs), results)
    ensures Stalled(next)
  {
    var g, settled, tasks := bp.graph, Settle(bp.graph, rs), TasksOf(bp.graph, rs);
    StalledSettles(g, rs);
    StalledTasks(g, rs);
    assert Runner(rs) == "a" || Runner(rs) == "b";
    assert Commit(g, settled, tasks, results) == Ok(next);
    hide Settle, TasksOf, Commit, Completed, Jumps, JumpsDeclared, NamesOf, SendsOf, Plan, Runner, Stalled;
    OneReturn(bp, tasks, results);
    StalledCommits(g, settled, Runner(rs), tasks, results, next);
  }

  lemma {:induction false} StalledCommits(g: Graph, rs: RunState, node: string, tasks: seq<Task>,
                                          results: seq<Return>, next: RunState)
    requires g.nodes == Postponed().graph.nodes && g.edges == Postponed().graph.edges && g.conditionals == []
    requires (node == "a" || node == "b") && Completed(tasks) == {node} && rs.joins == map[]
    requires Commit(g, rs, tasks, results) == Ok(next)
    requires NamesOf(Jumps(results)) <= {END} && SendsOf(Jumps(results)) == []
    ensures Stalled(next)
  {
    var state := MergeUpdates(rs.state, Updates(results), g.slots).value;
    assert RoutesFrom(g.conditionals, {node}, state) == Ok([]);
    assert "b" !in {END} by {
      PostponedNames();
    }
    hide MergeUpdates, Updates, EdgesFrom, RoutesFrom, Normalize, NamesOf, SendsOf, Jumps, Completed, Bump, Postponed;
    PostponedEdges(node);
    NoTargets();
    var names := {"b"} + NamesOf([]) + NamesOf(Jumps(results));
    assert names - {END} == {"b"};
    PostponedOrder(g, names);
    assert ["b"] != [];
  }

  lemma {:induction false} PostponedEntries()
    ensures EntryNames(Postponed().graph.edges) == {"a", "d"}
  {
    var edges := Postponed().graph.edges;
    PostponedNames();
    assert edges[0] in edges && edges[1] in edges;
    assert edges[2].sources[0] == "a" && edges[3].sources[0] == "b" && edges[4].sources[0] == "d";
  }

  lemma {:induction false} PostponedEnter(g: Graph, input: Update)
    requires g.nodes == Postponed().graph.nodes && g.edges == Postponed().graph.edges && g.conditionals == []
    requires Enter(g, input).Ok?
    ensures Stalled(Enter(g, input).value)
  {
    PostponedNames();
    PostponedEntries();
    NoTargets();
    var names := {"a", "d"} + NamesOf([]);
    assert names - {END} == {"a", "d"} && "a" !in {"b"};
    hide MergeUpdates, EntryNames, Normalize, NamesOf, SendsOf, Postponed;
    assert Normalize(g, names).Ok?;
    PostponedOrder(g, names);
  }

  /** Where edges lead back, deferral breaks the converse: validation accepts this graph, and in no disciplined run
      of any graph of its shape does d run or is e scheduled, since b keeps d waiting. */
  lemma {:induction false} DeferredNeverRuns(bp: Blueprint, input: Update, run: seq<RunState>,
                                             returned: seq<seq<Return>>, k: nat)
    requires SameShape(Postponed(), bp) && Run(bp, input, run, returned) && Disciplined(bp, run, returned)
    requires k < |run|
    ensures Built(Postponed()) && Complete(Postponed()) && AllReachable(Postponed())
    ensures "e" !in run[k].active && forall t :: t in TasksOf(bp.graph, run[k]) ==> t.node == "a" || t.node == "b"
    ensures Stalled(run[k])
  {
    PostponedNames();
    hide Superstep, Enter, JumpsDeclared, RoutesStay, TasksOf, Built, Complete, AllReachable;
    PostponedAccepted();
    if k == 0 {
      PostponedEnter(bp.graph, input);
    } else {
      DeferredNeverRuns(bp, input, run, returned, k - 1);
      StalledGoesOn(bp, run[k - 1], returned[k - 1], run[k]);
    }
    StalledTasks(bp.graph, run[k]);
  }
}
