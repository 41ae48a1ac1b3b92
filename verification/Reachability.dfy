/** Validation of a graph before it runs (graph/builder.py 228-315). */
module Reachability {
  import opened Prelude
  import opened Supersteps

  /** A graph under construction: besides its edges, the destinations each node declares for its jumps. */
  datatype Blueprint = Blueprint(graph: Graph, destinations: map<string, seq<string>>, interrupts: seq<string>)
  {
    function Known(): set<string> { Chosen(graph.nodes) }

    function Declared(node: string): seq<string> { if node in destinations then destinations[node] else [] }
  }

  // ----- the rules by which nodes become reachable ------------------------------------------------------------

  predicate Live(node: string, reach: set<string>) { node == START || node in reach }

  /** Validation asks for all sources of an edge. At run time an 'any' edge needs one: `lenient`. */
  predicate Opens(edge: Edge, reach: set<string>, lenient: bool) {
    if lenient && edge.any then exists s :: s in edge.sources && Live(s, reach)
    else forall s :: s in edge.sources ==> Live(s, reach)
  }

  /** A conditional edge without a path map may route anywhere. */
  function RouteTargets(c: Conditional, known: set<string>): set<string> {
    if c.pathMap.None? then known else c.pathMap.value.Values - {START, END}
  }

  predicate EdgeClosed(edge: Edge, reach: set<string>, lenient: bool) {
    Opens(edge, reach, lenient) ==> edge.target in reach + {START, END}
  }

  predicate RouteClosed(c: Conditional, known: set<string>, reach: set<string>) {
    Live(c.source, reach) ==> RouteTargets(c, known) <= reach
  }

  predicate JumpClosed(bp: Blueprint, node: string, reach: set<string>) {
    node in reach ==> Chosen(bp.Declared(node)) - {START, END} <= reach
  }

  ghost predicate Closed(bp: Blueprint, reach: set<string>, lenient: bool) {
    && (forall i :: 0 <= i < |bp.graph.edges| ==> EdgeClosed(bp.graph.edges[i], reach, lenient))
    && (forall i :: 0 <= i < |bp.graph.conditionals| ==> RouteClosed(bp.graph.conditionals[i], bp.Known(), reach))
    && (forall i :: 0 <= i < |bp.graph.nodes| ==> JumpClosed(bp, bp.graph.nodes[i], reach))
  }

  /** Every set closed under the rules contains this one. */
  ghost predicate Below(bp: Blueprint, reach: set<string>, lenient: bool) {
    forall s :: Closed(bp, s, lenient) ==> reach <= s
  }

  ghost predicate Least(bp: Blueprint, reach: set<string>, lenient: bool) {
    Closed(bp, reach, lenient) && Below(bp, reach, lenient)
  }

  // ----- endpoints -------------------------------------------------------------------------------------------------

  predicate GoodEdge(bp: Blueprint, edge: Edge) {
    && END !in edge.sources && (START in edge.sources ==> |edge.sources| == 1)
    && (forall s :: s in edge.sources ==> s == START || s in bp.Known())
    && edge.target != START && (edge.target == END || edge.target in bp.Known())
  }

  predicate GoodTarget(bp: Blueprint, target: string) {
    target != START && (target == END || target in bp.Known())
  }

  predicate GoodRoute(bp: Blueprint, c: Conditional) {
    && (c.source == START || c.source in bp.Known())
    && (c.pathMap.Some? ==> forall t :: t in c.pathMap.value.Values ==> GoodTarget(bp, t))
  }

  predicate Enters(bp: Blueprint) {
    || (exists i :: 0 <= i < |bp.graph.edges| && bp.graph.edges[i].sources == [START])
    || (exists i :: 0 <= i < |bp.graph.conditionals| && bp.graph.conditionals[i].source == START)
  }

  /** Everything named is registered. */
  predicate WellEnded(bp: Blueprint) {
    && (forall i :: 0 <= i < |bp.graph.edges| ==> GoodEdge(bp, bp.graph.edges[i]))
    && (forall i :: 0 <= i < |bp.graph.conditionals| ==> GoodRoute(bp, bp.graph.conditionals[i]))
    && (forall n :: n in bp.Known() ==> forall t :: t in bp.Declared(n) ==> GoodTarget(bp, t))
  }

  // ----- _check_reachability -------------------------------------------------------------------------------

  /** What one round of additions keeps and reports. */
  ghost predicate Grown(bp: Blueprint, reach: set<string>, reach': set<string>, changed: bool) {
    && reach <= reach' <= bp.Known() && (changed <==> reach' != reach)
    && (Below(bp, reach, false) ==> Below(bp, reach', false))
  }

  lemma {:induction false} Grow(bp: Blueprint, reach: set<string>, reach': set<string>, changed: bool,
        more: set<string>)
    requires Grown(bp, reach, reach', changed) && more <= bp.Known()
    requires forall s :: Closed(bp, s, false) && reach' <= s ==> more <= s
    ensures Grown(bp, reach, reach' + more, changed || !(more <= reach'))
  {
    hide Closed;
  }

  method GrowByEdges(bp: Blueprint, reach: set<string>) returns (reachable: set<string>, changed: bool)
    requires WellEnded(bp) && reach <= bp.Known()
    ensures Grown(bp, reach, reachable, changed)
    ensures !changed ==> forall i :: 0 <= i < |bp.graph.edges| ==> EdgeClosed(bp.graph.edges[i], reach, false)
  {
    reachable, changed := reach, false;
    for i := 0 to |bp.graph.edges|
      invariant Grown(bp, reach, reachable, changed)
      invariant !changed ==> forall k :: 0 <= k < i ==> EdgeClosed(bp.graph.edges[k], reach, false)
    {
      hide Below;
      var edge := bp.graph.edges[i];
      assert GoodEdge(bp, edge);
      if Opens(edge, reachable, false) && edge.target !in {END, START} && edge.target !in reachable {
        forall s | Closed(bp, s, false) && reachable <= s
          ensures {edge.target} <= s
        {
          assert EdgeClosed(edge, s, false);
        }
        Grow(bp, reach, reachable, changed, {edge.target});
        reachable, changed := reachable + {edge.target}, true;
      }
    }
  }

  /** The targets of a path map, or the destinations of a node, that are new. */
  method AddTargets(reach: set<string>, targets: set<string>) returns (reachable: set<string>, changed: bool)
    ensures reachable == reach + (targets - {START, END}) && (changed <==> reachable != reach)
  {
    reachable, changed := reach, false;
    var left := targets;
    while left != {}
      invariant left <= targets && reachable == reach + (targets - left - {START, END})
      invariant changed <==> reachable != reach
    {
      var target :| target in left;
      if target !in {END, START} && target !in reachable {
        reachable, changed := reachable + {target}, true;
      }
      left := left - {target};
    }
  }

  method GrowByRoutes(bp: Blueprint, reach: set<string>) returns (reachable: set<string>, changed: bool)
    requires WellEnded(bp) && reach <= bp.Known()
    ensures Grown(bp, reach, reachable, changed)
    ensures !changed ==>
              forall i :: 0 <= i < |bp.graph.conditionals| ==> RouteClosed(bp.graph.conditionals[i], bp.Known(), reach)
  {
    reachable, changed := reach, false;
    for i := 0 to |bp.graph.conditionals|
      invariant Grown(bp, reach, reachable, changed)
      invariant !changed ==> forall k :: 0 <= k < i ==> RouteClosed(bp.graph.conditionals[k], bp.Known(), reach)
    {
      hide Below;
      var c := bp.graph.conditionals[i];
      assert GoodRoute(bp, c);
      if Live(c.source, reachable) {
        forall s | Closed(bp, s, false) && reachable <= s
          ensures RouteTargets(c, bp.Known()) <= s
        {
          assert RouteClosed(c, bp.Known(), s);
        }
        Grow(bp, reach, reachable, changed, RouteTargets(c, bp.Known()));
        if c.pathMap.None? {
          if !(bp.Known() <= reachable) {
            reachable, changed := reachable + bp.Known(), true;
          }
        } else {
          var grew;
          reachable, grew := AddTargets(reachable, c.pathMap.value.Values);
          changed := changed || grew;
        }
      }
    }
  }

  method GrowByJumps(bp: Blueprint, reach: set<string>) returns (reachable: set<string>, changed: bool)
    requires WellEnded(bp) && reach <= bp.Known()
    ensures Grown(bp, reach, reachable, changed)
    ensures !changed ==> forall i :: 0 <= i < |bp.graph.nodes| ==> JumpClosed(bp, bp.graph.nodes[i], reach)
  {
    reachable, changed := reach, false;
    for i := 0 to |bp.graph.nodes|
      invariant Grown(bp, reach, reachable, changed)
      invariant !changed ==> forall k :: 0 <= k < i ==> JumpClosed(bp, bp.graph.nodes[k], reach)
    {
      hide Below;
      var node := bp.graph.nodes[i];
      if node in reachable {
        var targets := Chosen(bp.Declared(node));
        assert node in bp.Known();
        forall s | Closed(bp, s, false) && reachable <= s
          ensures targets - {START, END} <= s
        {
          assert JumpClosed(bp, node, s);
        }
        Grow(bp, reach, reachable, changed, targets - {START, END});
        var grew;
        reachable, grew := AddTargets(reachable, targets);
        changed := changed || grew;
      }
    }
  }

  /** `_check_reachability`: the loop ends with the least set closed under the rules. */
  method Reach(bp: Blueprint) returns (reachable: set<string>)
    requires WellEnded(bp)
    ensures Least(bp, reachable, false) && reachable <= bp.Known()
  {
    reachable := {};
    var changed := true;
    while changed
      invariant reachable <= bp.Known() && Below(bp, reachable, false)
      invariant !changed ==> Closed(bp, reachable, false)
      decreases |bp.Known() - reachable|, changed
    {
      hide Below, EdgeClosed, RouteClosed, JumpClosed;
      ghost var before := reachable;
      var byEdges, byRoutes, byJumps;
      reachable, byEdges := GrowByEdges(bp, reachable);
      reachable, byRoutes := GrowByRoutes(bp, reachable);
      reachable, byJumps := GrowByJumps(bp, reachable);
      changed := byEdges || byRoutes || byJumps;
      if changed {
        Shrinks(bp.Known(), before, reachable);
      }
    }
  }

  lemma {:induction false} Shrinks(known: set<string>, a: set<string>, b: set<string>)
    requires a < b <= known
    ensures |known - b| < |known - a|
  {
    assert known - a == (known - b) + (b - a);
    assert |b - a| > 0 by {
      var x :| x in b && x !in a;
      assert x in b - a;
    }
  }

  lemma {:induction false} LeastIsUnique(bp: Blueprint, a: set<string>, b: set<string>, lenient: bool)
    requires Least(bp, a, lenient) && Least(bp, b, lenient)
    ensures a == b
  {
    hide Closed;
  }

  // ----- _validate -----------------------------------------------------------------------------------------

  datatype GraphError =
    | NoNodes | BadEdge | BadConditional | NoEntry | BadDestination | BadInterrupt
    | Unreachable(nodes: set<string>)

  /** What a graph must satisfy before reachability is looked at. */
  predicate Complete(bp: Blueprint) {
    && bp.graph.nodes != [] && WellEnded(bp) && Enters(bp)
    && forall i :: 0 <= i < |bp.interrupts| ==> bp.interrupts[i] in bp.Known()
  }

  lemma {:induction false} NothingOutside(known: set<string>, reach: set<string>)
    ensures known - reach == {} <==> known <= reach
  {
    if known - reach == {} {
      forall n | n in known
        ensures n in reach
      {
        assert n !in known - reach;
      }
    }
  }

  ghost predicate AllReachable(bp: Blueprint) {
    exists reach :: Least(bp, reach, false) && bp.Known() <= reach
  }

  lemma {:induction false} ExactlyReachable(bp: Blueprint, reach: set<string>)
    requires Least(bp, reach, false)
    ensures AllReachable(bp) <==> bp.Known() <= reach
  {
    hide Least;
    if AllReachable(bp) {
      var other :| Least(bp, other, false) && bp.Known() <= other;
      LeastIsUnique(bp, reach, other, false);
    }
  }

  /** `_validate`: a graph is accepted exactly when its endpoints, entry and interrupts are registered and every node
      is in the least set closed under the rules; otherwise exactly the nodes outside it are named. */
  method Validate(bp: Blueprint) returns (error: Option<GraphError>)
    ensures error.None? <==> Complete(bp) && AllReachable(bp)
    ensures Complete(bp) && error.Some? ==>
              exists reach :: Least(bp, reach, false) && error.value == Unreachable(bp.Known() - reach)
  {
    if bp.graph.nodes == [] { return Some(NoNodes); }
    for i := 0 to |bp.graph.edges|
      invariant forall k :: 0 <= k < i ==> GoodEdge(bp, bp.graph.edges[k])
    {
      if !GoodEdge(bp, bp.graph.edges[i]) { return Some(BadEdge); }
    }
    for i := 0 to |bp.graph.conditionals|
      invariant forall k :: 0 <= k < i ==> GoodRoute(bp, bp.graph.conditionals[k])
    {
      if !GoodRoute(bp, bp.graph.conditionals[i]) { return Some(BadConditional); }
    }
    if !Enters(bp) { return Some(NoEntry); }
    for i := 0 to |bp.graph.nodes|
      invariant forall k :: 0 <= k < i ==> forall t :: t in bp.Declared(bp.graph.nodes[k]) ==> GoodTarget(bp, t)
    {
      if exists t :: t in bp.Declared(bp.graph.nodes[i]) && !GoodTarget(bp, t) {
        assert bp.graph.nodes[i] in bp.Known();
        return Some(BadDestination);
      }
    }
    for i := 0 to |bp.interrupts|
      invariant forall k :: 0 <= k < i ==> bp.interrupts[k] in bp.Known()
    {
      if bp.interrupts[i] !in bp.Known() { return Some(BadInterrupt); }
    }
    var reachable := Reach(bp);
    ExactlyReachable(bp, reachable);
    var unreachable := bp.Known() - reachable;
    NothingOutside(bp.Known(), reachable);
    error := if unreachable != {} then Some(Unreachable(unreachable)) else None;
  }
}
