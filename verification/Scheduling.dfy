/** Fan-in joins and deferral over whole runs (graph/executor.py).  The claims are about the failure-free
    run; module Transparency carries them to every run that is crashed, paused and restarted. */
module Scheduling {
  import opened Prelude
  import opened Channels
  import opened Supersteps
  import opened Durability
  import opened Transparency

  // ----- the history of a run ---------------------------------------------------------------------------

  ghost predicate Follows(s: Setting, before: RunState, after: RunState) {
    Undisturbed(s.g, s.oracle, before) == Ok(after)
  }

  /** The states of the failure-free run from its entry on. */
  ghost predicate History(s: Setting, run: seq<RunState>) {
    && run != []
    && Entered(s.g, s.entry) == Ok(run[0])
    && forall k :: 0 < k < |run| ==> Follows(s, run[k - 1], run[k])
  }

  /** The first k + 1 states of the failure-free run are a history, and every history arises so. */
  lemma {:induction false} HistoryIsReference(s: Setting, run: seq<RunState>, k: nat)
    requires History(s, run) && k < |run|
    ensures Reference(s.g, s.entry, s.oracle, k) == Ok(run[k])
  {
    hide Undisturbed, Entered;
    if k > 0 {
      HistoryIsReference(s, run, k - 1);
      assert Follows(s, run[k - 1], run[k]);
    }
  }

  lemma {:induction false} ReferenceHasHistory(s: Setting, k: nat) returns (run: seq<RunState>)
    requires Reference(s.g, s.entry, s.oracle, k).Ok?
    ensures History(s, run) && |run| == k + 1 && run[k] == Reference(s.g, s.entry, s.oracle, k).value
  {
    hide Undisturbed, Entered;
    if k == 0 {
      run := [Reference(s.g, s.entry, s.oracle, 0).value];
    } else {
      run := ReferenceHasHistory(s, k - 1);
      run := run + [Reference(s.g, s.entry, s.oracle, k).value];
      assert Follows(s, run[k - 1], run[k]);
    }
  }

  lemma {:induction false} EnterIsClean(g: Graph, entry: Entry)
    requires Entered(g, entry).Ok?
    ensures Entered(g, entry).value.deferred == {}
    ensures entry.Fresh? ==> Entered(g, entry).value.joins == map[]
  {
  }

  lemma {:induction false} HistoryPlanned(s: Setting, run: seq<RunState>, k: nat)
    requires ValidGraph(s.g) && History(s, run) && k < |run|
    ensures WellPlanned(s.g, run[k])
  {
    hide Undisturbed, Entered, WellPlanned, Reference, History;
    HistoryIsReference(s, run, k);
    ReferencePlanned(s.g, s.entry, s.oracle, k);
  }

  // ----- joins over a whole run -----------------------------------------------------------------------------

  /** The nodes the superstep that starts from a state completes. */
  function CompletedFrom(g: Graph, rs: RunState): set<string> {
    var tasks := Plan(g, Settle(g, rs));
    if tasks.Ok? then Completed(tasks.value) else {}
  }

  predicate FiresFrom(g: Graph, i: nat, rs: RunState)
    requires i < |g.edges|
  {
    Fires(g.edges[i], CompletedFrom(g, rs), Progress(rs.joins, i))
  }

  lemma {:induction false} CommitJoins(g: Graph, rs: RunState, tasks: seq<Task>, results: seq<Return>, i: nat)
    requires i < |g.edges| && Commit(g, rs, tasks, results).Ok?
    ensures Progress(Commit(g, rs, tasks, results).value.joins, i) ==
            Kept(g.edges[i], Completed(tasks), Progress(rs.joins, i))
  {
    hide MergeUpdates, RoutesFrom, Normalize, Bump, Jumps, SendsOf, NamesOf, EdgesFrom, Kept, Completed;
    EdgesPointwise(g.edges, 0, Completed(tasks), rs.joins, i);
  }

  /** What one superstep does to the progress of an edge. */
  lemma {:induction false} ProgressStep(s: Setting, before: RunState, after: RunState, i: nat)
    requires i < |s.g.edges| && Follows(s, before, after)
    ensures Progress(after.joins, i) == Kept(s.g.edges[i], CompletedFrom(s.g, before), Progress(before.joins, i))
  {
    hide Commit, Kept, Settle, Plan, Jobs, AllReturn, AllResults;
    SettleKeepsJoins(s.g, before);
    var tasks := Plan(s.g, Settle(s.g, before)).value;
    CommitJoins(s.g, Settle(s.g, before), tasks, AllResults(Jobs(s.g, tasks), s.oracle, before.step), i);
  }

  /** The supersteps of a run at which an edge fires. */
  function Firings(g: Graph, i: nat, run: seq<RunState>): nat
    requires i < |g.edges|
  {
    if run == [] then 0
    else
      var last := |run| - 1;
      Firings(g, i, run[..last]) + if FiresFrom(g, i, run[last]) then 1 else 0
  }

  /** The supersteps of a run that complete a node. */
  function Completions(g: Graph, node: string, run: seq<RunState>): nat {
    if run == [] then 0
    else
      var last := |run| - 1;
      Completions(g, node, run[..last]) + if node in CompletedFrom(g, run[last]) then 1 else 0
  }

  /** An 'all' edge fires at most once per completion of each source: firings, plus the completion still
      waiting in the progress, never exceed the supersteps that completed the source, plus what the turn
      before left over.  Between supersteps the progress is a proper part of the sources. */
  lemma {:induction false} AllJoinConserves(s: Setting, run: seq<RunState>, i: nat, source: string, k: nat)
    requires History(s, run) && k < |run|
    requires i < |s.g.edges| && FanIn(s.g.edges[i]) && !s.g.edges[i].any && source in s.g.edges[i].sources
    ensures Firings(s.g, i, run[..k]) + (if source in Progress(run[k].joins, i) then 1 else 0) <=
            Completions(s.g, source, run[..k]) + (if source in Progress(run[0].joins, i) then 1 else 0)
    ensures s.entry.Fresh? ==> Progress(run[0].joins, i) == {}
    ensures s.entry.Fresh? || Progress(run[0].joins, i) < Chosen(s.g.edges[i].sources) ==>
              Progress(run[k].joins, i) < Chosen(s.g.edges[i].sources)
  {
    assert source in Chosen(s.g.edges[i].sources);
    hide Entered, CompletedFrom, Follows;
    EnterIsClean(s.g, s.entry);
    if k > 0 {
      AllJoinConserves(s, run, i, source, k - 1);
      assert Follows(s, run[k - 1], run[k]);
      ProgressStep(s, run[k - 1], run[k], i);
      assert run[..k][..k - 1] == run[..k - 1];
    }
  }

  /** The source completed at superstep j, and no superstep from j to k has fired the edge. */
  predicate Unused(g: Graph, run: seq<RunState>, i: nat, source: string, j: nat, k: nat)
    requires i < |g.edges| && j < k <= |run|
  {
    source in CompletedFrom(g, run[j]) && forall m :: j <= m < k ==> !FiresFrom(g, i, run[m])
  }

  predicate NeverFired(g: Graph, run: seq<RunState>, i: nat, k: nat)
    requires i < |g.edges| && k <= |run|
  {
    forall m :: 0 <= m < k ==> !FiresFrom(g, i, run[m])
  }

  lemma {:induction false} NeverFiredStep(g: Graph, run: seq<RunState>, i: nat, k: nat)
    requires i < |g.edges| && k < |run|
    ensures NeverFired(g, run, i, 0)
    ensures NeverFired(g, run, i, k + 1) <==> NeverFired(g, run, i, k) && !FiresFrom(g, i, run[k])
  {
    hide FiresFrom;
  }

  /** A completion is unused after a superstep that does not fire the edge, if it is of that superstep or was unused
      before it. */
  lemma {:induction false} UnusedStep(g: Graph, run: seq<RunState>, i: nat, source: string, before: nat, k: nat)
    requires i < |g.edges| && k == before + 1 && k <= |run|
    ensures (exists j :: 0 <= j < k && Unused(g, run, i, source, j, k)) <==>
            && !FiresFrom(g, i, run[before])
            && (source in CompletedFrom(g, run[before]) ||
                exists j :: 0 <= j < before && Unused(g, run, i, source, j, before))
  {
    hide FiresFrom, CompletedFrom;
    if j :| 0 <= j < k && Unused(g, run, i, source, j, k) {
      assert j < before ==> Unused(g, run, i, source, j, before);
    }
    if !FiresFrom(g, i, run[before]) {
      if source in CompletedFrom(g, run[before]) {
        assert Unused(g, run, i, source, before, k);
      }
      if j :| 0 <= j < before && Unused(g, run, i, source, j, before) {
        assert Unused(g, run, i, source, j, k);
      }
    }
  }

  /** The source has completed since the edge last fired or, before it first fires, was left over by the turn before. */
  predicate Waits(g: Graph, run: seq<RunState>, i: nat, source: string, k: nat)
    requires i < |g.edges| && k < |run|
  {
    || (exists j :: 0 <= j < k && Unused(g, run, i, source, j, k))
    || (source in Progress(run[0].joins, i) && NeverFired(g, run, i, k))
  }

  lemma {:induction false} WaitsStep(g: Graph, run: seq<RunState>, i: nat, source: string, before: nat, k: nat)
    requires i < |g.edges| && k == before + 1 && k < |run|
    ensures Waits(g, run, i, source, k) <==>
            && !FiresFrom(g, i, run[before])
            && (source in CompletedFrom(g, run[before]) || Waits(g, run, i, source, before))
  {
    hide Unused, NeverFired, FiresFrom, CompletedFrom;
    UnusedStep(g, run, i, source, before, k);
    NeverFiredStep(g, run, i, before);
  }

  lemma {:induction false} WaitsAtStart(g: Graph, run: seq<RunState>, i: nat, source: string)
    requires i < |g.edges| && |run| > 0
    ensures Waits(g, run, i, source, 0) <==> source in Progress(run[0].joins, i)
  {
    NeverFiredStep(g, run, i, 0);
    hide Unused, FiresFrom;
  }

  lemma {:induction false} KeptSource(edge: Edge, completed: set<string>, progress: set<string>, source: string)
    requires FanIn(edge) && source in edge.sources
    ensures source in Kept(edge, completed, progress) <==>
            !Fires(edge, completed, progress) && (source in completed || source in progress)
  {
    hide Fires;
    assert source in Chosen(edge.sources);
  }

  /** The progress of a fan-in edge is exactly the sources completed since it last fired; before it first fires in a
      later turn, also those left over from the turn before. */
  lemma {:induction false} ProgressIsSinceLastFiring(s: Setting, run: seq<RunState>, i: nat, source: string, k: nat)
    requires History(s, run) && k < |run|
    requires i < |s.g.edges| && FanIn(s.g.edges[i]) && source in s.g.edges[i].sources
    ensures source in Progress(run[k].joins, i) <==>
            || (exists j :: 0 <= j < k && Unused(s.g, run, i, source, j, k))
            || (source in Progress(run[0].joins, i) && NeverFired(s.g, run, i, k))
    ensures s.entry.Fresh? ==> Progress(run[0].joins, i) == {}
  {
    EnterIsClean(s.g, s.entry);
    hide Entered, Unused, NeverFired, Follows;
    WaitingIsProgress(s, run, i, source, k);
  }

  lemma {:induction false} WaitingIsProgress(s: Setting, run: seq<RunState>, i: nat, source: string, k: nat)
    requires History(s, run) && k < |run|
    requires i < |s.g.edges| && FanIn(s.g.edges[i]) && source in s.g.edges[i].sources
    ensures source in Progress(run[k].joins, i) <==> Waits(s.g, run, i, source, k)
  {
    hide *;
    if k == 0 {
      WaitsAtStart(s.g, run, i, source);
    } else {
      HistoryFollows(s, run, k);
      FiringIs(s.g, i, run[k - 1]);
      WaitingIsProgress(s, run, i, source, k - 1);
      ProgressStep(s, run[k - 1], run[k], i);
      KeptSource(s.g.edges[i], CompletedFrom(s.g, run[k - 1]), Progress(run[k - 1].joins, i), source);
      WaitsStep(s.g, run, i, source, k - 1, k);
    }
  }

  lemma {:induction false} HistoryFollows(s: Setting, run: seq<RunState>, k: nat)
    requires History(s, run) && 0 < k < |run|
    ensures Follows(s, run[k - 1], run[k])
  {
    hide Follows, Entered;
  }

  lemma {:induction false} FiringIs(g: Graph, i: nat, rs: RunState)
    requires i < |g.edges|
    ensures FiresFrom(g, i, rs) == Fires(g.edges[i], CompletedFrom(g, rs), Progress(rs.joins, i))
  {
  }

  /** An 'any' edge fires in exactly the supersteps that complete one of its sources, and never keeps
      progress. */
  lemma {:induction false} AnyJoinFires(s: Setting, run: seq<RunState>, i: nat, k: nat)
    requires History(s, run) && k < |run|
    requires i < |s.g.edges| && FanIn(s.g.edges[i]) && s.g.edges[i].any
    requires s.entry.Fresh? || Progress(run[0].joins, i) == {}
    ensures Progress(run[k].joins, i) == {}
    ensures FiresFrom(s.g, i, run[k]) <==> CompletedFrom(s.g, run[k]) * Chosen(s.g.edges[i].sources) != {}
  {
    hide Entered, CompletedFrom, Follows;
    EnterIsClean(s.g, s.entry);
    if k > 0 {
      AnyJoinFires(s, run, i, k - 1);
      assert Follows(s, run[k - 1], run[k]);
      ProgressStep(s, run[k - 1], run[k], i);
    }
  }

  lemma {:induction false} CommitSchedules(g: Graph, rs: RunState, tasks: seq<Task>, results: seq<Return>, i: nat)
    requires ValidGraph(g) && i < |g.edges| && Commit(g, rs, tasks, results).Ok?
    requires Fires(g.edges[i], Completed(tasks), Progress(rs.joins, i)) && g.edges[i].target != END
    ensures g.edges[i].target in Commit(g, rs, tasks, results).value.active
  {
    hide Bump, Jumps, SendsOf, NamesOf, Kept, Completed, Fires;
    EdgeFires(g.edges, 0, Completed(tasks), rs.joins, i);
    var state := MergeUpdates(rs.state, Updates(results), g.slots).value;
    var names := EdgesFrom(g.edges, 0, Completed(tasks), rs.joins).0;
    var routed := RoutesFrom(g.conditionals, Completed(tasks), state).value;
    NormalizePlanned(g, names + NamesOf(routed) + NamesOf(Jumps(results)));
    hide MergeUpdates, RoutesFrom, Normalize, EdgesFrom;
  }

  /** An edge that fires has its target scheduled by name for the next superstep. */
  lemma {:induction false} FiringSchedulesTarget(s: Setting, before: RunState, after: RunState, i: nat)
    requires ValidGraph(s.g) && i < |s.g.edges| && Follows(s, before, after)
    requires FiresFrom(s.g, i, before) && s.g.edges[i].target != END
    ensures s.g.edges[i].target in after.active
  {
    hide Commit, Kept, Settle, Plan, Jobs, AllReturn, AllResults;
    SettleKeepsJoins(s.g, before);
    var tasks := Plan(s.g, Settle(s.g, before)).value;
    CommitSchedules(s.g, Settle(s.g, before), tasks, AllResults(Jobs(s.g, tasks), s.oracle, before.step), i);
  }

  // ----- deferral over a whole run ------------------------------------------------------------------------------

  /** A superstep that runs a deferred node by name runs nothing but such nodes. */
  lemma {:induction false} DeferredRunAlone(g: Graph, rs: RunState, n: string)
    requires n in Settle(g, rs).active && n in g.deferring
    ensures Settle(g, rs).sends == [] && forall m :: m in Settle(g, rs).active ==> m in g.deferring
  {
    WithoutKeeps(rs.active, Chosen(rs.active) * g.deferring);
  }

  /** Stepping aside keeps every scheduled node. */
  lemma {:induction false} SettleKeepsNodes(g: Graph, rs: RunState)
    ensures Chosen(Settle(g, rs).active) + Settle(g, rs).deferred == Chosen(rs.active) + rs.deferred
  {
    WithoutKeeps(rs.active, Chosen(rs.active) * g.deferring);
  }

  lemma {:induction false} CommitKeepsDeferred(g: Graph, rs: RunState, tasks: seq<Task>, results: seq<Return>)
    requires ValidGraph(g) && WellPlanned(g, rs) && Commit(g, rs, tasks, results).Ok?
    ensures var next := Commit(g, rs, tasks, results).value;
            && (next.deferred == rs.deferred || (next.deferred == {} && Chosen(next.active) == rs.deferred))
            && (Done(next) ==> next.deferred == {})
  {
    if Normalize(g, rs.deferred).Ok? {
      NormalizePlanned(g, rs.deferred);
    }
    hide MergeUpdates, EdgesFrom, RoutesFrom, Normalize, Bump, Jumps, SendsOf, NamesOf;
  }

  lemma {:induction false} StepKeepsDeferred(s: Setting, before: RunState, after: RunState)
    requires ValidGraph(s.g) && WellPlanned(s.g, before) && Follows(s, before, after)
    ensures var settled := Settle(s.g, before);
            && (after.deferred == settled.deferred ||
                (after.deferred == {} && Chosen(after.active) == settled.deferred))
            && (Done(after) ==> after.deferred == {})
  {
    var settled := Settle(s.g, before);
    SettlePlanned(s.g, before);
    hide Commit, Settle, Plan, WellPlanned, Jobs, AllReturn, AllResults;
    var tasks := Plan(s.g, settled).value;
    CommitKeepsDeferred(s.g, settled, tasks, AllResults(Jobs(s.g, tasks), s.oracle, before.step));
  }

  /** No activation is lost: when the run ends no node is left deferred. */
  lemma {:induction false} EndsWithNothingDeferred(s: Setting, run: seq<RunState>, k: nat)
    requires ValidGraph(s.g) && History(s, run) && k < |run| && Done(run[k])
    ensures run[k].deferred == {}
  {
    hide Entered, Follows, WellPlanned, Settle;
    EnterIsClean(s.g, s.entry);
    if k > 0 {
      assert Follows(s, run[k - 1], run[k]);
      HistoryPlanned(s, run, k - 1);
      StepKeepsDeferred(s, run[k - 1], run[k]);
    }
  }

  /** Every deferred activation is executed before the run ends: a node set aside at superstep k runs
      by name in a later superstep. */
  lemma {:induction false} DeferredEventuallyRuns(s: Setting, run: seq<RunState>, k: nat, n: string) returns (j: nat)
    requires ValidGraph(s.g) && History(s, run) && Done(run[|run| - 1])
    requires k < |run| - 1 && n in Settle(s.g, run[k]).deferred
    ensures k < j < |run| - 1 && n in Settle(s.g, run[j]).active
    decreases |run| - k
  {
    hide Entered, Follows, WellPlanned, Settle;
    assert Follows(s, run[k], run[k + 1]);
    HistoryPlanned(s, run, k);
    StepKeepsDeferred(s, run[k], run[k + 1]);
    SettleKeepsNodes(s.g, run[k + 1]);
    EndsWithNothingDeferred(s, run, |run| - 1);
    assert k + 1 < |run| - 1 by {
      assert Done(run[k + 1]) ==> run[k + 1].active == [];
    }
    if n in Settle(s.g, run[k + 1]).active {
      j := k + 1;
    } else {
      j := DeferredEventuallyRuns(s, run, k + 1, n);
    }
  }

  /** A disturbed run that has nothing left to do has nothing deferred either. */
  lemma {:induction false} CompletedRunsDeferNothing(s: Setting, events: seq<Event>)
    requires ValidGraph(s.g) && AllHonest(s, FRESH, events)
    ensures var w := Trace(s.g, s.entry, s.mode, FRESH, events);
            w.live.Some? && Done(w.live.value.run) ==> w.live.value.run.deferred == {}
  {
    FailureTransparency(s, events);
    var w := Trace(s.g, s.entry, s.mode, FRESH, events);
    hide Reference, Trace, AllHonest, History;
    if w.live.Some? && Done(w.live.value.run) {
      var run := ReferenceHasHistory(s, w.live.value.run.step);
      EndsWithNothingDeferred(s, run, w.live.value.run.step);
    }
  }
}
