/** Two graphs on which exit durability (graph/executor.py) departs from the failure-free run: a loop that never
    ends, and a graph without any cycle that ends with a wrong state. */
module ExitCounterexamples {
  import opened Prelude
  import opened Channels
  import opened Interrupts
  import opened Supersteps
  import opened Durability
  import opened Transparency
  import opened ExitDurability
  import opened LevelledGraphs
  import Suspension

  const COUNT := "n"

  function Counted(state: State): int {
    if COUNT in state && state[COUNT].Num? then state[COUNT].n else 0
  }

  function Holding(n: int): State { map[COUNT := Num(n)] }

  function Writing(n: int): map<Key, Value> { map[COUNT := Num(n)] }

  const SLOTS := [Slot(COUNT, LastValue)]

  /** Versions after this many writes. */
  function Versions(writes: nat): map<Key, nat> { if writes == 0 then map[] else map[COUNT := writes] }

  lemma {:induction false} BumpVersion(writes: nat, n: int)
    ensures BumpOne(Versions(writes), Writing(n)) == Versions(writes + 1)
  {
  }

  /** The counter's channel keeps the last value written, if any. */
  lemma {:induction false} MergeCount(before: State, written: int, updates: seq<Update>)
    requires before == map[] || before == Holding(Counted(before))
    requires forall u :: u in updates ==> u.Keys <= {COUNT}
    requires WritesFor(updates, COUNT) == [Plain(Num(written))]
    ensures MergeUpdates(before, updates, SLOTS) == Ok(Holding(written))
  {
    assert SLOTS[0] == Slot(COUNT, LastValue) && SLOTS[1..] == [];
    assert KeysOf(SLOTS) == {COUNT} by {
      assert COUNT in KeysOf(SLOTS);
    }
    var after := Holding(written);
    assert Merged(LastValue, Get(before, COUNT), WritesFor(updates, COUNT)) == Ok(Some(Num(written)));
    assert Put(before, COUNT, Some(Num(written))) == after;
    assert MergeSlots(after, updates, []) == Ok(after);
    assert MergeSlots(before, updates, SLOTS) == Ok(after);
  }

  // ----- one superstep, from its parts ------------------------------------------------------------------------------

  lemma {:induction false} UndisturbedIs(g: Graph, oracle: Oracle, rs: RunState, tasks: seq<Task>,
                                         results: seq<Return>, next: RunState)
    requires g.deferring == {} && Plan(g, rs) == Ok(tasks) && !Done(rs) && NeverAsks(g, rs)
    requires |results| == |JobsFrom(g, rs)|
    requires forall i :: 0 <= i < |results| ==> results[i] == Direct(JobsFrom(g, rs)[i].body)
    requires Commit(g, rs, tasks, results) == Ok(next)
    ensures Undisturbed(g, oracle, rs) == Ok(next)
  {
    NobodyDefers(g, rs);
    assert JobsFrom(g, rs) == Jobs(g, tasks);
    AllDirect(g, oracle, rs);
    hide Commit, Plan, Settle, JobsFrom, Jobs, AllReturn, AllResults, NeverAsks;
    assert results == AllResults(Jobs(g, tasks), oracle, rs.step);
  }

  lemma {:induction false} ExitStepIs(g: Graph, x: ExitRun, tasks: seq<Task>, outcomes: seq<Outcome>, next: RunState)
    requires g.deferring == {} && Plan(g, x.run) == Ok(tasks) && !Done(x.run)
    requires Suspension.Outcomes(JobsFrom(g, x.run), Suspension.Session(x.stored, map[])) == outcomes
    requires Suspension.Markers(outcomes) == [] && Commit(g, x.run, tasks, ResultsOf(outcomes)) == Ok(next)
    ensures ExitStep(g, x) == Ok(ExitRun(next, x.stored + Successful(JobsFrom(g, x.run), outcomes)))
  {
    NobodyDefers(g, x.run);
    assert JobsFrom(g, x.run) == Jobs(g, tasks);
    hide Commit, Plan, Settle, JobsFrom, Jobs, Successful, ResultsOf, Suspension.Outcomes, Suspension.Markers;
  }

  // ----- the loop ------------------------------------------------------------------------------------------------

  /** One node that adds one to a counter and jumps to itself until the counter is two. */
  function CountBody(node: string, input: Input): Body {
    var n := if input.FromState? then Counted(input.state) else 0;
    answers => Return(Writing(n + 1), Again(n + 1))
  }

  function Again(n: int): seq<Target> { if n < 2 then [Goto("count")] else [] }

  const COUNTER := Graph(["count"], {}, CountBody, [Edge([START], "count", false)], [], SLOTS)

  /** The input that sets the counter. */
  function From(n: int): Update { map[COUNT := Plain(Num(n))] }

  function CounterAt(n: int, step: nat): RunState {
    RunState(Holding(n), if n < 2 then ["count"] else [], [], map[], {}, step, Versions(step))
  }

  lemma {:induction false} CounterJobs(n: int, step: nat)
    requires n < 2
    ensures var rs := CounterAt(n, step);
            && Settle(COUNTER, rs) == rs
            && Plan(COUNTER, rs) == Ok([Task("count", "count", FromState(rs.state))])
            && JobsFrom(COUNTER, rs) == [Suspension.Job("count", CountBody("count", FromState(rs.state)))]
  {
    var rs := CounterAt(n, step);
    assert NamedTasks(rs) + Deliveries(rs) == [Task("count", "count", FromState(rs.state))];
  }

  lemma {:induction false} CounterMerge(n: int, written: int, goto: seq<Target>)
    ensures MergeUpdates(Holding(n), Updates([(Writing(written), goto)]), SLOTS) == Ok(Holding(written))
  {
    var results: seq<Return> := [(Writing(written), goto)];
    var updates := Updates(results);
    assert updates[0] == From(written);
    assert updates == [From(written)] && updates[1..] == [];
    assert WritesFor(updates, COUNT) == [Plain(Num(written))];
    MergeCount(Holding(n), written, updates);
  }

  /** No edge leaves the node. */
  lemma {:induction false} CounterEdges()
    ensures EdgesFrom(COUNTER.edges, 0, {"count"}, map[]) == ({}, map[])
  {
    var none: Joins, nobody: set<string> := map[], {};
    assert SetProgress(none, 0, {}) == none;
    assert EdgesFrom(COUNTER.edges, 1, {"count"}, none) == ({}, none);
    assert COUNTER.edges[0].sources == [START];
    assert !Fires(COUNTER.edges[0], {"count"}, {}) && Kept(COUNTER.edges[0], {"count"}, {}) == {};
    assert nobody + {} == nobody;
  }

  lemma {:induction false} CounterOrder()
    ensures Normalize(COUNTER, {"count"}) == Ok(["count"]) && Normalize(COUNTER, {}) == Ok([])
  {
    assert START != END && "count" != START && "count" != END by {
      assert "count"[0] == 'c' && START[2] == 's' && END[2] == 'e';
    }
    assert COUNTER.nodes[0] == "count" && COUNTER.nodes[1..] == [];
    var nothing: set<string> := {};
    assert {"count"} - {END} == {"count"} && nothing - {END} == nothing;
    assert InOrder([], {"count"}) == [] && InOrder([], nothing) == [];
    assert InOrder(COUNTER.nodes, {"count"}) == ["count"] + [] && InOrder(COUNTER.nodes, nothing) == [] + [];
    assert "count" in COUNTER.nodes && Selectable(COUNTER, "count");
    assert ["count"] + [] == ["count"];
  }

  lemma {:induction false} AgainTargets(n: int)
    ensures SendsOf(Again(n)) == [] && NamesOf(Again(n)) == if n < 2 then {"count"} else {}
  {
    var goto := Again(n);
    assert goto != [] ==> goto[1..] == [];
  }

  lemma {:induction false} CounterResult(step: nat, written: int, goto: seq<Target>)
    ensures var results: seq<Return> := [(Writing(written), goto)];
            results[1..] == [] && Jumps(results) == goto && Bump(Versions(step), results) == Versions(step + 1)
  {
    var results: seq<Return> := [(Writing(written), goto)];
    assert results[1..] == [];
    BumpVersion(step, written);
  }

  lemma {:induction false} CounterCommit(n: int, step: nat, written: int)
    requires n < 2 && written <= 2
    ensures var rs := CounterAt(n, step);
            Commit(COUNTER, rs, [Task("count", "count", FromState(rs.state))], [(Writing(written), Again(written))]) ==
            Ok(CounterAt(written, step + 1))
  {
    var rs, goto := CounterAt(n, step), Again(written);
    var results: seq<Return> := [(Writing(written), goto)];
    var tasks := [Task("count", "count", FromState(rs.state))];
    CounterResult(step, written, goto);
    assert Completed(tasks) == {"count"} by {
      assert tasks[0] in tasks;
    }
    var jumped: set<string> := if written < 2 then {"count"} else {};
    assert {} + jumped == jumped;
    hide MergeUpdates, EdgesFrom, Normalize, Updates, Jumps, NamesOf, SendsOf, Bump, Completed, Again, Commit;
    CounterMerge(n, written, goto);
    CounterEdges();
    CounterOrder();
    AgainTargets(written);
    PlainCommit(COUNTER, rs, tasks, results, Holding(written), {}, jumped, if written < 2 then ["count"] else []);
  }

  /** What the node stored when it wrote this number. */
  function Stale(n: int): map<TaskId, Return> { map["count" := (Writing(n), Again(n))] }

  /** What one task hands to the commit and to the store, if its outcome is this. */
  lemma {:induction false} OneOutcome(job: Suspension.Job, outcome: Outcome)
    requires outcome.Finished?
    ensures Suspension.Markers([outcome]) == [] && ResultsOf([outcome]) == [(outcome.update, outcome.goto)]
    ensures Successful([job], [outcome]) == map[job.id := (outcome.update, outcome.goto)]
  {
    assert [outcome][1..] == [] && [job][1..] == [];
    assert Suspension.Markers([]) == [] && Successful([], []) == map[];
  }

  lemma {:induction false} CounterOutcomes(n: int, step: nat, stored: map<TaskId, Return>, written: int)
    requires n < 2 && ((stored == map[] && written == n + 1) || stored == Stale(written))
    ensures Suspension.Outcomes(JobsFrom(COUNTER, CounterAt(n, step)), Suspension.Session(stored, map[])) ==
            [Finished(Writing(written), Again(written))]
  {
    CounterJobs(n, step);
    hide JobsFrom, Again;
    var rs := CounterAt(n, step);
    assert Counted(rs.state) == n;
  }

  /** One superstep of the counter, whatever its one task is found to have returned. */
  lemma {:induction false} CounterStep(n: int, step: nat, stored: map<TaskId, Return>, written: int)
    requires n < 2 && written <= 2 && ((stored == map[] && written == n + 1) || stored == Stale(written))
    ensures ExitStep(COUNTER, ExitRun(CounterAt(n, step), stored)) ==
            Ok(ExitRun(CounterAt(written, step + 1), Stale(written)))
  {
    var rs, next := CounterAt(n, step), CounterAt(written, step + 1);
    var outcome := Finished(Writing(written), Again(written));
    assert !Done(rs) && COUNTER.deferring == {};
    assert stored + map["count" := (outcome.update, outcome.goto)] == Stale(written);
    CounterJobs(n, step);
    hide *;
    CounterCommit(n, step, written);
    CounterOutcomes(n, step, stored, written);
    OneOutcome(JobsFrom(COUNTER, rs)[0], outcome);
    ExitStepIs(COUNTER, ExitRun(rs, stored), Plan(COUNTER, rs).value, [outcome], next);
  }

  lemma {:induction false} CounterUndisturbed(oracle: Oracle, n: int, step: nat)
    requires n < 2
    ensures Undisturbed(COUNTER, oracle, CounterAt(n, step)) == Ok(CounterAt(n + 1, step + 1))
  {
    var rs := CounterAt(n, step);
    CounterJobs(n, step);
    assert Counted(rs.state) == n;
    hide Commit, Plan, JobsFrom, Undisturbed, Again;
    CounterCommit(n, step, n + 1);
    UndisturbedIs(COUNTER, oracle, rs, Plan(COUNTER, rs).value, [(Writing(n + 1), Again(n + 1))],
                  CounterAt(n + 1, step + 1));
  }

  lemma {:induction false} CounterEnter(n: int)
    requires n < 2
    ensures Enter(COUNTER, From(n)) == Ok(CounterAt(n, 0))
  {
    var updates := [From(n)];
    assert updates[0] == From(n) && updates[1..] == [];
    assert WritesFor(updates, COUNT) == [Plain(Num(n))];
    MergeCount(map[], n, updates);
    CounterOrder();
    assert EntryNames(COUNTER.edges) == {"count"} by {
      assert COUNTER.edges[0] in COUNTER.edges;
    }
    var none: seq<Target> := [];
    assert NamesOf(none) == {} && SendsOf(none) == [];
    hide MergeUpdates, Normalize, EntryNames, NamesOf, SendsOf;
    assert {"count"} + {} == {"count"};
  }

  /** The first superstep stores what it wrote. */
  lemma {:induction false} CounterStoresIt(n: int)
    requires n <= 0
    ensures ExitAfter(COUNTER, Fresh(From(n)), 1) == Ok(ExitRun(CounterAt(n + 1, 1), Stale(n + 1)))
  {
    hide Enter, Entered, ExitStep;
    FreshEnters(COUNTER, From(n));
    CounterEnter(n);
    CounterStep(n, 0, map[], n + 1);
    assert ExitAfter(COUNTER, Fresh(From(n)), 0) == Ok(ExitRun(CounterAt(n, 0), map[]));
  }

  /** Every later superstep repeats it: the node is handed its own first result. */
  lemma {:induction false} CounterRepeats(n: int, k: nat)
    requires n <= 0 && k >= 1
    ensures ExitAfter(COUNTER, Fresh(From(n)), k) == Ok(ExitRun(CounterAt(n + 1, k), Stale(n + 1)))
  {
    hide Enter, Entered, ExitStep;
    if k == 1 {
      CounterStoresIt(n);
    } else {
      CounterRepeats(n, k - 1);
      CounterStep(n + 1, k - 1, Stale(n + 1), n + 1);
    }
  }

  lemma {:induction false} CounterCounts(n: int, oracle: Oracle, k: nat)
    requires n + k <= 2 && n < 2
    ensures Reference(COUNTER, Fresh(From(n)), oracle, k) == Ok(CounterAt(n + k, k))
  {
    hide Enter, Entered, Undisturbed;
    if k == 0 {
      FreshEnters(COUNTER, From(n));
      CounterEnter(n);
    } else {
      CounterCounts(n, oracle, k - 1);
      CounterUndisturbed(oracle, n + k - 1, k - 1);
    }
  }

  /** From every start below one the failure-free run ends after 2 - n supersteps, and an exit-durable invocation
      never does: after any number of supersteps it still holds n + 1 and schedules its node again. */
  lemma {:induction false} CounterNeverEnds(n: int, oracle: Oracle)
    requires n <= 0
    ensures var end := Reference(COUNTER, Fresh(From(n)), oracle, 2 - n);
            end.Ok? && Done(end.value)
    ensures forall k: nat :: k >= 1 ==>
              var x := ExitAfter(COUNTER, Fresh(From(n)), k);
              x.Ok? && !Done(x.value.run) && x.value.run.state == Holding(n + 1) && x.value.stored == Stale(n + 1)
  {
    hide Reference, ExitAfter;
    CounterCounts(n, oracle, 2 - n);
    forall k: nat | k >= 1
      ensures var x := ExitAfter(COUNTER, Fresh(From(n)), k);
              x.Ok? && !Done(x.value.run) && x.value.run.state == Holding(n + 1) && x.value.stored == Stale(n + 1)
    {
      CounterRepeats(n, k);
    }
  }

  // ----- a graph without cycles ------------------------------------------------------------------------------------

  /** The first node does nothing; the second adds one to the counter. */
  function TwiceBody(node: string, input: Input): Body {
    var n := if input.FromState? then Counted(input.state) else 0;
    var update: map<Key, Value> := if node == "b" then Writing(n + 1) else map[];
    answers => Return(update, [])
  }

  /** Both nodes are entries, and the first leads to the second: it runs in two supersteps. */
  const TWICE := Graph(["a", "b"], {}, TwiceBody,
                       [Edge([START], "a", false), Edge([START], "b", false), Edge(["a"], "b", false)], [], SLOTS)

  const HEIGHTS: Levels := node => if node == "a" then 0 else 1

  lemma {:induction false} TwiceNames()
    ensures "a" != "b" && "a" != START && "b" != START && "a" != END && "b" != END && START != END
  {
    assert "a"[0] == 'a' && "b"[0] == 'b' && START[0] == '_' && END[0] == '_' && START[2] == 's' && END[2] == 'e';
  }

  lemma {:induction false} TwiceAscends()
    ensures Ascends(TWICE, HEIGHTS, false) && Silent(TWICE) && ValidGraph(TWICE) && TWICE.deferring == {}
  {
    TwiceNames();
    forall n | n in TWICE.nodes
      ensures '#' !in n
    {
      assert n == "a" || n == "b";
    }
    HashFreeIsUnambiguous(TWICE.nodes);
  }

  /** After this many supersteps: the counter, and what is scheduled next. */
  function TwiceAt(n: int, active: seq<string>, step: nat): RunState {
    RunState(Holding(n), active, [], map[], {}, step, Versions(step))
  }

  lemma {:induction false} TwiceOrder()
    ensures Normalize(TWICE, {"a", "b"}) == Ok(["a", "b"]) && Normalize(TWICE, {"b"}) == Ok(["b"])
    ensures Normalize(TWICE, {}) == Ok([])
  {
    TwiceNames();
    var both, second, nothing: set<string> := {"a", "b"}, {"b"}, {};
    assert TWICE.nodes[0] == "a" && TWICE.nodes[1] == "b" && TWICE.nodes[1..] == ["b"] && ["b"][1..] == [];
    assert both - {END} == both && second - {END} == second && nothing - {END} == nothing;
    assert InOrder(["b"], both) == ["b"] && InOrder(["b"], second) == ["b"] && InOrder(["b"], nothing) == [];
    assert InOrder(TWICE.nodes, both) == ["a"] + ["b"];
    assert InOrder(TWICE.nodes, second) == [] + ["b"] && InOrder(TWICE.nodes, nothing) == [] + [];
    assert ["a"] + ["b"] == ["a", "b"] && [] + ["b"] == ["b"];
    assert forall name :: name in both || name in second ==> Selectable(TWICE, name);
  }

  lemma {:induction false} TwiceEdges(completed: set<string>)
    ensures EdgesFrom(TWICE.edges, 0, completed, map[]) == (if "a" in completed then {"b"} else {}, map[])
  {
    TwiceNames();
    var edges, none: Joins, nobody: set<string> := TWICE.edges, map[], {};
    assert SetProgress(none, 0, {}) == none && SetProgress(none, 1, {}) == none && SetProgress(none, 2, {}) == none;
    assert edges[0].sources == [START] && edges[1].sources == [START] && edges[2].sources == ["a"];
    assert !Fires(edges[0], completed, {}) && Kept(edges[0], completed, {}) == {};
    assert !Fires(edges[1], completed, {}) && Kept(edges[1], completed, {}) == {};
    assert Fires(edges[2], completed, {}) <==> "a" in completed;
    assert Kept(edges[2], completed, {}) == {};
    var fired: set<string> := if "a" in completed then {"b"} else {};
    assert nobody + fired == fired && fired + nobody == fired;
    assert EdgesFrom(edges, 3, completed, none) == (nobody, none);
    assert EdgesFrom(edges, 2, completed, none) == (fired, none);
    assert EdgesFrom(edges, 1, completed, none) == (fired, none);
  }

  lemma {:induction false} TwiceJobs(n: int)
    ensures var rs, a, b := TwiceAt(n, ["a", "b"], 0), TwiceBody("a", FromState(Holding(n))),
                            TwiceBody("b", FromState(Holding(n)));
            && Plan(TWICE, rs) ==
               Ok([Task("a", "a", FromState(Holding(n))), Task("b", "b", FromState(Holding(n)))])
            && JobsFrom(TWICE, rs) == [Suspension.Job("a", a), Suspension.Job("b", b)]
  {
    var rs := TwiceAt(n, ["a", "b"], 0);
    assert NamedTasks(rs) + Deliveries(rs) ==
           [Task("a", "a", FromState(Holding(n))), Task("b", "b", FromState(Holding(n)))];
    NobodyDefers(TWICE, rs);
  }

  lemma {:induction false} SecondJobs(n: int)
    ensures var rs := TwiceAt(n, ["b"], 1);
            && Plan(TWICE, rs) == Ok([Task("b", "b", FromState(Holding(n)))])
            && JobsFrom(TWICE, rs) == [Suspension.Job("b", TwiceBody("b", FromState(Holding(n))))]
  {
    var rs := TwiceAt(n, ["b"], 1);
    assert NamedTasks(rs) + Deliveries(rs) == [Task("b", "b", FromState(Holding(n)))];
    NobodyDefers(TWICE, rs);
  }

  const NONE: seq<Target> := []

  lemma {:induction false} TwiceEntry(n: int)
    ensures EntryNames(TWICE.edges) == {"a", "b"} && EntryRoutes(TWICE.conditionals, Holding(n)) == Ok(NONE)
    ensures MergeUpdates(map[], [From(n)], TWICE.slots) == Ok(Holding(n))
  {
    var updates := [From(n)];
    assert updates[0] == From(n) && updates[1..] == [];
    assert WritesFor(updates, COUNT) == [Plain(Num(n))];
    MergeCount(map[], n, updates);
    TwiceNames();
    assert TWICE.edges[0] in TWICE.edges && TWICE.edges[1] in TWICE.edges;
    assert TWICE.edges[0].sources == [START] && TWICE.edges[1].sources == [START];
    assert TWICE.edges[2].sources[0] == "a";
  }

  lemma {:induction false} TwiceEnter(n: int)
    ensures Enter(TWICE, From(n)) == Ok(TwiceAt(n, ["a", "b"], 0))
  {
    hide MergeUpdates, Normalize, EntryNames, NamesOf, SendsOf, EntryRoutes;
    TwiceEntry(n);
    TwiceOrder();
    NoTargets();
    assert {"a", "b"} + {} == {"a", "b"};
  }

  lemma {:induction false} NoJumps(a: map<Key, Value>, b: map<Key, Value>)
    ensures Jumps([(a, NONE), (b, NONE)]) == NONE
  {
    var results: seq<Return> := [(a, NONE), (b, NONE)];
    assert results[1..] == [(b, NONE)] && results[1..][1..] == [];
    assert Jumps([]) == NONE && Jumps(results[1..]) == NONE + NONE;
    assert results[0].1 == NONE && Jumps(results) == NONE + Jumps(results[1..]);
  }

  lemma {:induction false} BothComplete(tasks: seq<Task>)
    requires |tasks| == 2 && tasks[0].node == "a" && tasks[1].node == "b"
    ensures Completed(tasks) == {"a", "b"}
  {
    assert tasks[0] in tasks && tasks[1] in tasks;
  }

  /** The first superstep, in which both nodes run. */
  lemma {:induction false} FirstCommit(n: int)
    ensures var rs := TwiceAt(n, ["a", "b"], 0);
            Commit(TWICE, rs, Plan(TWICE, rs).value, [(map[], NONE), (Writing(n + 1), NONE)]) ==
            Ok(TwiceAt(n + 1, ["b"], 1))
  {
    var rs := TwiceAt(n, ["a", "b"], 0);
    TwiceJobs(n);
    var tasks := Plan(TWICE, rs).value;
    var results: seq<Return> := [(map[], NONE), (Writing(n + 1), NONE)];
    hide MergeUpdates, Updates, EdgesFrom, Normalize, Jumps, Bump, Completed, Plan, Commit;
    NoJumps(map[], Writing(n + 1));
    BothComplete(tasks);
    FirstMerge(n);
    TwiceOrder();
    TwiceEdges({"a", "b"});
    FirstVersions(n);
    NoTargets();
    assert {"b"} + {} == {"b"};
    PlainCommit(TWICE, rs, tasks, results, Holding(n + 1), {"b"}, {}, ["b"]);
  }

  lemma {:induction false} FirstMerge(n: int)
    ensures MergeUpdates(Holding(n), Updates([(map[], NONE), (Writing(n + 1), NONE)]), SLOTS) == Ok(Holding(n + 1))
  {
    var updates := Updates([(map[], NONE), (Writing(n + 1), NONE)]);
    assert updates[0] == map[] && updates[1] == From(n + 1) && updates[1..] == [updates[1]];
    assert updates[1..][1..] == [];
    assert WritesFor(updates[1..], COUNT) == [Plain(Num(n + 1))];
    assert WritesFor(updates, COUNT) == [Plain(Num(n + 1))];
    MergeCount(Holding(n), n + 1, updates);
  }

  lemma {:induction false} FirstVersions(n: int)
    ensures Bump(map[], [(map[], NONE), (Writing(n + 1), NONE)]) == Versions(1)
  {
    var results: seq<Return> := [(map[], NONE), (Writing(n + 1), NONE)];
    var none: map<Key, nat> := map[];
    assert results[1..] == [(Writing(n + 1), NONE)] && results[1..][1..] == [];
    assert BumpOne(none, results[0].0) == none;
    BumpVersion(0, n + 1);
    assert Bump(Versions(1), []) == Versions(1);
    assert Bump(none, results[1..]) == Bump(Versions(1), []);
  }

  /** The second superstep ends the run. */
  lemma {:induction false} SecondCommit(n: int, written: int)
    ensures var rs := TwiceAt(n, ["b"], 1);
            Commit(TWICE, rs, Plan(TWICE, rs).value, [(Writing(written), NONE)]) == Ok(TwiceAt(written, [], 2))
  {
    var rs := TwiceAt(n, ["b"], 1);
    SecondJobs(n);
    var tasks := Plan(TWICE, rs).value;
    var results: seq<Return> := [(Writing(written), NONE)];
    assert results[1..] == [] && Jumps(results) == NONE;
    BumpVersion(1, written);
    assert Bump(rs.versions, results) == Versions(2);
    assert Completed(tasks) == {"b"} by {
      assert tasks[0] in tasks;
    }
    hide MergeUpdates, Updates, EdgesFrom, Normalize, Jumps, Bump, Completed, Plan, Commit;
    CounterMerge(n, written, NONE);
    TwiceNames();
    TwiceOrder();
    TwiceEdges({"b"});
    NoTargets();
    var nobody: set<string> := {};
    assert nobody + nobody == nobody;
    PlainCommit(TWICE, rs, tasks, results, Holding(written), {}, {}, []);
  }

  // ----- its two runs ---------------------------------------------------------------------------------------------

  lemma {:induction false} TwiceReturns(n: int)
    ensures var rs := TwiceAt(n, ["a", "b"], 0);
            var jobs := JobsFrom(TWICE, rs);
            var results: seq<Return> := [(map[], NONE), (Writing(n + 1), NONE)];
            && !Done(rs) && NeverAsks(TWICE, rs) && |jobs| == 2
            && (forall i :: 0 <= i < |results| ==> results[i] == Direct(jobs[i].body))
  {
    TwiceNames();
    TwiceJobs(n);
    hide Plan, JobsFrom;
  }

  lemma {:induction false} TwiceFirst(n: int, oracle: Oracle)
    ensures Undisturbed(TWICE, oracle, TwiceAt(n, ["a", "b"], 0)) == Ok(TwiceAt(n + 1, ["b"], 1))
  {
    var rs := TwiceAt(n, ["a", "b"], 0);
    TwiceReturns(n);
    TwiceJobs(n);
    FirstCommit(n);
    hide Commit, Plan, JobsFrom, Undisturbed, NeverAsks, Direct, TwiceBody;
    UndisturbedIs(TWICE, oracle, rs, Plan(TWICE, rs).value, [(map[], NONE), (Writing(n + 1), NONE)],
                  TwiceAt(n + 1, ["b"], 1));
  }

  lemma {:induction false} TwiceSecond(n: int, oracle: Oracle)
    ensures Undisturbed(TWICE, oracle, TwiceAt(n, ["b"], 1)) == Ok(TwiceAt(n + 1, [], 2))
  {
    var rs := TwiceAt(n, ["b"], 1);
    SecondJobs(n);
    SecondCommit(n, n + 1);
    hide Commit, Plan, JobsFrom, Undisturbed;
    UndisturbedIs(TWICE, oracle, rs, Plan(TWICE, rs).value, [(Writing(n + 1), NONE)], TwiceAt(n + 1, [], 2));
  }

  /** The counter node's first result. */
  function TwiceStored(n: int): map<TaskId, Return> { map["a" := (map[], NONE), "b" := (Writing(n), NONE)] }

  lemma {:induction false} TwoOutcomes(a: Suspension.Job, b: Suspension.Job, first: Outcome, second: Outcome)
    requires first.Finished? && second.Finished? && a.id != b.id
    ensures Suspension.Markers([first, second]) == []
    ensures ResultsOf([first, second]) == [(first.update, first.goto), (second.update, second.goto)]
    ensures Successful([a, b], [first, second]) ==
            map[a.id := (first.update, first.goto), b.id := (second.update, second.goto)]
  {
    OneOutcome(b, second);
    assert [first, second][1..] == [second] && [a, b][1..] == [b];
  }

  lemma {:induction false} TwiceOutcomes(n: int)
    ensures Suspension.Outcomes(JobsFrom(TWICE, TwiceAt(n, ["a", "b"], 0)), Suspension.Session(map[], map[])) ==
            [Finished(map[], NONE), Finished(Writing(n + 1), NONE)]
  {
    TwiceNames();
    TwiceJobs(n);
    hide JobsFrom;
  }

  lemma {:induction false} TwiceStores(n: int)
    ensures ExitStep(TWICE, ExitRun(TwiceAt(n, ["a", "b"], 0), map[])) ==
            Ok(ExitRun(TwiceAt(n + 1, ["b"], 1), TwiceStored(n + 1)))
  {
    var rs, next := TwiceAt(n, ["a", "b"], 0), TwiceAt(n + 1, ["b"], 1);
    var nothing: map<TaskId, Return> := map[];
    assert !Done(rs);
    assert nothing + TwiceStored(n + 1) == TwiceStored(n + 1);
    var first, second := Finished(map[], NONE), Finished(Writing(n + 1), NONE);
    assert TWICE.deferring == {};
    assert map["a" := (first.update, first.goto), "b" := (second.update, second.goto)] == TwiceStored(n + 1);
    TwiceNames();
    TwiceJobs(n);
    hide *;
    FirstCommit(n);
    TwiceOutcomes(n);
    var jobs := JobsFrom(TWICE, rs);
    TwoOutcomes(jobs[0], jobs[1], first, second);
    ExitStepIs(TWICE, ExitRun(rs, nothing), Plan(TWICE, rs).value, [first, second], next);
  }

  lemma {:induction false} AgainOutcomes(n: int)
    ensures Suspension.Outcomes(JobsFrom(TWICE, TwiceAt(n, ["b"], 1)), Suspension.Session(TwiceStored(n), map[])) ==
            [Finished(Writing(n), NONE)]
  {
    SecondJobs(n);
    hide JobsFrom;
  }

  lemma {:induction false} TwiceReuses(n: int)
    ensures ExitStep(TWICE, ExitRun(TwiceAt(n, ["b"], 1), TwiceStored(n))) ==
            Ok(ExitRun(TwiceAt(n, [], 2), TwiceStored(n)))
  {
    var rs, again := TwiceAt(n, ["b"], 1), Finished(Writing(n), NONE);
    assert !Done(rs) && TWICE.deferring == {};
    assert TwiceStored(n) + map["b" := (Writing(n), NONE)] == TwiceStored(n);
    SecondJobs(n);
    hide *;
    SecondCommit(n, n);
    AgainOutcomes(n);
    OneOutcome(JobsFrom(TWICE, rs)[0], again);
    ExitStepIs(TWICE, ExitRun(rs, TwiceStored(n)), Plan(TWICE, rs).value, [again], TwiceAt(n, [], 2));
  }

  /** Having no cycle is not enough: every edge of this graph leads upward, no node asks, jumps or is deferred, and
      from every input the failure-free run adds one twice and an exit-durable invocation ends having added it once. */
  lemma {:induction false} AcyclicIsUnfaithful(n: int, oracle: Oracle)
    ensures Ascends(TWICE, HEIGHTS, false) && Silent(TWICE) && ValidGraph(TWICE) && TWICE.deferring == {}
    ensures Reference(TWICE, Fresh(From(n)), oracle, 2) == Ok(TwiceAt(n + 2, [], 2))
    ensures ExitAfter(TWICE, Fresh(From(n)), 2) == Ok(ExitRun(TwiceAt(n + 1, [], 2), TwiceStored(n + 1)))
    ensures Done(TwiceAt(n + 2, [], 2)) && Done(TwiceAt(n + 1, [], 2)) && Holding(n + 2) != Holding(n + 1)
  {
    TwiceAscends();
    assert Holding(n + 2)[COUNT] != Holding(n + 1)[COUNT];
    hide Ascends, Silent, ValidGraph, Enter, Entered, Undisturbed, ExitStep, TwiceStored;
    FreshEnters(TWICE, From(n));
    TwiceEnter(n);
    TwiceFirst(n, oracle);
    TwiceSecond(n + 1, oracle);
    TwiceStores(n);
    TwiceReuses(n + 1);
    assert Reference(TWICE, Fresh(From(n)), oracle, 0) == Ok(TwiceAt(n, ["a", "b"], 0));
    assert Reference(TWICE, Fresh(From(n)), oracle, 1) == Ok(TwiceAt(n + 1, ["b"], 1));
    assert ExitAfter(TWICE, Fresh(From(n)), 0) == Ok(ExitRun(TwiceAt(n, ["a", "b"], 0), map[]));
    assert ExitAfter(TWICE, Fresh(From(n)), 1) == Ok(ExitRun(TwiceAt(n + 1, ["b"], 1), TwiceStored(n + 1)));
  }
}
