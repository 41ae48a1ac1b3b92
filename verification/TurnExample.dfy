/** A later turn that is handed the result of an input it was not given (graph/executor.py 1003-1036). */
module TurnExample {
  import opened Prelude
  import opened Channels
  import opened Interrupts
  import opened Supersteps
  import opened Durability
  import opened Transparency
  import opened ExitDurability
  import opened ExitCounterexamples
  import opened Turns
  import Suspension

  /** A thread on which the counter has been counted before. */
  predicate Counting(last: Final) { last.state == Holding(Counted(last.state)) && last.joins == map[] }

  /** The two entry nodes of the counting graph, with this count. */
  function TurnAt(n: int, last: Final): RunState {
    RunState(Holding(n), ["a", "b"], [], map[], {}, 0, last.versions)
  }

  lemma {:induction false} TurnEnters(n: int, last: Final)
    requires Counting(last)
    ensures Entered(TWICE, Turn(From(n), last)) == Ok(TurnAt(n, last))
  {
    var updates := [From(n)];
    assert updates[0] == From(n) && updates[1..] == [];
    assert WritesFor(updates, COUNT) == [Plain(Num(n))];
    MergeCount(last.state, n, updates);
    TwiceEntry(n);
    hide MergeUpdates, Normalize, EntryNames, NamesOf, SendsOf, EntryRoutes;
    TwiceOrder();
    NoTargets();
    assert {"a", "b"} + {} == {"a", "b"};
  }

  function TurnTasks(n: int): seq<Task> {
    [Task("a", "a", FromState(Holding(n))), Task("b", "b", FromState(Holding(n)))]
  }

  lemma {:induction false} TurnPlans(n: int, last: Final)
    ensures var rs := TurnAt(n, last);
            && Settle(TWICE, rs) == rs && Plan(TWICE, rs) == Ok(TurnTasks(n))
            && JobsFrom(TWICE, rs) == Jobs(TWICE, TurnTasks(n))
            && NeverAsks(TWICE, rs) && IdsFrom(TWICE, rs) == {"a", "b"}
  {
    var rs := TurnAt(n, last);
    NobodyDefers(TWICE, rs);
    assert NamedTasks(rs) + Deliveries(rs) == TurnTasks(n);
    var jobs := JobsFrom(TWICE, rs);
    assert jobs == Jobs(TWICE, TurnTasks(n));
    hide JobsFrom, Plan, Settle;
    forall i | 0 <= i < |jobs|
      ensures jobs[i].body([]).Return?
    {
      assert jobs[i].body == TwiceBody(TurnTasks(n)[i].node, TurnTasks(n)[i].input);
    }
    assert jobs[0].id == "a" && jobs[1].id == "b" && |jobs| == 2;
    assert "a" in IdsFrom(TWICE, rs) && "b" in IdsFrom(TWICE, rs);
  }

  /** What is stored when b returns and a raises. */
  function Half(n: int): map<TaskId, Return> { map["b" := (Writing(n + 1), NONE)] }

  lemma {:induction false} HalfOutcomes(n: int)
    ensures var jobs := Jobs(TWICE, TurnTasks(n));
            var outcomes := TaskOutcomes(jobs, Suspension.Session(map[], map[]), {"b"});
            outcomes == [Failed, Finished(Writing(n + 1), NONE)] && Successful(jobs, outcomes) == Half(n)
  {
    TwiceNames();
    var jobs := Jobs(TWICE, TurnTasks(n));
    var outcomes := TaskOutcomes(jobs, Suspension.Session(map[], map[]), {"b"});
    var none: seq<Value> := [];
    var body := TwiceBody("b", FromState(Holding(n)));
    assert Counted(Holding(n)) == n && none[..0] == none;
    assert body(none) == Return(Writing(n + 1), NONE);
    assert Observe(body, none, "b") == Finished(Writing(n + 1), NONE);
    assert outcomes[0] == Failed && outcomes[1] == Finished(Writing(n + 1), NONE);
    assert outcomes[1..] == [Finished(Writing(n + 1), NONE)];
    assert |jobs[1..]| == 1 && jobs[1..][0] == jobs[1] && jobs[1..] == [jobs[1]];
    OneOutcome(jobs[1], Finished(Writing(n + 1), NONE));
  }

  function Begun(n: int, last: Final): World {
    World(EMPTY, Some(Live(TurnAt(n, last), map[], TurnId, Planning, [], false)))
  }

  /** Nothing is saved, and b's result is stored under the last checkpoint. */
  function HalfDone(n: int): World { World(Store([], map[TurnId := Half(n)], 0), None) }

  lemma {:induction false} HalfRuns(n: int, last: Final)
    ensures RunTasks(TWICE, Begun(n, last), {"b"}) == HalfDone(n)
  {
    TurnPlans(n, last);
    HalfOutcomes(n);
    var nothing: map<TaskId, Return> := map[];
    assert "b" in Half(n) && nothing + Half(n) == Half(n);
    assert [Failed, Finished(Writing(n + 1), NONE)][0].Failed?;
    hide Settle, Plan, JobsFrom, Jobs, TaskOutcomes, Successful, Suspension.Markers;
  }

  lemma {:induction false} TurnFails(n: int, last: Final)
    requires Counting(last)
    ensures Trace(TWICE, Turn(From(n), last), Sync, FRESH, [Start, Execute({"b"})]) == HalfDone(n)
  {
    var entry := Turn(From(n), last);
    TurnEnters(n, last);
    HalfRuns(n, last);
    TraceTwo(TWICE, entry, Sync, FRESH, Start, Execute({"b"}));
    hide Entered, RunTasks, Trace;
    assert Step(TWICE, entry, Sync, FRESH, Start) == Begun(n, last);
  }

  lemma {:induction false} HalfIsHarmful(m: int, n: int, last: Final)
    requires m != n
    ensures NeverAsks(TWICE, TurnAt(n, last)) && !Harmless(TWICE, ExitRun(TurnAt(n, last), Half(m)))
  {
    TurnPlans(n, last);
    var jobs := Jobs(TWICE, TurnTasks(n));
    var none: seq<Value> := [];
    assert jobs[1].id in Half(m) && Counted(Holding(n)) == n && "b" != "a";
    var body := TwiceBody("b", FromState(Holding(n)));
    assert body(none) == Return(Writing(n + 1), NONE);
    assert jobs[1].body == body;
    assert Direct(body) == (Writing(n + 1), NONE);
    assert Writing(m + 1)[COUNT] != Writing(n + 1)[COUNT];
    hide JobsFrom, NeverAsks, Plan, Settle;
  }

  /** A turn on a counting thread fails half way; the next, with another count, finds the result of the first under the
      same id and hands it to its commit in place of its own. */
  lemma {:induction false} NextTurnIsStale(m: int, n: int, last: Final, oracle: Oracle)
    requires Counting(last) && m != n
    ensures var failed := Trace(TWICE, Turn(From(m), last), Sync, FRESH, [Start, Execute({"b"})]);
            var w := Trace(TWICE, Turn(From(n), last), Sync, failed, [Start, Execute({"a", "b"})]);
            && w.live.Some? && w.live.value.phase.Merging?
            && Entered(TWICE, Turn(From(n), last)) == Ok(TurnAt(n, last))
            && AllReturn(JobsFrom(TWICE, TurnAt(n, last)), oracle, 0)
            && w.live.value.phase.results != AllResults(JobsFrom(TWICE, TurnAt(n, last)), oracle, 0)
  {
    var s := Setting(TWICE, Turn(From(n), last), Sync, oracle);
    assert !Done(TurnAt(n, last));
    assert WritesAt(HalfDone(m).store, TurnId) == Half(m);
    assert HalfDone(m).live.None? && HalfDone(m).store.saved == [];
    hide *;
    TurnFails(m, last);
    TurnEnters(n, last);
    TurnPlans(n, last);
    HalfIsHarmful(m, n, last);
    TurnFedExactly(s, HalfDone(m), {"a", "b"});
  }
}
