/** One run through the copying window (graph/executor.py 1384-1413): a task whose result was stored is executed
    again. */
module WindowExample {
  import opened Prelude
  import opened Channels
  import opened Interrupts
  import opened Supersteps
  import opened Durability
  import opened Transparency
  import opened StoredResults
  import opened CopyingWindow
  import Suspension

  /** a asks once, b returns at once. */
  function PairBody(node: string, input: Input): Body {
    answers => if node == "a" && answers == [] then Ask(Null) else Return(map[], [])
  }

  /** Both nodes are entries. */
  const PAIR := Graph(["a", "b"], {}, PairBody, [Edge([START], "a", false), Edge([START], "b", false)], [], [])

  const ENTRY := RunState(map[], ["a", "b"], [], map[], {}, 0, map[])

  const PAIR_SETTING := Setting(PAIR, Fresh(map[]), Sync, (step, id, i) => Null)

  lemma {:induction false} PairNames()
    ensures "a" != "b" && "a" !in [START, END] && "b" !in [START, END] && START != END
  {
    assert "a"[0] == 'a' && "b"[0] == 'b' && START[0] == '_' && END[0] == '_' && START[2] == 's' && END[2] == 'e';
  }

  lemma {:induction false} PairOrder()
    ensures Normalize(PAIR, {"a", "b"}) == Ok(["a", "b"])
  {
    PairNames();
    var both := {"a", "b"};
    assert both - {END} == both;
    assert PAIR.nodes[0] == "a" && PAIR.nodes[1] == "b" && PAIR.nodes[1..] == ["b"] && ["b"][1..] == [];
    assert InOrder([], both) == [] && InOrder(["b"], both) == ["b"];
    assert InOrder(PAIR.nodes, both) == ["a"] + ["b"] && ["a"] + ["b"] == ["a", "b"];
    assert forall name :: name in both ==> Selectable(PAIR, name);
  }

  lemma {:induction false} PairEnter()
    ensures Enter(PAIR, map[]) == Ok(ENTRY)
  {
    assert EntryNames(PAIR.edges) == {"a", "b"} by {
      assert PAIR.edges[0] in PAIR.edges && PAIR.edges[1] in PAIR.edges;
    }
    assert MergeUpdates(map[], [map[]], PAIR.slots) == Ok(map[]);
    hide MergeUpdates, EntryNames, Normalize, NamesOf, SendsOf;
    PairOrder();
    NoTargets();
    assert {"a", "b"} + {} == {"a", "b"};
  }

  const TASKS := [Task("a", "a", FromState(map[])), Task("b", "b", FromState(map[]))]

  const MARKER := Interrupt(Null, MarkerId("a", 0), "a")

  const STORED: map<TaskId, Return> := map["b" := (map[], [])]

  lemma {:induction false} PairPlan()
    ensures Settle(PAIR, ENTRY) == ENTRY && Plan(PAIR, ENTRY) == Ok(TASKS)
  {
    NobodyDefers(PAIR, ENTRY);
    assert NamedTasks(ENTRY) == TASKS && Deliveries(ENTRY) == [] && TASKS + [] == TASKS;
  }

  lemma {:induction false} PairOutcomes()
    ensures TaskOutcomes(Jobs(PAIR, TASKS), Suspension.Session(map[], map[]), {"a", "b"}) ==
            [Waiting(MARKER), Finished(map[], [])]
  {
    PairNames();
    var none: seq<Value> := [];
    assert none[..0] == none;
    var asks, returnsAtOnce := PairBody("a", TASKS[0].input), PairBody("b", TASKS[1].input);
    assert asks(none) == Ask(Null) && returnsAtOnce(none) == Return(map[], []);
    assert Observe(asks, none, "a") == Waiting(MARKER);
    assert Observe(returnsAtOnce, none, "b") == Finished(map[], []);
  }

  lemma {:induction false} PairStores()
    ensures Successful(Jobs(PAIR, TASKS), [Waiting(MARKER), Finished(map[], [])]) == STORED
    ensures Suspension.Markers([Waiting(MARKER), Finished(map[], [])]) == [MARKER]
  {
    var outcomes: seq<Outcome> := [Waiting(MARKER), Finished(map[], [])];
    var jobs := Jobs(PAIR, TASKS);
    assert outcomes[1..] == [Finished(map[], [])] && outcomes[1..][1..] == [];
    assert |jobs[1..]| == 1 && jobs[1..][0] == jobs[1] && jobs[1..][1..] == [];
    assert Successful(jobs[1..][1..], outcomes[1..][1..]) == map[];
    assert Successful(jobs[1..], outcomes[1..]) == STORED;
    assert Suspension.Markers(outcomes[1..]) == [];
  }

  // ----- the run -----------------------------------------------------------------------------------------------

  /** The pause: one checkpoint, whose id the results are not stored under yet. */
  const PAUSED := Saved(SavedId(0), ENTRY, -1, [MARKER], map[])

  const IN_WINDOW := World(Store([PAUSED], map[InputId(map[]) := STORED], 1),
                           Some(Live(ENTRY, map[], InputId(map[]), Copying(SavedId(0), STORED), [], false)))

  const UNTIL_WINDOW := [Start, Execute({"a", "b"}), SavePause]

  lemma {:induction false} PairStarts()
    ensures Step(PAIR, Fresh(map[]), Sync, FRESH, Start) ==
            World(EMPTY, Some(Live(ENTRY, map[], InputId(map[]), Planning, [], false)))
  {
    hide Enter, Entered;
    FreshEnters(PAIR, map[]);
    PairEnter();
  }

  lemma {:induction false} PairExecutes()
    ensures var w := World(EMPTY, Some(Live(ENTRY, map[], InputId(map[]), Planning, [], false)));
            RunTasks(PAIR, w, {"a", "b"}) ==
            World(Store([], map[InputId(map[]) := STORED], 0),
                  Some(Live(ENTRY, map[], InputId(map[]), Pausing([MARKER], STORED), [], false)))
  {
    PairPlan();
    PairOutcomes();
    PairStores();
    hide Settle, Plan, Jobs, TaskOutcomes, Successful, Suspension.Markers;
    var nothing: map<TaskId, Return> := map[];
    assert STORED != map[] && nothing + STORED == STORED by {
      assert "b" in STORED;
    }
  }

  lemma {:induction false} PairPauses()
    ensures Trace(PAIR, Fresh(map[]), Sync, FRESH, UNTIL_WINDOW) == IN_WINDOW
  {
    var started := World(EMPTY, Some(Live(ENTRY, map[], InputId(map[]), Planning, [], false)));
    PairStarts();
    PairExecutes();
    assert UNTIL_WINDOW == [Start] + [Execute({"a", "b"}), SavePause];
    TraceConcat(PAIR, Fresh(map[]), Sync, FRESH, [Start], [Execute({"a", "b"}), SavePause]);
    TraceOne(PAIR, Fresh(map[]), Sync, FRESH, Start);
    TraceTwo(PAIR, Fresh(map[]), Sync, started, Execute({"a", "b"}), SavePause);
    hide Trace, RunTasks, Begin;
  }

  lemma {:induction false} PairIsValid()
    ensures ValidGraph(PAIR)
  {
    PairNames();
    forall n | n in PAIR.nodes
      ensures '#' !in n
    {
      assert n == "a" || n == "b";
    }
    HashFreeIsUnambiguous(PAIR.nodes);
  }

  const RESTART := [Crash, Answer(Null)]

  const CRASHED := World(IN_WINDOW.store, None)

  lemma {:induction false} AnswerIsHonest()
    ensures Step(PAIR, Fresh(map[]), Sync, IN_WINDOW, Crash) == CRASHED
    ensures AllHonest(PAIR_SETTING, CRASHED, [Answer(Null)])
  {
    var s := PAIR_SETTING;
    assert Latest(CRASHED.store) == PAUSED && Restored(PAUSED) == ENTRY;
    var none: seq<Value>, blank: Resume := [], map[];
    assert AnswersFor(blank, "a") == none && none + [Null] == [Null];
    assert !Routes(Null, [MARKER]) && [MARKER][0].taskId == "a";
    assert Deliver(Null, [MARKER], blank) == blank["a" := [Null]];
    assert Told(s.oracle, 0, "a", 1) == [Null];
    assert [Answer(Null)][1..] == [];
    hide Step, Deliver, Trace;
    assert Honest(s, CRASHED, Answer(Null));
  }

  lemma {:induction false} PairIsHonest()
    ensures AllHonest(PAIR_SETTING, FRESH, UNTIL_WINDOW + RESTART)
  {
    var s := PAIR_SETTING;
    assert RESTART == [Crash] + [Answer(Null)];
    forall e | e in UNTIL_WINDOW
      ensures !e.Answer?
    {
      assert e == Start || e == Execute({"a", "b"}) || e == SavePause;
    }
    hide *;
    SilenceIsHonest(s, FRESH, UNTIL_WINDOW);
    PairPauses();
    SilenceIsHonest(s, IN_WINDOW, [Crash]);
    TraceOne(PAIR, Fresh(map[]), Sync, IN_WINDOW, Crash);
    AnswerIsHonest();
    HonestConcat(s, IN_WINDOW, [Crash], [Answer(Null)]);
    HonestConcat(s, FRESH, UNTIL_WINDOW, RESTART);
  }

  lemma {:induction false} WindowIsLined()
    ensures Lined(PAIR_SETTING, IN_WINDOW) && LosesResults(IN_WINDOW, Crash)
    ensures Persisted(PAIR_SETTING, IN_WINDOW) == {"b"}
  {
    assert "b" in STORED && SavedId(0) != InputId(map[]);
    hide Enter;
  }

  /** The two entry nodes run, a asks and b returns; its result is stored and the pause saved; the process dies
      before the copy. The answer to a then executes b a second time in its superstep. */
  lemma {:induction false} StoredTaskRunsAgain()
    ensures ValidGraph(PAIR) && AllHonest(PAIR_SETTING, FRESH, UNTIL_WINDOW + RESTART)
    ensures var w := Trace(PAIR, Fresh(map[]), Sync, FRESH, UNTIL_WINDOW);
            "b" in Persisted(PAIR_SETTING, w) && Reruns(PAIR_SETTING, w, RESTART, "b")
  {
    PairIsValid();
    PairIsHonest();
    PairPauses();
    WindowIsLined();
    assert Restored(PAUSED) == ENTRY;
    assert Latest(IN_WINDOW.store) == PAUSED;
    assert "b" in Executing(PAIR, Trace(PAIR, Fresh(map[]), Sync, IN_WINDOW, RESTART)) by {
      hide Lined, LosesResults, Executing, Persisted, Settle, Plan;
      LostTasksRunAgain(PAIR_SETTING, IN_WINDOW, Null);
      var again := Trace(PAIR, Fresh(map[]), Sync, IN_WINDOW, RESTART);
      assert again.live.value.run == ENTRY;
      PairPlan();
      assert TASKS[1] in TASKS;
    }
    assert RESTART[..2] == RESTART;
    LostTasksRunAgain(PAIR_SETTING, IN_WINDOW, Null);
    hide Lined, LosesResults, Executing, Persisted, Settle, Plan, Trace, Step, Position;
    assert RunsAgain(PAIR_SETTING, Position(IN_WINDOW.store), WorldAt(PAIR_SETTING, IN_WINDOW, RESTART, 2), "b");
  }
}
