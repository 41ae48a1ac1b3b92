/** Exactly when a stored task is executed again (graph/executor.py 1384-1413): the copying window, over whole runs. */
module CopyingWindow {
  import opened Prelude
  import opened Interrupts
  import opened Supersteps
  import opened Durability
  import opened Transparency
  import opened StoredResults
  import Suspension

  /** The world after the first n of these events. */
  function WorldAt(s: Setting, w: World, events: seq<Event>, n: nat): World
    requires n <= |events|
  {
    Trace(s.g, s.entry, s.mode, w, events[..n])
  }

  lemma {:induction false} WorldNext(s: Setting, w: World, events: seq<Event>, n: nat)
    requires n < |events|
    ensures WorldAt(s, w, events, n + 1) == Step(s.g, s.entry, s.mode, WorldAt(s, w, events, n), events[n])
  {
    hide Step;
    assert events[..n + 1] == events[..n] + [events[n]];
    TraceConcat(s.g, s.entry, s.mode, w, events[..n], [events[n]]);
    TraceOne(s.g, s.entry, s.mode, WorldAt(s, w, events, n), events[n]);
  }

  /** An execution of this superstep calls the body of the task. */
  ghost predicate RunsAgain(s: Setting, position: nat, w: World, id: TaskId) {
    && w.live.Some? && w.live.value.phase.Planning? && Position(w.store) == position
    && id in Executing(s.g, w)
  }

  ghost predicate Reruns(s: Setting, w: World, events: seq<Event>, id: TaskId) {
    exists n: nat :: n <= |events| && RunsAgain(s, Position(w.store), WorldAt(s, w, events, n), id)
  }

  /** After a crash in the copying window the superstep is entered again. */
  ghost predicate LosesThenReturns(s: Setting, w: World, events: seq<Event>) {
    exists m: nat, n: nat :: m < n <= |events| && LosesAt(s, w, events, m) && ReturnsAt(s, w, events, n)
  }

  ghost predicate LosesAt(s: Setting, w: World, events: seq<Event>, m: nat)
    requires m < |events|
  {
    LosesResults(WorldAt(s, w, events, m), events[m])
  }

  ghost predicate ReturnsAt(s: Setting, w: World, events: seq<Event>, n: nat)
    requires n <= |events|
  {
    var w' := WorldAt(s, w, events, n);
    w'.live.Some? && Position(w'.store) == Position(w.store)
  }

  // ----- no loss, no rerun ---------------------------------------------------------------------------------------

  lemma {:induction false} HonestPrefix(s: Setting, w: World, events: seq<Event>, n: nat)
    requires AllHonest(s, w, events) && n <= |events|
    ensures AllHonest(s, w, events[..n]) && AllHonest(s, WorldAt(s, w, events, n), events[n..])
  {
    hide Trace, AllHonest;
    assert events == events[..n] + events[n..];
    SplitHistory(s, w, events[..n], events[n..]);
  }

  lemma {:induction false} CarefulUntil(s: Setting, w: World, events: seq<Event>, n: nat)
    requires n <= |events| && forall m: nat :: m < n ==> !LosesAt(s, w, events, m)
    ensures Careful(s, w, events[..n])
    decreases n
  {
    hide Step, LosesResults;
    if n > 0 {
      var w', rest := Step(s.g, s.entry, s.mode, w, events[0]), events[1..];
      assert WorldAt(s, w, events, 0) == w;
      assert !LosesAt(s, w, events, 0);
      forall m: nat | m < n - 1
        ensures !LosesAt(s, w', rest, m)
      {
        assert events[..m + 1][1..] == rest[..m] && events[..m + 1][0] == events[0];
        assert WorldAt(s, w, events, m + 1) == WorldAt(s, w', rest, m);
        assert !LosesAt(s, w, events, m + 1);
      }
      CarefulUntil(s, w', rest, n - 1);
      assert events[..n][1..] == rest[..n - 1] && events[..n][0] == events[0];
    }
  }

  lemma {:induction false} OnlyAfterALoss(s: Setting, owner: Owner, w: World, events: seq<Event>, n: nat, id: TaskId)
    requires ValidGraph(s.g) && s.mode.Sync? && SoundWorld(s, owner, w) && Lined(s, w) && AllHonest(s, w, events)
    requires id in Persisted(s, w) && n <= |events|
    requires RunsAgain(s, Position(w.store), WorldAt(s, w, events, n), id)
    ensures exists m: nat :: m < n && LosesAt(s, w, events, m)
  {
    hide Trace, AllHonest, Careful, Persisted, Executing, Position, SoundWorld, Lined, ValidGraph, LosesAt;
    if forall m: nat :: m < n ==> !LosesAt(s, w, events, m) {
      HonestPrefix(s, w, events, n);
      CarefulUntil(s, w, events, n);
      TracePersists(s, owner, w, events[..n]);
      PersistedIsNotExecuting(s, WorldAt(s, w, events, n));
      assert false;
    }
  }

  // ----- loss, then rerun ------------------------------------------------------------------------------------------

  /** Nothing is stored for the superstep a restart would enter, and nothing is in memory. */
  predicate Emptied(w: World) {
    w.live.None? && w.store.saved != [] && WritesAt(w.store, Latest(w.store).id) == map[]
  }

  /** A restart from there has loaded the latest checkpoint and finds nothing stored. */
  predicate Reloaded(before: World, w: World)
    requires before.store.saved != []
  {
    && w.live.Some? && w.live.value.phase.Planning? && w.store == before.store
    && w.live.value.run == Restored(Latest(before.store)) && w.live.value.base == Latest(before.store).id
  }

  lemma {:induction false} WindowEmpties(s: Setting, w: World)
    requires Lined(s, w) && LosesResults(w, Crash)
    ensures Emptied(Step(s.g, s.entry, s.mode, w, Crash)) && Step(s.g, s.entry, s.mode, w, Crash).store == w.store
  {
    hide Entered;
  }

  lemma {:induction false} RestartOrNothing(s: Setting, w: World, e: Event)
    requires Emptied(w)
    ensures var w' := Step(s.g, s.entry, s.mode, w, e);
            w' == w || Reloaded(w, w')
  {
  }

  /** The first execution after that is a restart from the same store. */
  lemma {:induction false} FirstRestart(s: Setting, w: World, events: seq<Event>) returns (n: nat)
    requires Emptied(w) && Trace(s.g, s.entry, s.mode, w, events).live.Some?
    ensures n <= |events| && Reloaded(w, WorldAt(s, w, events, n))
    decreases |events|
  {
    hide Step, Emptied, Reloaded;
    assert w.live.None? by {
      NobodyThere(w);
    }
    var w' := Step(s.g, s.entry, s.mode, w, events[0]);
    RestartOrNothing(s, w, events[0]);
    if w' == w {
      n := FirstRestart(s, w, events[1..]);
      assert events[..n + 1][1..] == events[1..][..n] && events[..n + 1][0] == events[0];
      n := n + 1;
    } else {
      n := 1;
      assert events[..1] == [events[0]];
      TraceOne(s.g, s.entry, s.mode, w, events[0]);
    }
  }

  lemma {:induction false} NobodyThere(w: World)
    requires Emptied(w)
    ensures w.live.None?
  {
  }

  /** Stored ids belong to tasks of the superstep. */
  lemma {:induction false} PersistedAreTasks(s: Setting, owner: Owner, w: World, id: TaskId)
      returns (jobs: seq<Suspension.Job>)
    requires SoundWorld(s, owner, w) && Lined(s, w) && id in Persisted(s, w)
    ensures JobsOf(s, Position(w.store), jobs) && exists i :: 0 <= i < |jobs| && jobs[i].id == id
  {
    var stored := if w.live.Some? && w.live.value.phase.Copying? then w.live.value.phase.stored
                  else WritesAt(w.store, CurrentId(s.g, s.entry, w.store));
    assert SoundResults(s, Position(w.store), stored) by {
      hide SoundResults, Entered, AtReference, Truthful;
      if w.store.saved != [] {
        assert Sound(s, owner, Latest(w.store));
      }
    }
    hide JobsOf, ResultFor, SoundWorld, Lined;
    assert id in stored && stored != map[];
    jobs :| JobsOf(s, Position(w.store), jobs) && ResultsOfJobs(s, Position(w.store), jobs, stored);
  }

  /** A restart that finds nothing stored executes every task of the superstep. */
  lemma {:induction false} ReloadedRunsAll(s: Setting, owner: Owner, before: World, w: World,
                                           jobs: seq<Suspension.Job>, i: nat)
    requires Emptied(before) && Reloaded(before, w) && SoundWorld(s, owner, w)
    requires JobsOf(s, Position(w.store), jobs) && i < |jobs|
    ensures jobs[i].id in Executing(s.g, w)
  {
    hide Reference, Settle, Plan, Jobs, SoundStore, Truthful, SoundPhase, AllSound;
    assert AtReference(s, w.live.value.run);
  }

  lemma {:induction false} LossThenRerun(s: Setting, owner: Owner, w: World, events: seq<Event>, m: nat, n: nat,
                                         id: TaskId)
    requires ValidGraph(s.g) && s.mode.Sync? && SoundWorld(s, owner, w) && Lined(s, w) && AllHonest(s, w, events)
    requires id in Persisted(s, w) && m < n <= |events|
    requires LosesAt(s, w, events, m) && ReturnsAt(s, w, events, n)
    ensures Reruns(s, w, events, id)
  {
    hide Trace, Step, AllHonest, Persisted, Executing, Position, SoundWorld, Lined, ValidGraph, LosesResults, Emptied,
      Reloaded, JobsOf;
    HonestPrefix(s, w, events, m);
    var before := WorldAt(s, w, events, m);
    var owner1 := TraceLined(s, owner, w, events[..m]);
    assert events[m] == Crash by {
      LossIsACrash(before, events[m]);
    }
    WindowEmpties(s, before);
    var emptied := WorldAt(s, w, events, m + 1);
    WorldNext(s, w, events, m);
    var rest := events[m + 1..n];
    assert events[..n] == events[..m + 1] + rest;
    TraceConcat(s.g, s.entry, s.mode, w, events[..m + 1], rest);
    var q := FirstRestart(s, emptied, rest);
    var k := m + 1 + q;
    assert events[..k] == events[..m + 1] + rest[..q];
    TraceConcat(s.g, s.entry, s.mode, w, events[..m + 1], rest[..q]);
    var again := WorldAt(s, w, events, k);
    HonestPrefix(s, w, events, k);
    var owner2 := TraceLined(s, owner, w, events[..k]);
    assert events[k..n] == events[k..][..n - k] && events[..n] == events[..k] + events[k..n];
    TraceConcat(s.g, s.entry, s.mode, w, events[..k], events[k..n]);
    HonestPrefix(s, again, events[k..], n - k);
    var owner3 := TraceLined(s, owner2, again, events[k..n]);
    assert again.live.Some? && again.live.value.phase.Planning? by {
      ReloadedIsLive(emptied, again);
    }
    var jobs := PersistedAreTasks(s, owner, w, id);
    var i: nat :| i < |jobs| && jobs[i].id == id;
    ReloadedRunsAll(s, owner2, emptied, again, jobs, i);
    assert RunsAgain(s, Position(w.store), again, id);
  }

  lemma {:induction false} LossIsACrash(w: World, e: Event)
    requires LosesResults(w, e)
    ensures e == Crash
  {
  }

  lemma {:induction false} ReloadedIsLive(before: World, w: World)
    requires Emptied(before) && Reloaded(before, w)
    ensures w.live.Some? && w.live.value.phase.Planning?
  {
  }

  // ----- exactly ---------------------------------------------------------------------------------------------------

  /** From any world of a run, a task with a stored result is executed again in its superstep if and only if a crash
      hits the copying window and the superstep is entered again after it. */
  lemma {:induction false} RerunExactly(s: Setting, owner: Owner, w: World, events: seq<Event>, id: TaskId)
    requires ValidGraph(s.g) && s.mode.Sync? && SoundWorld(s, owner, w) && Lined(s, w) && AllHonest(s, w, events)
    requires id in Persisted(s, w)
    ensures Reruns(s, w, events, id) <==> LosesThenReturns(s, w, events)
  {
    hide SoundWorld, Lined, AllHonest, ValidGraph, Persisted, Executing, LosesAt, Position, Trace;
    if Reruns(s, w, events, id) {
      var n: nat :| n <= |events| && RunsAgain(s, Position(w.store), WorldAt(s, w, events, n), id);
      OnlyAfterALoss(s, owner, w, events, n, id);
      var m: nat :| m < n && LosesAt(s, w, events, m);
      assert ReturnsAt(s, w, events, n);
    }
    if LosesThenReturns(s, w, events) {
      var m: nat, n: nat :| m < n <= |events| && LosesAt(s, w, events, m) && ReturnsAt(s, w, events, n);
      LossThenRerun(s, owner, w, events, m, n, id);
    }
  }

  /** The same from the start of a thread: split the events of any run where the result has been stored. */
  lemma {:induction false} StoredTaskRerunsExactly(s: Setting, first: seq<Event>, later: seq<Event>, id: TaskId)
    requires ValidGraph(s.g) && s.mode.Sync? && AllHonest(s, FRESH, first + later)
    requires id in Persisted(s, Trace(s.g, s.entry, s.mode, FRESH, first))
    ensures var w := Trace(s.g, s.entry, s.mode, FRESH, first);
            Reruns(s, w, later, id) <==> LosesThenReturns(s, w, later)
  {
    assert Lined(s, FRESH);
    hide SoundWorld, AllHonest, ValidGraph, Persisted, Reruns, LosesThenReturns, Trace, Step, Lined;
    SplitHistory(s, FRESH, first, later);
    FreshIsSound(s);
    var owner := TraceLined(s, map[], FRESH, first);
    RerunExactly(s, owner, Trace(s.g, s.entry, s.mode, FRESH, first), later, id);
  }

  /** One restart after the loss is enough: it executes every task of the superstep, stored before or not. */
  lemma {:induction false} LostTasksRunAgain(s: Setting, w: World, value: Value)
    requires s.mode.Sync? && Lined(s, w) && LosesResults(w, Crash)
    ensures var w' := Trace(s.g, s.entry, s.mode, w, [Crash, Answer(value)]);
            && w'.live.Some? && w'.live.value.phase.Planning? && w'.store == w.store
            && w.store.saved != [] && w'.live.value.run == Restored(Latest(w.store))
            && var tasks := Plan(s.g, Settle(s.g, w'.live.value.run));
               tasks.Ok? ==> Executing(s.g, w') == (set t | t in tasks.value :: t.id)
  {
    hide Plan, Settle, Entered, Deliver;
    TraceTwo(s.g, s.entry, s.mode, w, Crash, Answer(value));
    WindowEmpties(s, w);
    var w' := Step(s.g, s.entry, s.mode, Step(s.g, s.entry, s.mode, w, Crash), Answer(value));
    if Plan(s.g, Settle(s.g, w'.live.value.run)).Ok? {
      ExecutesAll(s.g, Plan(s.g, Settle(s.g, w'.live.value.run)).value, w'.live.value.resume);
    }
  }

  lemma {:induction false} ExecutesAll(g: Graph, tasks: seq<Task>, resume: Resume)
    ensures Suspension.Executed(Jobs(g, tasks), Suspension.Session(map[], resume)) == (set t | t in tasks :: t.id)
  {
    var jobs := Jobs(g, tasks);
    forall t | t in tasks
      ensures t.id in Suspension.Executed(jobs, Suspension.Session(map[], resume))
    {
      var i :| 0 <= i < |tasks| && tasks[i] == t;
      assert jobs[i].id == t.id;
    }
  }
}
