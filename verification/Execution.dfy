/** The run loop as it is written: fields updated superstep by superstep (graph/executor.py `_run`), each
    invocation being a sequence of the events of module Durability. */
module Execution {
  import opened Prelude
  import opened Channels
  import opened Interrupts
  import opened Supersteps
  import opened Durability
  import opened Transparency
  import Suspension

  /** Stored join progress has no empty entries. */
  predicate TidyTwice(joins: Joins) { Tidy(joins) == joins }

  datatype Ended = Completed | Paused | Aborted

  /** The local variables of one run on one thread, with synchronous checkpoints. */
  class Run {
    const g: Graph
    const entry: Entry
    var store: Store
    var run: RunState
    var raw: Joins
    var resume: Resume
    var base: CheckpointId

    constructor (g: Graph, entry: Entry, store: Store)
      requires forall i :: 0 <= i < |store.saved| ==> TidyTwice(store.saved[i].joins)
      ensures this.g == g && this.entry == entry && this.store == store && Valid()
    {
      this.g, this.entry, this.store := g, entry, store;
      run := RunState(map[], [], [], map[], {}, 0, map[]);
      raw, resume, base := map[], map[], InputId(map[]);
    }

    /** Join progress is kept with its empty entries and compared without them. */
    ghost predicate Valid()
      reads this
    {
      run.joins == Tidy(raw) && forall i :: 0 <= i < |store.saved| ==> TidyTwice(store.saved[i].joins)
    }

    function InMemory(phase: Phase): World
      reads this
    {
      World(store, Some(Live(run, resume, base, phase, [], false)))
    }

    function AtRest(): World
      reads this
    {
      World(store, None)
    }

    /** Stored results are reused; the other tasks run, and those outside `completing` raise. */
    method ExecuteTasks(jobs: seq<Suspension.Job>, completing: set<TaskId>) returns (outcomes: seq<Outcome>)
      ensures |outcomes| == |jobs|
      ensures outcomes == TaskOutcomes(jobs, Suspension.Session(WritesAt(store, base), resume), completing)
    {
      var persisted := WritesAt(store, base);
      outcomes := [];
      for i := 0 to |jobs|
        invariant |outcomes| == i
        invariant forall j :: 0 <= j < i ==>
                    outcomes[j] == TaskOutcome(jobs[j], Suspension.Session(persisted, resume), completing)
      {
        var outcome := Failed;
        if jobs[i].id in persisted {
          outcome := Finished(persisted[jobs[i].id].0, persisted[jobs[i].id].1);
        } else if jobs[i].id in completing {
          outcome := Observe(jobs[i].body, AnswersFor(resume, jobs[i].id), jobs[i].id);
        }
        outcomes := outcomes + [outcome];
      }
    }

    /** Pause: checkpoint the questions, then copy the finished siblings' results under its id. */
    method Pause(markers: seq<Interrupt>, stored: map<TaskId, Return>)
      requires Valid()
      modifies this`store
      ensures Valid()
      ensures AtRest() == Trace(g, entry, Sync, old(InMemory(Pausing(markers, stored))), [SavePause, CopyWrites])
    {
      TraceTwo(g, entry, Sync, InMemory(Pausing(markers, stored)), SavePause, CopyWrites);
      var id := SavedId(store.issued);
      var c := Saved(id, run, run.step - 1, markers, resume);
      store := store.(issued := store.issued + 1, saved := store.saved + [c]);
      store := PutWrites(store, id, stored);
    }

    /** Merge, schedule and checkpoint; nothing changes when the merge or the routing fails. */
    method MergeResults(tasks: seq<Task>, results: seq<Return>) returns (ok: bool)
      requires Valid()
      modifies this
      ensures Valid()
      ensures Step(g, entry, Sync, old(InMemory(Merging(tasks, results))), Advance) ==
              if ok then InMemory(Planning) else AtRest()
    {
      hide Commit;
      var next, raw' := CommitStep(g, run, raw, tasks, results);
      if next.Err? { return false; }
      var id := SavedId(store.issued);
      var c := Saved(id, next.value, run.step, [], map[]);
      run, raw, resume, base := next.value, raw', map[], id;
      store := store.(issued := store.issued + 1, saved := store.saved + [c]);
      return true;
    }

    /** One superstep: run the tasks, store what finished, then raise, pause or go on. */
    method Superstep(completing: set<TaskId>) returns (ended: Option<Ended>, ghost events: seq<Event>)
      requires Valid() && !Done(run)
      modifies this
      ensures Valid() && ended != Some(Completed)
      ensures Trace(g, entry, Sync, old(InMemory(Planning)), events) ==
              if ended.None? then InMemory(Planning) else AtRest()
      ensures forall e :: e in events ==> !e.Answer?
    {
      hide Settle, Plan, Jobs, TaskOutcomes, Successful, Trace;
      ghost var before := InMemory(Planning);
      var settled := Settle(g, run);
      SettleKeepsJoins(g, run);
      events := [Execute(completing)];
      TraceOne(g, entry, Sync, before, Execute(completing));
      assert Trace(g, entry, Sync, before, events) == RunTasks(g, before, completing);
      var tasks := Plan(g, settled);
      if tasks.Err? { return Some(Aborted), events; }
      var jobs := Jobs(g, tasks.value);
      var outcomes := ExecuteTasks(jobs, completing);
      var stored := Successful(jobs, outcomes);
      store, run := PutWrites(store, base, stored), settled;
      if exists o :: o in outcomes && o.Failed? { return Some(Aborted), events; }
      var markers := Suspension.Markers(outcomes);
      if markers != [] {
        assert Trace(g, entry, Sync, before, events) == InMemory(Pausing(markers, stored));
        TraceConcat(g, entry, Sync, before, events, [SavePause, CopyWrites]);
        events := events + [SavePause, CopyWrites];
        Pause(markers, stored);
        return Some(Paused), events;
      }
      assert Trace(g, entry, Sync, before, events) == InMemory(Merging(tasks.value, ResultsOf(outcomes)));
      TraceTwo(g, entry, Sync, before, Execute(completing), Advance);
      assert events == [Execute(completing)];
      events := [Execute(completing), Advance];
      var ok := MergeResults(tasks.value, ResultsOf(outcomes));
      return if ok then None else Some(Aborted), events;
    }

    /** Load the latest checkpoint of the turn, or enter the graph with its input; `answer` is a resume value. */
    method Restore(answer: Option<Value>) returns (ready: bool, ghost event: Event)
      requires Valid()
      modifies this
      ensures Valid() && store == old(store)
      ensures event == if answer.Some? then Answer(answer.value) else Start
      ensures Step(g, entry, Sync, old(AtRest()), event) == if ready then InMemory(Planning) else AtRest()
    {
      event := if answer.Some? then Answer(answer.value) else Start;
      if store.saved == [] {
        if answer.Some? { return false, event; }
        var entered := Entered(g, entry);
        if entered.Err? { return false, event; }
        run, raw, resume := entered.value, entered.value.joins, map[];
        base := BaseOf(entry, run.state);
        return true, event;
      }
      var c := Latest(store);
      if c.pending != [] && answer.None? { return false, event; }
      var answers := c.resume;
      if c.pending != [] {
        answers := DeliverResume(answer.value, c.pending, c.resume);
      }
      assert TidyTwice(c.joins);
      run, raw, resume, base := Restored(c), c.joins, answers, c.id;
      return true, event;
    }

    /** `_run`: restore, then execute supersteps until nothing is scheduled, a task raises, the run
        pauses or the recursion limit is reached.  Every invocation is a trace of events. */
    method Invoke(answer: Option<Value>, completing: nat -> set<TaskId>, recursionLimit: nat)
      returns (ended: Ended, ghost events: seq<Event>)
      requires Valid()
      modifies this
      ensures Valid()
      ensures Trace(g, entry, Sync, old(AtRest()), events) == if ended.Completed? then InMemory(Planning) else AtRest()
      ensures ended.Completed? ==> Done(run)
      ensures events != [] && events[0] == (if answer.Some? then Answer(answer.value) else Start)
      ensures forall e :: e in events[1..] ==> !e.Answer?
    {
      ghost var before := AtRest();
      var ready;
      ghost var event;
      ready, event := Restore(answer);
      events := [event];
      TraceOne(g, entry, Sync, before, event);
      if !ready { return Aborted, events; }
      var executed := 0;
      hide Step, RunTasks;
      while !Done(run)
        invariant Valid() && executed <= recursionLimit
        invariant Trace(g, entry, Sync, before, events) == InMemory(Planning)
        invariant events != [] && events[0] == event && forall e :: e in events[1..] ==> !e.Answer?
        decreases recursionLimit - executed
      {
        if executed >= recursionLimit {
          TraceConcat(g, entry, Sync, before, events, [Crash]);
          CrashStops(g, entry, InMemory(Planning));
          assert (events + [Crash])[1..] == events[1..] + [Crash];
          events := events + [Crash];
          return Aborted, events;
        }
        var outcome;
        ghost var more;
        ghost var so := events;
        outcome, more := Superstep(completing(executed));
        TraceConcat(g, entry, Sync, before, so, more);
        events := so + more;
        assert events[1..] == so[1..] + more;
        if outcome.Some? { return outcome.value, events; }
        executed := executed + 1;
      }
      return Completed, events;
    }
  }

  lemma {:induction false} CrashStops(g: Graph, entry: Entry, w: World)
    ensures Trace(g, entry, Sync, w, [Crash]) == World(w.store, None)
  {
    TraceOne(g, entry, Sync, w, Crash);
  }

  /** An invocation asks for honesty only where it answers. */
  lemma {:induction false} InvocationIsHonest(s: Setting, w: World, events: seq<Event>)
    requires events != [] && Honest(s, w, events[0]) && forall e :: e in events[1..] ==> !e.Answer?
    ensures AllHonest(s, w, events)
  {
    hide Honest, Step;
    SilenceIsHonest(s, Step(s.g, s.entry, s.mode, w, events[0]), events[1..]);
  }

  /** A completed invocation, with or without an answer, after any earlier events on the thread, holds what the
      failure-free run ends with. */
  method RunToEnd(s: Setting, run: Run, ghost past: seq<Event>, answer: Option<Value>, completing: nat -> set<TaskId>,
        recursionLimit: nat)
    returns (ended: Ended, ghost events: seq<Event>)
    requires run.Valid() && run.g == s.g && run.entry == s.entry && s.mode.Sync? && ValidGraph(s.g)
    requires Trace(s.g, s.entry, s.mode, FRESH, past) == run.AtRest() && AllHonest(s, FRESH, past)
    requires answer.Some? ==> Honest(s, run.AtRest(), Answer(answer.value))
    modifies run
    ensures ended.Completed? ==> Ends(s, run.run.step, run.run)
  {
    ghost var before := run.AtRest();
    assert Honest(s, before, if answer.Some? then Answer(answer.value) else Start);
    hide Step, Honest;
    ended, events := run.Invoke(answer, completing, recursionLimit);
    TraceConcat(s.g, s.entry, s.mode, FRESH, past, events);
    InvocationIsHonest(s, before, events);
    HonestConcat(s, FRESH, past, events);
    if ended.Completed? {
      FailureTransparency(s, past + events);
    }
  }
}
