/** What becomes of the results stored before a superstep commits (graph/executor.py): with synchronous
    checkpoints a stored task is not executed again in its superstep, except after one crash window. */
module StoredResults {
  import opened Channels
  import opened Interrupts
  import opened Supersteps
  import opened Durability
  import opened Transparency
  import Suspension

  /** The superstep a restart would enter. */
  function Position(store: Store): nat {
    if store.saved == [] then 0 else Restored(Latest(store)).step
  }

  /** Where the results of that superstep are stored. */
  function CurrentId(g: Graph, entry: Entry, store: Store): CheckpointId {
    if store.saved != [] then Latest(store).id
    else BaseOf(entry, if Entered(g, entry).Ok? then Entered(g, entry).value.state else map[])
  }

  /** The tasks of the current superstep whose results a restart finds, or is about to find. */
  function Persisted(s: Setting, w: World): set<TaskId> {
    if w.live.Some? && w.live.value.phase.Copying? then w.live.value.phase.stored.Keys
    else WritesAt(w.store, CurrentId(s.g, s.entry, w.store)).Keys
  }

  /** The tasks whose bodies an execution in this world calls. */
  function Executing(g: Graph, w: World): set<TaskId> {
    if w.live.None? then {}
    else
      var live := w.live.value;
      var tasks := Plan(g, Settle(g, live.run));
      if tasks.Err? then {}
      else Suspension.Executed(Jobs(g, tasks.value), Suspension.Session(WritesAt(w.store, live.base), live.resume))
  }

  /** The execution in memory works on the superstep a restart would enter. */
  ghost predicate Aligned(s: Setting, store: Store, live: Live) {
    && live.queue == []
    && live.run.step == Position(store)
    && match live.phase
       case Copying(id, stored) => store.saved != [] && id == CurrentId(s.g, s.entry, store) && id !in store.writes
       case Pausing(_, stored) =>
         live.base == CurrentId(s.g, s.entry, store) && WritesAt(store, live.base).Keys <= stored.Keys
       case _ => live.base == CurrentId(s.g, s.entry, store)
  }

  ghost predicate Lined(s: Setting, w: World) {
    w.live.Some? ==> Aligned(s, w.store, w.live.value)
  }

  /** The one window: a pause has been checkpointed and its siblings' results are not copied yet. */
  predicate LosesResults(w: World, e: Event) {
    e.Crash? && w.live.Some? && w.live.value.phase.Copying? && w.live.value.phase.stored != map[]
  }

  lemma {:induction false} SuccessfulKeys(jobs: seq<Suspension.Job>, outcomes: seq<Outcome>)
    requires |jobs| == |outcomes|
    ensures forall i :: 0 <= i < |jobs| && outcomes[i].Finished? ==> jobs[i].id in Successful(jobs, outcomes)
    decreases |jobs|
  {
    if jobs != [] {
      SuccessfulKeys(jobs[1..], outcomes[1..]);
      forall i | 1 <= i < |jobs| && outcomes[i].Finished?
        ensures jobs[i].id in Successful(jobs, outcomes)
      {
        assert jobs[1..][i - 1] == jobs[i] && outcomes[1..][i - 1] == outcomes[i];
      }
    }
  }

  /** Results that were stored are reused, so they are among the successful ones. */
  lemma {:induction false} ReusedAreSuccessful(s: Setting, k: nat, jobs: seq<Suspension.Job>,
        session: Suspension.Session, completing: set<TaskId>)
    requires JobsOf(s, k, jobs) && SoundResults(s, k, session.finished)
    ensures session.finished.Keys <= Successful(jobs, TaskOutcomes(jobs, session, completing)).Keys
  {
    hide Reference, Settle, Plan, Jobs, ResultFor;
    var outcomes := TaskOutcomes(jobs, session, completing);
    SuccessfulKeys(jobs, outcomes);
    forall id | id in session.finished
      ensures id in Successful(jobs, outcomes)
    {
      var known: seq<Suspension.Job> :| JobsOf(s, k, known) && ResultsOfJobs(s, k, known, session.finished);
      assert known == jobs;
      var i :| 0 <= i < |jobs| && jobs[i].id == id && ResultFor(s, k, jobs[i], session.finished[id]);
      assert outcomes[i].Finished?;
    }
  }

  /** The results an execution stores. */
  function StoredBy(g: Graph, w: World, completing: set<TaskId>): map<TaskId, Return>
    requires w.live.Some?
  {
    var live := w.live.value;
    var tasks := Plan(g, Settle(g, live.run));
    if tasks.Err? then map[]
    else
      var jobs := Jobs(g, tasks.value);
      Successful(jobs, TaskOutcomes(jobs, Suspension.Session(WritesAt(w.store, live.base), live.resume), completing))
  }

  lemma {:induction false} RunTasksShape(g: Graph, w: World, completing: set<TaskId>)
    requires w.live.Some?
    ensures var w', stored := RunTasks(g, w, completing), StoredBy(g, w, completing);
            && w'.store == PutWrites(w.store, w.live.value.base, stored)
            && (w'.live.Some? ==>
                  var before, after := w.live.value, w'.live.value;
                  && after.run.step == before.run.step && after.base == before.base && after.queue == before.queue
                  && (after.phase.Merging? || (after.phase.Pausing? && after.phase.stored == stored)))
  {
    hide Plan, Jobs, TaskOutcomes, Successful;
  }

  lemma {:induction false} StoredByKeepsAll(s: Setting, owner: Owner, w: World, completing: set<TaskId>)
    requires SoundWorld(s, owner, w) && w.live.Some? && Plan(s.g, Settle(s.g, w.live.value.run)).Ok?
    ensures WritesAt(w.store, w.live.value.base).Keys <= StoredBy(s.g, w, completing).Keys
  {
    hide Truthful, AllSound, SoundPhase, Reference, Settle, Plan, Jobs, TaskOutcomes, Successful, ResultsOfJobs;
    var live := w.live.value;
    var jobs := Jobs(s.g, Plan(s.g, Settle(s.g, live.run)).value);
    var session := Suspension.Session(WritesAt(w.store, live.base), live.resume);
    ReusedAreSuccessful(s, live.run.step, jobs, session, completing);
  }

  lemma {:induction false} RunTasksPersists(s: Setting, w: World, completing: set<TaskId>)
    requires Lined(s, w) && w.live.Some? && w.live.value.phase.Planning?
    requires WritesAt(w.store, w.live.value.base).Keys <= StoredBy(s.g, w, completing).Keys
    ensures var w' := RunTasks(s.g, w, completing);
            && Lined(s, w') && Position(w'.store) == Position(w.store)
            && Persisted(s, w) <= Persisted(s, w')
  {
    hide Entered, StoredBy, RunTasks;
    RunTasksShape(s.g, w, completing);
  }

  lemma {:induction false} ExecuteKeepsPersisted(s: Setting, owner: Owner, w: World, completing: set<TaskId>)
    requires SoundWorld(s, owner, w) && Lined(s, w)
    ensures var w' := Step(s.g, s.entry, s.mode, w, Execute(completing));
            Lined(s, w') && Position(w'.store) == Position(w.store) && Persisted(s, w) <= Persisted(s, w')
  {
    if w.live.Some? && w.live.value.phase.Planning? && !Done(w.live.value.run) {
      if Plan(s.g, Settle(s.g, w.live.value.run)).Ok? {
        StoredByKeepsAll(s, owner, w, completing);
        RunTasksPersists(s, w, completing);
      }
    }
    hide SoundWorld, Entered, Settle, Plan;
  }

  /** One event: the superstep a restart would enter never moves back, and while it stays the same no
      stored result is lost, except exactly by a crash in the copying window. */
  lemma {:induction false} EventKeepsPersisted(s: Setting, owner: Owner, w: World, e: Event)
    requires ValidGraph(s.g) && s.mode.Sync? && SoundWorld(s, owner, w) && Lined(s, w)
    ensures var w' := Step(s.g, s.entry, s.mode, w, e);
            && Lined(s, w')
            && Position(w.store) <= Position(w'.store)
            && (Position(w.store) == Position(w'.store) ==>
                  (Persisted(s, w) <= Persisted(s, w') <==> !LosesResults(w, e)))
  {
    if e.Execute? {
      ExecuteKeepsPersisted(s, owner, w, e.completing);
    } else if e.Advance? {
      AdvanceMovesOn(s, w);
    } else {
      assert SavedId(w.store.issued) !in owner;
      assert SavedId(w.store.issued) !in w.store.writes;
      assert w.store.saved == [] && Entered(s.g, s.entry).Ok? ==> Entered(s.g, s.entry).value.step == 0;
      QuietEventKeepsPersisted(s, w, e);
    }
  }

  lemma {:induction false} QuietEventKeepsPersisted(s: Setting, w: World, e: Event)
    requires s.mode.Sync? && Lined(s, w) && !e.Execute? && !e.Advance?
    requires SavedId(w.store.issued) !in w.store.writes
    requires Entered(s.g, s.entry).Ok? ==> Entered(s.g, s.entry).value.step == 0
    ensures var w' := Step(s.g, s.entry, s.mode, w, e);
            && Lined(s, w')
            && Position(w.store) <= Position(w'.store)
            && (Position(w.store) == Position(w'.store) ==>
                  (Persisted(s, w) <= Persisted(s, w') <==> !LosesResults(w, e)))
  {
    hide Entered;
  }

  lemma {:induction false} AdvanceMovesOn(s: Setting, w: World)
    requires s.mode.Sync? && Lined(s, w)
    ensures var w' := Step(s.g, s.entry, s.mode, w, Advance);
            && Lined(s, w')
            && (w'.store == w.store ==> Persisted(s, w') == Persisted(s, w))
            && (w'.store != w.store ==> Position(w'.store) == Position(w.store) + 1)
  {
    hide Commit, Entered;
    if w.live.Some? && w.live.value.phase.Merging? {
      var live := w.live.value;
      if Commit(s.g, live.run, live.phase.tasks, live.phase.results).Ok? {
        CommitMovesOn(s.g, live.run, live.phase.tasks, live.phase.results);
      }
    }
  }

  ghost predicate Careful(s: Setting, w: World, events: seq<Event>)
    decreases |events|
  {
    events == [] ||
    (!LosesResults(w, events[0]) && Careful(s, Step(s.g, s.entry, s.mode, w, events[0]), events[1..]))
  }

  lemma {:induction false} TracePersists(s: Setting, owner: Owner, w: World, events: seq<Event>)
    requires ValidGraph(s.g) && s.mode.Sync? && SoundWorld(s, owner, w) && Lined(s, w)
    requires AllHonest(s, w, events) && Careful(s, w, events)
    ensures var w' := Trace(s.g, s.entry, s.mode, w, events);
            && Lined(s, w')
            && Position(w.store) <= Position(w'.store)
            && (Position(w.store) == Position(w'.store) ==> Persisted(s, w) <= Persisted(s, w'))
    decreases |events|
  {
    hide Step, SoundWorld, Lined, LosesResults, Honest, Position, Persisted;
    if events != [] {
      EventKeepsPersisted(s, owner, w, events[0]);
      var owner' := StepSound(s, owner, w, events[0]);
      TracePersists(s, owner', Step(s.g, s.entry, s.mode, w, events[0]), events[1..]);
    }
  }

  lemma {:induction false} SplitHistory(s: Setting, w: World, first: seq<Event>, later: seq<Event>)
    requires AllHonest(s, w, first + later)
    ensures AllHonest(s, w, first)
    ensures AllHonest(s, Trace(s.g, s.entry, s.mode, w, first), later)
    ensures Trace(s.g, s.entry, s.mode, w, first + later) ==
            Trace(s.g, s.entry, s.mode, Trace(s.g, s.entry, s.mode, w, first), later)
    decreases |first|
  {
    hide Step, Honest;
    if first == [] {
      assert first + later == later;
    } else {
      assert (first + later)[1..] == first[1..] + later && (first + later)[0] == first[0];
      SplitHistory(s, Step(s.g, s.entry, s.mode, w, first[0]), first[1..], later);
    }
  }

  /** Any events whatever, crashes in the window included, leave memory on the superstep a restart would enter, and
      that superstep never moves back. */
  lemma {:induction false} TraceLined(s: Setting, owner: Owner, w: World, events: seq<Event>) returns (owner': Owner)
    requires ValidGraph(s.g) && s.mode.Sync? && SoundWorld(s, owner, w) && Lined(s, w) && AllHonest(s, w, events)
    ensures var w' := Trace(s.g, s.entry, s.mode, w, events);
            SoundWorld(s, owner', w') && Lined(s, w') && Position(w.store) <= Position(w'.store)
    decreases |events|
  {
    hide Step, SoundWorld, Lined, LosesResults, Honest, Position, Persisted;
    owner' := owner;
    if events != [] {
      EventKeepsPersisted(s, owner, w, events[0]);
      owner' := StepSound(s, owner, w, events[0]);
      owner' := TraceLined(s, owner', Step(s.g, s.entry, s.mode, w, events[0]), events[1..]);
    }
  }

  /** What a restart finds stored is not executed. */
  lemma {:induction false} PersistedIsNotExecuting(s: Setting, w: World)
    requires Lined(s, w) && w.live.Some? && w.live.value.phase.Planning?
    ensures Persisted(s, w) !! Executing(s.g, w)
  {
    hide Entered, Settle, Plan, Jobs;
  }

  /** With synchronous checkpoints, a task whose result has been stored is not executed again in that superstep as long
      as no crash hits the copying window since: through failures, pauses, restarts and any other crashes. */
  lemma {:induction false} StoredTasksAreNotRerun(s: Setting, first: seq<Event>, later: seq<Event>)
    requires ValidGraph(s.g) && s.mode.Sync?
    requires AllHonest(s, FRESH, first + later) && Careful(s, Trace(s.g, s.entry, s.mode, FRESH, first), later)
    ensures var w := Trace(s.g, s.entry, s.mode, FRESH, first);
            var w' := Trace(s.g, s.entry, s.mode, FRESH, first + later);
            w'.live.Some? && w'.live.value.phase.Planning? && Position(w.store) == Position(w'.store) ==>
              Persisted(s, w) !! Executing(s.g, w')
  {
    hide Trace, AllHonest, Careful, Persisted, Executing, Position;
    SplitHistory(s, FRESH, first, later);
    var w := Trace(s.g, s.entry, s.mode, FRESH, first);
    var owner := TraceLined(s, map[], FRESH, first);
    TracePersists(s, owner, w, later);
    var w' := Trace(s.g, s.entry, s.mode, w, later);
    if w'.live.Some? && w'.live.value.phase.Planning? && Position(w.store) == Position(w'.store) {
      PersistedIsNotExecuting(s, w');
    }
  }
}
