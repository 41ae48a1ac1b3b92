/** A new input on a thread whose last run has ended (graph/executor.py 1003-1036): its results are stored under the
    id of the last checkpoint until it saves one of its own. */
module Turns {
  import opened Prelude
  import opened Channels
  import opened Interrupts
  import opened Supersteps
  import opened Durability
  import opened Transparency
  import opened Scheduling
  import opened ExitDurability
  import Suspension

  // ----- what a finished turn leaves behind --------------------------------------------------------------------------

  lemma {:induction false} DonePlansNothing(g: Graph, rs: RunState)
    requires Done(rs)
    ensures Settle(g, rs) == rs && Plan(g, rs) == Ok([])
  {
    assert Chosen(rs.active) * g.deferring == {};
    assert NamedTasks(rs) + Deliveries(rs) == [];
  }

  /** No result is ever stored under a checkpoint that ends a run. */
  lemma {:induction false} EndStoresNothing(s: Setting, owner: Owner, w: World, c: Checkpoint)
    requires SoundWorld(s, owner, w) && c in w.store.saved && Done(Restored(c))
    ensures WritesAt(w.store, c.id) == map[]
  {
    hide Settle, Plan, Truthful, SoundPhase, ResultFor;
    var i :| 0 <= i < |w.store.saved| && w.store.saved[i] == c;
    assert Sound(s, owner, c);
    if WritesAt(w.store, c.id) != map[] {
      var k := owner[c.id];
      assert SoundResults(s, k, WritesAt(w.store, c.id));
      var jobs: seq<Suspension.Job> :| JobsOf(s, k, jobs) && ResultsOfJobs(s, k, jobs, WritesAt(w.store, c.id));
      var r := Reference(s.g, s.entry, s.oracle, k).value;
      SettledDone(s.g, r);
      SettledDone(s.g, Restored(c));
      DonePlansNothing(s.g, r);
    }
  }

  predicate TidyJoins(rs: RunState) { Tidy(rs.joins) == rs.joins }

  lemma {:induction false} EdgesStayTidy(edges: seq<Edge>, i: nat, completed: set<string>, joins: Joins)
    requires i <= |edges| && Tidy(joins) == joins
    ensures Tidy(EdgesFrom(edges, i, completed, joins).1) == EdgesFrom(edges, i, completed, joins).1
    decreases |edges| - i
  {
    hide Kept, Fires;
    if i < |edges| {
      var kept := Kept(edges[i], completed, Progress(joins, i));
      SetStaysTidy(joins, i, kept);
      EdgesStayTidy(edges, i + 1, completed, SetProgress(joins, i, kept));
    }
  }

  lemma {:induction false} SetStaysTidy(joins: Joins, i: nat, progress: set<string>)
    requires Tidy(joins) == joins
    ensures Tidy(SetProgress(joins, i, progress)) == SetProgress(joins, i, progress)
  {
    assert forall k :: k in joins ==> k in Tidy(joins);
  }

  lemma {:induction false} CommitStaysTidy(g: Graph, rs: RunState, tasks: seq<Task>, results: seq<Return>)
    requires TidyJoins(rs) && Commit(g, rs, tasks, results).Ok?
    ensures TidyJoins(Commit(g, rs, tasks, results).value)
  {
    EdgesStayTidy(g.edges, 0, Completed(tasks), rs.joins);
    hide MergeUpdates, EdgesFrom, RoutesFrom, Normalize, Bump, Jumps, SendsOf, NamesOf, Tidy;
  }

  lemma {:induction false} ReferenceStaysTidy(s: Setting, k: nat)
    requires Reference(s.g, s.entry, s.oracle, k).Ok?
    ensures TidyJoins(Reference(s.g, s.entry, s.oracle, k).value)
  {
    hide Commit, Plan, Settle, AllReturn, AllResults, Tidy;
    if k == 0 {
      assert Tidy(BLANK.joins) == BLANK.joins by {
        BlankIsTidy();
      }
      EnteredJoins(s.g, s.entry);
    } else {
      ReferenceStaysTidy(s, k - 1);
      var rs := Reference(s.g, s.entry, s.oracle, k - 1).value;
      SettleKeepsJoins(s.g, rs);
      var tasks := Plan(s.g, Settle(s.g, rs)).value;
      CommitStaysTidy(s.g, Settle(s.g, rs), tasks, AllResults(Jobs(s.g, tasks), s.oracle, rs.step));
    }
  }

  lemma {:induction false} BlankIsTidy()
    ensures Tidy(BLANK.joins) == BLANK.joins
  {
  }

  lemma {:induction false} EnteredJoins(g: Graph, entry: Entry)
    requires Entered(g, entry).Ok?
    ensures Entered(g, entry).value.joins == if entry.Fresh? then BLANK.joins else entry.last.joins
  {
    hide MergeUpdates, EntryRoutes, Normalize, EntryNames;
  }

  /** What the last checkpoint of an ended turn restores is a thread a new turn can begin on, and nothing is stored
      under its id: the new turn begins as if on a fresh thread. */
  lemma {:induction false} NextTurnBegins(s: Setting, events: seq<Event>, c: Checkpoint)
    requires ValidGraph(s.g) && AllHonest(s, FRESH, events)
    requires c in Trace(s.g, s.entry, s.mode, FRESH, events).store.saved && Done(Restored(c))
    ensures Restored(c).deferred == {} && TidyJoins(Restored(c))
    ensures WritesAt(Trace(s.g, s.entry, s.mode, FRESH, events).store, c.id) == map[]
  {
    var w := Trace(s.g, s.entry, s.mode, FRESH, events);
    FreshIsSound(s);
    hide Trace, SoundLive, AtReference, Settle, ValidGraph, Reference;
    var owner := TraceSound(s, map[], FRESH, events);
    EndStoresNothing(s, owner, w, c);
    var i :| 0 <= i < |w.store.saved| && w.store.saved[i] == c;
    assert Sound(s, owner, c);
    EndIsReference(s, Restored(c));
    var k := Restored(c).step;
    ReferenceStaysTidy(s, k);
    var run := ReferenceHasHistory(s, k);
    EndsWithNothingDeferred(s, run, k);
  }

  lemma {:induction false} EndIsReference(s: Setting, rs: RunState)
    requires AtReference(s, rs) && Done(rs)
    ensures Reference(s.g, s.entry, s.oracle, rs.step) == Ok(rs)
  {
    var r := Reference(s.g, s.entry, s.oracle, rs.step).value;
    hide Settle, Reference;
    SettledDone(s.g, rs);
    SettledDone(s.g, r);
    DonePlansNothing(s.g, rs);
    DonePlansNothing(s.g, r);
  }

  // ----- what a failed attempt at a turn leaves behind ---------------------------------------------------------------

  /** Entries that lead to the same first superstep have the same failure-free run. */
  lemma {:induction false} SameReference(g: Graph, a: Entry, b: Entry, oracle: Oracle, k: nat)
    requires Entered(g, a) == Entered(g, b)
    ensures Reference(g, a, oracle, k) == Reference(g, b, oracle, k)
  {
    hide Entered, Undisturbed;
    if k > 0 {
      SameReference(g, a, b, oracle, k - 1);
    }
  }

  /** So a thread on which one of them has been tried is sound for the other. */
  lemma {:induction false} SameStateIsSound(s: Setting, other: Entry, owner: Owner, store: Store)
    requires Entered(s.g, s.entry) == Entered(s.g, other) && SoundWorld(s, owner, World(store, None))
    ensures SoundWorld(s.(entry := other), owner, World(store, None))
  {
    forall k: nat
      ensures Reference(s.g, s.entry, s.oracle, k) == Reference(s.g, other, s.oracle, k)
    {
      SameReference(s.g, s.entry, other, s.oracle, k);
    }
    var s' := s.(entry := other);
    hide Reference, Settle, Plan, Jobs;
    forall c | Sound(s, owner, c)
      ensures Sound(s', owner, c)
    {
    }
    forall k: nat, stored | SoundResults(s, k, stored)
      ensures SoundResults(s', k, stored)
    {
      SameResults(s, other, k, stored);
    }
  }

  lemma {:induction false} SameResults(s: Setting, other: Entry, k: nat, stored: map<TaskId, Return>)
    requires Reference(s.g, s.entry, s.oracle, k) == Reference(s.g, other, s.oracle, k)
    requires SoundResults(s, k, stored)
    ensures SoundResults(s.(entry := other), k, stored)
  {
    hide Reference, Settle, Plan, Jobs, EventuallyReturns, ReturnOf;
    var s' := s.(entry := other);
    if stored != map[] {
      var jobs: seq<Suspension.Job> :| JobsOf(s, k, jobs) && ResultsOfJobs(s, k, jobs, stored);
      assert JobsOf(s', k, jobs);
      forall id | id in stored
        ensures exists i :: 0 <= i < |jobs| && jobs[i].id == id && ResultFor(s', k, jobs[i], stored[id])
      {
        var i :| 0 <= i < |jobs| && jobs[i].id == id && ResultFor(s, k, jobs[i], stored[id]);
        assert ResultFor(s', k, jobs[i], stored[id]);
      }
    }
  }

  /** Trying a turn again with an input that merges to the same state is transparent, whatever happened before and
      whatever happens next. */
  lemma {:induction false} SameInputIsTransparent(s: Setting, other: Entry, before: seq<Event>, after: seq<Event>)
    requires ValidGraph(s.g) && Entered(s.g, s.entry) == Entered(s.g, other) && AllHonest(s, FRESH, before)
    requires var w := Trace(s.g, s.entry, s.mode, FRESH, before);
             w.live.None? && AllHonest(s.(entry := other), w, after)
    ensures var w := Trace(s.g, other, s.mode, Trace(s.g, s.entry, s.mode, FRESH, before), after);
            w.live.Some? && Done(w.live.value.run) ==> Ends(s, w.live.value.run.step, w.live.value.run)
  {
    hide SoundWorld, AllHonest, ValidGraph, Entered;
    var w := Trace(s.g, s.entry, s.mode, FRESH, before);
    FreshIsSound(s);
    var owner := TraceSound(s, map[], FRESH, before);
    assert w == World(w.store, None);
    SameStateIsSound(s, other, owner, w.store);
    TransparentFrom(s.(entry := other), owner, w, after);
    var w' := Trace(s.g, other, s.mode, w, after);
    if w'.live.Some? {
      SameReference(s.g, s.entry, other, s.oracle, w'.live.value.run.step);
    }
  }

  // ----- exactly when a new input is not confused with an old one ----------------------------------------------------

  lemma {:induction false} NobodyFails(g: Graph, x: ExitRun, completing: set<TaskId>)
    requires NeverAsks(g, x.run) && IdsFrom(g, x.run) <= completing
    ensures var jobs, session := JobsFrom(g, x.run), Suspension.Session(x.stored, map[]);
            var outcomes := TaskOutcomes(jobs, session, completing);
            && outcomes == Suspension.Outcomes(jobs, session) && ResultsOf(outcomes) == Fed(g, x)
            && Suspension.Markers(outcomes) == [] && forall o :: o in outcomes ==> !o.Failed?
  {
    var jobs, session := JobsFrom(g, x.run), Suspension.Session(x.stored, map[]);
    var outcomes := TaskOutcomes(jobs, session, completing);
    hide JobsFrom, NeverAsks;
    forall i | 0 <= i < |jobs|
      ensures outcomes[i].Finished? && outcomes[i] == Suspension.Outcomes(jobs, session)[i]
    {
      assert jobs[i].id in IdsFrom(g, x.run);
      OutcomeIs(g, x, i);
    }
    NoMarkersWhenFinished(outcomes);
  }

  /** The first superstep of a turn whose tasks ask nothing and all complete hands its commit the failure-free
      results if and only if each of its task ids that has a result stored at the end of the turn before has the one
      it would return now. */
  lemma {:induction false} TurnFedExactly(s: Setting, start: World, completing: set<TaskId>)
    requires s.entry.Turn? && start.live.None? && start.store.saved == [] && Entered(s.g, s.entry).Ok?
    requires var rs := Entered(s.g, s.entry).value;
             && !Done(rs) && Plan(s.g, Settle(s.g, rs)).Ok? && NeverAsks(s.g, rs)
             && IdsFrom(s.g, rs) <= completing
    ensures var rs := Entered(s.g, s.entry).value;
            var w := Trace(s.g, s.entry, s.mode, start, [Start, Execute(completing)]);
            && w.live.Some? && w.live.value.phase.Merging?
            && AllReturn(JobsFrom(s.g, rs), s.oracle, 0)
            && (w.live.value.phase.results == AllResults(JobsFrom(s.g, rs), s.oracle, 0) <==>
                Harmless(s.g, ExitRun(rs, WritesAt(start.store, TurnId))))
  {
    var rs := Entered(s.g, s.entry).value;
    var x := ExitRun(rs, WritesAt(start.store, TurnId));
    EnteredStep(s.g, s.entry);
    hide *;
    FedExactly(s.g, s.oracle, x);
    TurnMerges(s, start, completing);
  }

  /** Both events succeed, and what is merged is what the tasks are found to have returned. */
  lemma {:induction false} TurnMerges(s: Setting, start: World, completing: set<TaskId>)
    requires s.entry.Turn? && start.live.None? && start.store.saved == [] && Entered(s.g, s.entry).Ok?
    requires var rs := Entered(s.g, s.entry).value;
             && !Done(rs) && Plan(s.g, Settle(s.g, rs)).Ok? && NeverAsks(s.g, rs)
             && IdsFrom(s.g, rs) <= completing
    ensures var w := Trace(s.g, s.entry, s.mode, start, [Start, Execute(completing)]);
            && w.live.Some? && w.live.value.phase.Merging?
            && w.live.value.phase.results ==
               Fed(s.g, ExitRun(Entered(s.g, s.entry).value, WritesAt(start.store, TurnId)))
  {
    var rs := Entered(s.g, s.entry).value;
    TraceTwo(s.g, s.entry, s.mode, start, Start, Execute(completing));
    hide Entered, Plan, Settle, NeverAsks, Fed, Trace, RunTasks;
    var begun := World(start.store, Some(Live(rs, map[], TurnId, Planning, [], false)));
    assert Step(s.g, s.entry, s.mode, start, Start) == begun;
    MergesFed(s.g, begun, completing);
  }

  lemma {:induction false} MergesFed(g: Graph, w: World, completing: set<TaskId>)
    requires w.live.Some? && w.live.value.resume == map[]
    requires var rs := w.live.value.run;
             Plan(g, Settle(g, rs)).Ok? && NeverAsks(g, rs) && IdsFrom(g, rs) <= completing
    ensures var w' := RunTasks(g, w, completing);
            && w'.live.Some? && w'.live.value.phase.Merging?
            && w'.live.value.phase.results == Fed(g, ExitRun(w.live.value.run, WritesAt(w.store, w.live.value.base)))
  {
    var rs := w.live.value.run;
    NobodyFails(g, ExitRun(rs, WritesAt(w.store, w.live.value.base)), completing);
    assert JobsFrom(g, rs) == Jobs(g, Plan(g, Settle(g, rs)).value);
    hide Plan, Settle, NeverAsks, Fed, TaskOutcomes, ResultsOf, Suspension.Markers, Suspension.Outcomes, Successful,
      Jobs, JobsFrom, IdsFrom, PutWrites;
  }

  lemma {:induction false} EnteredStep(g: Graph, entry: Entry)
    requires Entered(g, entry).Ok?
    ensures Entered(g, entry).value.step == 0
  {
    hide MergeUpdates, EntryRoutes, Normalize, EntryNames;
  }
}
