/** Failure transparency: whatever is interrupted and restarted, a run that completes ends where the
    undisturbed run ends (graph/executor.py). */
module Transparency {
  import opened Prelude
  import opened Channels
  import opened Interrupts
  import opened Supersteps
  import opened Durability
  import Suspension

  // ----- schedules stay well planned -------------------------------------------------------------

  /** What the builder guarantees of a graph, and that no superstep of it confuses two task ids. */
  ghost predicate ValidGraph(g: Graph) {
    Distinct(g.nodes) && Unambiguous(g.nodes) && START !in g.nodes && END !in g.nodes
  }

  lemma {:induction false} InOrderDistinct(nodes: seq<string>, chosen: set<string>)
    requires Distinct(nodes)
    ensures Distinct(InOrder(nodes, chosen))
    decreases |nodes|
  {
    if nodes != [] {
      var rest := nodes[1..];
      InOrderDistinct(rest, chosen);
      InOrderKeeps(rest, chosen);
      assert forall n :: n in rest ==> n != nodes[0];
    }
  }

  lemma {:induction false} WithoutDistinct(names: seq<string>, dropped: set<string>)
    requires Distinct(names)
    ensures Distinct(Without(names, dropped))
    decreases |names|
  {
    if names != [] {
      var rest := names[1..];
      WithoutDistinct(rest, dropped);
      WithoutKeeps(rest, dropped);
      assert forall n :: n in rest ==> n != names[0];
    }
  }

  lemma {:induction false} NormalizePlanned(g: Graph, names: set<string>)
    requires ValidGraph(g) && Normalize(g, names).Ok?
    ensures Distinct(Normalize(g, names).value)
    ensures forall n :: n in Normalize(g, names).value <==> n in names && n != END
  {
    InOrderDistinct(g.nodes, names - {END});
    InOrderKeeps(g.nodes, names - {END});
  }

  lemma {:induction false} SettlePlanned(g: Graph, rs: RunState)
    requires ValidGraph(g) && WellPlanned(g, rs)
    ensures WellPlanned(g, Settle(g, rs))
    ensures Settle(g, Settle(g, rs)) == Settle(g, rs)
  {
    var waiting := Chosen(rs.active) * g.deferring;
    WithoutDistinct(rs.active, waiting);
    WithoutKeeps(rs.active, waiting);
    var settled := Settle(g, rs);
    if settled != rs {
      assert Chosen(settled.active) * g.deferring == {};
    }
  }

  lemma {:induction false} CommitPlanned(g: Graph, rs: RunState, tasks: seq<Task>, results: seq<Return>)
    requires ValidGraph(g) && WellPlanned(g, rs) && Commit(g, rs, tasks, results).Ok?
    ensures WellPlanned(g, Commit(g, rs, tasks, results).value)
  {
    var state := MergeUpdates(rs.state, Updates(results), g.slots).value;
    var names := EdgesFrom(g.edges, 0, Completed(tasks), rs.joins).0;
    var routed := RoutesFrom(g.conditionals, Completed(tasks), state).value;
    var jumps := Jumps(results);
    NormalizePlanned(g, names + NamesOf(routed) + NamesOf(jumps));
    if Normalize(g, rs.deferred).Ok? {
      NormalizePlanned(g, rs.deferred);
    }
  }

  lemma {:induction false} EnterPlanned(g: Graph, entry: Entry)
    requires ValidGraph(g) && Entered(g, entry).Ok?
    ensures WellPlanned(g, Entered(g, entry).value) && Entered(g, entry).value.step == 0
  {
    var last := if entry.Fresh? then BLANK else entry.last;
    var state := MergeUpdates(last.state, [entry.input], g.slots).value;
    NormalizePlanned(g, EntryNames(g.edges) + NamesOf(EntryRoutes(g.conditionals, state).value));
  }

  lemma {:induction false} CommitMovesOn(g: Graph, rs: RunState, tasks: seq<Task>, results: seq<Return>)
    requires Commit(g, rs, tasks, results).Ok?
    ensures Commit(g, rs, tasks, results).value.step == rs.step + 1
  {
    hide MergeUpdates, EdgesFrom, RoutesFrom, Normalize, Bump, Jumps, SendsOf, NamesOf;
  }

  lemma {:induction false} UndisturbedPlanned(g: Graph, oracle: Oracle, rs: RunState)
    requires ValidGraph(g) && WellPlanned(g, rs) && Undisturbed(g, oracle, rs).Ok?
    ensures WellPlanned(g, Undisturbed(g, oracle, rs).value)
    ensures Undisturbed(g, oracle, rs).value.step == rs.step + 1
  {
    var settled := Settle(g, rs);
    assert settled.step == rs.step;
    var tasks := Plan(g, settled).value;
    var results := AllResults(Jobs(g, tasks), oracle, rs.step);
    assert Undisturbed(g, oracle, rs) == Commit(g, settled, tasks, results);
    SettlePlanned(g, rs);
    hide *;
    CommitPlanned(g, settled, tasks, results);
    CommitMovesOn(g, settled, tasks, results);
  }

  lemma {:induction false} ReferencePlanned(g: Graph, entry: Entry, oracle: Oracle, k: nat)
    requires ValidGraph(g) && Reference(g, entry, oracle, k).Ok?
    ensures WellPlanned(g, Reference(g, entry, oracle, k).value)
    ensures Reference(g, entry, oracle, k).value.step == k
  {
    hide Entered, Undisturbed, WellPlanned;
    if k == 0 {
      EnterPlanned(g, entry);
    } else {
      ReferencePlanned(g, entry, oracle, k - 1);
      UndisturbedPlanned(g, oracle, Reference(g, entry, oracle, k - 1).value);
    }
  }

  // ----- the invariant ------------------------------------------------------------------------------

  /** Everything a claim about a run depends on. */
  datatype Setting = Setting(g: Graph, entry: Entry, mode: Mode, oracle: Oracle)

  /** The recorded answers are those the oracle gives, from the first question on. */
  ghost predicate Truthful(s: Setting, resume: Resume, step: nat) {
    forall id :: id in resume ==> resume[id] == Told(s.oracle, step, id, |resume[id]|)
  }

  ghost predicate AtReference(s: Setting, rs: RunState) {
    var r := Reference(s.g, s.entry, s.oracle, rs.step);
    r.Ok? && Settle(s.g, rs) == Settle(s.g, r.value)
  }

  /** The jobs of the k-th superstep of the failure-free run. */
  ghost predicate JobsOf(s: Setting, k: nat, jobs: seq<Suspension.Job>) {
    var r := Reference(s.g, s.entry, s.oracle, k);
    r.Ok? && Plan(s.g, Settle(s.g, r.value)).Ok? && jobs == Jobs(s.g, Plan(s.g, Settle(s.g, r.value)).value)
  }

  ghost predicate ResultFor(s: Setting, k: nat, job: Suspension.Job, result: Return) {
    EventuallyReturns(job.body, s.oracle, k, job.id) && result == ReturnOf(job.body, s.oracle, k, job.id)
  }

  /** Stored results belong to tasks of superstep k and are what those tasks return. */
  ghost predicate SoundResults(s: Setting, k: nat, stored: map<TaskId, Return>) {
    stored != map[] ==>
      exists jobs :: JobsOf(s, k, jobs) && ResultsOfJobs(s, k, jobs, stored)
  }

  ghost predicate ResultsOfJobs(s: Setting, k: nat, jobs: seq<Suspension.Job>, stored: map<TaskId, Return>) {
    forall id :: id in stored ==>
      exists i :: 0 <= i < |jobs| && jobs[i].id == id && ResultFor(s, k, jobs[i], stored[id])
  }

  type Owner = map<CheckpointId, nat>

  /** A checkpoint restores the failure-free run at the superstep after its own. */
  ghost predicate Sound(s: Setting, owner: Owner, c: Checkpoint) {
    && c.step >= -1
    && c.id in owner && owner[c.id] == c.step + 1
    && AtReference(s, Restored(c))
    && Truthful(s, c.resume, c.step + 1)
  }

  ghost predicate AllSound(s: Setting, owner: Owner, cs: seq<Checkpoint>) {
    forall i :: 0 <= i < |cs| ==> Sound(s, owner, cs[i])
  }

  ghost predicate SoundWrites(s: Setting, owner: Owner, writes: map<CheckpointId, map<TaskId, Return>>) {
    forall id :: id in writes ==> id in owner && SoundResults(s, owner[id], writes[id])
  }

  ghost predicate SoundOwner(owner: Owner, issued: nat) {
    && (forall id :: id in owner && id.SavedId? ==> id.serial < issued)
    && (forall id :: id in owner && !id.SavedId? ==> owner[id] == 0)
  }

  ghost predicate SoundStore(s: Setting, store: Store, owner: Owner) {
    AllSound(s, owner, store.saved) && SoundWrites(s, owner, store.writes) && SoundOwner(owner, store.issued)
  }

  ghost predicate SoundPhase(s: Setting, owner: Owner, live: Live) {
    match live.phase
    case Planning => true
    case Merging(tasks, results) =>
      && live.run == Settle(s.g, live.run)
      && Plan(s.g, live.run) == Ok(tasks) && !Done(live.run)
      && AllReturn(Jobs(s.g, tasks), s.oracle, live.run.step)
      && results == AllResults(Jobs(s.g, tasks), s.oracle, live.run.step)
    case Pausing(markers, stored) => SoundResults(s, live.run.step, stored)
    case Copying(id, stored) =>
      id in owner && owner[id] == live.run.step && SoundResults(s, live.run.step, stored)
  }

  ghost predicate SoundLive(s: Setting, owner: Owner, live: Live) {
    && AtReference(s, live.run)
    && Truthful(s, live.resume, live.run.step)
    && live.base in owner && owner[live.base] == live.run.step
    && SoundPhase(s, owner, live)
    && AllSound(s, owner, live.queue)
  }

  ghost predicate SoundWorld(s: Setting, owner: Owner, w: World) {
    SoundStore(s, w.store, owner) && (w.live.Some? ==> SoundLive(s, owner, w.live.value))
  }

  /** Resume values answer each question as the oracle does. */
  ghost predicate Honest(s: Setting, w: World, e: Event) {
    e.Answer? && w.live.None? && w.store.saved != [] && Latest(w.store).pending != [] ==>
      var c := Latest(w.store);
      Truthful(s, Deliver(e.value, c.pending, c.resume), Restored(c).step)
  }

  // ----- running the tasks -------------------------------------------------------------------------------

  lemma {:induction false} ReplayReturns(body: Body, oracle: Oracle, step: nat, id: TaskId, n: nat, i: nat)
    requires i <= n && InStep(body, Told(oracle, step, id, i))
    requires Replay(body, Told(oracle, step, id, n), i).Return?
    ensures EventuallyReturns(body, oracle, step, id)
    ensures var action := Replay(body, Told(oracle, step, id, n), i);
            ReturnOf(body, oracle, step, id) == (action.update, action.goto)
    decreases n - i
  {
    var told := Told(oracle, step, id, n);
    assert told[..i] == Told(oracle, step, id, i);
    if body(told[..i]).Return? {
      assert ReturnsAfter(body, oracle, step, id, i);
      var m :| ReturnsAfter(body, oracle, step, id, m) && ReturnOf(body, oracle, step, id) ==
               (body(Told(oracle, step, id, m)).update, body(Told(oracle, step, id, m)).goto);
      ResultIsUnique(body, oracle, step, id, m, i);
    } else {
      var next := Told(oracle, step, id, i + 1);
      forall j | 0 <= j < |next|
        ensures body(next[..j]).Ask?
      {
        if j < i {
          assert next[..j] == Told(oracle, step, id, i)[..j];
        } else {
          assert next[..j] == told[..i];
        }
      }
      ReplayReturns(body, oracle, step, id, n, i + 1);
    }
  }

  /** A task that finishes with recorded answers returns what it returns undisturbed. */
  lemma {:induction false} FinishedIsResult(s: Setting, job: Suspension.Job, answers: seq<Value>, step: nat)
    requires answers == Told(s.oracle, step, job.id, |answers|)
    requires Observe(job.body, answers, job.id).Finished?
    ensures var outcome := Observe(job.body, answers, job.id);
            ResultFor(s, step, job, (outcome.update, outcome.goto))
  {
    ReplayReturns(job.body, s.oracle, step, job.id, |answers|, 0);
  }

  ghost predicate GoodOutcomes(s: Setting, k: nat, jobs: seq<Suspension.Job>, outcomes: seq<Outcome>) {
    |jobs| == |outcomes| &&
    forall i :: 0 <= i < |jobs| && outcomes[i].Finished? ==>
      ResultFor(s, k, jobs[i], (outcomes[i].update, outcomes[i].goto))
  }

  lemma {:induction false} OutcomesAreGood(s: Setting, k: nat, jobs: seq<Suspension.Job>,
        session: Suspension.Session, completing: set<TaskId>)
    requires Suspension.DistinctIds(jobs) && JobsOf(s, k, jobs)
    requires SoundResults(s, k, session.finished) && Truthful(s, session.resume, k)
    ensures GoodOutcomes(s, k, jobs, TaskOutcomes(jobs, session, completing))
  {
    var outcomes := TaskOutcomes(jobs, session, completing);
    forall i | 0 <= i < |jobs| && outcomes[i].Finished?
      ensures ResultFor(s, k, jobs[i], (outcomes[i].update, outcomes[i].goto))
    {
      if jobs[i].id in session.finished {
        var known: seq<Suspension.Job> :| JobsOf(s, k, known) && ResultsOfJobs(s, k, known, session.finished);
        var j :| 0 <= j < |known| && known[j].id == jobs[i].id &&
          ResultFor(s, k, known[j], session.finished[jobs[i].id]);
        assert known == jobs && j == i;
      } else {
        FinishedIsResult(s, jobs[i], AnswersFor(session.resume, jobs[i].id), k);
      }
    }
  }

  lemma {:induction false} SuccessfulIsSound(s: Setting, k: nat, jobs: seq<Suspension.Job>, outcomes: seq<Outcome>)
    requires GoodOutcomes(s, k, jobs, outcomes)
    ensures ResultsOfJobs(s, k, jobs, Successful(jobs, outcomes))
    decreases |jobs|
  {
    if jobs != [] {
      assert forall i :: 0 <= i < |jobs[1..]| ==> jobs[1..][i] == jobs[i + 1] && outcomes[1..][i] == outcomes[i + 1];
      SuccessfulIsSound(s, k, jobs[1..], outcomes[1..]);
      var rest := Successful(jobs[1..], outcomes[1..]);
      var all := Successful(jobs, outcomes);
      forall id | id in all
        ensures exists i :: 0 <= i < |jobs| && jobs[i].id == id && ResultFor(s, k, jobs[i], all[id])
      {
        if outcomes[0].Finished? && id == jobs[0].id {
          assert ResultFor(s, k, jobs[0], all[id]);
        } else {
          var i :| 0 <= i < |jobs[1..]| && jobs[1..][i].id == id && ResultFor(s, k, jobs[1..][i], rest[id]);
          assert jobs[i + 1] == jobs[1..][i];
        }
      }
    }
  }

  lemma {:induction false} MergedResultsSound(s: Setting, k: nat, a: map<TaskId, Return>, b: map<TaskId, Return>)
    requires SoundResults(s, k, a) && SoundResults(s, k, b)
    ensures SoundResults(s, k, a + b)
  {
    hide Reference, Settle, Plan, Jobs, ResultFor;
    if a != map[] && b != map[] {
      var jobs: seq<Suspension.Job> :| JobsOf(s, k, jobs) && ResultsOfJobs(s, k, jobs, a);
      var same: seq<Suspension.Job> :| JobsOf(s, k, same) && ResultsOfJobs(s, k, same, b);
      assert jobs == same;
      assert ResultsOfJobs(s, k, jobs, a + b);
    } else {
      assert a + b == if a == map[] then b else a;
    }
  }

  lemma {:induction false} WritesAtSound(s: Setting, store: Store, owner: Owner, id: CheckpointId)
    requires SoundWrites(s, owner, store.writes) && id in owner
    ensures SoundResults(s, owner[id], WritesAt(store, id))
  {
    hide JobsOf, ResultsOfJobs;
  }

  lemma {:induction false} PutKeepsSound(s: Setting, store: Store, owner: Owner, id: CheckpointId,
        stored: map<TaskId, Return>)
    requires SoundStore(s, store, owner) && id in owner && SoundResults(s, owner[id], stored)
    ensures SoundStore(s, PutWrites(store, id, stored), owner)
  {
    hide AllSound, SoundResults, SoundOwner;
    WritesAtSound(s, store, owner, id);
    MergedResultsSound(s, owner[id], WritesAt(store, id), stored);
  }

  lemma {:induction false} NoMarkers(outcomes: seq<Outcome>)
    requires Suspension.Markers(outcomes) == []
    ensures forall o :: o in outcomes ==> !o.Waiting?
    decreases |outcomes|
  {
    if outcomes != [] {
      NoMarkers(outcomes[1..]);
      assert outcomes == [outcomes[0]] + outcomes[1..];
    }
  }

  lemma {:induction false} ReferenceJobsDistinct(s: Setting, rs: RunState)
    requires ValidGraph(s.g) && AtReference(s, rs)
    ensures WellPlanned(s.g, Settle(s.g, rs)) && Settle(s.g, Settle(s.g, rs)) == Settle(s.g, rs)
    ensures Plan(s.g, Settle(s.g, rs)).Ok? ==>
              Suspension.DistinctIds(Jobs(s.g, Plan(s.g, Settle(s.g, rs)).value))
  {
    var r := Reference(s.g, s.entry, s.oracle, rs.step).value;
    ReferencePlanned(s.g, s.entry, s.oracle, rs.step);
    SettlePlanned(s.g, r);
    if Plan(s.g, Settle(s.g, rs)).Ok? {
      TaskIdsDistinct(s.g, Settle(s.g, rs));
    }
  }

  lemma {:induction false} SettledDone(g: Graph, rs: RunState)
    ensures Done(Settle(g, rs)) <==> Done(rs)
  {
    if Settle(g, rs) != rs {
      var waiting := Chosen(rs.active) * g.deferring;
      var n :| n in waiting;
      assert rs.active != [];
    }
  }

  /** What one execution of the tasks stores is sound, and if every task finished their results are
      those of the failure-free run. */
  lemma {:induction false} TasksRun(s: Setting, k: nat, jobs: seq<Suspension.Job>, session: Suspension.Session,
        completing: set<TaskId>)
    requires Suspension.DistinctIds(jobs) && JobsOf(s, k, jobs)
    requires SoundResults(s, k, session.finished) && Truthful(s, session.resume, k)
    ensures var outcomes := TaskOutcomes(jobs, session, completing);
            && SoundResults(s, k, Successful(jobs, outcomes))
            && ((forall o :: o in outcomes ==> !o.Failed?) && Suspension.Markers(outcomes) == [] ==>
                  AllReturn(jobs, s.oracle, k) && ResultsOf(outcomes) == AllResults(jobs, s.oracle, k))
  {
    var outcomes := TaskOutcomes(jobs, session, completing);
    OutcomesAreGood(s, k, jobs, session, completing);
    SuccessfulIsSound(s, k, jobs, outcomes);
    hide Reference, Settle, Plan, Jobs, JobsOf, TaskOutcomes, ResultsOfJobs, Truthful;
    if (forall o :: o in outcomes ==> !o.Failed?) && Suspension.Markers(outcomes) == [] {
      NoMarkers(outcomes);
      forall i | 0 <= i < |jobs|
        ensures outcomes[i].Finished? && ResultFor(s, k, jobs[i], ResultsOf(outcomes)[i])
      {
        assert outcomes[i] in outcomes;
      }
      assert ResultsOf(outcomes) == AllResults(jobs, s.oracle, k);
    }
  }

  lemma {:induction false} RunTasksSound(s: Setting, owner: Owner, w: World, completing: set<TaskId>)
    requires ValidGraph(s.g) && SoundWorld(s, owner, w) && w.live.Some? && !Done(w.live.value.run)
    ensures SoundWorld(s, owner, RunTasks(s.g, w, completing))
  {
    hide ResultFor, Observe, TaskOutcome;
    var live := w.live.value;
    var rs := Settle(s.g, live.run);
    ReferenceJobsDistinct(s, live.run);
    SettledDone(s.g, live.run);
    if Plan(s.g, rs).Ok? {
      var tasks := Plan(s.g, rs).value;
      var jobs := Jobs(s.g, tasks);
      var session := Suspension.Session(WritesAt(w.store, live.base), live.resume);
      var outcomes := TaskOutcomes(jobs, session, completing);
      assert JobsOf(s, live.run.step, jobs);
      TasksRun(s, live.run.step, jobs, session, completing);
      var stored := Successful(jobs, outcomes);
      PutKeepsSound(s, w.store, owner, live.base, stored);
      assert AtReference(s, rs);
      hide Reference, Truthful, AllSound, SoundStore, SoundResults, ResultsOf, Successful, TaskOutcomes, Settle, Plan,
        Jobs, AtReference, PutWrites;
    }
  }

  // ----- saving -----------------------------------------------------------------------------------------------

  /** A new checkpoint id is owned by superstep k; what was known stays known. */
  lemma {:induction false} OwnerGrows(s: Setting, w: World, owner: Owner, k: nat) returns (owner': Owner)
    requires SoundWorld(s, owner, w)
    ensures owner' == owner[SavedId(w.store.issued) := k]
    ensures SoundStore(s, w.store.(issued := w.store.issued + 1), owner')
    ensures w.live.Some? ==> SoundLive(s, owner', w.live.value)
  {
    hide AtReference, Truthful, SoundResults;
    var id := SavedId(w.store.issued);
    assert id !in owner;
    owner' := owner[id := k];
  }

  lemma {:induction false} CommitIsUndisturbed(s: Setting, rs: RunState, tasks: seq<Task>, results: seq<Return>,
        r: RunState)
    requires rs == Settle(s.g, r) && rs.step == r.step && !Done(r) && Plan(s.g, rs) == Ok(tasks)
    requires AllReturn(Jobs(s.g, tasks), s.oracle, r.step)
    requires results == AllResults(Jobs(s.g, tasks), s.oracle, r.step)
    ensures Commit(s.g, rs, tasks, results) == Undisturbed(s.g, s.oracle, r)
  {
    hide Commit;
  }

  /** Merging the results of superstep k reaches the failure-free run before superstep k + 1. */
  lemma {:induction false} CommitReachesReference(s: Setting, owner: Owner, live: Live)
    requires ValidGraph(s.g) && SoundLive(s, owner, live) && live.phase.Merging?
    requires Commit(s.g, live.run, live.phase.tasks, live.phase.results).Ok?
    ensures var next := Commit(s.g, live.run, live.phase.tasks, live.phase.results);
            Reference(s.g, s.entry, s.oracle, live.run.step + 1) == next && next.value.step == live.run.step + 1
  {
    hide Commit, Undisturbed, Entered, AllSound, Truthful, AllReturn, AllResults, Jobs;
    var r := Reference(s.g, s.entry, s.oracle, live.run.step).value;
    SettledDone(s.g, r);
    ReferencePlanned(s.g, s.entry, s.oracle, live.run.step);
    CommitIsUndisturbed(s, live.run, live.phase.tasks, live.phase.results, r);
    ReferencePlanned(s.g, s.entry, s.oracle, live.run.step + 1);
  }

  lemma {:induction false} KeepSound(s: Setting, owner: Owner, w: World, live: Live, c: Checkpoint)
    requires SoundStore(s, w.store.(issued := w.store.issued + 1), owner)
    requires SoundLive(s, owner, live) && Sound(s, owner, c)
    ensures SoundWorld(s, owner, Keep(s.mode, w, live, c))
  {
    hide Sound, SoundWrites, SoundOwner, AtReference, Truthful, SoundResults;
  }

  lemma {:induction false} MergeAndSaveSound(s: Setting, owner: Owner, w: World) returns (owner': Owner)
    requires ValidGraph(s.g) && SoundWorld(s, owner, w) && w.live.Some? && w.live.value.phase.Merging?
    ensures SoundWorld(s, owner', MergeAndSave(s.g, s.mode, w))
  {
    hide Commit, Reference, Settle, SoundStore, AllSound, Keep;
    var live := w.live.value;
    var next := Commit(s.g, live.run, live.phase.tasks, live.phase.results);
    owner' := owner;
    if next.Ok? {
      CommitReachesReference(s, owner, live);
      var id := SavedId(w.store.issued);
      owner' := OwnerGrows(s, w, owner, live.run.step + 1);
      var c := Saved(id, next.value, live.run.step, [], map[]);
      assert Restored(c) == next.value;
      KeepSound(s, owner', w, Live(next.value, map[], id, Planning, live.queue, live.broken), c);
    }
  }

  lemma {:induction false} SavePausedSound(s: Setting, owner: Owner, w: World) returns (owner': Owner)
    requires ValidGraph(s.g) && SoundWorld(s, owner, w) && w.live.Some? && w.live.value.phase.Pausing?
    ensures SoundWorld(s, owner', SavePaused(s.mode, w))
  {
    hide AtReference, SoundStore, AllSound, Keep, Truthful, SoundResults;
    var live := w.live.value;
    var id := SavedId(w.store.issued);
    owner' := OwnerGrows(s, w, owner, live.run.step);
    var c := Saved(id, live.run, live.run.step - 1, live.phase.markers, live.resume);
    assert Restored(c) == live.run;
    KeepSound(s, owner', w, live.(phase := Copying(id, live.phase.stored)), c);
  }

  // ----- every event keeps the invariant --------------------------------------------------------------------------

  lemma {:induction false} StepSound(s: Setting, owner: Owner, w: World, e: Event) returns (owner': Owner)
    requires ValidGraph(s.g) && SoundWorld(s, owner, w) && Honest(s, w, e)
    ensures SoundWorld(s, owner', Step(s.g, s.entry, s.mode, w, e))
  {
    hide RunTasks, MergeAndSave, SavePaused, PutWrites, SoundResults, Commit, Settle;
    owner' := owner;
    match e {
      case Start =>
        if w.live.None? && w.store.saved == [] && Entered(s.g, s.entry).Ok? {
          var rs := Entered(s.g, s.entry).value;
          owner' := owner[BaseOf(s.entry, rs.state) := 0];
          assert Reference(s.g, s.entry, s.oracle, 0) == Ok(rs);
        }
      case Answer(value) =>
      case Execute(completing) =>
        if w.live.Some? && w.live.value.phase.Planning? && !Done(w.live.value.run) {
          RunTasksSound(s, owner, w, completing);
        }
      case Advance =>
        if w.live.Some? && w.live.value.phase.Merging? {
          owner' := MergeAndSaveSound(s, owner, w);
        }
      case SavePause =>
        if w.live.Some? && w.live.value.phase.Pausing? {
          owner' := SavePausedSound(s, owner, w);
        }
      case CopyWrites =>
        if w.live.Some? && w.live.value.phase.Copying? && w.live.value.queue == [] {
          PutKeepsSound(s, w.store, owner, w.live.value.phase.id, w.live.value.phase.stored);
        }
      case Persist(ok) =>
      case Crash =>
    }
  }

  ghost predicate AllHonest(s: Setting, w: World, events: seq<Event>)
    decreases |events|
  {
    events == [] ||
    (Honest(s, w, events[0]) && AllHonest(s, Step(s.g, s.entry, s.mode, w, events[0]), events[1..]))
  }

  lemma {:induction false} HonestConcat(s: Setting, w: World, a: seq<Event>, b: seq<Event>)
    requires AllHonest(s, w, a) && AllHonest(s, Trace(s.g, s.entry, s.mode, w, a), b)
    ensures AllHonest(s, w, a + b)
    decreases |a|
  {
    hide Step, Honest;
    if a == [] {
      assert a + b == b;
    } else {
      assert (a + b)[1..] == a[1..] + b && (a + b)[0] == a[0];
      HonestConcat(s, Step(s.g, s.entry, s.mode, w, a[0]), a[1..], b);
    }
  }

  /** Without an answer there is nothing to be honest about. */
  lemma {:induction false} SilenceIsHonest(s: Setting, w: World, events: seq<Event>)
    requires forall e :: e in events ==> !e.Answer?
    ensures AllHonest(s, w, events)
    decreases |events|
  {
    hide Step;
    if events != [] {
      assert events[0] in events && forall e :: e in events[1..] ==> e in events;
      SilenceIsHonest(s, Step(s.g, s.entry, s.mode, w, events[0]), events[1..]);
    }
  }

  lemma {:induction false} TraceSound(s: Setting, owner: Owner, w: World, events: seq<Event>) returns (owner': Owner)
    requires ValidGraph(s.g) && SoundWorld(s, owner, w) && AllHonest(s, w, events)
    ensures SoundWorld(s, owner', Trace(s.g, s.entry, s.mode, w, events))
    decreases |events|
  {
    owner' := owner;
    if events != [] {
      owner' := StepSound(s, owner, w, events[0]);
      owner' := TraceSound(s, owner', Step(s.g, s.entry, s.mode, w, events[0]), events[1..]);
    }
  }

  // ----- the main results ----------------------------------------------------------------------------------

  /** The failure-free run ends before its k-th superstep, with these values. */
  ghost predicate Ends(s: Setting, k: nat, rs: RunState) {
    Reference(s.g, s.entry, s.oracle, k) == Ok(rs) && Done(rs)
  }

  /** From any sound world: whatever happens next, a run that has nothing left to do holds what the failure-free run
      ends with. */
  lemma {:induction false} TransparentFrom(s: Setting, owner: Owner, start: World, events: seq<Event>)
    requires ValidGraph(s.g) && SoundWorld(s, owner, start) && AllHonest(s, start, events)
    ensures var w := Trace(s.g, s.entry, s.mode, start, events);
            w.live.Some? && Done(w.live.value.run) ==> Ends(s, w.live.value.run.step, w.live.value.run)
  {
    var w := Trace(s.g, s.entry, s.mode, start, events);
    var owner' := TraceSound(s, owner, start, events);
    if w.live.Some? && Done(w.live.value.run) {
      var rs := w.live.value.run;
      var r := Reference(s.g, s.entry, s.oracle, rs.step).value;
      SettledDone(s.g, r);
      SettledDone(s.g, rs);
    }
  }

  /** Failure transparency.  From the start of a turn, the first of a thread or a later one, after any pattern of task
      failures, crashes, failed background writes, pauses, resumes and restarts, a run that has nothing left to do holds
      the state, join progress and channel versions with which the failure-free run of that turn ends. */
  lemma {:induction false} FailureTransparency(s: Setting, events: seq<Event>)
    requires ValidGraph(s.g) && AllHonest(s, FRESH, events)
    ensures var w := Trace(s.g, s.entry, s.mode, FRESH, events);
            w.live.Some? && Done(w.live.value.run) ==> Ends(s, w.live.value.run.step, w.live.value.run)
  {
    FreshIsSound(s);
    hide SoundWorld;
    TransparentFrom(s, map[], FRESH, events);
  }

  lemma {:induction false} FreshIsSound(s: Setting)
    ensures SoundWorld(s, map[], FRESH)
  {
  }

  /** The failure-free run ends only once, so any two runs that complete agree. */
  lemma {:induction false} EndIsUnique(s: Setting, j: nat, a: RunState, k: nat, b: RunState)
    requires Ends(s, j, a) && Ends(s, k, b)
    ensures j == k && a == b
  {
    if j < k {
      StopsAfterEnd(s, j, k);
    } else if k < j {
      StopsAfterEnd(s, k, j);
    }
  }

  lemma {:induction false} StopsAfterEnd(s: Setting, j: nat, k: nat)
    requires j < k && Reference(s.g, s.entry, s.oracle, j).Ok? && Done(Reference(s.g, s.entry, s.oracle, j).value)
    ensures Reference(s.g, s.entry, s.oracle, k).Err?
    decreases k
  {
    hide Entered, Commit, Settle, Plan, AllReturn, AllResults;
    if j < k - 1 {
      StopsAfterEnd(s, j, k - 1);
    }
  }

  /** Restarting from whatever has been persisted, in particular from any prefix of the checkpoints a
      background writer was given, is restarting the failure-free run at one of its supersteps. */
  lemma {:induction false} RestartIsOnTrack(s: Setting, events: seq<Event>)
    requires ValidGraph(s.g) && AllHonest(s, FRESH, events)
    ensures var store := Trace(s.g, s.entry, s.mode, FRESH, events).store;
            forall i :: 0 <= i < |store.saved| ==> AtReference(s, Restored(store.saved[i]))
  {
    var owner := TraceSound(s, map[], FRESH, events);
  }
}
