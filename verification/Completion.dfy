/** However a run has been disturbed, it can still be brought to its end (graph/executor.py `_run`). */
module Completion {
  import opened Prelude
  import opened Interrupts
  import opened Supersteps
  import opened Durability
  import opened Transparency
  import Suspension

  ghost predicate Finished(w: World) { w.live.Some? && Done(w.live.value.run) }

  /** Some further events, with honest answers only, bring the world to a run that has nothing left to do. */
  ghost predicate CanFinish(s: Setting, w: World) {
    exists events :: AllHonest(s, w, events) && Finished(Trace(s.g, s.entry, s.mode, w, events))
  }

  lemma {:induction false} Back(s: Setting, w: World, e: Event)
    requires Honest(s, w, e) && CanFinish(s, Step(s.g, s.entry, s.mode, w, e))
    ensures CanFinish(s, w)
  {
    hide Step, Honest, Finished;
    var w' := Step(s.g, s.entry, s.mode, w, e);
    var events :| AllHonest(s, w', events) && Finished(Trace(s.g, s.entry, s.mode, w', events));
    var all := [e] + events;
    assert all[1..] == events;
    assert AllHonest(s, w, all) && Trace(s.g, s.entry, s.mode, w, all) == Trace(s.g, s.entry, s.mode, w', events);
  }

  lemma {:induction false} AtTheEnd(s: Setting, w: World)
    requires Finished(w)
    ensures CanFinish(s, w)
  {
    assert AllHonest(s, w, []) && Trace(s.g, s.entry, s.mode, w, []) == w;
  }

  // ----- how much is left to ask ----------------------------------------------------------------------------

  /** The number of questions of a task. */
  ghost function Questions(body: Body, oracle: Oracle, step: nat, id: TaskId): nat
    requires EventuallyReturns(body, oracle, step, id)
  {
    var n :| ReturnsAfter(body, oracle, step, id, n);
    n
  }

  ghost function Open(s: Setting, k: nat, job: Suspension.Job, resume: Resume): nat
    requires EventuallyReturns(job.body, s.oracle, k, job.id)
  {
    var n := Questions(job.body, s.oracle, k, job.id);
    var answered := |AnswersFor(resume, job.id)|;
    if answered < n then n - answered else 0
  }

  ghost function AllOpen(s: Setting, k: nat, jobs: seq<Suspension.Job>, resume: Resume): nat
    requires AllReturn(jobs, s.oracle, k)
  {
    if jobs == [] then 0 else Open(s, k, jobs[0], resume) + AllOpen(s, k, jobs[1..], resume)
  }

  /** A task that waits has a question left. */
  lemma {:induction false} ReplayEnds(body: Body, answers: seq<Value>, i: nat, n: nat)
    requires i <= n <= |answers| && body(answers[..n]).Return?
    ensures Replay(body, answers, i).Return?
    decreases n - i
  {
    if i < n && body(answers[..i]).Ask? {
      ReplayEnds(body, answers, i + 1, n);
    }
  }

  lemma {:induction false} WaitingIsOpen(s: Setting, k: nat, job: Suspension.Job, resume: Resume)
    requires EventuallyReturns(job.body, s.oracle, k, job.id) && Truthful(s, resume, k)
    requires Observe(job.body, AnswersFor(resume, job.id), job.id).Waiting?
    ensures Open(s, k, job, resume) > 0
  {
    var answers := AnswersFor(resume, job.id);
    var n := Questions(job.body, s.oracle, k, job.id);
    assert answers == Told(s.oracle, k, job.id, |answers|);
    if n <= |answers| {
      assert answers[..n] == Told(s.oracle, k, job.id, n);
      ReplayEnds(job.body, answers, 0, n);
    }
  }

  /** One more answer to a task leaves fewer questions open. */
  lemma {:induction false} AnswerCloses(s: Setting, k: nat, jobs: seq<Suspension.Job>, resume: Resume, id: TaskId,
        answer: Value)
    requires AllReturn(jobs, s.oracle, k)
    ensures AllOpen(s, k, jobs, Append(resume, id, answer)) <= AllOpen(s, k, jobs, resume)
    ensures (exists i :: 0 <= i < |jobs| && jobs[i].id == id && Open(s, k, jobs[i], resume) > 0) ==>
              AllOpen(s, k, jobs, Append(resume, id, answer)) < AllOpen(s, k, jobs, resume)
  {
    if jobs != [] {
      AnswerCloses(s, k, jobs[1..], resume, id, answer);
      assert Open(s, k, jobs[0], Append(resume, id, answer)) <= Open(s, k, jobs[0], resume);
      forall i | 0 <= i < |jobs| && jobs[i].id == id && Open(s, k, jobs[i], resume) > 0
        ensures AllOpen(s, k, jobs, Append(resume, id, answer)) < AllOpen(s, k, jobs, resume)
      {
        if i > 0 {
          assert jobs[1..][i - 1] == jobs[i];
        }
      }
    }
  }

  /** The honest way to answer the first pending question. */
  ghost function FirstReply(s: Setting, c: Checkpoint): Value
    requires c.pending != [] && c.step >= -1
  {
    var id := c.pending[0].id;
    assert c.pending[0] in c.pending;
    var task := TaskOf(c.pending, id);
    Dict([(id, s.oracle(c.step + 1, task, |AnswersFor(c.resume, task)|))])
  }

  lemma {:induction false} ReplyDelivers(s: Setting, c: Checkpoint)
    requires c.pending != [] && c.step >= -1
    ensures Pends(c.pending, c.pending[0].id)
    ensures var task := TaskOf(c.pending, c.pending[0].id);
            Deliver(FirstReply(s, c), c.pending, c.resume) ==
            Append(c.resume, task, s.oracle(c.step + 1, task, |AnswersFor(c.resume, task)|))
  {
    assert c.pending[0] in c.pending;
    var value := FirstReply(s, c);
    assert Routes(value, c.pending);
    var entries := value.entries;
    assert entries[1..] == [];
    var after := Append(c.resume, TaskOf(c.pending, entries[0].0), entries[0].1);
    assert DeliverEach(entries, c.pending, c.resume) == DeliverEach(entries[1..], c.pending, after);
    assert DeliverEach(entries[1..], c.pending, after) == after;
  }

  lemma {:induction false} ReplyIsHonest(s: Setting, w: World)
    requires w.live.None? && w.store.saved != [] && Latest(w.store).pending != [] && Latest(w.store).step >= -1
    requires Truthful(s, Latest(w.store).resume, Latest(w.store).step + 1)
    ensures Honest(s, w, Answer(FirstReply(s, Latest(w.store))))
  {
    var c := Latest(w.store);
    ReplyDelivers(s, c);
    var task := TaskOf(c.pending, c.pending[0].id);
    var n := |AnswersFor(c.resume, task)|;
    assert Told(s.oracle, c.step + 1, task, n + 1) ==
           Told(s.oracle, c.step + 1, task, n) + [s.oracle(c.step + 1, task, n)];
  }

  // ----- one superstep ------------------------------------------------------------------------------------------

  /** An execution between supersteps, with a background writer that works. */
  ghost predicate Ready(s: Setting, owner: Owner, w: World) {
    SoundWorld(s, owner, w) && w.live.Some? && w.live.value.phase.Planning? && Writing(s, w.live.value)
  }

  predicate Writing(s: Setting, live: Live) { !live.broken && (s.mode.Sync? ==> live.queue == []) }

  lemma {:induction false} ReadyIsAt(s: Setting, owner: Owner, w: World)
    requires SoundWorld(s, owner, w) && w.live.Some?
    ensures AtReference(s, w.live.value.run) && Truthful(s, w.live.value.resume, w.live.value.run.step)
  {
  }

  /** Where the failure-free run goes on, the superstep can be planned and all its tasks return. */
  lemma {:induction false} PlannedAhead(s: Setting, run: RunState, last: nat, end: RunState)
    requires ValidGraph(s.g) && AtReference(s, run) && Ends(s, last, end)
    ensures run.step <= last && (run.step == last ==> Done(run))
    ensures run.step < last ==>
              && !Done(run) && Plan(s.g, Settle(s.g, run)).Ok?
              && AllReturn(Jobs(s.g, Plan(s.g, Settle(s.g, run)).value), s.oracle, run.step)
  {
    hide Entered, Commit, Plan, Jobs, Settle;
    var r := Reference(s.g, s.entry, s.oracle, run.step).value;
    SettledDone(s.g, run);
    SettledDone(s.g, r);
    if run.step > last {
      StopsAfterEnd(s, last, run.step);
    } else if run.step < last {
      ReferenceGoesOn(s, run.step, last);
      UndisturbedIs(s, run.step);
      ReferencePlanned(s.g, s.entry, s.oracle, run.step);
    }
  }

  lemma {:induction false} ReferenceGoesOn(s: Setting, k: nat, last: nat)
    requires k < last && Reference(s.g, s.entry, s.oracle, last).Ok?
    ensures Reference(s.g, s.entry, s.oracle, k + 1).Ok?
    decreases last - k
  {
    hide Entered, Undisturbed;
    if k + 1 < last {
      ReferenceGoesOn(s, k, last - 1);
    }
  }

  lemma {:induction false} UndisturbedIs(s: Setting, k: nat)
    requires Reference(s.g, s.entry, s.oracle, k + 1).Ok?
    ensures Reference(s.g, s.entry, s.oracle, k).Ok?
    ensures var r := Reference(s.g, s.entry, s.oracle, k).value;
            Undisturbed(s.g, s.oracle, r).Ok? && !Done(r) && Plan(s.g, Settle(s.g, r)).Ok? &&
            (r.step == k ==> AllReturn(Jobs(s.g, Plan(s.g, Settle(s.g, r)).value), s.oracle, k))
  {
    hide Entered, Commit;
  }

  /** With every task allowed to complete, none fails: the superstep merges or pauses. */
  lemma {:induction false} NoneFails(jobs: seq<Suspension.Job>, session: Suspension.Session)
    ensures var outcomes := TaskOutcomes(jobs, session, set i | 0 <= i < |jobs| :: jobs[i].id);
            && outcomes == Suspension.Outcomes(jobs, session)
            && forall o :: o in outcomes ==> !o.Failed?
  {
    hide Observe;
    var all := set i | 0 <= i < |jobs| :: jobs[i].id;
    var outcomes := TaskOutcomes(jobs, session, all);
    forall i | 0 <= i < |jobs|
      ensures outcomes[i] == Suspension.JobOutcome(jobs[i], session) && !outcomes[i].Failed?
    {
      assert jobs[i].id in all;
      NeverFailed(jobs[i], session);
    }
  }

  lemma {:induction false} NeverFailed(job: Suspension.Job, session: Suspension.Session)
    ensures !Suspension.JobOutcome(job, session).Failed?
  {
  }

  /** The first question of a pause is asked by a task with questions left. */
  lemma {:induction false} MarkerIsOpen(s: Setting, k: nat, jobs: seq<Suspension.Job>, session: Suspension.Session,
        m: Interrupt)
    requires AllReturn(jobs, s.oracle, k) && Truthful(s, session.resume, k)
    requires m in Suspension.Markers(Suspension.Outcomes(jobs, session))
    ensures exists i :: 0 <= i < |jobs| && jobs[i].id == m.taskId && Open(s, k, jobs[i], session.resume) > 0
    decreases |jobs|
  {
    hide Observe, Truthful;
    var outcomes := Suspension.Outcomes(jobs, session);
    assert outcomes[1..] == Suspension.Outcomes(jobs[1..], session);
    if outcomes[0] == Waiting(m) {
      MarkerOf(jobs[0], session, m);
      WaitingIsOpen(s, k, jobs[0], session.resume);
    } else {
      MarkerIsOpen(s, k, jobs[1..], session, m);
      var i :| 0 <= i < |jobs[1..]| && jobs[1..][i].id == m.taskId && Open(s, k, jobs[1..][i], session.resume) > 0;
      assert jobs[i + 1] == jobs[1..][i];
    }
  }

  lemma {:induction false} MarkerOf(job: Suspension.Job, session: Suspension.Session, m: Interrupt)
    requires Suspension.JobOutcome(job, session) == Waiting(m)
    ensures Observe(job.body, AnswersFor(session.resume, job.id), job.id).Waiting? && m.taskId == job.id
  {
  }

  ghost function JobsNow(s: Setting, run: RunState): seq<Suspension.Job>
    requires Plan(s.g, Settle(s.g, run)).Ok?
  {
    Jobs(s.g, Plan(s.g, Settle(s.g, run)).value)
  }

  /** What an execution reuses: stored results and recorded answers. */
  function SessionOf(w: World): Suspension.Session
    requires w.live.Some?
  {
    Suspension.Session(WritesAt(w.store, w.live.value.base), w.live.value.resume)
  }

  ghost function Everyone(jobs: seq<Suspension.Job>): Event {
    Execute(set i | 0 <= i < |jobs| :: jobs[i].id)
  }

  /** What executing all tasks of a superstep comes to. */
  lemma {:induction false} ExecuteAll(s: Setting, w: World)
    requires w.live.Some? && w.live.value.phase.Planning? && !Done(w.live.value.run) && Writing(s, w.live.value)
    requires Plan(s.g, Settle(s.g, w.live.value.run)).Ok?
    ensures var live := w.live.value;
            var jobs := JobsNow(s, live.run);
            var w' := Step(s.g, s.entry, s.mode, w, Everyone(jobs));
            && w'.live.Some?
            && var live' := w'.live.value;
               && live'.run == Settle(s.g, live.run) && live'.resume == live.resume && Writing(s, live')
               && (live'.phase.Merging? ||
                   (live'.phase.Pausing? && live'.phase.markers != [] &&
                    live'.phase.markers == Suspension.Markers(Suspension.Outcomes(jobs, SessionOf(w)))))
  {
    var live := w.live.value;
    NoneFails(JobsNow(s, live.run), SessionOf(w));
    hide Plan, Jobs, Settle, TaskOutcomes, Successful, PutWrites;
  }

  /** Merging the results of all tasks of a superstep before the last succeeds. */
  lemma {:induction false} MergeSucceeds(s: Setting, owner: Owner, w: World, last: nat, end: RunState)
    requires ValidGraph(s.g) && SoundWorld(s, owner, w) && Ends(s, last, end)
    requires w.live.Some? && w.live.value.phase.Merging? && w.live.value.run.step < last
    ensures var live := w.live.value;
            var next := Commit(s.g, live.run, live.phase.tasks, live.phase.results);
            next.Ok? && next.value.step == live.run.step + 1
  {
    var live := w.live.value;
    MergingFacts(s, owner, w);
    EndsIsOk(s, last, end);
    hide Commit, Undisturbed, Entered, Reference, SoundWorld, Ends, AllReturn, AllResults, Plan, Jobs, Settle;
    var r := Reference(s.g, s.entry, s.oracle, live.run.step).value;
    ReferenceGoesOn(s, live.run.step, last);
    UndisturbedIs(s, live.run.step);
    ReferencePlanned(s.g, s.entry, s.oracle, live.run.step);
    CommitIsUndisturbed(s, live.run, live.phase.tasks, live.phase.results, r);
    CommitMovesOn(s.g, live.run, live.phase.tasks, live.phase.results);
  }

  /** It goes on to the next superstep. */
  lemma {:induction false} Advances(s: Setting, w: World)
    requires w.live.Some? && w.live.value.phase.Merging? && Writing(s, w.live.value)
    requires Commit(s.g, w.live.value.run, w.live.value.phase.tasks, w.live.value.phase.results).Ok?
    ensures var next := Commit(s.g, w.live.value.run, w.live.value.phase.tasks, w.live.value.phase.results).value;
            var w' := Step(s.g, s.entry, s.mode, w, Advance);
            w'.live.Some? && w'.live.value.phase.Planning? && Writing(s, w'.live.value) && w'.live.value.run == next
  {
    hide Commit;
  }

  lemma {:induction false} EndsIsOk(s: Setting, last: nat, end: RunState)
    requires Ends(s, last, end)
    ensures Reference(s.g, s.entry, s.oracle, last).Ok?
  {
  }

  lemma {:induction false} MergingFacts(s: Setting, owner: Owner, w: World)
    requires SoundWorld(s, owner, w) && w.live.Some? && w.live.value.phase.Merging?
    ensures var live := w.live.value;
            && Reference(s.g, s.entry, s.oracle, live.run.step).Ok?
            && live.run == Settle(s.g, Reference(s.g, s.entry, s.oracle, live.run.step).value)
            && Plan(s.g, live.run) == Ok(live.phase.tasks)
            && AllReturn(Jobs(s.g, live.phase.tasks), s.oracle, live.run.step)
            && live.phase.results == AllResults(Jobs(s.g, live.phase.tasks), s.oracle, live.run.step)
  {
    hide Reference, Plan, Jobs, Settle, AllReturn, AllResults, Truthful, AllSound, SoundStore;
  }

  // ----- a pause and its answer ----------------------------------------------------------------------------------

  /** The world once the background writer has caught up. */
  function Drained(w: World): World
    requires w.live.Some?
  {
    World(w.store.(saved := w.store.saved + w.live.value.queue), Some(w.live.value.(queue := [])))
  }

  lemma {:induction false} DrainBack(s: Setting, w: World)
    requires w.live.Some? && !w.live.value.broken && CanFinish(s, Drained(w))
    ensures CanFinish(s, w)
    decreases if w.live.Some? then |w.live.value.queue| else 0
  {
    hide CanFinish;
    var live := w.live.value;
    if live.queue == [] {
      assert w.store.saved + [] == w.store.saved;
      assert Drained(w) == w;
    } else {
      var w' := Step(s.g, s.entry, s.mode, w, Persist(true));
      assert w'.store.saved + w'.live.value.queue == w.store.saved + live.queue;
      assert Drained(w') == Drained(w);
      DrainBack(s, w');
      Back(s, w, Persist(true));
    }
  }

  lemma {:induction false} DrainSound(s: Setting, owner: Owner, w: World)
    requires SoundWorld(s, owner, w) && w.live.Some?
    ensures SoundWorld(s, owner, Drained(w))
  {
    hide Sound, SoundWrites, SoundOwner, AtReference, Truthful, SoundResults, AllReturn, AllResults, Plan, Jobs, Settle;
  }

  /** The checkpoint of a pause. */
  function PauseOf(w: World): Checkpoint
    requires w.live.Some? && w.live.value.phase.Pausing?
  {
    var live := w.live.value;
    Saved(SavedId(w.store.issued), live.run, live.run.step - 1, live.phase.markers, live.resume)
  }

  /** Once a pause is saved, written and copied, its checkpoint is the latest. */
  lemma {:induction false} PauseIsSaved(s: Setting, w: World)
    requires w.live.Some? && w.live.value.phase.Pausing? && Writing(s, w.live.value)
    ensures var w1 := Step(s.g, s.entry, s.mode, w, SavePause);
            && w1.live.Some? && !w1.live.value.broken
            && var w3 := Step(s.g, s.entry, s.mode, Drained(w1), CopyWrites);
               w3.live.None? && w3.store.saved != [] && Latest(w3.store) == PauseOf(w)
  {
    hide Saved;
  }

  lemma {:induction false} LatestFacts(s: Setting, owner: Owner, store: Store)
    requires SoundStore(s, store, owner) && store.saved != []
    ensures Latest(store).step >= -1 && Truthful(s, Latest(store).resume, Latest(store).step + 1)
  {
    hide AtReference, Truthful, SoundWrites;
  }

  /** A pause can be saved, with the background writer catching up and the finished results copied. */
  lemma {:induction false} SaveThePause(s: Setting, owner: Owner, w: World) returns (owner': Owner, saved: World)
    requires ValidGraph(s.g) && SoundWorld(s, owner, w)
    requires w.live.Some? && Writing(s, w.live.value) && w.live.value.phase.Pausing?
    ensures SoundWorld(s, owner', saved)
    ensures saved.live.None? && saved.store.saved != [] && Latest(saved.store) == PauseOf(w)
    ensures CanFinish(s, saved) ==> CanFinish(s, w)
  {
    hide CanFinish, SoundWorld, PauseOf;
    PauseIsSaved(s, w);
    var w1 := Step(s.g, s.entry, s.mode, w, SavePause);
    owner' := StepSound(s, owner, w, SavePause);
    DrainSound(s, owner', w1);
    hide Step, Drained;
    var w2 := Drained(w1);
    saved := Step(s.g, s.entry, s.mode, w2, CopyWrites);
    owner' := StepSound(s, owner', w2, CopyWrites);
    if CanFinish(s, saved) {
      Back(s, w2, CopyWrites);
      DrainBack(s, w1);
      Back(s, w, SavePause);
    }
  }

  /** A paused run can be answered. */
  lemma {:induction false} AnswerThePause(s: Setting, owner: Owner, w: World) returns (owner': Owner, next: World)
    requires ValidGraph(s.g) && SoundWorld(s, owner, w)
    requires w.live.None? && w.store.saved != [] && Latest(w.store).pending != []
    ensures Ready(s, owner', next) && next.live.value.run == Restored(Latest(w.store))
    ensures var c := Latest(w.store);
            && c.step >= -1 && Pends(c.pending, c.pending[0].id)
            && var task := TaskOf(c.pending, c.pending[0].id);
               next.live.value.resume ==
               Append(c.resume, task, s.oracle(c.step + 1, task, |AnswersFor(c.resume, task)|))
    ensures CanFinish(s, next) ==> CanFinish(s, w)
  {
    hide CanFinish, SoundWorld, Truthful, Ready, Latest, Honest;
    var c := Latest(w.store);
    StoreSound(s, owner, w);
    LatestFacts(s, owner, w.store);
    ReplyIsHonest(s, w);
    ReplyDelivers(s, c);
    var reply := Answer(FirstReply(s, c));
    Answered(s, w, FirstReply(s, c));
    owner' := StepSound(s, owner, w, reply);
    hide Step;
    next := Step(s.g, s.entry, s.mode, w, reply);
    IsReady(s, owner', next);
    if CanFinish(s, next) {
      Back(s, w, reply);
    }
  }

  lemma {:induction false} StoreSound(s: Setting, owner: Owner, w: World)
    requires SoundWorld(s, owner, w)
    ensures SoundStore(s, w.store, owner)
  {
  }

  lemma {:induction false} IsReady(s: Setting, owner: Owner, w: World)
    requires SoundWorld(s, owner, w) && w.live.Some? && w.live.value.phase.Planning? && Writing(s, w.live.value)
    ensures Ready(s, owner, w)
  {
  }

  /** What an answer puts into memory. */
  lemma {:induction false} Answered(s: Setting, w: World, value: Value)
    requires w.live.None? && w.store.saved != [] && Latest(w.store).pending != []
    ensures var c := Latest(w.store);
            Step(s.g, s.entry, s.mode, w, Answer(value)) ==
            World(w.store, Some(Resumed(c, Deliver(value, c.pending, c.resume))))
  {
  }

  // ----- to the end --------------------------------------------------------------------------------------------------

  /** The questions still open in the superstep an execution is at. */
  ghost function OpenNow(s: Setting, run: RunState, resume: Resume): nat {
    if Plan(s.g, Settle(s.g, run)).Ok? && AllReturn(JobsNow(s, run), s.oracle, run.step) then
      AllOpen(s, run.step, JobsNow(s, run), resume)
    else 0
  }

  /** Answering the first question of a pause leaves fewer open. */
  lemma {:induction false} AnswerClosesOne(s: Setting, run: RunState, session: Suspension.Session,
        markers: seq<Interrupt>, answer: Value)
    requires Plan(s.g, Settle(s.g, run)).Ok? && AllReturn(JobsNow(s, run), s.oracle, run.step)
    requires Settle(s.g, Settle(s.g, run)) == Settle(s.g, run) && Settle(s.g, run).step == run.step
    requires Truthful(s, session.resume, run.step) && markers != []
    requires markers == Suspension.Markers(Suspension.Outcomes(JobsNow(s, run), session))
    ensures Pends(markers, markers[0].id)
    ensures OpenNow(s, Settle(s.g, run), Append(session.resume, TaskOf(markers, markers[0].id), answer)) <
            OpenNow(s, run, session.resume)
  {
    hide Plan, Jobs, Settle, Truthful, AllReturn, AllOpen, Open;
    assert markers[0] in markers;
    var m := Suspension.TaskOfProper(markers, markers[0].id);
    MarkerIsOpen(s, run.step, JobsNow(s, run), session, m);
    AnswerCloses(s, run.step, JobsNow(s, run), session.resume, m.taskId, answer);
  }

  lemma {:induction false} SettleTwice(s: Setting, owner: Owner, w: World)
    requires ValidGraph(s.g) && SoundWorld(s, owner, w) && w.live.Some?
    ensures Settle(s.g, Settle(s.g, w.live.value.run)) == Settle(s.g, w.live.value.run)
    ensures Settle(s.g, w.live.value.run).step == w.live.value.run.step
  {
    ReadyIsAt(s, owner, w);
    hide SoundWorld, AtReference, Truthful;
    ReferenceJobsDistinct(s, w.live.value.run);
  }

  lemma {:induction false} RestoredPause(w: World)
    requires w.live.Some? && w.live.value.phase.Pausing?
    ensures var c := PauseOf(w);
            && Restored(c) == w.live.value.run && c.pending == w.live.value.phase.markers
            && c.resume == w.live.value.resume && c.step + 1 == w.live.value.run.step
  {
  }

  /** From any execution between supersteps: run the tasks, answer what they ask, and go on until nothing is
      scheduled. */
  lemma {:induction false} LiveCanFinish(s: Setting, owner: Owner, w: World, last: nat, end: RunState)
    requires ValidGraph(s.g) && Ready(s, owner, w) && Ends(s, last, end)
    ensures CanFinish(s, w)
    decreases if w.live.Some? then last - w.live.value.run.step else 0,
              if w.live.Some? then OpenNow(s, w.live.value.run, w.live.value.resume) else 0
  {
    hide CanFinish, SoundWorld, Ends, Step, Truthful, AtReference, OpenNow, Plan, Settle, Done, Honest, AllReturn;
    var live := w.live.value;
    ReadyIsAt(s, owner, w);
    PlannedAhead(s, live.run, last, end);
    if live.run.step == last {
      AtTheEnd(s, w);
    } else {
      var jobs := JobsNow(s, live.run);
      ExecuteAll(s, w);
      SettleTwice(s, owner, w);
      HonestQuietly(s, w, Everyone(jobs));
      var owner1 := StepSound(s, owner, w, Everyone(jobs));
      var w1 := Step(s.g, s.entry, s.mode, w, Everyone(jobs));
      if w1.live.value.phase.Merging? {
        MergeSucceeds(s, owner1, w1, last, end);
        Advances(s, w1);
        HonestQuietly(s, w1, Advance);
        var owner2 := StepSound(s, owner1, w1, Advance);
        var w2 := Step(s.g, s.entry, s.mode, w1, Advance);
        LiveCanFinish(s, owner2, w2, last, end);
        Back(s, w1, Advance);
      } else {
        var session := SessionOf(w);
        var owner2, saved := SaveThePause(s, owner1, w1);
        RestoredPause(w1);
        var owner3, next := AnswerThePause(s, owner2, saved);
        var markers := w1.live.value.phase.markers;
        var task := TaskOf(markers, markers[0].id);
        AnswerClosesOne(s, live.run, session, markers, s.oracle(live.run.step, task, |AnswersFor(live.resume, task)|));
        LiveCanFinish(s, owner3, next, last, end);
      }
      Back(s, w, Everyone(jobs));
    }
  }

  lemma {:induction false} HonestQuietly(s: Setting, w: World, e: Event)
    requires !e.Answer?
    ensures Honest(s, w, e)
  {
  }

  /** A world with nothing in memory: start it, or answer the question it waits for. */
  lemma {:induction false} AtRestCanFinish(s: Setting, owner: Owner, w: World, last: nat, end: RunState)
    requires ValidGraph(s.g) && SoundWorld(s, owner, w) && w.live.None? && Ends(s, last, end)
    ensures CanFinish(s, w)
  {
    hide CanFinish, SoundWorld, Truthful, AtReference, Settle, Plan, Entered, Commit, Undisturbed;
    if w.store.saved != [] && Latest(w.store).pending != [] {
      var owner', next := AnswerThePause(s, owner, w);
      LiveCanFinish(s, owner', next, last, end);
    } else {
      FirstIsOk(s, last);
      HonestQuietly(s, w, Start);
      var owner' := StepSound(s, owner, w, Start);
      var next := Step(s.g, s.entry, s.mode, w, Start);
      IsReady(s, owner', next);
      LiveCanFinish(s, owner', next, last, end);
      Back(s, w, Start);
    }
  }

  lemma {:induction false} FirstIsOk(s: Setting, last: nat)
    requires Reference(s.g, s.entry, s.oracle, last).Ok?
    ensures Entered(s.g, s.entry).Ok?
  {
    hide Entered, Undisturbed;
    if last > 0 {
      ReferenceGoesOn(s, 0, last);
    }
  }

  lemma {:induction false} SplitTrace(s: Setting, w: World, a: seq<Event>, b: seq<Event>)
    ensures Trace(s.g, s.entry, s.mode, w, a + b) == Trace(s.g, s.entry, s.mode, Trace(s.g, s.entry, s.mode, w, a), b)
    ensures AllHonest(s, w, a) && AllHonest(s, Trace(s.g, s.entry, s.mode, w, a), b) ==> AllHonest(s, w, a + b)
    decreases |a|
  {
    hide Step, Honest;
    if a == [] {
      assert a + b == b;
    } else {
      assert (a + b)[1..] == a[1..] + b;
      SplitTrace(s, Step(s.g, s.entry, s.mode, w, a[0]), a[1..], b);
    }
  }

  /** However a run has been disturbed so far, it can be brought to an end if and only if the failure-free run ends;
      and then it ends with the same state, schedule, join progress and versions. */
  lemma {:induction false} CompletesExactlyWhenReferenceEnds(s: Setting, past: seq<Event>)
    requires ValidGraph(s.g) && AllHonest(s, FRESH, past)
    ensures CanFinish(s, Trace(s.g, s.entry, s.mode, FRESH, past)) <==> exists last, end :: Ends(s, last, end)
    ensures forall future, last, end ::
              AllHonest(s, Trace(s.g, s.entry, s.mode, FRESH, past), future) && Ends(s, last, end) ==>
                var w := Trace(s.g, s.entry, s.mode, FRESH, past + future);
                Finished(w) ==> w.live.value.run == end
  {
    hide Step, Honest, SoundWorld, Ends;
    var w := Trace(s.g, s.entry, s.mode, FRESH, past);
    if last, end :| Ends(s, last, end) {
      var owner := TraceSound(s, map[], FRESH, past);
      HonestQuietly(s, w, Crash);
      var owner' := StepSound(s, owner, w, Crash);
      CrashRests(s, w);
      AtRestCanFinish(s, owner', Step(s.g, s.entry, s.mode, w, Crash), last, end);
      Back(s, w, Crash);
    }
    if CanFinish(s, w) {
      var future :| AllHonest(s, w, future) && Finished(Trace(s.g, s.entry, s.mode, w, future));
      SplitTrace(s, FRESH, past, future);
      FailureTransparency(s, past + future);
    }
    forall future, last, end |
      AllHonest(s, w, future) && Ends(s, last, end) && Finished(Trace(s.g, s.entry, s.mode, FRESH, past + future))
      ensures Trace(s.g, s.entry, s.mode, FRESH, past + future).live.value.run == end
    {
      SplitTrace(s, FRESH, past, future);
      FailureTransparency(s, past + future);
      var run := Trace(s.g, s.entry, s.mode, FRESH, past + future).live.value.run;
      EndIsUnique(s, run.step, run, last, end);
    }
  }

  lemma {:induction false} CrashRests(s: Setting, w: World)
    ensures Step(s.g, s.entry, s.mode, w, Crash) == World(w.store, None)
  {
  }
}
