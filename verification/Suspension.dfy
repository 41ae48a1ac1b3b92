/** Replay equals suspension: one superstep whose parallel tasks ask questions, run by the engine
    (re-execution with recorded answers, finished siblings reused) and by coroutines that stay
    suspended where they asked (types.py, graph/executor.py). */
module Suspension {
  import opened Prelude
  import opened Interrupts

  datatype Job = Job(id: TaskId, body: Body)

  type Return = (map<Key, Value>, seq<Target>)

  predicate DistinctIds(jobs: seq<Job>) {
    forall i, j :: 0 <= i < j < |jobs| ==> jobs[i].id != jobs[j].id
  }

  function Markers(outcomes: seq<Outcome>): seq<Interrupt> {
    if outcomes == [] then []
    else (if outcomes[0].Waiting? then [outcomes[0].marker] else []) + Markers(outcomes[1..])
  }

  // ----- the engine ---------------------------------------------------------------------------

  /** The results stored for the superstep, and the answers recorded so far. */
  datatype Session = Session(finished: map<TaskId, Return>, resume: Resume)

  /** One execution of the superstep: stored results are reused, the other tasks run from their start. */
  function JobOutcome(job: Job, s: Session): Outcome {
    if job.id in s.finished then Finished(s.finished[job.id].0, s.finished[job.id].1)
    else Observe(job.body, AnswersFor(s.resume, job.id), job.id)
  }

  function Outcomes(jobs: seq<Job>, s: Session): seq<Outcome> {
    seq(|jobs|, i requires 0 <= i < |jobs| => JobOutcome(jobs[i], s))
  }

  /** The tasks whose body this execution calls. */
  function Executed(jobs: seq<Job>, s: Session): set<TaskId> {
    set i | 0 <= i < |jobs| && jobs[i].id !in s.finished :: jobs[i].id
  }

  /** The results stored with the pause: every task that finished. */
  function Stored(jobs: seq<Job>, s: Session): map<TaskId, Return>
    decreases |jobs|
  {
    if jobs == [] then s.finished
    else
      var outcome := JobOutcome(jobs[0], s);
      var rest := Stored(jobs[1..], s);
      if outcome.Finished? then rest[jobs[0].id := (outcome.update, outcome.goto)] else rest
  }

  /** Run the superstep and, as long as it pauses, resume it with the next answer. */
  function EngineRun(jobs: seq<Job>, answers: seq<Value>, s: Session): Session
    decreases |answers|
  {
    var pending := Markers(Outcomes(jobs, s));
    if answers == [] || pending == [] then s
    else EngineRun(jobs, answers[1..], Session(Stored(jobs, s), Deliver(answers[0], pending, s.resume)))
  }

  // ----- the coroutines -----------------------------------------------------------------------

  /** Where a suspended coroutine is after the answers it has received. */
  function Suspended(job: Job, received: Resume): Outcome {
    var answers := AnswersFor(received, job.id);
    match job.body(answers)
    case Ask(question) => Waiting(Interrupt(question, MarkerId(job.id, |answers|), job.id))
    case Return(update, goto) => Finished(update, goto)
  }

  function AllSuspended(jobs: seq<Job>, received: Resume): seq<Outcome> {
    seq(|jobs|, i requires 0 <= i < |jobs| => Suspended(jobs[i], received))
  }

  function CoroutineRun(jobs: seq<Job>, answers: seq<Value>, received: Resume): Resume
    decreases |answers|
  {
    var pending := Markers(AllSuspended(jobs, received));
    if answers == [] || pending == [] then received
    else CoroutineRun(jobs, answers[1..], Deliver(answers[0], pending, received))
  }

  // ----- routing never answers twice ------------------------------------------------------------

  /** A Python dictionary has no repeated key. */
  predicate IsPython(value: Value) {
    value.Dict? ==> forall i, j :: 0 <= i < j < |value.entries| ==> value.entries[i].0 != value.entries[j].0
  }

  /** Markers of different tasks, with different ids. */
  predicate Proper(pending: seq<Interrupt>) {
    forall i, j :: 0 <= i < j < |pending| ==>
      pending[i].taskId != pending[j].taskId && pending[i].id != pending[j].id
  }

  ghost predicate Originates(jobs: seq<Job>, outcomes: seq<Outcome>, m: Interrupt)
    requires |outcomes| == |jobs|
  {
    exists i :: 0 <= i < |jobs| && jobs[i].id == m.taskId && outcomes[i] == Waiting(m)
  }

  lemma {:induction false} MarkersCome(jobs: seq<Job>, outcomes: seq<Outcome>, m: Interrupt)
    requires |outcomes| == |jobs| && m in Markers(outcomes)
    requires forall i :: 0 <= i < |jobs| && outcomes[i].Waiting? ==> outcomes[i].marker.taskId == jobs[i].id
    ensures Originates(jobs, outcomes, m)
    decreases |jobs|
  {
    if outcomes[0] != Waiting(m) {
      MarkersCome(jobs[1..], outcomes[1..], m);
      var i :| 0 <= i < |jobs[1..]| && jobs[1..][i].id == m.taskId && outcomes[1..][i] == Waiting(m);
      assert jobs[i + 1] == jobs[1..][i] && outcomes[i + 1] == outcomes[1..][i];
    }
  }

  lemma {:induction false} MarkerIdsDiffer(a: Job, b: Job, received: Resume)
    requires a.id != b.id && Suspended(a, received).Waiting? && Suspended(b, received).Waiting?
    ensures Suspended(a, received).marker.id != Suspended(b, received).marker.id
  {
    var m, n := |AnswersFor(received, a.id)|, |AnswersFor(received, b.id)|;
    if MarkerId(a.id, m) == MarkerId(b.id, n) {
      SplitAtSeparator(a.id, m, b.id, n, ':');
    }
  }

  /** The marker of the first job differs from those of the others. */
  lemma {:induction false} FirstMarkerDiffers(jobs: seq<Job>, outcomes: seq<Outcome>, received: Resume, m: Interrupt)
    requires DistinctIds(jobs) && |outcomes| == |jobs| && jobs != [] && outcomes[0].Waiting?
    requires forall i :: 0 <= i < |jobs| ==> outcomes[i] == Suspended(jobs[i], received)
    requires m in Markers(outcomes[1..])
    ensures m.taskId != outcomes[0].marker.taskId && m.id != outcomes[0].marker.id
  {
    hide MarkerId, Markers;
    var later, rest := jobs[1..], outcomes[1..];
    MarkersCome(later, rest, m);
    var i :| 0 <= i < |later| && later[i].id == m.taskId && rest[i] == Waiting(m);
    assert later[i] == jobs[i + 1] && rest[i] == Suspended(jobs[i + 1], received);
    MarkerIdsDiffer(jobs[0], jobs[i + 1], received);
  }

  lemma {:induction false} ProperOneMore(first: Interrupt, pending: seq<Interrupt>)
    requires Proper(pending) && forall m :: m in pending ==> m.taskId != first.taskId && m.id != first.id
    ensures Proper([first] + pending)
  {
  }

  lemma {:induction false} MarkersProper(jobs: seq<Job>, outcomes: seq<Outcome>, received: Resume)
    requires DistinctIds(jobs) && |outcomes| == |jobs|
    requires forall i :: 0 <= i < |jobs| ==> outcomes[i] == Suspended(jobs[i], received)
    ensures Proper(Markers(outcomes))
    decreases |jobs|
  {
    hide Proper, Suspended;
    if jobs == [] {
      assert Proper([]) by {
        NothingIsProper();
      }
    } else {
      MarkersProper(jobs[1..], outcomes[1..], received);
      if outcomes[0].Waiting? {
        forall m | m in Markers(outcomes[1..])
          ensures m.taskId != outcomes[0].marker.taskId && m.id != outcomes[0].marker.id
        {
          FirstMarkerDiffers(jobs, outcomes, received, m);
        }
        ProperOneMore(outcomes[0].marker, Markers(outcomes[1..]));
      } else {
        assert Markers(outcomes) == [] + Markers(outcomes[1..]) == Markers(outcomes[1..]);
      }
    }
  }

  lemma {:induction false} NothingIsProper()
    ensures Proper([])
  {
  }

  lemma {:induction false} MarkersOrigin(jobs: seq<Job>, outcomes: seq<Outcome>, received: Resume)
    requires DistinctIds(jobs) && |outcomes| == |jobs|
    requires forall i :: 0 <= i < |jobs| ==> outcomes[i] == Suspended(jobs[i], received)
    ensures Proper(Markers(outcomes))
    ensures forall m :: m in Markers(outcomes) ==> Originates(jobs, outcomes, m)
  {
    MarkersProper(jobs, outcomes, received);
    forall m | m in Markers(outcomes)
      ensures Originates(jobs, outcomes, m)
    {
      MarkersCome(jobs, outcomes, m);
    }
  }

  lemma {:induction false} TaskOfProper(pending: seq<Interrupt>, id: string) returns (m: Interrupt)
    requires Pends(pending, id)
    ensures m in pending && m.id == id && m.taskId == TaskOf(pending, id)
    decreases |pending|
  {
    var last := |pending| - 1;
    if pending[last].id == id {
      m := pending[last];
    } else {
      var n :| n in pending && n.id == id;
      assert pending == pending[..last] + [pending[last]];
      assert n in pending[..last];
      m := TaskOfProper(pending[..last], id);
    }
  }

  /** The answers a dictionary adds to one task: at most one, and only to a task that is waiting. */
  lemma {:induction false} DeliverEachAddsOne(entries: seq<(string, Value)>, pending: seq<Interrupt>,
        resume: Resume, task: TaskId)
    requires forall e :: e in entries ==> Pends(pending, e.0)
    requires IsPython(Dict(entries)) && Proper(pending)
    ensures var before, after := AnswersFor(resume, task), AnswersFor(DeliverEach(entries, pending, resume), task);
            || after == before
            || (exists e, m :: e in entries && m in pending && m.taskId == task && m.id == e.0 &&
                               after == before + [e.1])
    decreases |entries|
  {
    if entries != [] {
      var e := entries[0];
      var m := TaskOfProper(pending, e.0);
      var resume' := Append(resume, m.taskId, e.1);
      var rest := entries[1..];
      assert IsPython(Dict(rest)) by {
        assert forall i :: 0 <= i < |rest| ==> rest[i] == entries[i + 1];
      }
      DeliverEachAddsOne(rest, pending, resume', task);
      assert forall x :: x in pending && x.taskId == m.taskId ==> x == m;
      forall x | x in rest
        ensures x.0 != e.0
      {
        var i :| 0 <= i < |rest| && rest[i] == x;
        assert entries[i + 1] == x;
      }
    }
  }

  /** A resume value leaves each task's answers alone or appends one to a task that is waiting. */
  lemma {:induction false} DeliverAddsOne(value: Value, pending: seq<Interrupt>, resume: Resume, task: TaskId)
    requires pending != [] && Proper(pending) && IsPython(value)
    ensures var before, after := AnswersFor(resume, task), AnswersFor(Deliver(value, pending, resume), task);
            || after == before
            || (exists m, answer :: m in pending && m.taskId == task && after == before + [answer])
  {
    if Routes(value, pending) {
      DeliverEachAddsOne(value.entries, pending, resume, task);
    } else if task == pending[0].taskId {
      assert AnswersFor(Deliver(value, pending, resume), task) == AnswersFor(resume, task) + [value];
      assert pending[0] in pending;
    }
  }

  // ----- the two runs agree -------------------------------------------------------------------------

  /** The stored results are those of the coroutines, which have answered questions only. */
  ghost predicate Faithful(jobs: seq<Job>, s: Session) {
    forall i :: 0 <= i < |jobs| ==>
      var job := jobs[i];
      && InStep(job.body, AnswersFor(s.resume, job.id))
      && (job.id in s.finished ==> Suspended(job, s.resume) == Finished(s.finished[job.id].0, s.finished[job.id].1))
  }

  lemma {:induction false} FaithfulOutcomes(jobs: seq<Job>, s: Session)
    requires Faithful(jobs, s)
    ensures Outcomes(jobs, s) == AllSuspended(jobs, s.resume)
  {
    forall i | 0 <= i < |jobs|
      ensures JobOutcome(jobs[i], s) == Suspended(jobs[i], s.resume)
    {
      ReplayFrom(jobs[i].body, AnswersFor(s.resume, jobs[i].id), 0);
    }
  }

  lemma {:induction false} StoredIsSuspended(jobs: seq<Job>, all: seq<Job>, s: Session, k: nat)
    requires k <= |all| && jobs == all[k..] && DistinctIds(all) && Faithful(all, s)
    ensures forall i :: 0 <= i < |all| && all[i].id in Stored(jobs, s) ==>
              Suspended(all[i], s.resume) == Finished(Stored(jobs, s)[all[i].id].0, Stored(jobs, s)[all[i].id].1)
    ensures s.finished.Keys <= Stored(jobs, s).Keys
    ensures forall i :: k <= i < |all| && Suspended(all[i], s.resume).Finished? ==> all[i].id in Stored(jobs, s)
    decreases |jobs|
  {
    if jobs != [] {
      FaithfulOutcomes(all, s);
      assert Outcomes(all, s)[k] == AllSuspended(all, s.resume)[k];
      StoredIsSuspended(jobs[1..], all, s, k + 1);
    }
  }

  /** A task that receives an answer was waiting for one. */
  lemma {:induction false} ResumeJob(jobs: seq<Job>, s: Session, value: Value, i: nat)
    requires DistinctIds(jobs) && IsPython(value) && i < |jobs|
    requires InStep(jobs[i].body, AnswersFor(s.resume, jobs[i].id))
    requires Outcomes(jobs, s) == AllSuspended(jobs, s.resume)
    requires Markers(Outcomes(jobs, s)) != []
    ensures var resume' := Deliver(value, Markers(Outcomes(jobs, s)), s.resume);
            && InStep(jobs[i].body, AnswersFor(resume', jobs[i].id))
            && (Suspended(jobs[i], s.resume).Finished? ==> Suspended(jobs[i], resume') == Suspended(jobs[i], s.resume))
  {
    var outcomes := Outcomes(jobs, s);
    MarkersOrigin(jobs, outcomes, s.resume);
    var resume' := Deliver(value, Markers(outcomes), s.resume);
    var before, after := AnswersFor(s.resume, jobs[i].id), AnswersFor(resume', jobs[i].id);
    DeliverAddsOne(value, Markers(outcomes), s.resume, jobs[i].id);
    if after != before {
      var m, answer :| m in Markers(outcomes) && m.taskId == jobs[i].id && after == before + [answer];
      var j :| 0 <= j < |jobs| && jobs[j].id == m.taskId && outcomes[j] == Waiting(m);
      assert i == j && outcomes[j] == Suspended(jobs[i], s.resume);
      forall k | 0 <= k < |after|
        ensures jobs[i].body(after[..k]).Ask?
      {
        assert after[..k] == if k < |before| then before[..k] else before;
      }
    }
  }

  /** One pause and resume: the stored results stay those of the coroutines, and every task keeps
      having answered questions only. */
  lemma {:induction false} ResumeKeepsFaithful(jobs: seq<Job>, s: Session, value: Value)
    requires DistinctIds(jobs) && Faithful(jobs, s) && IsPython(value)
    requires Markers(Outcomes(jobs, s)) != []
    ensures Faithful(jobs, Session(Stored(jobs, s), Deliver(value, Markers(Outcomes(jobs, s)), s.resume)))
  {
    hide Deliver, Markers, InStep;
    FaithfulOutcomes(jobs, s);
    StoredIsSuspended(jobs, jobs, s, 0);
    forall i | 0 <= i < |jobs|
      ensures var resume' := Deliver(value, Markers(Outcomes(jobs, s)), s.resume);
              && InStep(jobs[i].body, AnswersFor(resume', jobs[i].id))
              && (Suspended(jobs[i], s.resume).Finished? ==>
                    Suspended(jobs[i], resume') == Suspended(jobs[i], s.resume))
    {
      ResumeJob(jobs, s, value, i);
    }
  }

  /** Over any number of questions in any number of parallel tasks, re-execution with recorded answers
      and suspended coroutines give the same outcomes, so the same updates and jumps in the end. */
  lemma {:induction false} ReplayEqualsSuspension(jobs: seq<Job>, answers: seq<Value>, s: Session)
    requires DistinctIds(jobs) && Faithful(jobs, s)
    requires forall v :: v in answers ==> IsPython(v)
    ensures var s' := EngineRun(jobs, answers, s);
            && Faithful(jobs, s')
            && s'.resume == CoroutineRun(jobs, answers, s.resume)
            && Outcomes(jobs, s') == AllSuspended(jobs, CoroutineRun(jobs, answers, s.resume))
    decreases |answers|
  {
    FaithfulOutcomes(jobs, s);
    var pending := Markers(Outcomes(jobs, s));
    if answers != [] && pending != [] {
      ResumeKeepsFaithful(jobs, s, answers[0]);
      ReplayEqualsSuspension(jobs, answers[1..], Session(Stored(jobs, s), Deliver(answers[0], pending, s.resume)));
    }
  }

  /** A superstep that has not run yet starts with nothing stored and nothing answered. */
  lemma {:induction false} FreshSessionIsFaithful(jobs: seq<Job>)
    ensures Faithful(jobs, Session(map[], map[]))
  {
    forall i | 0 <= i < |jobs|
      ensures InStep(jobs[i].body, AnswersFor(map[], jobs[i].id))
    {
    }
  }

  /** A task that has finished is not executed again after a resume, whatever the answer. */
  lemma {:induction false} FinishedSiblingsAreNotRerun(jobs: seq<Job>, s: Session, value: Value, i: nat)
    requires DistinctIds(jobs) && Faithful(jobs, s) && i < |jobs|
    requires Markers(Outcomes(jobs, s)) != [] && Outcomes(jobs, s)[i].Finished?
    ensures jobs[i].id !in
            Executed(jobs, Session(Stored(jobs, s), Deliver(value, Markers(Outcomes(jobs, s)), s.resume)))
  {
    FaithfulOutcomes(jobs, s);
    StoredIsSuspended(jobs, jobs, s, 0);
    assert AllSuspended(jobs, s.resume)[i].Finished?;
  }

  // ----- counting questions ------------------------------------------------------------------------------

  function AnswersGiven(jobs: seq<Job>, resume: Resume): nat {
    if jobs == [] then 0 else |AnswersFor(resume, jobs[0].id)| + AnswersGiven(jobs[1..], resume)
  }

  lemma {:induction false} AppendCounts(jobs: seq<Job>, resume: Resume, i: nat, answer: Value)
    requires DistinctIds(jobs) && i < |jobs|
    ensures AnswersGiven(jobs, Append(resume, jobs[i].id, answer)) == AnswersGiven(jobs, resume) + 1
    decreases |jobs|
  {
    var resume' := Append(resume, jobs[i].id, answer);
    if i == 0 {
      SameAnswers(jobs[1..], resume, resume');
    } else {
      assert jobs[1..][i - 1] == jobs[i];
      AppendCounts(jobs[1..], resume, i - 1, answer);
    }
  }

  lemma {:induction false} SameAnswers(jobs: seq<Job>, a: Resume, b: Resume)
    requires forall i :: 0 <= i < |jobs| ==> AnswersFor(a, jobs[i].id) == AnswersFor(b, jobs[i].id)
    ensures AnswersGiven(jobs, a) == AnswersGiven(jobs, b)
    decreases |jobs|
  {
    if jobs != [] {
      assert forall i :: 0 <= i < |jobs[1..]| ==> jobs[1..][i] == jobs[i + 1];
      SameAnswers(jobs[1..], a, b);
    }
  }

  ghost predicate Owned(jobs: seq<Job>, pending: seq<Interrupt>) {
    forall m :: m in pending ==> exists i :: 0 <= i < |jobs| && jobs[i].id == m.taskId
  }

  lemma {:induction false} DeliverEachCounts(jobs: seq<Job>, entries: seq<(string, Value)>,
        pending: seq<Interrupt>, resume: Resume)
    requires DistinctIds(jobs) && Owned(jobs, pending)
    requires forall e :: e in entries ==> Pends(pending, e.0)
    ensures AnswersGiven(jobs, DeliverEach(entries, pending, resume)) == AnswersGiven(jobs, resume) + |entries|
    decreases |entries|
  {
    if entries != [] {
      var m := TaskOfProper(pending, entries[0].0);
      var i :| 0 <= i < |jobs| && jobs[i].id == m.taskId;
      AppendCounts(jobs, resume, i, entries[0].1);
      DeliverEachCounts(jobs, entries[1..], pending, Append(resume, m.taskId, entries[0].1));
    }
  }

  /** The full list of answers a task will receive: every question on the way is asked, and then it returns. */
  ghost predicate Script(job: Job, script: seq<Value>) {
    InStep(job.body, script) && job.body(script).Return?
  }

  /** The questions still open, when `scripts[i]` is the full list of answers of task `i`. */
  function Unanswered(jobs: seq<Job>, scripts: seq<seq<Value>>, resume: Resume): int
    requires |jobs| == |scripts|
    decreases |jobs|
  {
    if jobs == [] then 0
    else |scripts[0]| - |AnswersFor(resume, jobs[0].id)| + Unanswered(jobs[1..], scripts[1..], resume)
  }

  lemma {:induction false} UnansweredIsRest(jobs: seq<Job>, scripts: seq<seq<Value>>, a: Resume, b: Resume)
    requires |jobs| == |scripts|
    ensures Unanswered(jobs, scripts, a) + AnswersGiven(jobs, a) == Unanswered(jobs, scripts, b) + AnswersGiven(jobs, b)
    decreases |jobs|
  {
    if jobs != [] {
      UnansweredIsRest(jobs[1..], scripts[1..], a, b);
    }
  }

  /** A plain resume value lowers the number of open questions by exactly one, and a dictionary by
      the number of its entries. */
  lemma {:induction false} ResumeAnswersExactly(jobs: seq<Job>, scripts: seq<seq<Value>>, s: Session, value: Value)
    requires DistinctIds(jobs) && Faithful(jobs, s) && |jobs| == |scripts|
    requires Markers(Outcomes(jobs, s)) != []
    ensures var pending := Markers(Outcomes(jobs, s));
            Unanswered(jobs, scripts, Deliver(value, pending, s.resume)) ==
            Unanswered(jobs, scripts, s.resume) - if Routes(value, pending) then |value.entries| else 1
  {
    FaithfulOutcomes(jobs, s);
    var pending := Markers(Outcomes(jobs, s));
    MarkersOrigin(jobs, Outcomes(jobs, s), s.resume);
    assert Owned(jobs, pending) by {
      forall m | m in pending
        ensures exists i :: 0 <= i < |jobs| && jobs[i].id == m.taskId
      {
        var i :| 0 <= i < |jobs| && jobs[i].id == m.taskId && Outcomes(jobs, s)[i] == Waiting(m);
      }
    }
    if Routes(value, pending) {
      DeliverEachCounts(jobs, value.entries, pending, s.resume);
    } else {
      assert pending[0] in pending;
      var i :| 0 <= i < |jobs| && jobs[i].id == pending[0].taskId;
      AppendCounts(jobs, s.resume, i, value);
    }
    UnansweredIsRest(jobs, scripts, s.resume, Deliver(value, pending, s.resume));
  }

  /** While the answers follow the scripts, no count goes below zero, and a task is waiting exactly
      when one of its questions is open: the superstep completes when none is left. */
  lemma {:induction false} WaitingMeansUnanswered(job: Job, script: seq<Value>, resume: Resume)
    requires Script(job, script) && AnswersFor(resume, job.id) <= script
    ensures Suspended(job, resume).Waiting? <==> |AnswersFor(resume, job.id)| < |script|
  {
    var received := AnswersFor(resume, job.id);
    assert received == script[..|received|];
    if |received| == |script| {
      assert received == script;
    }
  }
}
