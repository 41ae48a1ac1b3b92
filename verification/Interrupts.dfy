/** Dynamic interrupts: replaying a node with its recorded answers (types.py, graph/executor.py). */
module Interrupts {
  import opened Prelude

  type TaskId = string

  datatype Send = Send(node: string, arg: Value)

  datatype Target = Goto(node: string) | SendTo(send: Send)

  /** What a node does next: ask a question and wait, or return its update and its jumps. */
  datatype Action = Ask(question: Value) | Return(update: map<Key, Value>, goto: seq<Target>)

  /** A deterministic node body on a fixed input: the answers it has received decide what it does next. */
  type Body = seq<Value> -> Action

  datatype Interrupt = Interrupt(value: Value, id: string, taskId: TaskId)

  function MarkerId(task: TaskId, index: nat): string { task + ":" + Digits(index) }

  // ----- replay ---------------------------------------------------------------------------

  /** Re-running a body from its start: the i-th question is answered by the i-th recorded answer. */
  function Replay(body: Body, answers: seq<Value>, i: nat): Action
    requires i <= |answers|
    decreases |answers| - i
  {
    var action := body(answers[..i]);
    if action.Ask? && i < |answers| then Replay(body, answers, i + 1) else action
  }

  datatype Signal = Answered(value: Value) | Raised(marker: Interrupt) | Unsupported

  class InterruptContext {
    const resumable: bool
    const resumeValues: seq<Value>
    const taskId: TaskId
    var callIndex: nat

    constructor (resumable: bool, resumeValues: seq<Value>, taskId: TaskId)
      ensures this.resumable == resumable && this.resumeValues == resumeValues && this.taskId == taskId
      ensures callIndex == 0
    {
      this.resumable := resumable;
      this.resumeValues := resumeValues;
      this.taskId := taskId;
      callIndex := 0;
    }

    /** `interrupt(value)`: answer the question from the recorded values, or raise its marker. */
    method Ask(question: Value) returns (signal: Signal)
      modifies this`callIndex
      ensures !resumable ==> signal == Unsupported && callIndex == old(callIndex)
      ensures resumable ==> callIndex == old(callIndex) + 1
      ensures resumable ==>
                signal == if old(callIndex) < |resumeValues| then Answered(resumeValues[old(callIndex)])
                          else Raised(Interrupt(question, MarkerId(taskId, old(callIndex)), taskId))
    {
      if !resumable { return Unsupported; }
      var index := callIndex;
      callIndex := callIndex + 1;
      if index < |resumeValues| { return Answered(resumeValues[index]); }
      return Raised(Interrupt(question, MarkerId(taskId, index), taskId));
    }
  }

  datatype Outcome =
    | Finished(update: map<Key, Value>, goto: seq<Target>)
    | Waiting(marker: Interrupt)
    | Failed

  /** The outcome of one execution of a task that raises nothing but interrupts. */
  function Observe(body: Body, answers: seq<Value>, task: TaskId): Outcome {
    match Replay(body, answers, 0)
    case Ask(question) => Waiting(Interrupt(question, MarkerId(task, |answers|), task))
    case Return(update, goto) => Finished(update, goto)
  }

  /** `_attempt`: run the body again from its start, with the call index reset, after each transient
      exception.  `faults[a]` is the number of answers attempt `a` takes before it raises; attempts
      past the end of `faults` do not raise.  Retries are invisible: unless every attempt raised, the
      outcome is that of a single undisturbed execution. */
  method Attempt(body: Body, context: InterruptContext, faults: seq<nat>, maxAttempts: nat)
    returns (outcome: Outcome)
    requires context.resumable && maxAttempts >= 1
    modifies context`callIndex
    ensures outcome == Failed || outcome == Observe(body, context.resumeValues, context.taskId)
    ensures |faults| < maxAttempts ==> outcome != Failed
  {
    var answers := context.resumeValues;
    for attempt := 0 to maxAttempts
      invariant attempt <= |faults|
    {
      context.callIndex := 0;
      var received: seq<Value> := [];
      var raised := false;
      while !raised
        invariant |received| == context.callIndex <= |answers|
        invariant received == answers[..|received|]
        invariant raised ==> attempt < |faults|
        invariant Replay(body, answers, |received|) == Replay(body, answers, 0)
        decreases |answers| - |received|, !raised
      {
        if attempt < |faults| && |received| >= faults[attempt] {
          raised := true;
        } else {
          var action := body(received);
          if action.Return? { return Finished(action.update, action.goto); }
          var signal := context.Ask(action.question);
          if signal.Raised? { return Waiting(signal.marker); }
          received := received + [signal.value];
        }
      }
    }
    return Failed;
  }

  // ----- suspended coroutines ----------------------------------------------------------------

  /** Every answer given so far answered a question: the body is where a coroutine suspended at its
      last question would be. */
  ghost predicate InStep(body: Body, received: seq<Value>) {
    forall j :: 0 <= j < |received| ==> body(received[..j]).Ask?
  }

  lemma {:induction false} ReplayFrom(body: Body, received: seq<Value>, i: nat)
    requires InStep(body, received) && i <= |received|
    ensures Replay(body, received, i) == body(received)
    decreases |received| - i
  {
    if i == |received| {
      assert received[..i] == received;
    } else {
      ReplayFrom(body, received, i + 1);
    }
  }

  // ----- routing answers -------------------------------------------------------------------

  type Resume = map<TaskId, seq<Value>>

  function AnswersFor(resume: Resume, task: TaskId): seq<Value> {
    if task in resume then resume[task] else []
  }

  function Append(resume: Resume, task: TaskId, answer: Value): Resume {
    resume[task := AnswersFor(resume, task) + [answer]]
  }

  predicate Pends(pending: seq<Interrupt>, id: string) {
    exists m :: m in pending && m.id == id
  }

  /** The task whose marker a pending id names; a later marker replaces an earlier one. */
  function TaskOf(pending: seq<Interrupt>, id: string): TaskId
    requires Pends(pending, id)
  {
    if pending[|pending| - 1].id == id then pending[|pending| - 1].taskId
    else TaskOf(pending[..|pending| - 1], id)
  }

  predicate Routes(value: Value, pending: seq<Interrupt>) {
    value.Dict? && value.entries != [] &&
    forall e :: e in value.entries ==> Pends(pending, e.0)
  }

  function DeliverEach(entries: seq<(string, Value)>, pending: seq<Interrupt>, resume: Resume): Resume
    requires forall e :: e in entries ==> Pends(pending, e.0)
    decreases |entries|
  {
    if entries == [] then resume
    else DeliverEach(entries[1..], pending, Append(resume, TaskOf(pending, entries[0].0), entries[0].1))
  }

  /** A dictionary of pending ids answers each of them; any other value answers the first one. */
  function Deliver(value: Value, pending: seq<Interrupt>, resume: Resume): Resume
    requires pending != []
  {
    if Routes(value, pending) then DeliverEach(value.entries, pending, resume)
    else Append(resume, pending[0].taskId, value)
  }

  lemma {:induction false} PendsLast(pending: seq<Interrupt>, m: Interrupt, id: string)
    ensures Pends(pending + [m], id) <==> id == m.id || Pends(pending, id)
    ensures Pends(pending + [m], id) ==>
              TaskOf(pending + [m], id) == if id == m.id then m.taskId else TaskOf(pending, id)
  {
    assert (pending + [m])[..|pending|] == pending;
    assert forall n :: n in pending + [m] <==> n == m || n in pending;
  }

  /** The markers by id, as a dictionary comprehension over them builds it. */
  method PendingIds(pending: seq<Interrupt>) returns (byId: map<string, TaskId>)
    ensures forall id :: id in byId <==> Pends(pending, id)
    ensures forall id :: id in byId ==> byId[id] == TaskOf(pending, id)
  {
    byId := map[];
    for i := 0 to |pending|
      invariant forall id :: id in byId <==> Pends(pending[..i], id)
      invariant forall id :: id in byId ==> byId[id] == TaskOf(pending[..i], id)
    {
      assert pending[..i + 1] == pending[..i] + [pending[i]];
      forall id {
        PendsLast(pending[..i], pending[i], id);
      }
      byId := byId[pending[i].id := pending[i].taskId];
    }
    assert pending[..|pending|] == pending;
  }

  method DeliverResume(value: Value, pending: seq<Interrupt>, resume: Resume) returns (delivered: Resume)
    requires pending != []
    ensures delivered == Deliver(value, pending, resume)
  {
    var byId := PendingIds(pending);
    delivered := resume;
    if value.Dict? && value.entries != [] && forall e :: e in value.entries ==> e.0 in byId {
      for i := 0 to |value.entries|
        invariant DeliverEach(value.entries[i..], pending, delivered) == DeliverEach(value.entries, pending, resume)
      {
        var entry := value.entries[i];
        assert value.entries[i..][1..] == value.entries[i + 1..];
        delivered := Append(delivered, byId[entry.0], entry.1);
      }
    } else {
      delivered := Append(delivered, pending[0].taskId, value);
    }
  }
}
