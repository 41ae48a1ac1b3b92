/** Crashes, partial supersteps, pauses and restarts of one turn of a thread, beside the run nothing ever disturbs
    (graph/executor.py).  A world is what the checkpointer holds of the turn plus the execution in memory, if any;
    events are the points at which the process can be interrupted. */
module Durability {
  import opened Prelude
  import opened Channels
  import opened Interrupts
  import opened Supersteps
  import Suspension

  // ----- what is durable -----------------------------------------------------------------------

  /** Where results are stored: before the first checkpoint of a thread under the digest of the merged input, before the
      first checkpoint of a later turn under the id of the checkpoint the turn before ended with, and then under the id
      of the checkpoint the superstep started from. */
  datatype CheckpointId = InputId(state: State) | TurnId | SavedId(serial: nat)

  function BaseOf(entry: Entry, state: State): CheckpointId { if entry.Fresh? then InputId(state) else TurnId }

  /** A checkpoint and the metadata stored with it. */
  datatype Checkpoint = Checkpoint(
    id: CheckpointId,
    state: State,
    next: seq<string>,
    sends: seq<Send>,
    step: int,
    pending: seq<Interrupt>,
    versions: map<Key, nat>,
    joins: Joins,
    resume: Resume,
    deferred: set<string>)

  /** `issued` counts the checkpoint ids handed out; ids are never used twice. */
  datatype Store = Store(saved: seq<Checkpoint>, writes: map<CheckpointId, map<TaskId, Return>>, issued: nat)

  const EMPTY := Store([], map[], 0)

  function WritesAt(store: Store, id: CheckpointId): map<TaskId, Return> {
    if id in store.writes then store.writes[id] else map[]
  }

  function PutWrites(store: Store, id: CheckpointId, results: map<TaskId, Return>): Store {
    if results == map[] then store else store.(writes := store.writes[id := WritesAt(store, id) + results])
  }

  // ----- what is in memory -------------------------------------------------------------------------

  datatype Mode = Sync | Async

  datatype Phase =
    | Planning
    | Merging(tasks: seq<Task>, results: seq<Return>)
    | Pausing(markers: seq<Interrupt>, stored: map<TaskId, Return>)
    | Copying(id: CheckpointId, stored: map<TaskId, Return>)

  /** `queue` holds the checkpoints handed to the background writer and not written yet; once a write
      fails (`broken`) the writer performs no other. */
  datatype Live = Live(
    run: RunState,
    resume: Resume,
    base: CheckpointId,
    phase: Phase,
    queue: seq<Checkpoint>,
    broken: bool)

  datatype World = World(store: Store, live: Option<Live>)

  const FRESH := World(EMPTY, None)

  function Restored(c: Checkpoint): RunState {
    RunState(c.state, c.next, c.sends, c.joins, c.deferred, if c.step >= -1 then c.step + 1 else 0, c.versions)
  }

  function Saved(id: CheckpointId, rs: RunState, step: int, pending: seq<Interrupt>, resume: Resume): Checkpoint {
    Checkpoint(id, rs.state, rs.active, rs.sends, step, pending, rs.versions, rs.joins, resume, rs.deferred)
  }

  function Latest(store: Store): Checkpoint
    requires store.saved != []
  {
    store.saved[|store.saved| - 1]
  }

  // ----- events ----------------------------------------------------------------------------------------

  /** `Start` invokes the graph: with the input until a checkpoint is saved, with `None` afterwards.  `Answer` is
      `Command(resume=value)`.  In `Execute` the tasks outside `completing` raise. */
  datatype Event =
    | Start
    | Answer(value: Value)
    | Execute(completing: set<TaskId>)
    | Advance
    | SavePause
    | CopyWrites
    | Persist(ok: bool)
    | Crash

  function Resumed(c: Checkpoint, resume: Resume): Live {
    Live(Restored(c), resume, c.id, Planning, [], false)
  }

  function Begin(g: Graph, entry: Entry, w: World): World {
    if w.live.Some? then w
    else if w.store.saved == [] then
      match Entered(g, entry)
      case Err(_) => w
      case Ok(rs) => w.(live := Some(Live(rs, map[], BaseOf(entry, rs.state), Planning, [], false)))
    else if Latest(w.store).pending != [] then w
    else w.(live := Some(Resumed(Latest(w.store), Latest(w.store).resume)))
  }

  function Reply(value: Value, w: World): World {
    if w.live.Some? || w.store.saved == [] then w
    else
      var c := Latest(w.store);
      var resume := if c.pending == [] then c.resume else Deliver(value, c.pending, c.resume);
      w.(live := Some(Resumed(c, resume)))
  }

  function TaskOutcome(job: Suspension.Job, s: Suspension.Session, completing: set<TaskId>): Outcome {
    if job.id in s.finished || job.id in completing then Suspension.JobOutcome(job, s) else Failed
  }

  function TaskOutcomes(jobs: seq<Suspension.Job>, s: Suspension.Session, completing: set<TaskId>): seq<Outcome> {
    seq(|jobs|, i requires 0 <= i < |jobs| => TaskOutcome(jobs[i], s, completing))
  }

  /** `_put_pending_results`: the results of every task that finished, reused ones included. */
  function Successful(jobs: seq<Suspension.Job>, outcomes: seq<Outcome>): map<TaskId, Return>
    requires |jobs| == |outcomes|
  {
    if jobs == [] then map[]
    else
      var rest := Successful(jobs[1..], outcomes[1..]);
      if outcomes[0].Finished? then rest[jobs[0].id := (outcomes[0].update, outcomes[0].goto)] else rest
  }

  function ResultsOf(outcomes: seq<Outcome>): seq<Return> {
    seq(|outcomes|, i requires 0 <= i < |outcomes| =>
      if outcomes[i].Finished? then (outcomes[i].update, outcomes[i].goto) else (map[], []))
  }

  function RunTasks(g: Graph, w: World, completing: set<TaskId>): World
    requires w.live.Some?
  {
    var live := w.live.value;
    var rs := Settle(g, live.run);
    match Plan(g, rs)
    case Err(_) => w.(live := None)
    case Ok(tasks) =>
      var jobs := Jobs(g, tasks);
      var outcomes := TaskOutcomes(jobs, Suspension.Session(WritesAt(w.store, live.base), live.resume), completing);
      var stored := Successful(jobs, outcomes);
      var store := PutWrites(w.store, live.base, stored);
      var markers := Suspension.Markers(outcomes);
      if exists o :: o in outcomes && o.Failed? then World(store, None)
      else if markers != [] then World(store, Some(live.(run := rs, phase := Pausing(markers, stored))))
      else World(store, Some(live.(run := rs, phase := Merging(tasks, ResultsOf(outcomes)))))
  }

  /** Write a checkpoint now, or hand it to the background writer. */
  function Keep(mode: Mode, w: World, live: Live, c: Checkpoint): World {
    var store := w.store.(issued := w.store.issued + 1);
    if mode.Sync? then World(store.(saved := store.saved + [c]), Some(live))
    else World(store, Some(live.(queue := live.queue + [c])))
  }

  function MergeAndSave(g: Graph, mode: Mode, w: World): World
    requires w.live.Some? && w.live.value.phase.Merging?
  {
    var live := w.live.value;
    match Commit(g, live.run, live.phase.tasks, live.phase.results)
    case Err(_) => w.(live := None)
    case Ok(rs) =>
      var id := SavedId(w.store.issued);
      Keep(mode, w, Live(rs, map[], id, Planning, live.queue, live.broken), Saved(id, rs, live.run.step, [], map[]))
  }

  function SavePaused(mode: Mode, w: World): World
    requires w.live.Some? && w.live.value.phase.Pausing?
  {
    var live := w.live.value;
    var id := SavedId(w.store.issued);
    Keep(mode, w, live.(phase := Copying(id, live.phase.stored)),
         Saved(id, live.run, live.run.step - 1, live.phase.markers, live.resume))
  }

  /** An event that is not possible in a world leaves it as it is. */
  function Step(g: Graph, entry: Entry, mode: Mode, w: World, e: Event): World {
    match e
    case Start => Begin(g, entry, w)
    case Answer(value) => Reply(value, w)
    case Execute(completing) =>
      if w.live.Some? && w.live.value.phase.Planning? && !Done(w.live.value.run) then RunTasks(g, w, completing) else w
    case Advance =>
      if w.live.Some? && w.live.value.phase.Merging? then MergeAndSave(g, mode, w) else w
    case SavePause =>
      if w.live.Some? && w.live.value.phase.Pausing? then SavePaused(mode, w) else w
    case CopyWrites =>
      if w.live.Some? && w.live.value.phase.Copying? && w.live.value.queue == [] then
        World(PutWrites(w.store, w.live.value.phase.id, w.live.value.phase.stored), None)
      else w
    case Persist(ok) =>
      if w.live.Some? && w.live.value.queue != [] && !w.live.value.broken then
        var live := w.live.value;
        if ok then World(w.store.(saved := w.store.saved + [live.queue[0]]), Some(live.(queue := live.queue[1..])))
        else w.(live := Some(live.(broken := true)))
      else w
    case Crash => w.(live := None)
  }

  function Trace(g: Graph, entry: Entry, mode: Mode, w: World, events: seq<Event>): World
    decreases |events|
  {
    if events == [] then w else Trace(g, entry, mode, Step(g, entry, mode, w, events[0]), events[1..])
  }

  lemma {:induction false} TraceConcat(g: Graph, entry: Entry, mode: Mode, w: World, a: seq<Event>, b: seq<Event>)
    ensures Trace(g, entry, mode, w, a + b) == Trace(g, entry, mode, Trace(g, entry, mode, w, a), b)
    decreases |a|
  {
    hide Step;
    if a == [] {
      assert a + b == b;
    } else {
      assert (a + b)[1..] == a[1..] + b && (a + b)[0] == a[0];
      TraceConcat(g, entry, mode, Step(g, entry, mode, w, a[0]), a[1..], b);
    }
  }

  lemma {:induction false} TraceOne(g: Graph, entry: Entry, mode: Mode, w: World, e: Event)
    ensures Trace(g, entry, mode, w, [e]) == Step(g, entry, mode, w, e)
  {
    assert [e][1..] == [];
  }

  lemma {:induction false} TraceTwo(g: Graph, entry: Entry, mode: Mode, w: World, a: Event, b: Event)
    ensures Trace(g, entry, mode, w, [a, b]) == Step(g, entry, mode, Step(g, entry, mode, w, a), b)
  {
    hide Step;
    assert [a, b] == [a] + [b];
    TraceConcat(g, entry, mode, w, [a], [b]);
    TraceOne(g, entry, mode, w, a);
    TraceOne(g, entry, mode, Step(g, entry, mode, w, a), b);
  }

  // ----- the undisturbed run -------------------------------------------------------------------------------

  /** The answer to the i-th question of a task in a superstep. */
  type Oracle = (nat, TaskId, nat) -> Value

  function Told(oracle: Oracle, step: nat, id: TaskId, n: nat): seq<Value> {
    seq(n, i requires 0 <= i < n => oracle(step, id, i))
  }

  ghost predicate ReturnsAfter(body: Body, oracle: Oracle, step: nat, id: TaskId, n: nat) {
    InStep(body, Told(oracle, step, id, n)) && body(Told(oracle, step, id, n)).Return?
  }

  ghost predicate EventuallyReturns(body: Body, oracle: Oracle, step: nat, id: TaskId) {
    exists n :: ReturnsAfter(body, oracle, step, id, n)
  }

  /** What a task returns once all its questions are answered. */
  ghost function ReturnOf(body: Body, oracle: Oracle, step: nat, id: TaskId): Return
    requires EventuallyReturns(body, oracle, step, id)
  {
    var n :| ReturnsAfter(body, oracle, step, id, n);
    var action := body(Told(oracle, step, id, n));
    (action.update, action.goto)
  }

  lemma {:induction false} ToldPrefix(oracle: Oracle, step: nat, id: TaskId, m: nat, n: nat)
    requires m <= n
    ensures Told(oracle, step, id, n)[..m] == Told(oracle, step, id, m)
  {
  }

  lemma {:induction false} ResultIsUnique(body: Body, oracle: Oracle, step: nat, id: TaskId, m: nat, n: nat)
    requires ReturnsAfter(body, oracle, step, id, m) && ReturnsAfter(body, oracle, step, id, n)
    ensures m == n
  {
    ToldPrefix(oracle, step, id, if m < n then m else n, if m < n then n else m);
  }

  ghost predicate AllReturn(jobs: seq<Suspension.Job>, oracle: Oracle, step: nat) {
    forall i :: 0 <= i < |jobs| ==> EventuallyReturns(jobs[i].body, oracle, step, jobs[i].id)
  }

  ghost function AllResults(jobs: seq<Suspension.Job>, oracle: Oracle, step: nat): seq<Return>
    requires AllReturn(jobs, oracle, step)
  {
    seq(|jobs|, i requires 0 <= i < |jobs| => ReturnOf(jobs[i].body, oracle, step, jobs[i].id))
  }

  /** A superstep in which every task runs once, to its end. */
  ghost function Undisturbed(g: Graph, oracle: Oracle, rs: RunState): Result<RunState, Error> {
    var settled := Settle(g, rs);
    var tasks :- Plan(g, settled);
    var jobs := Jobs(g, tasks);
    if Done(rs) || !AllReturn(jobs, oracle, rs.step) then Err(NodeFailed)
    else Commit(g, settled, tasks, AllResults(jobs, oracle, rs.step))
  }

  /** The state of the failure-free run before its k-th superstep, while it goes on. */
  ghost function Reference(g: Graph, entry: Entry, oracle: Oracle, k: nat): Result<RunState, Error> {
    if k == 0 then Entered(g, entry)
    else
      var rs :- Reference(g, entry, oracle, k - 1);
      Undisturbed(g, oracle, rs)
  }
}
