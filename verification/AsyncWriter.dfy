/** The ordered background checkpoint writer (graph/executor.py `_AsyncCheckpointWriter`). */
module AsyncWriter {
  import opened Prelude
  import opened Durability
  import Channels
  import Interrupts
  import Supersteps

  /** Where the task of one enqueued write is; a failed task has raised, by itself or with the one it awaits. */
  datatype Status = Waiting | Written | Failed

  class Writer {
    /** The operations in the order they were enqueued, and their tasks. */
    var operations: seq<Checkpoint>
    var tasks: seq<Status>
    /** What the checkpointer has received, in the order it received it. */
    var persisted: seq<Checkpoint>

    /** The tasks end in order: written ones first, then failed ones, then those still waiting.  What is
        persisted is exactly the operations of the written tasks, a prefix of what was enqueued. */
    ghost predicate Valid()
      reads this
    {
      && |tasks| == |operations|
      && persisted <= operations
      && (forall i :: 0 <= i < |tasks| ==> (tasks[i] == Written <==> i < |persisted|))
      && (forall i, j :: 0 <= i < j < |tasks| && tasks[j] == Failed && i >= |persisted| ==> tasks[i] == Failed)
    }

    /** Whether a write has failed, so that no later one will be performed. */
    function Broken(): bool
      reads this
    {
      Failed in tasks
    }

    /** The writes not performed yet. */
    function Queue(): seq<Checkpoint>
      reads this
    {
      if |persisted| <= |operations| then operations[|persisted|..] else []
    }

    constructor ()
      ensures Valid() && operations == [] && persisted == []
    {
      operations, tasks, persisted := [], [], [];
    }

    method Enqueue(c: Checkpoint)
      requires Valid()
      modifies this
      ensures Valid() && operations == old(operations) + [c] && persisted == old(persisted)
      ensures Queue() == old(Queue()) + [c] && Broken() == old(Broken())
    {
      operations, tasks := operations + [c], tasks + [Waiting];
    }

    /** The scheduler resumes the task of one write, whichever it picks: it awaits the previous task,
        raises if that one raised, and performs its own operation otherwise. */
    method Resume(i: nat, succeeds: bool)
      requires Valid() && i < |tasks|
      modifies this
      ensures Valid() && operations == old(operations) && old(persisted) <= persisted
      ensures var performs := old(tasks)[i] == Waiting && i == |old(persisted)|;
              && persisted == (if performs && succeeds then old(persisted) + [operations[i]] else old(persisted))
              && Broken() == (old(Broken()) || (performs && !succeeds))
    {
      if tasks[i] != Waiting { return; }
      if i > 0 && tasks[i - 1] == Waiting { return; }
      if i > 0 && tasks[i - 1] == Failed {
        assert Broken();
        tasks := tasks[i := Failed];
        assert tasks[i] == Failed;
        return;
      }
      if succeeds {
        assert forall j :: i < j < |tasks| ==> tasks[j] != Failed;
        persisted := persisted + [operations[i]];
        tasks := tasks[i := Written];
      } else {
        tasks := tasks[i := Failed];
        assert tasks[i] == Failed;
      }
    }

    /** Awaiting the last task: it returns only once everything is written. */
    method Flush() returns (outcome: Option<bool>)
      requires Valid()
      ensures outcome == Some(true) <==> persisted == operations
      ensures outcome == Some(false) ==> Broken() && persisted != operations
    {
      if tasks == [] { return Some(true); }
      var last := tasks[|tasks| - 1];
      if last == Waiting { return None; }
      return Some(last == Written);
    }
  }

  /** Any order in which the scheduler resumes the tasks leaves a prefix of the enqueued checkpoints
      persisted, and nothing is written after a write that failed. */
  method AnySchedule(writer: Writer, picks: seq<(nat, bool)>)
    requires writer.Valid()
    modifies writer
    ensures writer.Valid() && writer.operations == old(writer.operations)
    ensures old(writer.persisted) <= writer.persisted <= writer.operations
    ensures old(writer.Broken()) ==> writer.persisted == old(writer.persisted)
  {
    for k := 0 to |picks|
      invariant writer.Valid() && writer.operations == old(writer.operations)
      invariant old(writer.persisted) <= writer.persisted
      invariant old(writer.Broken()) ==> writer.Broken() && writer.persisted == old(writer.persisted)
    {
      if picks[k].0 < |writer.tasks| {
        assert writer.Broken() ==>
          (exists j :: 0 <= j < |writer.tasks| && writer.tasks[j] == Failed);
        writer.Resume(picks[k].0, picks[k].1);
      }
    }
  }

  /** Everything an execution has handed to the writer, written or not. */
  function Handed(w: World): seq<Checkpoint> {
    w.store.saved + if w.live.Some? then w.live.value.queue else []
  }

  predicate Halted(w: World) { w.live.Some? && w.live.value.broken }

  lemma {:induction false} TasksWriteNothing(g: Supersteps.Graph, w: World, completing: set<Interrupts.TaskId>)
    requires w.live.Some?
    ensures var w' := RunTasks(g, w, completing);
            && w'.store.saved == w.store.saved
            && (w'.live.Some? ==> w'.live.value.queue == w.live.value.queue &&
                                  w'.live.value.broken == w.live.value.broken)
  {
    hide Supersteps.Settle, Supersteps.Plan, Supersteps.Jobs, TaskOutcomes, Successful;
  }

  lemma {:induction false} CommitHandsOver(g: Supersteps.Graph, w: World)
    requires w.live.Some? && w.live.value.phase.Merging?
    ensures var w' := MergeAndSave(g, Async, w);
            && w'.store.saved == w.store.saved
            && (w'.live.Some? ==> w.live.value.queue <= w'.live.value.queue &&
                                  w'.live.value.broken == w.live.value.broken)
  {
    hide Supersteps.Commit;
  }

  lemma {:induction false} PersistedStep(g: Supersteps.Graph, entry: Supersteps.Entry, w: World, e: Event)
    ensures var w' := Step(g, entry, Async, w, e);
            && w.store.saved <= w'.store.saved
            && (w.live.Some? && w'.live.Some? ==> Handed(w) <= Handed(w'))
            && (w.live.Some? ==> w'.store.saved <= Handed(w))
            && (w'.live.Some? && Halted(w) ==> Halted(w') && w'.store.saved == w.store.saved)
  {
    hide RunTasks, MergeAndSave, Supersteps.Entered;
    if w.live.Some? {
      var live := w.live.value;
      if e.Execute? {
        TasksWriteNothing(g, w, e.completing);
      }
      if e.Advance? && live.phase.Merging? {
        CommitHandsOver(g, w);
      }
      if live.queue != [] {
        assert live.queue == [live.queue[0]] + live.queue[1..];
        assert w.store.saved + live.queue == (w.store.saved + [live.queue[0]]) + live.queue[1..];
      }
    }
  }

  /** The execution in memory outlives these events. */
  ghost predicate StaysLive(g: Supersteps.Graph, entry: Supersteps.Entry, w: World, events: seq<Event>)
    decreases |events|
  {
    w.live.Some? && (events == [] || StaysLive(g, entry, Step(g, entry, Async, w, events[0]), events[1..]))
  }

  /** Along any events of a run what is persisted stays persisted.  As long as the execution lives, it is a prefix of
      what has been handed to the writer, of which nothing is taken back; after a failed write it does not grow. */
  lemma {:induction false} PersistedIsPrefix(g: Supersteps.Graph, entry: Supersteps.Entry, w: World, events: seq<Event>)
    ensures var w' := Trace(g, entry, Async, w, events);
            && w.store.saved <= w'.store.saved
            && (StaysLive(g, entry, w, events) ==>
                  && Handed(w) <= Handed(w') && w'.store.saved <= Handed(w')
                  && (Halted(w) ==> Halted(w') && w'.store.saved == w.store.saved))
    decreases |events|
  {
    hide Step, Handed, Halted;
    if events != [] {
      var next := Step(g, entry, Async, w, events[0]);
      PersistedStep(g, entry, w, events[0]);
      PersistedIsPrefix(g, entry, next, events[1..]);
      assert StaysLive(g, entry, next, events[1..]) ==> next.live.Some?;
    } else {
      SavedIsHanded(w);
    }
    SavedIsHanded(Trace(g, entry, Async, w, events));
  }

  lemma {:induction false} SavedIsHanded(w: World)
    ensures w.store.saved <= Handed(w)
  {
  }
}
