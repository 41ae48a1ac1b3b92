/** The worker's own calls, in its own order: sync in, sync out, the final flush and the one commit of the
    intended outcome (server/worker.py).  Module Worker interleaves these steps with everyone else's. */
module Finalization {
  import opened Repository
  import opened Worker
  import Steering

  function IngestRows(x: Steering.Inbox, rows: seq<Row>): Steering.Inbox
    decreases |rows|
  {
    if rows == [] then x else IngestRows(Steering.Ingested(x, AsEvent(rows[0])), rows[1..])
  }

  lemma {:induction false} AckWholeLog(log: seq<Steering.SteeringEvent>, ids: set<string>)
    requires forall e :: e in log ==> e.id in ids
    ensures Steering.Without(log, ids) == []
    decreases |log|
  {
    if log != [] {
      assert log[0] in log;
      AckWholeLog(log[1..], ids);
    }
  }

  lemma {:induction false} LogIds(log: seq<Steering.SteeringEvent>)
    ensures forall e :: e in log ==> e.id in IdSet(log)
  {
    forall e | e in log
      ensures e.id in IdSet(log)
    {
      var i :| 0 <= i < |log| && log[i] == e;
    }
  }

  // ----- as events of the worker --------------------------------------------------------------------------------

  lemma {:induction false} RunConcat(sys: System, a: seq<Event>, b: seq<Event>)
    ensures Run(sys, a + b) == Run(Run(sys, a), b)
    decreases |a|
  {
    hide Step;
    if a == [] {
      assert a + b == b;
    } else {
      assert (a + b)[1..] == a[1..] + b && (a + b)[0] == a[0];
      RunConcat(Step(sys, a[0]), a[1..], b);
    }
  }

  lemma {:induction false} RunOne(sys: System, e: Event)
    ensures Run(sys, [e]) == Step(sys, e)
  {
    assert [e][1..] == [];
  }

  lemma {:induction false} RunNone(sys: System)
    ensures Run(sys, []) == sys
  {
  }

  /** A trace and what follows it. */
  ghost function Extended(sys: System, events: seq<Event>, more: seq<Event>): (all: seq<Event>)
    ensures Run(sys, all) == Run(Run(sys, events), more)
  {
    RunConcat(sys, events, more);
    events + more
  }

  lemma {:induction false} RunThree(sys: System, a: Event, b: Event, c: Event)
    ensures Run(sys, [a, b, c]) == Step(Step(Step(sys, a), b), c)
  {
    hide Step;
    assert [a, b, c] == [a] + ([b] + [c]);
    RunConcat(sys, [a], [b] + [c]);
    RunOne(sys, a);
    RunConcat(Step(sys, a), [b], [c]);
    RunOne(Step(sys, a), b);
    RunOne(Step(Step(sys, a), b), c);
  }

  /** A delivery between two batches. */
  predicate Resting(sys: System, attempt: nat, phase: Phase) {
    attempt in sys.deliveries && sys.deliveries[attempt].attempt == attempt &&
    sys.deliveries[attempt].phase == phase && sys.deliveries[attempt].batch.NoBatch?
  }

  /** One try at writing the consumptions: peek, commit and, if that succeeded, acknowledge. */
  function OneTry(attempt: nat, reachable: bool): seq<Event> {
    [Event.Peek(attempt), Event.Commit(attempt, reachable), Event.Ack(attempt)]
  }

  /** What one try leaves. */
  function Tried(sys: System, attempt: nat, reachable: bool): System
    requires attempt in sys.deliveries
  {
    var d := sys.deliveries[attempt];
    var log := d.channel.inbox.log;
    if log == [] || !reachable then sys
    else if Owned(sys.repo, d.worker, attempt) then
      Put(sys.(repo := Consume(sys.repo, IdSet(log))),
          d.(channel := Steering.Perform(d.channel, Steering.Ack(IdSet(log)))))
    else Put(sys, d.(phase := if d.phase.Flushing? then GivingUp else d.phase))
  }

  lemma {:induction false} TryIsTrace(sys: System, attempt: nat, phase: Phase, reachable: bool)
    requires Resting(sys, attempt, phase) && (phase.Executing? || phase.Flushing?)
    ensures Run(sys, OneTry(attempt, reachable)) == Tried(sys, attempt, reachable)
  {
    RunThree(sys, Event.Peek(attempt), Event.Commit(attempt, reachable), Event.Ack(attempt));
    hide Run, Consume, Steering.Perform, Owned;
    var d := sys.deliveries[attempt];
    var peeked := Step(sys, Event.Peek(attempt));
    assert sys.deliveries[attempt := d] == sys.deliveries;
    assert peeked == Put(sys, PeekBatch(d));
    var after := Step(peeked, Event.Commit(attempt, reachable));
    assert after == CommitBatch(peeked, PeekBatch(d), reachable);
    assert Step(after, Event.Ack(attempt)) == Tried(sys, attempt, reachable);
  }

  lemma {:induction false} AfterTry(sys: System, attempt: nat, phase: Phase, reachable: bool)
    requires Resting(sys, attempt, phase) && (phase.Executing? || phase.Flushing?)
    ensures var d, after := sys.deliveries[attempt], Tried(sys, attempt, reachable);
            var log, owned := d.channel.inbox.log, Owned(sys.repo, d.worker, attempt);
            var fenced := log != [] && reachable && !owned;
            var wrote := log != [] && reachable && owned;
            && Resting(after, attempt, if fenced && phase.Flushing? then GivingUp else phase)
            && after.maxAttempts == sys.maxAttempts && after.deliveries[attempt].worker == d.worker
            && after.repo == (if wrote then Consume(sys.repo, IdSet(log)) else sys.repo)
            && after.deliveries[attempt].channel.inbox ==
               (if wrote then d.channel.inbox.(log := []) else d.channel.inbox)
  {
    var log := sys.deliveries[attempt].channel.inbox.log;
    LogIds(log);
    AckWholeLog(log, IdSet(log));
    hide Consume, Owned, IdSet, Steering.Only;
  }

  lemma {:induction false} IngestsRows(record: Steering.Record, rows: seq<Row>)
    ensures IngestAll(record, rows).inbox == IngestRows(record.inbox, rows)
    decreases |rows|
  {
    hide Steering.Ingested;
    if rows != [] {
      IngestsRows(Steering.Perform(record, Steering.Ingest(AsEvent(rows[0]))), rows[1..]);
    }
  }

  /** How the final flush ended. */
  datatype Flush = Done | Stopping | LeaseLost

  /** One delivery attempt: its repository, its channel and its lease. */
  class Attempt {
    const repository: InMemoryRepository
    const channel: Steering.SteeringChannel
    const worker: string
    const attempt: nat
    const maxAttempts: nat

    constructor (repository: InMemoryRepository, channel: Steering.SteeringChannel, worker: string, attempt: nat,
          maxAttempts: nat)
      ensures this.repository == repository && this.channel == channel
      ensures this.worker == worker && this.attempt == attempt && this.maxAttempts == maxAttempts
    {
      this.repository, this.channel := repository, channel;
      this.worker, this.attempt, this.maxAttempts := worker, attempt, maxAttempts;
    }

    /** This attempt is a delivery of the system of module Worker, between two batches. */
    ghost predicate At(sys: System, phase: Phase)
      reads repository, channel
    {
      && Resting(sys, attempt, phase)
      && sys.repo == repository.View() && sys.maxAttempts == maxAttempts
      && sys.deliveries[attempt].worker == worker && sys.deliveries[attempt].channel.inbox == channel.View()
    }

    method SyncSteeringIn(ghost before: System)
      modifies channel
      ensures channel.View() == IngestRows(old(channel.View()), PendingRows(repository.rows))
      ensures old(At(before, Executing)) ==> At(Run(before, [Event.SyncIn(attempt)]), Executing)
    {
      RunOne(before, Event.SyncIn(attempt));
      if At(before, Executing) {
        IngestsRows(before.deliveries[attempt].channel, PendingRows(repository.rows));
      }
      hide IngestAll, IngestRows, Run, PendingRows;
      var pending := repository.ListPendingSteering();
      for i := 0 to |pending|
        invariant IngestRows(channel.View(), pending[i..]) == IngestRows(old(channel.View()), pending)
      {
        assert pending[i..][1..] == pending[i + 1..];
        var accepted := channel.Ingest(AsEvent(pending[i]));
      }
    }

    /** Peek, commit, and only then acknowledge; a commit that fails or is fenced leaves everything. */
    method SyncSteeringOut(reachable: bool, ghost before: System)
      modifies repository, channel
      ensures old(At(before, Executing)) ==> At(Run(before, OneTry(attempt, reachable)), Executing)
      ensures var owned := Owned(old(repository.View()), worker, attempt);
              var log := old(channel.consumedLog);
              if log == [] || !reachable || !owned then
                repository.View() == old(repository.View()) && channel.View() == old(channel.View())
              else
                repository.View() == Consume(old(repository.View()), IdSet(log)) &&
                channel.View() == old(channel.View()).(log := [])
    {
      hide Run, Tried, OneTry;
      if At(before, Executing) {
        TryIsTrace(before, attempt, Executing, reachable);
        AfterTry(before, attempt, Executing, reachable);
      }
      var consumed := channel.PeekConsumed();
      if consumed == [] { return; }
      if !reachable { return; }
      var committed := repository.CommitSteeringConsumptionsIfOwned(worker, attempt, consumed);
      if !committed { return; }
      LogIds(consumed);
      AckWholeLog(consumed, IdSet(consumed));
      channel.AckConsumed(IdSet(consumed));
    }

    // What single events do to a flushing delivery.

    lemma {:induction false} StillFlushing(sys: System, intent: Intent)
      requires At(sys, Flushing(intent))
      ensures At(Run(sys, OneTry(attempt, false)), Flushing(intent))
    {
      TryIsTrace(sys, attempt, Flushing(intent), false);
    }

    lemma {:induction false} GivesUp(sys: System, intent: Intent)
      requires At(sys, Flushing(intent)) && channel.consumedLog != []
      ensures At(Run(sys, [Event.FlushFails(attempt)]), GivingUp)
    {
      RunOne(sys, Event.FlushFails(attempt));
    }

    lemma {:induction false} IsFlushed(sys: System, intent: Intent)
      requires At(sys, Flushing(intent)) && channel.consumedLog == []
      ensures At(Run(sys, [Event.FlushDone(attempt)]), Flushed(intent))
    {
      RunOne(sys, Event.FlushDone(attempt));
    }

    /** Retry the commit with capped, doubling delays for as long as the lease lives and the worker is not
        stopping.  `failures` says what follows each failed try: whether the worker is stopping by then and
        whether the heartbeat still finds the lease. */
    method FinalSteeringFlush(failures: seq<(bool, bool)>, baseDelay: nat, maxDelay: nat, ghost before: System,
          ghost intent: Intent)
      returns (flush: Flush, delays: seq<nat>, ghost events: seq<Event>)
      requires baseDelay <= maxDelay
      modifies repository, channel
      ensures forall i :: 0 <= i < |delays| ==> delays[i] <= maxDelay
      ensures forall i :: 0 < i < |delays| ==> delays[i] == maxDelay || delays[i] == 2 * delays[i - 1]
      ensures flush.Done? ==>
                var log := old(channel.consumedLog);
                && channel.View() == old(channel.View()).(log := [])
                && repository.View() == (if log == [] then old(repository.View())
                                         else Consume(old(repository.View()), IdSet(log)))
                && (log != [] ==> Owned(old(repository.View()), worker, attempt))
      ensures !flush.Done? ==>
                repository.View() == old(repository.View()) && channel.View() == old(channel.View()) &&
                channel.consumedLog != []
      ensures flush.LeaseLost? ==>
                !Owned(old(repository.View()), worker, attempt) || exists f :: f in failures && !f.1
      ensures old(At(before, Flushing(intent))) ==>
                At(Run(before, events), if flush.Done? then Flushed(intent) else GivingUp)
    {
      hide Run, Tried, OneTry;
      var delay: nat := baseDelay;
      delays, events := [], [];
      RunNone(before);
      var tries := 0;
      while true
        invariant repository.View() == old(repository.View()) && channel.View() == old(channel.View())
        invariant old(At(before, Flushing(intent))) ==> At(Run(before, events), Flushing(intent))
        invariant tries <= |failures| && delay <= maxDelay
        invariant forall i :: 0 <= i < |delays| ==> delays[i] <= maxDelay
        invariant forall i :: 0 < i < |delays| ==> delays[i] == maxDelay || delays[i] == 2 * delays[i - 1]
        invariant delays != [] ==> delay == maxDelay || delay == 2 * delays[|delays| - 1]
        decreases |failures| - tries
      {
        ghost var now := Run(before, events);
        ghost var tracked := At(now, Flushing(intent));
        var consumed := channel.PeekConsumed();
        if consumed == [] {
          if tracked { IsFlushed(now, intent); }
          events := Extended(before, events, [Event.FlushDone(attempt)]);
          return Done, delays, events;
        }
        if tries < |failures| {
          var failure := failures[tries];
          tries := tries + 1;
          if tracked {
            StillFlushing(now, intent);
            GivesUp(Run(now, OneTry(attempt, false)), intent);
          }
          events := Extended(before, events, OneTry(attempt, false));
          if failure.0 {
            events := Extended(before, events, [Event.FlushFails(attempt)]);
            return Stopping, delays, events;
          }
          delays := delays + [delay];
          delay := if maxDelay < delay * 2 then maxDelay else delay * 2;
          if !failure.1 {
            assert failure in failures;
            events := Extended(before, events, [Event.FlushFails(attempt)]);
            return LeaseLost, delays, events;
          }
          continue;
        }
        if tracked {
          TryIsTrace(now, attempt, Flushing(intent), true);
          AfterTry(now, attempt, Flushing(intent), true);
        }
        events := Extended(before, events, OneTry(attempt, true));
        var committed := repository.CommitSteeringConsumptionsIfOwned(worker, attempt, consumed);
        if !committed { return LeaseLost, delays, events; }
        LogIds(consumed);
        AckWholeLog(consumed, IdSet(consumed));
        channel.AckConsumed(IdSet(consumed));
        if tracked { IsFlushed(Run(before, events), intent); }
        events := Extended(before, events, [Event.FlushDone(attempt)]);
        return Done, delays, events;
      }
    }

    /** `_retry_or_dead_letter`: the way out when the flush never succeeded. */
    method RetryOrDeadLetter(ghost before: System)
      modifies repository
      ensures repository.View() ==
              if !Owned(old(repository.View()), worker, attempt) then old(repository.View())
              else if attempt < maxAttempts then Retry(old(repository.View()))
              else Finish(old(repository.View()), DeadLetter)
      ensures old(At(before, GivingUp)) ==> At(Run(before, [Event.Surrender(attempt)]), Over)
    {
      RunOne(before, Event.Surrender(attempt));
      hide Run;
      if attempt < maxAttempts {
        var retried := repository.RetryRunIfOwned(worker, attempt);
      } else {
        var finished := repository.FinishRunIfOwned(worker, attempt, DeadLetter);
      }
    }

    /** What the repository holds once the outcome has been committed. */
    function Committing(repo: Repo, intent: Intent): Repo {
      if !Owned(repo, worker, attempt) then repo
      else
        match intent
        case FinishAs(status) => FinishSuperseding(repo, status)
        case PauseRun => Finish(repo, Paused)
        case RetryRun => Retry(repo)
    }

    method CommitOutcome(intent: Intent, ghost before: System) returns (committed: bool)
      modifies repository
      ensures committed == Owned(old(repository.View()), worker, attempt)
      ensures repository.View() == Committing(old(repository.View()), intent)
      ensures old(At(before, Flushed(intent))) ==> At(Run(before, [Event.Finalize(attempt)]), Over)
    {
      RunOne(before, Event.Finalize(attempt));
      hide Run;
      match intent {
        case FinishAs(status) =>
          committed := repository.FinalizeRunWithSteeringDispositionIfOwned(worker, attempt, status);
        case PauseRun => committed := repository.FinishRunIfOwned(worker, attempt, Paused);
        case RetryRun => committed := repository.RetryRunIfOwned(worker, attempt);
      }
    }

    /** The first event of the end: the gate, if the outcome is terminal. */
    lemma {:induction false} ClosesFirst(before: System, intent: Intent)
      requires At(before, Ended(intent))
      ensures var after := Run(before, [Event.CloseAdmission(attempt)]);
              var refused := Closing(intent) && !Owned(repository.View(), worker, attempt);
              && Resting(after, attempt, if refused then Over else Flushing(intent))
              && after.maxAttempts == before.maxAttempts
              && after.deliveries[attempt].worker == worker
              && after.deliveries[attempt].channel.inbox == channel.View()
              && after.repo == if Closing(intent) && !refused then Close(repository.View()) else repository.View()
    {
      RunOne(before, Event.CloseAdmission(attempt));
    }

    /** The end of `_execute`: close admission if the outcome is terminal, flush, and commit the outcome
        only when the flush succeeded. */
    method Finalize(intent: Intent, failures: seq<(bool, bool)>, ghost before: System)
      returns (committed: bool, flushed: bool, ghost events: seq<Event>)
      modifies repository, channel
      ensures var before := old(repository.View());
              var log := old(channel.consumedLog);
              var closed := if Closing(intent) then Close(before) else before;
              && (Closing(intent) && !Owned(before, worker, attempt) ==> repository.View() == before && !committed)
              && (flushed ==>
                    channel.consumedLog == [] &&
                    repository.View() == Committing(if log == [] then closed else Consume(closed, IdSet(log)), intent))
              && (!flushed && Owned(before, worker, attempt) ==>
                    !committed &&
                    repository.View() == (if attempt < maxAttempts then Retry(closed) else Finish(closed, DeadLetter)))
              && (!flushed && !Owned(before, worker, attempt) ==> !committed && repository.View() == before)
      ensures old(At(before, Ended(intent))) ==> At(Run(before, events), Over)
    {
      hide Run, Consume;
      events := [Event.CloseAdmission(attempt)];
      if At(before, Ended(intent)) { ClosesFirst(before, intent); }
      if Closing(intent) {
        var gateClosed := repository.CloseSteering(worker, attempt);
        if !gateClosed { return false, false, events; }
      }
      ghost var now := Run(before, events);
      var flush, delays;
      ghost var tries;
      flush, delays, tries := FinalSteeringFlush(failures, 500, 10000, now, intent);
      ghost var between := Run(now, tries);
      events := Extended(before, events, tries);
      if flush.Done? {
        committed := CommitOutcome(intent, between);
        events := Extended(before, events, [Event.Finalize(attempt)]);
        return committed, true, events;
      }
      RetryOrDeadLetter(between);
      events := Extended(before, events, [Event.Surrender(attempt)]);
      return false, false, events;
    }
  }
}
