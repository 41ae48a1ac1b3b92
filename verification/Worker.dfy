/** Durable steering over all interleavings of the worker, its graph, other workers and callers
    (server/worker.py). */
module Worker {
  import opened Prelude
  import opened Repository
  import Steering

  /** The outcome an execution intends, held in memory until the final flush has succeeded. */
  datatype Intent = FinishAs(status: RunStatus) | PauseRun | RetryRun

  /** Where one delivery attempt is.  While the graph executes, the heartbeat syncs steering in and out. */
  datatype Phase =
    | Executing
    | Ended(intent: Intent)
    | Flushing(intent: Intent)
    | Flushed(intent: Intent)
    | GivingUp
    | Over

  /** A batch of consumptions that has been peeked, and whether it has been committed. */
  datatype Batch =
    | NoBatch
    | Peeked(events: seq<Steering.SteeringEvent>)
    | Committed(events: seq<Steering.SteeringEvent>)

  /** One delivery attempt in a worker's memory, with its channel and what became of its events. */
  datatype Delivery = Delivery(worker: string, attempt: nat, channel: Steering.Record, phase: Phase, batch: Batch)

  datatype System = System(repo: Repo, deliveries: map<nat, Delivery>, maxAttempts: nat)

  datatype Event =
    | Accept(id: string, kind: string, payload: Value)
    | Cancel
    | LeaseExpires
    | Claim(worker: string)
    | SyncIn(attempt: nat)
    | Drain(attempt: nat)
    | Peek(attempt: nat)
    | Commit(attempt: nat, reachable: bool)
    | Ack(attempt: nat)
    | GraphEnds(attempt: nat, intent: Intent)
    | CloseAdmission(attempt: nat)
    | FlushDone(attempt: nat)
    | FlushFails(attempt: nat)
    | Finalize(attempt: nat)
    | Surrender(attempt: nat)
    | WorkerDies(attempt: nat)

  function IngestAll(record: Steering.Record, rows: seq<Row>): Steering.Record
    decreases |rows|
  {
    if rows == [] then record
    else IngestAll(Steering.Perform(record, Steering.Ingest(AsEvent(rows[0]))), rows[1..])
  }

  /** Only a terminal finish closes admission and supersedes what is left. */
  predicate Closing(intent: Intent) { intent.FinishAs? }

  predicate Valid(intent: Intent) { intent.FinishAs? ==> Terminal(intent.status) }

  function Put(sys: System, d: Delivery): System {
    sys.(deliveries := sys.deliveries[d.attempt := d])
  }

  function PeekBatch(d: Delivery): Delivery {
    if d.batch.NoBatch? && d.channel.inbox.log != [] && (d.phase.Executing? || d.phase.Flushing?) then
      d.(batch := Peeked(d.channel.inbox.log))
    else d
  }

  /** The fenced commit of a peeked batch.  An unreachable database leaves the log for a later try; a
      lost lease ends a final flush. */
  function CommitBatch(sys: System, d: Delivery, reachable: bool): System {
    if !d.batch.Peeked? then sys
    else if !reachable then Put(sys, d.(batch := NoBatch))
    else if Owned(sys.repo, d.worker, d.attempt) then
      Put(sys.(repo := Consume(sys.repo, IdSet(d.batch.events))), d.(batch := Committed(d.batch.events)))
    else Put(sys, d.(batch := NoBatch, phase := if d.phase.Flushing? then GivingUp else d.phase))
  }

  function AckBatch(d: Delivery): Delivery {
    if d.batch.Committed? then
      d.(channel := Steering.Perform(d.channel, Steering.Ack(IdSet(d.batch.events))), batch := NoBatch)
    else d
  }

  function CloseStep(sys: System, d: Delivery): System {
    if !d.phase.Ended? then sys
    else if !Closing(d.phase.intent) then Put(sys, d.(phase := Flushing(d.phase.intent)))
    else if Owned(sys.repo, d.worker, d.attempt) then
      Put(sys.(repo := Close(sys.repo)), d.(phase := Flushing(d.phase.intent)))
    else Put(sys, d.(phase := Over))
  }

  function CommitIntent(sys: System, d: Delivery): System {
    if !d.phase.Flushed? then sys
    else if !Owned(sys.repo, d.worker, d.attempt) then Put(sys, d.(phase := Over))
    else
      var repo := match d.phase.intent
        case FinishAs(status) => FinishSuperseding(sys.repo, status)
        case PauseRun => Finish(sys.repo, Paused)
        case RetryRun => Retry(sys.repo);
      Put(sys.(repo := repo), d.(phase := Over))
  }

  function RetryOrDeadLetter(sys: System, d: Delivery): System {
    if !d.phase.GivingUp? then sys
    else if !Owned(sys.repo, d.worker, d.attempt) then Put(sys, d.(phase := Over))
    else if d.attempt < sys.maxAttempts then Put(sys.(repo := Retry(sys.repo)), d.(phase := Over))
    else Put(sys.(repo := Finish(sys.repo, DeadLetter)), d.(phase := Over))
  }

  function DeliveryStep(sys: System, d: Delivery, e: Event): System {
    match e
    case SyncIn(_) =>
      if d.phase.Executing? then Put(sys, d.(channel := IngestAll(d.channel, PendingRows(sys.repo.rows)))) else sys
    case Drain(_) =>
      if d.phase.Executing? then Put(sys, d.(channel := Steering.Perform(d.channel, Steering.Drain))) else sys
    case Peek(_) => Put(sys, PeekBatch(d))
    case Commit(_, reachable) => CommitBatch(sys, d, reachable)
    case Ack(_) => Put(sys, AckBatch(d))
    case GraphEnds(_, intent) =>
      if d.phase.Executing? && Valid(intent) then Put(sys, d.(phase := Ended(intent), batch := NoBatch)) else sys
    case CloseAdmission(_) => CloseStep(sys, d)
    case FlushDone(_) =>
      if d.phase.Flushing? && d.channel.inbox.log == [] then
        Put(sys, d.(phase := Flushed(d.phase.intent), batch := NoBatch))
      else sys
    case FlushFails(_) =>
      if d.phase.Flushing? && d.batch.NoBatch? && d.channel.inbox.log != [] then Put(sys, d.(phase := GivingUp))
      else sys
    case Finalize(_) => CommitIntent(sys, d)
    case Surrender(_) => RetryOrDeadLetter(sys, d)
    case _ => sys
  }

  function Step(sys: System, e: Event): System {
    match e
    case Accept(id, kind, payload) => sys.(repo := Repository.Accept(sys.repo, id, kind, payload))
    case Cancel => sys.(repo := RequestCancel(sys.repo))
    case LeaseExpires => sys.(repo := Expire(sys.repo))
    case Claim(worker) =>
      if sys.repo.status.Queued? then
        var repo := Repository.Claim(sys.repo, worker);
        Put(sys.(repo := repo), Delivery(worker, repo.attempt, Steering.NEW_RECORD, Executing, NoBatch))
      else sys
    case WorkerDies(attempt) => sys.(deliveries := sys.deliveries - {attempt})
    case _ =>
      if e.attempt in sys.deliveries then DeliveryStep(sys, sys.deliveries[e.attempt], e) else sys
  }

  function Run(sys: System, events: seq<Event>): System
    decreases |events|
  {
    if events == [] then sys else Run(Step(sys, events[0]), events[1..])
  }

  function Initial(maxAttempts: nat): System { System(SUBMITTED, map[], maxAttempts) }
}
