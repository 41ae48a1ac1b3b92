/** Steering is never lost: what every step of the protocol keeps, and what it leads to
    (server/worker.py). */
module DeliveryProofs {
  import opened Prelude
  import opened Repository
  import opened Worker
  import Steering

  // ----- the invariant -------------------------------------------------------------------------------

  predicate IsConsumed(rows: seq<Row>, id: string) {
    exists i :: 0 <= i < |rows| && rows[i].id == id && rows[i].disposition.Consumed?
  }

  predicate SoundRows(rows: seq<Row>) {
    && (forall i, j :: 0 <= i < j < |rows| ==> rows[i].id != rows[j].id)
    && (forall i :: 0 <= i < |rows| ==> rows[i].sequence == i + 1)
  }

  predicate KnownRows(rows: seq<Row>, ids: seq<string>) {
    forall id :: id in ids ==> id in RowIds(rows)
  }

  predicate AllConsumed(rows: seq<Row>, events: seq<Steering.SteeringEvent>) {
    forall e :: e in events ==> IsConsumed(rows, e.id)
  }

  /** A row that could still be ingested is numbered from the channel's next sequence on. */
  predicate LaterRowsFollow(rows: seq<Row>, inbox: Steering.Inbox) {
    forall i :: 0 <= i < |rows| && rows[i].disposition.Pending? && rows[i].id !in inbox.seen ==>
      rows[i].sequence >= inbox.next
  }

  predicate SoundBatch(rows: seq<Row>, d: Delivery) {
    && (d.batch.NoBatch? || d.phase.Executing? || d.phase.Flushing?)
    && (!d.batch.NoBatch? ==> d.batch.events <= d.channel.inbox.log)
    && (d.phase.Flushing? && !d.batch.NoBatch? ==> d.batch.events == d.channel.inbox.log)
    && (d.batch.Committed? ==> AllConsumed(rows, d.batch.events))
  }

  predicate SoundIntent(d: Delivery) {
    && (d.phase.Ended? || d.phase.Flushing? || d.phase.Flushed? ==> Valid(d.phase.intent))
    && (d.phase.Flushed? ==> d.channel.inbox.log == [])
  }

  ghost predicate SoundDelivery(rows: seq<Row>, d: Delivery) {
    && Steering.Conserved(d.channel)
    && Steering.Numbered(d.channel)
    && KnownRows(rows, d.channel.accepted)
    && AllConsumed(rows, d.channel.acked)
    && LaterRowsFollow(rows, d.channel.inbox)
    && d.channel.inbox.next <= |rows| + 1
    && SoundBatch(rows, d)
    && SoundIntent(d)
  }

  predicate NoneSuperseded(rows: seq<Row>) {
    forall i :: 0 <= i < |rows| ==> !rows[i].disposition.Superseded?
  }

  ghost predicate Sound(sys: System) {
    && SoundRows(sys.repo.rows)
    && (!Terminal(sys.repo.status) ==> NoneSuperseded(sys.repo.rows))
    && (forall a :: a in sys.deliveries ==>
          sys.deliveries[a].attempt == a <= sys.repo.attempt && SoundDelivery(sys.repo.rows, sys.deliveries[a]))
  }

  // ----- rows only gain ------------------------------------------------------------------------------------

  /** The rows of a later moment: the same rows in the same order and then newer ones, and a row that was
      consumed or superseded stays so. */
  predicate RowsGrow(before: seq<Row>, after: seq<Row>) {
    && |before| <= |after|
    && (forall i :: 0 <= i < |before| ==>
          && after[i].id == before[i].id && after[i].sequence == before[i].sequence
          && (!before[i].disposition.Pending? ==> after[i].disposition == before[i].disposition))
    && (forall i :: |before| <= i < |after| ==> after[i].sequence == i + 1)
  }

  lemma {:induction false} GrowthKeepsDelivery(before: seq<Row>, after: seq<Row>, d: Delivery)
    requires SoundDelivery(before, d) && RowsGrow(before, after) && SoundRows(after)
    ensures SoundDelivery(after, d)
  {
    hide Steering.Conserved, Steering.Numbered;
    forall id | id in RowIds(before)
      ensures id in RowIds(after)
    {
      var i :| 0 <= i < |before| && RowIds(before)[i] == id;
      assert RowIds(after)[i] == id;
    }
    forall id | IsConsumed(before, id)
      ensures IsConsumed(after, id)
    {
      var i :| 0 <= i < |before| && before[i].id == id && before[i].disposition.Consumed?;
      assert after[i].disposition.Consumed?;
    }
    assert LaterRowsFollow(after, d.channel.inbox);
  }

  lemma {:induction false} ReplaceRepo(sys: System, repo: Repo)
    requires Sound(sys) && RowsGrow(sys.repo.rows, repo.rows) && SoundRows(repo.rows)
    requires repo.attempt >= sys.repo.attempt && (!Terminal(repo.status) ==> NoneSuperseded(repo.rows))
    ensures Sound(sys.(repo := repo))
  {
    hide SoundDelivery, RowsGrow;
    forall a | a in sys.deliveries
      ensures SoundDelivery(repo.rows, sys.deliveries[a])
    {
      GrowthKeepsDelivery(sys.repo.rows, repo.rows, sys.deliveries[a]);
    }
  }

  lemma {:induction false} ReplaceDelivery(sys: System, d: Delivery)
    requires Sound(sys) && d.attempt <= sys.repo.attempt && SoundDelivery(sys.repo.rows, d)
    ensures Sound(Put(sys, d))
  {
  }

  lemma {:induction false} ConsumeGrows(repo: Repo, ids: set<string>)
    requires SoundRows(repo.rows) && NoneSuperseded(repo.rows)
    ensures RowsGrow(repo.rows, Consume(repo, ids).rows) && SoundRows(Consume(repo, ids).rows)
    ensures NoneSuperseded(Consume(repo, ids).rows)
  {
  }

  lemma {:induction false} ConsumedAfter(repo: Repo, events: seq<Steering.SteeringEvent>)
    requires forall e :: e in events ==> e.id in RowIds(repo.rows)
    ensures AllConsumed(Consume(repo, IdSet(events)).rows, events)
  {
    forall e | e in events
      ensures IsConsumed(Consume(repo, IdSet(events)).rows, e.id)
    {
      var k :| 0 <= k < |events| && events[k] == e;
      assert e.id in IdSet(events);
      var i :| 0 <= i < |repo.rows| && RowIds(repo.rows)[i] == e.id;
      assert Consume(repo, IdSet(events)).rows[i].disposition.Consumed?;
    }
  }

  // ----- what the channel holds ----------------------------------------------------------------------------------

  /** Every event of a channel is accepted under its own id. */
  lemma {:induction false} LogIsKnown(rows: seq<Row>, d: Delivery)
    requires Steering.Conserved(d.channel) && KnownRows(rows, d.channel.accepted)
    ensures forall e :: e in d.channel.inbox.log ==> e.id in RowIds(rows)
    ensures forall e :: e in d.channel.drained ==> e in d.channel.inbox.log || e in d.channel.acked
  {
    forall e | e in d.channel.inbox.log
      ensures e.id in RowIds(rows)
    {
      assert e in multiset(d.channel.drained);
      var i :| 0 <= i < |d.channel.drained| && d.channel.drained[i] == e;
      assert Steering.Ids(d.channel.drained)[i] == e.id;
      assert e.id in multiset(d.channel.accepted);
    }
    forall e | e in d.channel.drained
      ensures e in d.channel.inbox.log || e in d.channel.acked
    {
      assert e in multiset(d.channel.drained);
    }
  }

  lemma {:induction false} NotConsumed(rows: seq<Row>, i: nat)
    requires SoundRows(rows) && i < |rows| && !rows[i].disposition.Consumed?
    ensures !IsConsumed(rows, rows[i].id)
  {
  }

  /** A pending row the channel knows has not been forgotten: it waits in the inbox or in the log. */
  lemma {:induction false} PendingRowsAreHeld(rows: seq<Row>, d: Delivery, i: nat)
    requires SoundRows(rows) && SoundDelivery(rows, d) && i < |rows|
    requires rows[i].disposition.Pending? && rows[i].id in d.channel.inbox.seen
    ensures rows[i].id in Steering.Ids(d.channel.inbox.pending) || rows[i].id in Steering.Ids(d.channel.inbox.log)
  {
    var id := rows[i].id;
    assert id in multiset(d.channel.accepted);
    if id !in Steering.Ids(d.channel.inbox.pending) {
      assert id in multiset(Steering.Ids(d.channel.drained));
      var k :| 0 <= k < |d.channel.drained| && Steering.Ids(d.channel.drained)[k] == id;
      var e := d.channel.drained[k];
      LogIsKnown(rows, d);
      NotConsumed(rows, i);
      assert e !in d.channel.acked;
      var m :| 0 <= m < |d.channel.inbox.log| && d.channel.inbox.log[m] == e;
      assert Steering.Ids(d.channel.inbox.log)[m] == id;
    }
  }

  // ----- syncing in -----------------------------------------------------------------------------------------------

  /** Rows that may be ingested one after the other: in increasing order, from the next sequence on. */
  predicate Ingestable(record: Steering.Record, rows: seq<Row>) {
    && (forall i, j :: 0 <= i < j < |rows| ==> rows[i].sequence < rows[j].sequence)
    && (forall i :: 0 <= i < |rows| && rows[i].id !in record.inbox.seen ==> rows[i].sequence >= record.inbox.next)
  }

  lemma {:induction false} IngestOne(record: Steering.Record, row: Row)
    requires Steering.Conserved(record) && Steering.Numbered(record)
    requires row.id !in record.inbox.seen ==> row.sequence >= record.inbox.next
    ensures var after := Steering.Perform(record, Steering.Ingest(AsEvent(row)));
            && Steering.Conserved(after) && Steering.Numbered(after)
            && after.drained == record.drained && after.acked == record.acked && after.inbox.log == record.inbox.log
            && after.inbox.seen == record.inbox.seen + {row.id}
            && (forall id :: id in after.accepted <==> id in record.accepted || id == row.id)
            && (after.inbox.next == record.inbox.next || after.inbox.next == row.sequence + 1)
  {
    var op := Steering.Ingest(AsEvent(row));
    Steering.OperationConserves(record, op);
    Steering.NumberedStep(record, op);
    if row.id in record.inbox.seen {
      SeenIsAccepted(record, row.id);
    }
    hide Steering.Conserved, Steering.Numbered;
  }

  lemma {:induction false} IngestAllKeeps(record: Steering.Record, rows: seq<Row>, bound: int)
    requires Steering.Conserved(record) && Steering.Numbered(record) && Ingestable(record, rows)
    requires record.inbox.next <= bound && forall i :: 0 <= i < |rows| ==> rows[i].sequence < bound
    ensures var after := IngestAll(record, rows);
            && Steering.Conserved(after) && Steering.Numbered(after)
            && after.drained == record.drained && after.acked == record.acked && after.inbox.log == record.inbox.log
            && (forall id :: id in after.accepted <==> id in record.accepted || id in RowIds(rows))
            && after.inbox.next <= bound
    decreases |rows|
  {
    hide Steering.Conserved, Steering.Numbered, Steering.Perform;
    if rows == [] {
      assert RowIds(rows) == [];
    } else {
      var rest := rows[1..];
      assert RowIds(rows) == [rows[0].id] + RowIds(rest);
      assert forall i :: 0 <= i < |rest| ==> rest[i] == rows[i + 1];
      IngestOne(record, rows[0]);
      IngestAllKeeps(Steering.Perform(record, Steering.Ingest(AsEvent(rows[0]))), rest, bound);
    }
  }

  lemma {:induction false} SeenIsAccepted(record: Steering.Record, id: string)
    requires Steering.Conserved(record) && id in record.inbox.seen
    ensures id in record.accepted
  {
  }

  lemma {:induction false} PendingRowsAre(rows: seq<Row>)
    requires SoundRows(rows)
    ensures var pending := PendingRows(rows);
            && (forall i, j :: 0 <= i < j < |pending| ==> pending[i].sequence < pending[j].sequence)
            && (forall r :: r in pending <==> r in rows && r.disposition.Pending?)
    decreases |rows|
  {
    if rows != [] {
      var n := |rows| - 1;
      PendingRowsAre(rows[..n]);
      var front := PendingRows(rows[..n]);
      assert rows == rows[..n] + [rows[n]];
      assert forall r :: r in rows[..n] ==> r.sequence < rows[n].sequence;
      assert forall i :: 0 <= i < |front| ==> front[i] in front;
    }
  }

  lemma {:induction false} RowIdsMember(rows: seq<Row>, id: string)
    ensures id in RowIds(rows) <==> exists r :: r in rows && r.id == id
  {
    if id in RowIds(rows) {
      var i :| 0 <= i < |rows| && RowIds(rows)[i] == id;
      assert rows[i] in rows;
    }
    if r :| r in rows && r.id == id {
      var i :| 0 <= i < |rows| && rows[i] == r;
      assert RowIds(rows)[i] == id;
    }
  }

  lemma {:induction false} PendingRowIds(rows: seq<Row>)
    requires SoundRows(rows)
    ensures forall i :: 0 <= i < |rows| && rows[i].disposition.Pending? ==> rows[i].id in RowIds(PendingRows(rows))
    ensures forall id :: id in RowIds(PendingRows(rows)) ==> id in RowIds(rows)
  {
    var pending := PendingRows(rows);
    PendingRowsAre(rows);
    forall i | 0 <= i < |rows| && rows[i].disposition.Pending?
      ensures rows[i].id in RowIds(pending)
    {
      assert rows[i] in rows;
      RowIdsMember(pending, rows[i].id);
    }
    forall id | id in RowIds(pending)
      ensures id in RowIds(rows)
    {
      RowIdsMember(pending, id);
      RowIdsMember(rows, id);
    }
  }

  lemma {:induction false} PendingIngestable(rows: seq<Row>, d: Delivery)
    requires SoundRows(rows) && LaterRowsFollow(rows, d.channel.inbox)
    ensures Ingestable(d.channel, PendingRows(rows))
    ensures forall i :: 0 <= i < |PendingRows(rows)| ==> PendingRows(rows)[i].sequence < |rows| + 1
  {
    var pending := PendingRows(rows);
    PendingRowsAre(rows);
    forall i | 0 <= i < |pending|
      ensures pending[i].sequence < |rows| + 1
      ensures pending[i].id !in d.channel.inbox.seen ==> pending[i].sequence >= d.channel.inbox.next
    {
      assert pending[i] in pending;
      var j :| 0 <= j < |rows| && rows[j] == pending[i];
    }
  }

  /** Syncing in: afterwards the channel knows every pending row. */
  lemma {:induction false} SyncInSound(rows: seq<Row>, d: Delivery)
    requires SoundRows(rows) && SoundDelivery(rows, d) && d.phase.Executing?
    ensures var d' := d.(channel := IngestAll(d.channel, PendingRows(rows)));
            && SoundDelivery(rows, d')
            && (forall i :: 0 <= i < |rows| && rows[i].disposition.Pending? ==> rows[i].id in d'.channel.inbox.seen)
  {
    PendingIngestable(rows, d);
    IngestAllKeeps(d.channel, PendingRows(rows), |rows| + 1);
    PendingRowIds(rows);
    var after := IngestAll(d.channel, PendingRows(rows));
    forall id | id in after.accepted
      ensures id in after.inbox.seen
    {
      SeenAfter(after, id);
    }
    hide Steering.Conserved, Steering.Numbered, IngestAll, PendingRows;
  }

  lemma {:induction false} SeenAfter(record: Steering.Record, id: string)
    requires Steering.Conserved(record) && id in record.accepted
    ensures id in record.inbox.seen
  {
  }

  // ----- the other steps of a delivery ------------------------------------------------------------------------------

  lemma {:induction false} DrainSound(rows: seq<Row>, d: Delivery)
    requires SoundDelivery(rows, d) && d.phase.Executing?
    ensures SoundDelivery(rows, d.(channel := Steering.Perform(d.channel, Steering.Drain)))
  {
    Steering.OperationConserves(d.channel, Steering.Drain);
    Steering.NumberedStep(d.channel, Steering.Drain);
    hide Steering.Conserved, Steering.Numbered, Steering.BySequence;
  }

  lemma {:induction false} OnlyFrom(log: seq<Steering.SteeringEvent>, ids: set<string>)
    ensures forall e :: e in Steering.Only(log, ids) ==> e in log && e.id in ids
    decreases |log|
  {
    if log != [] {
      OnlyFrom(log[1..], ids);
      assert log == [log[0]] + log[1..];
    }
  }

  lemma {:induction false} AckSound(rows: seq<Row>, d: Delivery)
    requires SoundDelivery(rows, d)
    ensures SoundDelivery(rows, AckBatch(d))
  {
    if d.batch.Committed? {
      var ids := IdSet(d.batch.events);
      Steering.OperationConserves(d.channel, Steering.Ack(ids));
      Steering.NumberedStep(d.channel, Steering.Ack(ids));
      OnlyFrom(d.channel.inbox.log, ids);
      hide Steering.Conserved, Steering.Numbered, Steering.Only, Steering.Without;
      forall e | e in Steering.Only(d.channel.inbox.log, ids)
        ensures IsConsumed(rows, e.id)
      {
        var k :| 0 <= k < |d.batch.events| && d.batch.events[k].id == e.id;
        assert d.batch.events[k] in d.batch.events;
      }
      assert AckBatch(d).channel.acked == d.channel.acked + Steering.Only(d.channel.inbox.log, ids);
    }
  }

  lemma {:induction false} CommitSound(sys: System, d: Delivery, reachable: bool)
    requires Sound(sys) && d.attempt in sys.deliveries && sys.deliveries[d.attempt] == d
    ensures Sound(CommitBatch(sys, d, reachable))
  {
    var rows := sys.repo.rows;
    if d.batch.Peeked? && reachable && Owned(sys.repo, d.worker, d.attempt) {
      var ids := IdSet(d.batch.events);
      var repo := Consume(sys.repo, ids);
      ConsumeGrows(sys.repo, ids);
      GrowthKeepsDelivery(rows, repo.rows, d);
      LogIsKnown(rows, d);
      assert forall e :: e in d.batch.events ==> e in d.channel.inbox.log;
      ConsumedAfter(sys.repo, d.batch.events);
      assert SoundDelivery(repo.rows, d.(batch := Committed(d.batch.events)));
      hide SoundDelivery, RowsGrow, Consume;
      ReplaceRepo(sys, repo);
      ReplaceDelivery(sys.(repo := repo), d.(batch := Committed(d.batch.events)));
    } else if d.batch.Peeked? {
      hide Steering.Conserved, Steering.Numbered;
      var d' := if !reachable then d.(batch := NoBatch)
                else d.(batch := NoBatch, phase := if d.phase.Flushing? then GivingUp else d.phase);
      assert SoundDelivery(rows, d');
      ReplaceDelivery(sys, d');
    }
  }

  // ----- finishing -----------------------------------------------------------------------------------------

  lemma {:induction false} SupersedeGrows(rows: seq<Row>)
    requires SoundRows(rows)
    ensures var left := seq(|rows|, i requires 0 <= i < |rows| => SupersedeRow(rows[i]));
            RowsGrow(rows, left) && SoundRows(left)
  {
  }

  lemma {:induction false} CommitIntentSound(sys: System, d: Delivery)
    requires Sound(sys) && d.attempt in sys.deliveries && sys.deliveries[d.attempt] == d
    ensures Sound(CommitIntent(sys, d))
  {
    var over := d.(phase := Over);
    assert d.phase.Flushed? ==> SoundDelivery(sys.repo.rows, over);
    if d.phase.Flushed? && Owned(sys.repo, d.worker, d.attempt) {
      SupersedeGrows(sys.repo.rows);
      var repo := CommitIntent(sys, d).repo;
      GrowthKeepsDelivery(sys.repo.rows, repo.rows, over);
      hide SoundDelivery, RowsGrow;
      ReplaceRepo(sys, repo);
      ReplaceDelivery(sys.(repo := repo), over);
    } else if d.phase.Flushed? {
      ReplaceDelivery(sys, over);
    }
  }

  lemma {:induction false} SurrenderSound(sys: System, d: Delivery)
    requires Sound(sys) && d.attempt in sys.deliveries && sys.deliveries[d.attempt] == d
    ensures Sound(RetryOrDeadLetter(sys, d))
  {
    var over := d.(phase := Over);
    if d.phase.GivingUp? {
      assert SoundDelivery(sys.repo.rows, over);
      hide SoundDelivery;
      var repo := RetryOrDeadLetter(sys, d).repo;
      assert repo.rows == sys.repo.rows;
      ReplaceRepo(sys, repo);
      ReplaceDelivery(sys.(repo := repo), over);
    }
  }

  lemma {:induction false} CloseSound(sys: System, d: Delivery)
    requires Sound(sys) && d.attempt in sys.deliveries && sys.deliveries[d.attempt] == d
    ensures Sound(CloseStep(sys, d))
  {
    if d.phase.Ended? {
      var flushing, over := d.(phase := Flushing(d.phase.intent)), d.(phase := Over);
      assert SoundDelivery(sys.repo.rows, flushing) && SoundDelivery(sys.repo.rows, over);
      hide SoundDelivery;
      ReplaceRepo(sys, Close(sys.repo));
      ReplaceDelivery(sys, flushing);
      ReplaceDelivery(sys, over);
      ReplaceDelivery(sys.(repo := Close(sys.repo)), flushing);
    }
  }

  // ----- every step keeps the invariant --------------------------------------------------------------------

  lemma {:induction false} QuietSound(rows: seq<Row>, d: Delivery, e: Event)
    requires SoundDelivery(rows, d)
    ensures SoundDelivery(rows, PeekBatch(d))
    ensures e.GraphEnds? && d.phase.Executing? && Valid(e.intent) ==>
              SoundDelivery(rows, d.(phase := Ended(e.intent), batch := NoBatch))
    ensures d.phase.Flushing? && d.channel.inbox.log == [] ==>
              SoundDelivery(rows, d.(phase := Flushed(d.phase.intent), batch := NoBatch))
    ensures d.phase.Flushing? && d.batch.NoBatch? ==> SoundDelivery(rows, d.(phase := GivingUp))
  {
    hide Steering.Conserved, Steering.Numbered;
  }

  lemma {:induction false} ChannelStepSound(sys: System, d: Delivery, e: Event)
    requires Sound(sys) && d.attempt in sys.deliveries && sys.deliveries[d.attempt] == d
    requires e.SyncIn? || e.Drain? || e.Ack?
    ensures Sound(DeliveryStep(sys, d, e))
  {
    var rows := sys.repo.rows;
    if d.phase.Executing? {
      SyncInSound(rows, d);
      DrainSound(rows, d);
    }
    AckSound(rows, d);
    hide SoundDelivery, IngestAll, Steering.Perform, AckBatch;
    if e.Ack? {
      ReplaceDelivery(sys, AckBatch(d));
    } else if d.phase.Executing? {
      ReplaceDelivery(sys, d.(channel := IngestAll(d.channel, PendingRows(rows))));
      ReplaceDelivery(sys, d.(channel := Steering.Perform(d.channel, Steering.Drain)));
    }
  }

  lemma {:induction false} QuietStepSound(sys: System, d: Delivery, e: Event)
    requires Sound(sys) && d.attempt in sys.deliveries && sys.deliveries[d.attempt] == d
    requires e.Peek? || e.GraphEnds? || e.FlushDone? || e.FlushFails?
    ensures Sound(DeliveryStep(sys, d, e))
  {
    QuietSound(sys.repo.rows, d, e);
    hide SoundDelivery;
  }

  lemma {:induction false} DeliveryStepSound(sys: System, d: Delivery, e: Event)
    requires Sound(sys) && d.attempt in sys.deliveries && sys.deliveries[d.attempt] == d
    ensures Sound(DeliveryStep(sys, d, e))
  {
    hide Sound, CommitBatch, CloseStep, CommitIntent, RetryOrDeadLetter;
    if e.SyncIn? || e.Drain? || e.Ack? {
      ChannelStepSound(sys, d, e);
    } else if e.Peek? || e.GraphEnds? || e.FlushDone? || e.FlushFails? {
      QuietStepSound(sys, d, e);
    } else if e.Commit? {
      CommitSound(sys, d, e.reachable);
    } else if e.CloseAdmission? {
      CloseSound(sys, d);
    } else if e.Finalize? {
      CommitIntentSound(sys, d);
    } else if e.Surrender? {
      SurrenderSound(sys, d);
    }
  }

  lemma {:induction false} AcceptSound(sys: System, id: string, kind: string, payload: Value)
    requires Sound(sys)
    ensures Sound(sys.(repo := Repository.Accept(sys.repo, id, kind, payload)))
  {
    var repo := Repository.Accept(sys.repo, id, kind, payload);
    forall i | 0 <= i < |sys.repo.rows| && id !in RowIds(sys.repo.rows)
      ensures sys.repo.rows[i].id != id
    {
      assert RowIds(sys.repo.rows)[i] == sys.repo.rows[i].id;
    }
    hide SoundDelivery;
    ReplaceRepo(sys, repo);
  }

  lemma {:induction false} StartDelivery(rows: seq<Row>, worker: string, attempt: nat)
    requires SoundRows(rows)
    ensures SoundDelivery(rows, Delivery(worker, attempt, Steering.NEW_RECORD, Executing, NoBatch))
  {
    Steering.StartConserved();
  }

  lemma {:induction false} StepSound(sys: System, e: Event)
    requires Sound(sys)
    ensures Sound(Step(sys, e))
  {
    match e {
      case Accept(id, kind, payload) => AcceptSound(sys, id, kind, payload);
      case Cancel => hide SoundDelivery; ReplaceRepo(sys, RequestCancel(sys.repo));
      case LeaseExpires => hide SoundDelivery; ReplaceRepo(sys, Expire(sys.repo));
      case Claim(worker) =>
        hide SoundDelivery;
        var repo := Repository.Claim(sys.repo, worker);
        ReplaceRepo(sys, repo);
        StartDelivery(repo.rows, worker, repo.attempt);
        ReplaceDelivery(sys.(repo := repo), Delivery(worker, repo.attempt, Steering.NEW_RECORD, Executing, NoBatch));
      case WorkerDies(_) => hide SoundDelivery;
      case _ =>
        hide SoundDelivery, DeliveryStep;
        if e.attempt in sys.deliveries {
          DeliveryStepSound(sys, sys.deliveries[e.attempt], e);
        }
    }
  }

  lemma {:induction false} RunSound(sys: System, events: seq<Event>)
    requires Sound(sys)
    ensures Sound(Run(sys, events))
    decreases |events|
  {
    hide Sound, Step;
    if events != [] {
      StepSound(sys, events[0]);
      RunSound(Step(sys, events[0]), events[1..]);
    }
  }

  lemma {:induction false} InitialSound(maxAttempts: nat)
    ensures Sound(Initial(maxAttempts))
  {
  }

  // ----- the main results ----------------------------------------------------------------------------------

  lemma {:induction false} DeliveryStepKeepsRows(sys: System, d: Delivery, e: Event)
    requires SoundRows(sys.repo.rows) && (!Terminal(sys.repo.status) ==> NoneSuperseded(sys.repo.rows))
    ensures RowsGrow(sys.repo.rows, DeliveryStep(sys, d, e).repo.rows)
  {
    SameRowsGrow(sys.repo.rows);
    SupersedeGrows(sys.repo.rows);
    if !Terminal(sys.repo.status) && d.batch.Peeked? {
      ConsumeGrows(sys.repo, IdSet(d.batch.events));
    }
    hide RowsGrow, SoundRows, Steering.Perform, IngestAll, AckBatch, PeekBatch, Consume, SupersedeRow;
  }

  /** Over any interleaving no accepted row disappears, and a row that was consumed or superseded never
      becomes anything else. */
  lemma {:induction false} StepKeepsRows(sys: System, e: Event)
    requires Sound(sys)
    ensures RowsGrow(sys.repo.rows, Step(sys, e).repo.rows)
  {
    hide DeliveryStep, SoundDelivery;
    if !e.Accept? && !e.Cancel? && !e.LeaseExpires? && !e.Claim? && !e.WorkerDies? && e.attempt in sys.deliveries {
      DeliveryStepKeepsRows(sys, sys.deliveries[e.attempt], e);
    }
  }

  lemma {:induction false} GrowthComposes(a: seq<Row>, b: seq<Row>, c: seq<Row>)
    requires RowsGrow(a, b) && RowsGrow(b, c)
    ensures RowsGrow(a, c)
  {
  }

  lemma {:induction false} RunKeepsRows(sys: System, events: seq<Event>)
    requires Sound(sys)
    ensures RowsGrow(sys.repo.rows, Run(sys, events).repo.rows)
    decreases |events|
  {
    hide Sound, Step, RowsGrow;
    if events == [] {
      SameRowsGrow(sys.repo.rows);
    } else {
      StepSound(sys, events[0]);
      StepKeepsRows(sys, events[0]);
      RunKeepsRows(Step(sys, events[0]), events[1..]);
      GrowthComposes(sys.repo.rows, Step(sys, events[0]).repo.rows, Run(sys, events).repo.rows);
    }
  }

  lemma {:induction false} SameRowsGrow(rows: seq<Row>)
    ensures RowsGrow(rows, rows)
  {
  }

  /** Every id a channel has acknowledged, and every id of a batch it is about to acknowledge, is
      durably consumed; and its drains come out in the order the rows were accepted. */
  lemma {:induction false} AckedIsConsumed(maxAttempts: nat, events: seq<Event>, a: nat)
    requires a in Run(Initial(maxAttempts), events).deliveries
    ensures var sys := Run(Initial(maxAttempts), events);
            var d := sys.deliveries[a];
            && AllConsumed(sys.repo.rows, d.channel.acked)
            && (d.batch.Committed? ==> AllConsumed(sys.repo.rows, d.batch.events))
            && Steering.StrictlyAscending(d.channel.drained)
            && Distinct(Steering.Ids(d.channel.drained))
  {
    InitialSound(maxAttempts);
    RunSound(Initial(maxAttempts), events);
    var d := Run(Initial(maxAttempts), events).deliveries[a];
    assert d.channel.drained == (d.channel.drained + d.channel.inbox.pending)[..|d.channel.drained|];
    hide Run;
    DrainedDistinct(d.channel);
  }

  lemma {:induction false} DrainedDistinct(r: Steering.Record)
    requires Steering.Conserved(r)
    ensures Distinct(Steering.Ids(r.drained))
  {
    Steering.DistinctCounts(r.accepted);
    forall id
      ensures multiset(Steering.Ids(r.drained))[id] <= 1
    {
      assert multiset(Steering.Ids(r.drained))[id] <= multiset(r.accepted)[id];
    }
    Steering.CountsDistinct(Steering.Ids(r.drained));
  }

  lemma {:induction false} FreshSyncHolds(rows: seq<Row>, worker: string, a: nat, i: nat)
    requires SoundRows(rows) && i < |rows| && rows[i].disposition.Pending?
    ensures rows[i].id in Steering.Ids(IngestAll(Steering.NEW_RECORD, PendingRows(rows)).inbox.pending)
  {
    var d := Delivery(worker, a, Steering.NEW_RECORD, Executing, NoBatch);
    StartDelivery(rows, worker, a);
    SyncInSound(rows, d);
    PendingIngestable(rows, d);
    IngestAllKeeps(d.channel, PendingRows(rows), |rows| + 1);
    hide SoundDelivery, IngestAll, PendingRows;
    PendingRowsAreHeld(rows, d.(channel := IngestAll(d.channel, PendingRows(rows))), i);
  }

  /** The next delivery attempt of a queued run recovers every unconsumed row, also those an earlier
      attempt had drained without committing: once synced in, each waits in the new channel. */
  lemma {:induction false} NextAttemptRecovers(sys: System, worker: string, i: nat)
    requires Sound(sys) && sys.repo.status.Queued? && i < |sys.repo.rows| && sys.repo.rows[i].disposition.Pending?
    ensures var a := sys.repo.attempt + 1;
            var next := Step(Step(sys, Claim(worker)), SyncIn(a));
            && a in next.deliveries && Owned(next.repo, worker, a)
            && next.repo.rows == sys.repo.rows
            && sys.repo.rows[i].id in Steering.Ids(next.deliveries[a].channel.inbox.pending)
  {
    FreshSyncHolds(sys.repo.rows, worker, sys.repo.attempt + 1, i);
    hide Sound, SoundDelivery, IngestAll, PendingRows;
  }

  /** A retry, by intent or because the final flush could not succeed, leaves every row as it is and
      admission open. */
  lemma {:induction false} RetryKeepsEverythingOpen(sys: System, d: Delivery)
    requires d.phase.GivingUp? || (d.phase.Flushed? && d.phase.intent.RetryRun?)
    ensures var next := if d.phase.GivingUp? then RetryOrDeadLetter(sys, d) else CommitIntent(sys, d);
            && next.repo.rows == sys.repo.rows
            && (next.repo.status.Queued? && !sys.repo.status.Queued? ==> Admits(next.repo))
            && (next.repo.status.Succeeded? ==> sys.repo.status.Succeeded?)
  {
  }

  /** What ends a delivery that hands the run back: it gives up, or its intent is to retry. */
  predicate HandsBack(sys: System, d: Delivery) {
    && Owned(sys.repo, d.worker, d.attempt) && sys.repo.status.Running?
    && ((d.phase.GivingUp? && d.attempt < sys.maxAttempts) || (d.phase.Flushed? && d.phase.intent.RetryRun?))
  }

  function HandBack(d: Delivery): Event {
    if d.phase.GivingUp? then Surrender(d.attempt) else Finalize(d.attempt)
  }

  lemma {:induction false} HandedBack(sys: System, a: nat)
    requires a in sys.deliveries && sys.deliveries[a].attempt == a && HandsBack(sys, sys.deliveries[a])
    ensures var open := Step(sys, HandBack(sys.deliveries[a]));
            && open.repo.status.Queued? && open.repo.attempt == a
            && Admits(open.repo) && open.repo.rows == sys.repo.rows
  {
    RetryKeepsEverythingOpen(sys, sys.deliveries[a]);
  }

  /** Nothing pending is lost between attempts: when a delivery hands the run back with admission reopened, the next
      worker to claim it holds each pending row in its new channel. */
  lemma {:induction false} RetryHandsOver(sys: System, a: nat, worker: string, i: nat)
    requires Sound(sys) && a in sys.deliveries && HandsBack(sys, sys.deliveries[a])
    requires i < |sys.repo.rows| && sys.repo.rows[i].disposition.Pending?
    ensures var open := Step(sys, HandBack(sys.deliveries[a]));
            var next := Step(Step(open, Claim(worker)), SyncIn(a + 1));
            && Admits(open.repo) && open.repo.rows == sys.repo.rows
            && a + 1 in next.deliveries && Owned(next.repo, worker, a + 1) && next.repo.rows == sys.repo.rows
            && sys.repo.rows[i].id in Steering.Ids(next.deliveries[a + 1].channel.inbox.pending)
  {
    assert sys.deliveries[a].attempt == a;
    hide Sound, Step, HandsBack, Admits, Owned, HandBack;
    var end := HandBack(sys.deliveries[a]);
    StepSound(sys, end);
    HandedBack(sys, a);
    NextAttemptRecovers(Step(sys, end), worker, i);
  }

  /** When the flush is done, what the channel drained is consumed, also in all later rows. */
  lemma {:induction false} FlushedIsConsumed(before: seq<Row>, after: seq<Row>, d: Delivery)
    requires SoundDelivery(before, d) && RowsGrow(before, after) && SoundRows(after) && d.channel.inbox.log == []
    ensures AllConsumed(after, d.channel.drained)
    ensures forall i, e :: 0 <= i < |after| && after[i].disposition.Superseded? && e in d.channel.drained ==>
              e.id != after[i].id
  {
    LogIsKnown(before, d);
    GrowthKeepsDelivery(before, after, d);
    hide Steering.Conserved, Steering.Numbered, LaterRowsFollow, KnownRows;
    forall i, e | 0 <= i < |after| && after[i].disposition.Superseded? && e in d.channel.drained
      ensures e.id != after[i].id
    {
      NotConsumed(after, i);
    }
  }

  /** A run finalized by its owner through the disposition path: its status is terminal, no row is left
      pending, everything its channel drained is consumed, and what was superseded it never drained. */
  lemma {:induction false} DispositionSettles(sys: System, d: Delivery)
    requires Sound(sys) && d.attempt in sys.deliveries && sys.deliveries[d.attempt] == d
    requires d.phase.Flushed? && Closing(d.phase.intent) && Owned(sys.repo, d.worker, d.attempt)
    ensures var next := Step(sys, Finalize(d.attempt));
            && Terminal(next.repo.status)
            && (forall i :: 0 <= i < |next.repo.rows| ==> !next.repo.rows[i].disposition.Pending?)
            && AllConsumed(next.repo.rows, d.channel.drained)
            && (forall i, e :: 0 <= i < |next.repo.rows| && next.repo.rows[i].disposition.Superseded? &&
                               e in d.channel.drained ==>
                  e.id != next.repo.rows[i].id)
  {
    var rows := FinishSuperseding(sys.repo, d.phase.intent.status).rows;
    assert Valid(d.phase.intent) && d.channel.inbox.log == [];
    SupersedeGrows(sys.repo.rows);
    FlushedIsConsumed(sys.repo.rows, rows, d);
    hide Sound, SoundDelivery, AllConsumed, RowsGrow;
  }

  predicate CancelRequested(status: RunStatus) { status.Cancelling? || status.Cancelled? }

  /** Cancellation wins: once a run is being cancelled, whatever workers intend, whatever fails and however leases
      change hands, it is never seen in any status but cancelling and cancelled. */
  lemma {:induction false} CancellationWins(sys: System, events: seq<Event>)
    requires CancelRequested(sys.repo.status)
    ensures CancelRequested(Run(sys, events).repo.status)
    decreases |events|
  {
    hide IngestAll, PendingRows;
    if events != [] {
      CancellationWins(Step(sys, events[0]), events[1..]);
    }
  }

  lemma {:induction false} TerminalStep(sys: System, e: Event)
    requires Terminal(sys.repo.status)
    ensures Step(sys, e).repo.status == sys.repo.status && Step(sys, e).repo.rows == sys.repo.rows
  {
    hide Steering.Perform, IngestAll, AckBatch, PeekBatch;
  }

  /** A terminal status is final: whatever happens afterwards, by stale workers, callers or expiring
      leases, neither the status nor any row changes again. */
  lemma {:induction false} TerminalIsFinal(sys: System, events: seq<Event>)
    requires Terminal(sys.repo.status)
    ensures Run(sys, events).repo.status == sys.repo.status && Run(sys, events).repo.rows == sys.repo.rows
    decreases |events|
  {
    hide Step, Terminal;
    if events != [] {
      TerminalStep(sys, events[0]);
      TerminalIsFinal(Step(sys, events[0]), events[1..]);
    }
  }

  /** A delivery that has lost its lease changes nothing durable. */
  lemma {:induction false} StaleIsHarmless(sys: System, d: Delivery, e: Event)
    requires !Owned(sys.repo, d.worker, d.attempt)
    ensures DeliveryStep(sys, d, e).repo == sys.repo
  {
    hide Steering.Perform, IngestAll, AckBatch, PeekBatch;
  }

  /** Claiming gives every earlier attempt of the run away: none of them is owned any more. */
  lemma {:induction false} ClaimFencesEarlierAttempts(sys: System, worker: string, a: nat)
    requires Sound(sys) && sys.repo.status.Queued? && a in sys.deliveries
    ensures !Owned(Step(sys, Claim(worker)).repo, sys.deliveries[a].worker, a)
  {
    assert a <= sys.repo.attempt;
  }

  lemma {:induction false} AttemptsGrow(sys: System, events: seq<Event>)
    ensures Run(sys, events).repo.attempt >= sys.repo.attempt
    decreases |events|
  {
    hide Steering.Perform, IngestAll, AckBatch, PeekBatch;
    if events != [] {
      AttemptsGrow(Step(sys, events[0]), events[1..]);
    }
  }

  /** Once a queued run is claimed, whatever happens afterwards, no earlier attempt owns it again, and nothing an
      earlier attempt does changes anything durable. */
  lemma {:induction false} FencedForGood(sys: System, worker: string, events: seq<Event>, a: nat, e: Event)
    requires Sound(sys) && sys.repo.status.Queued? && a in sys.deliveries
    ensures var later := Run(Step(sys, Claim(worker)), events);
            a in later.deliveries ==>
              && !Owned(later.repo, later.deliveries[a].worker, a)
              && DeliveryStep(later, later.deliveries[a], e).repo == later.repo
  {
    assert a <= sys.repo.attempt;
    var claimed := Step(sys, Claim(worker));
    assert claimed.repo.attempt == sys.repo.attempt + 1;
    AttemptsGrow(claimed, events);
    StepSound(sys, Claim(worker));
    RunSound(claimed, events);
    var later := Run(claimed, events);
    hide Run, DeliveryStep, Step, SoundRows, NoneSuperseded, SoundDelivery;
    if a in later.deliveries {
      StaleIsHarmless(later, later.deliveries[a], e);
    }
  }
}
