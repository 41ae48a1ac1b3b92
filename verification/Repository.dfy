/** The durable side of steering for one run: its rows, its lease and its status (server/repository.py,
    `InMemoryRepository`).  Every operation is one atomic step. */
module Repository {
  import opened Prelude
  import Steering

  datatype Disposition = Pending | Consumed | Superseded

  datatype Row = Row(id: string, sequence: int, kind: string, payload: Value, disposition: Disposition)

  datatype RunStatus =
    | Queued
    | Running
    | Cancelling
    | Paused
    | Succeeded
    | FailedRun
    | Cancelled
    | TimedOut
    | DeadLetter

  predicate Active(status: RunStatus) { status.Running? || status.Cancelling? }

  predicate Terminal(status: RunStatus) {
    status.Succeeded? || status.FailedRun? || status.Cancelled? || status.TimedOut? || status.DeadLetter?
  }

  datatype Repo = Repo(rows: seq<Row>, status: RunStatus, owner: Option<string>, attempt: nat, closed: bool)

  const SUBMITTED := Repo([], Queued, None, 0, false)

  /** The fence: this worker still holds the lease of this delivery attempt. */
  predicate Owned(r: Repo, worker: string, attempt: nat) {
    r.owner == Some(worker) && r.attempt == attempt && Active(r.status)
  }

  function RowIds(rows: seq<Row>): seq<string> {
    seq(|rows|, i requires 0 <= i < |rows| => rows[i].id)
  }

  predicate Admits(r: Repo) { !Terminal(r.status) && !r.closed }

  /** `submit_steering`: a known id is answered from its row, a new one is admitted or refused. */
  function Accept(r: Repo, id: string, kind: string, payload: Value): Repo {
    if id in RowIds(r.rows) || !Admits(r) then r
    else r.(rows := r.rows + [Row(id, |r.rows| + 1, kind, payload, Pending)])
  }

  /** `claim_run`: the next delivery attempt of a queued run. */
  function Claim(r: Repo, worker: string): Repo {
    if r.status.Queued? then r.(status := Running, owner := Some(worker), attempt := r.attempt + 1) else r
  }

  /** A lease has expired: a running run is queued again, one being cancelled is cancelled. */
  function Expire(r: Repo): Repo {
    if r.status.Running? then r.(status := Queued, owner := None, closed := false)
    else if r.status.Cancelling? then r.(status := Cancelled, owner := None)
    else r
  }

  function RequestCancel(r: Repo): Repo {
    if Terminal(r.status) then r
    else if r.status.Queued? || r.status.Paused? then r.(status := Cancelled)
    else r.(status := Cancelling)
  }

  function Close(r: Repo): Repo { r.(closed := true) }

  function ConsumeRow(row: Row, ids: set<string>): Row {
    if row.id in ids then row.(disposition := Consumed) else row
  }

  function Consume(r: Repo, ids: set<string>): Repo {
    r.(rows := seq(|r.rows|, i requires 0 <= i < |r.rows| => ConsumeRow(r.rows[i], ids)))
  }

  function SupersedeRow(row: Row): Row {
    if row.disposition.Pending? then row.(disposition := Superseded) else row
  }

  /** Cancellation wins over whatever the worker intended. */
  function Coerced(r: Repo, status: RunStatus): RunStatus {
    if r.status.Cancelling? then Cancelled else status
  }

  function Finish(r: Repo, status: RunStatus): Repo {
    r.(status := Coerced(r, status), owner := None)
  }

  /** `finalize_run_with_steering_disposition_if_owned`: supersede what is left and finish, in one step. */
  function FinishSuperseding(r: Repo, status: RunStatus): Repo {
    Finish(r, status).(rows := seq(|r.rows|, i requires 0 <= i < |r.rows| => SupersedeRow(r.rows[i])))
  }

  function Retry(r: Repo): Repo {
    if r.status.Cancelling? then r.(status := Cancelled, owner := None)
    else r.(status := Queued, owner := None, closed := false)
  }

  function PendingRows(rows: seq<Row>): seq<Row> {
    if rows == [] then []
    else
      var n := |rows| - 1;
      PendingRows(rows[..n]) + if rows[n].disposition.Pending? then [rows[n]] else []
  }

  function AsEvent(row: Row): Steering.SteeringEvent {
    Steering.SteeringEvent(row.id, row.sequence, row.kind, row.payload)
  }

  function IdSet(events: seq<Steering.SteeringEvent>): set<string> {
    set i | 0 <= i < |events| :: events[i].id
  }

  // ----- the object the worker calls ---------------------------------------------------------------

  class InMemoryRepository {
    var rows: seq<Row>
    var status: RunStatus
    var leaseOwner: Option<string>
    var attempt: nat
    var steeringClosed: bool

    function View(): Repo
      reads this
    {
      Repo(rows, status, leaseOwner, attempt, steeringClosed)
    }

    constructor ()
      ensures View() == SUBMITTED
    {
      rows, status, leaseOwner, attempt, steeringClosed := [], Queued, None, 0, false;
    }

    method CloseSteering(worker: string, attempt: nat) returns (closed: bool)
      modifies this
      ensures closed == Owned(old(View()), worker, attempt)
      ensures View() == if closed then Close(old(View())) else old(View())
    {
      if leaseOwner != Some(worker) || this.attempt != attempt || !Active(status) { return false; }
      if !steeringClosed { steeringClosed := true; }
      return true;
    }

    method ListPendingSteering() returns (pending: seq<Row>)
      ensures pending == PendingRows(rows)
    {
      pending := [];
      for i := 0 to |rows|
        invariant pending == PendingRows(rows[..i])
      {
        assert rows[..i + 1][..i] == rows[..i];
        if rows[i].disposition.Pending? { pending := pending + [rows[i]]; }
      }
      assert rows[..|rows|] == rows;
    }

    /** Fenced: `None` means the lease is gone and nothing was written. */
    method CommitSteeringConsumptionsIfOwned(worker: string, attempt: nat, consumed: seq<Steering.SteeringEvent>)
      returns (committed: bool)
      modifies this
      ensures committed == Owned(old(View()), worker, attempt)
      ensures View() == if committed then Consume(old(View()), IdSet(consumed)) else old(View())
    {
      if leaseOwner != Some(worker) || this.attempt != attempt || !Active(status) { return false; }
      var ids := IdSet(consumed);
      var marked: seq<Row> := [];
      for i := 0 to |rows|
        invariant |marked| == i && forall j :: 0 <= j < i ==> marked[j] == ConsumeRow(rows[j], ids)
        invariant unchanged(this)
      {
        var row := rows[i];
        if row.id in ids && !row.disposition.Consumed? { row := row.(disposition := Consumed); }
        marked := marked + [row];
      }
      rows := marked;
      return true;
    }

    method FinishRunIfOwned(worker: string, attempt: nat, intended: RunStatus) returns (done: bool)
      modifies this
      ensures done == Owned(old(View()), worker, attempt)
      ensures View() == if done then Finish(old(View()), intended) else old(View())
    {
      if leaseOwner != Some(worker) || this.attempt != attempt || !Active(status) { return false; }
      status, leaseOwner := if status.Cancelling? then Cancelled else intended, None;
      return true;
    }

    method RetryRunIfOwned(worker: string, attempt: nat) returns (done: bool)
      modifies this
      ensures done == Owned(old(View()), worker, attempt)
      ensures View() == if done then Retry(old(View())) else old(View())
    {
      if leaseOwner != Some(worker) || this.attempt != attempt || !Active(status) { return false; }
      if status.Cancelling? {
        status, leaseOwner := Cancelled, None;
      } else {
        status, leaseOwner, steeringClosed := Queued, None, false;
      }
      return true;
    }

    method FinalizeRunWithSteeringDispositionIfOwned(worker: string, attempt: nat, intended: RunStatus)
      returns (done: bool)
      modifies this
      ensures done == Owned(old(View()), worker, attempt)
      ensures View() == if done then FinishSuperseding(old(View()), intended) else old(View())
    {
      if leaseOwner != Some(worker) || this.attempt != attempt || !Active(status) { return false; }
      var left: seq<Row> := [];
      for i := 0 to |rows|
        invariant |left| == i && forall j :: 0 <= j < i ==> left[j] == SupersedeRow(rows[j])
        invariant unchanged(this)
      {
        left := left + [if rows[i].disposition.Pending? then rows[i].(disposition := Superseded) else rows[i]];
      }
      rows := left;
      status, leaseOwner := if status.Cancelling? then Cancelled else intended, None;
      return true;
    }
  }
}
