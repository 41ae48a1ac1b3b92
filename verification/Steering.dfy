/** The in-process steering inbox: ordered, deduplicated, drained once (steering.py). */
module Steering {
  import opened Prelude

  datatype SteeringEvent = SteeringEvent(id: string, sequence: int, kind: string, payload: Value)

  // ----- ordering by sequence --------------------------------------------------------------------

  /** Insertion behind the events whose sequence is not larger: a stable sort's single step. */
  function Insert(sorted: seq<SteeringEvent>, e: SteeringEvent): seq<SteeringEvent> {
    if sorted == [] then [e]
    else if sorted[|sorted| - 1].sequence <= e.sequence then sorted + [e]
    else Insert(sorted[..|sorted| - 1], e) + [sorted[|sorted| - 1]]
  }

  /** `sorted(..., key=sequence)`: stable, so events with one sequence keep their arrival order. */
  function BySequence(events: seq<SteeringEvent>): seq<SteeringEvent> {
    if events == [] then []
    else Insert(BySequence(events[..|events| - 1]), events[|events| - 1])
  }

  predicate Ascending(events: seq<SteeringEvent>) {
    forall i, j :: 0 <= i < j < |events| ==> events[i].sequence <= events[j].sequence
  }

  lemma {:induction false} InsertCounts(sorted: seq<SteeringEvent>, e: SteeringEvent)
    ensures multiset(Insert(sorted, e)) == multiset(sorted) + multiset{e}
    decreases |sorted|
  {
    if sorted != [] && sorted[|sorted| - 1].sequence > e.sequence {
      var n := |sorted| - 1;
      InsertCounts(sorted[..n], e);
      assert sorted == sorted[..n] + [sorted[n]];
    }
  }

  lemma {:induction false} InsertMembers(sorted: seq<SteeringEvent>, e: SteeringEvent)
    ensures forall x :: x in Insert(sorted, e) <==> x == e || x in sorted
  {
    InsertCounts(sorted, e);
    assert forall x :: x in Insert(sorted, e) <==> x in multiset(Insert(sorted, e));
    assert forall x :: x in sorted <==> x in multiset(sorted);
  }

  lemma {:induction false} InsertSorts(sorted: seq<SteeringEvent>, e: SteeringEvent)
    requires Ascending(sorted)
    ensures Ascending(Insert(sorted, e))
    decreases |sorted|
  {
    if sorted != [] && sorted[|sorted| - 1].sequence > e.sequence {
      var n := |sorted| - 1;
      InsertSorts(sorted[..n], e);
      InsertMembers(sorted[..n], e);
      var front := Insert(sorted[..n], e);
      assert forall x :: x in sorted[..n] ==> x.sequence <= sorted[n].sequence;
      assert forall i :: 0 <= i < |front| ==> front[i] in front;
    }
  }

  lemma {:induction false} BySequenceSorts(events: seq<SteeringEvent>)
    ensures Ascending(BySequence(events))
    ensures multiset(BySequence(events)) == multiset(events)
    decreases |events|
  {
    if events != [] {
      var n := |events| - 1;
      BySequenceSorts(events[..n]);
      InsertSorts(BySequence(events[..n]), events[n]);
      InsertCounts(BySequence(events[..n]), events[n]);
      assert events == events[..n] + [events[n]];
    }
  }

  // ----- the inbox as a value ------------------------------------------------------------------------

  /** `pending` and `log` keep the insertion order of the dictionary and the list behind them. */
  datatype Inbox = Inbox(pending: seq<SteeringEvent>, seen: set<string>, next: int, log: seq<SteeringEvent>)

  const EMPTY := Inbox([], {}, 1, [])

  function Ids(events: seq<SteeringEvent>): seq<string> {
    seq(|events|, i requires 0 <= i < |events| => events[i].id)
  }

  function Submitted(x: Inbox, kind: string, payload: Value, id: string): Inbox {
    if id in Ids(x.pending) || id in x.seen then x
    else Inbox(x.pending + [SteeringEvent(id, x.next, kind, payload)], x.seen + {id}, x.next + 1, x.log)
  }

  function Ingested(x: Inbox, e: SteeringEvent): Inbox {
    if e.id in x.seen then x
    else Inbox(x.pending + [e], x.seen + {e.id}, if x.next < e.sequence + 1 then e.sequence + 1 else x.next, x.log)
  }

  function Drained(x: Inbox): Inbox {
    Inbox([], x.seen, x.next, x.log + BySequence(x.pending))
  }

  function Without(log: seq<SteeringEvent>, ids: set<string>): seq<SteeringEvent> {
    if log == [] then []
    else (if log[0].id in ids then [] else [log[0]]) + Without(log[1..], ids)
  }

  function Acked(x: Inbox, ids: set<string>): Inbox { x.(log := Without(x.log, ids)) }

  // ----- the class ---------------------------------------------------------------------------------------

  class SteeringChannel {
    var pending: seq<SteeringEvent>
    var seenIds: set<string>
    var nextSequence: int
    var consumedLog: seq<SteeringEvent>

    function View(): Inbox
      reads this
    {
      Inbox(pending, seenIds, nextSequence, consumedLog)
    }

    constructor ()
      ensures View() == EMPTY
    {
      pending, seenIds, nextSequence, consumedLog := [], {}, 1, [];
    }

    /** A known id returns the event already known, or a placeholder numbered -1 once it was drained. */
    method Submit(kind: string, payload: Value, id: string) returns (event: SteeringEvent, created: bool)
      modifies this
      ensures View() == Submitted(old(View()), kind, payload, id)
      ensures event.id == id
      ensures created <==> id !in Ids(old(pending)) && id !in old(seenIds)
      ensures created ==> pending == old(pending) + [event] && event.sequence == old(nextSequence)
      ensures id in Ids(old(pending)) ==> event in old(pending)
      ensures !created && id !in Ids(old(pending)) ==> event.sequence == -1
    {
      for i := 0 to |pending|
        invariant id !in Ids(pending[..i])
        invariant unchanged(this)
      {
        if pending[i].id == id {
          assert Ids(pending)[i] == id;
          return pending[i], false;
        }
        assert Ids(pending[..i + 1]) == Ids(pending[..i]) + [pending[i].id];
      }
      assert pending[..|pending|] == pending;
      if id in seenIds { return SteeringEvent(id, -1, kind, payload), false; }
      event := SteeringEvent(id, nextSequence, kind, payload);
      nextSequence := nextSequence + 1;
      pending := pending + [event];
      seenIds := seenIds + {id};
      return event, true;
    }

    method Ingest(e: SteeringEvent) returns (accepted: bool)
      modifies this
      ensures View() == Ingested(old(View()), e)
      ensures accepted <==> e.id !in old(seenIds)
    {
      if e.id in seenIds { return false; }
      seenIds := seenIds + {e.id};
      pending := pending + [e];
      if nextSequence < e.sequence + 1 { nextSequence := e.sequence + 1; }
      return true;
    }

    method Peek() returns (events: seq<SteeringEvent>)
      ensures events == BySequence(pending)
    {
      events := BySequence(pending);
    }

    method Drain() returns (events: seq<SteeringEvent>)
      modifies this
      ensures View() == Drained(old(View())) && events == BySequence(old(pending))
    {
      events := BySequence(pending);
      pending := [];
      consumedLog := consumedLog + events;
    }

    method PeekConsumed() returns (consumed: seq<SteeringEvent>)
      ensures consumed == consumedLog
    {
      return consumedLog;
    }

    method AckConsumed(ids: set<string>)
      modifies this
      ensures View() == Acked(old(View()), ids)
    {
      if ids == {} {
        NothingAcked(consumedLog);
        return;
      }
      if consumedLog == [] { return; }
      consumedLog := Keep(consumedLog, ids);
    }

    static method Keep(log: seq<SteeringEvent>, ids: set<string>) returns (kept: seq<SteeringEvent>)
      ensures kept == Without(log, ids)
    {
      kept := [];
      for i := 0 to |log|
        invariant kept + Without(log[i..], ids) == Without(log, ids)
      {
        assert log[i..][1..] == log[i + 1..];
        if log[i].id !in ids { kept := kept + [log[i]]; }
      }
    }
  }

  lemma {:induction false} NothingAcked(log: seq<SteeringEvent>)
    ensures Without(log, {}) == log
    decreases |log|
  {
    if log != [] {
      NothingAcked(log[1..]);
    }
  }

  // ----- any sequence of operations -----------------------------------------------------------------------

  datatype Operation =
    | Submit(kind: string, payload: Value, id: string)
    | Ingest(event: SteeringEvent)
    | Drain
    | Ack(ids: set<string>)

  /** The inbox and what has been accepted, drained and acknowledged so far. */
  datatype Record = Record(inbox: Inbox, accepted: seq<string>, drained: seq<SteeringEvent>, acked: seq<SteeringEvent>)

  const NEW_RECORD := Record(EMPTY, [], [], [])

  function Only(log: seq<SteeringEvent>, ids: set<string>): seq<SteeringEvent> {
    if log == [] then []
    else (if log[0].id in ids then [log[0]] else []) + Only(log[1..], ids)
  }

  function Perform(r: Record, op: Operation): Record {
    match op
    case Submit(kind, payload, id) =>
      var x := Submitted(r.inbox, kind, payload, id);
      Record(x, if x == r.inbox then r.accepted else r.accepted + [id], r.drained, r.acked)
    case Ingest(e) =>
      var x := Ingested(r.inbox, e);
      Record(x, if e.id in r.inbox.seen then r.accepted else r.accepted + [e.id], r.drained, r.acked)
    case Drain =>
      Record(Drained(r.inbox), r.accepted, r.drained + BySequence(r.inbox.pending), r.acked)
    case Ack(ids) =>
      Record(Acked(r.inbox, ids), r.accepted, r.drained, r.acked + Only(r.inbox.log, ids))
  }

  function History(r: Record, ops: seq<Operation>): Record
    decreases |ops|
  {
    if ops == [] then r else History(Perform(r, ops[0]), ops[1..])
  }

  /** Nothing is lost or duplicated: every accepted id is pending or drained, every drained event is
      acknowledged or in the log, and no id is accepted, so drained, twice. */
  ghost predicate Conserved(r: Record) {
    && multiset(r.accepted) == multiset(Ids(r.inbox.pending)) + multiset(Ids(r.drained))
    && multiset(r.drained) == multiset(r.acked) + multiset(r.inbox.log)
    && Distinct(r.accepted)
    && (forall id :: id in r.inbox.seen <==> id in r.accepted)
  }

  lemma {:induction false} IdsCount(a: seq<SteeringEvent>, b: seq<SteeringEvent>)
    requires multiset(a) == multiset(b)
    ensures multiset(Ids(a)) == multiset(Ids(b))
    decreases |a|
  {
    SameLength(a, b);
    if a != [] {
      var i := Permuted(a, b);
      IdsCount(a[1..], Remove(b, i));
      assert Ids(a) == [a[0].id] + Ids(a[1..]);
      assert Remove(Ids(b), i) == Ids(Remove(b, i));
      RemoveCounts(Ids(b), i);
      assert multiset(Ids(a)) == multiset{a[0].id} + multiset(Ids(a[1..]));
    } else {
      assert Ids(a) == Ids(b);
    }
  }

  lemma {:induction false} AckSplits(log: seq<SteeringEvent>, ids: set<string>)
    ensures multiset(log) == multiset(Only(log, ids)) + multiset(Without(log, ids))
    decreases |log|
  {
    if log != [] {
      AckSplits(log[1..], ids);
      assert log == [log[0]] + log[1..];
    }
  }

  lemma {:induction false} AcceptConserves(r: Record, e: SteeringEvent, next: int)
    requires Conserved(r) && e.id !in r.inbox.seen
    ensures Conserved(Record(Inbox(r.inbox.pending + [e], r.inbox.seen + {e.id}, next, r.inbox.log),
                             r.accepted + [e.id], r.drained, r.acked))
  {
    assert Ids(r.inbox.pending + [e]) == Ids(r.inbox.pending) + [e.id];
  }

  lemma {:induction false} PendingAreSeen(r: Record, id: string)
    requires Conserved(r) && id in Ids(r.inbox.pending)
    ensures id in r.inbox.seen
  {
    assert id in multiset(r.accepted);
  }

  lemma {:induction false} DrainConserves(r: Record)
    requires Conserved(r)
    ensures Conserved(Perform(r, Drain))
  {
    var sorted := BySequence(r.inbox.pending);
    BySequenceSorts(r.inbox.pending);
    IdsCount(sorted, r.inbox.pending);
    hide BySequence;
    assert Ids(r.drained + sorted) == Ids(r.drained) + Ids(sorted);
    assert Ids([]) == [];
  }

  lemma {:induction false} AckConserves(r: Record, ids: set<string>)
    requires Conserved(r)
    ensures Conserved(Perform(r, Ack(ids)))
  {
    AckSplits(r.inbox.log, ids);
    hide Only, Without;
  }

  lemma {:induction false} OperationConserves(r: Record, op: Operation)
    requires Conserved(r)
    ensures Conserved(Perform(r, op))
  {
    match op {
      case Submit(kind, payload, id) =>
        hide Conserved;
        if id in Ids(r.inbox.pending) {
          PendingAreSeen(r, id);
        } else if id !in r.inbox.seen {
          AcceptConserves(r, SteeringEvent(id, r.inbox.next, kind, payload), r.inbox.next + 1);
        }
      case Ingest(e) =>
        hide Conserved;
        if e.id !in r.inbox.seen {
          AcceptConserves(r, e, Ingested(r.inbox, e).next);
        }
      case Drain => DrainConserves(r);
      case Ack(ids) => AckConserves(r, ids);
    }
  }

  /** The accounting holds after any operations whatever. */
  lemma {:induction false} InboxConserves(r: Record, ops: seq<Operation>)
    requires Conserved(r)
    ensures Conserved(History(r, ops))
    decreases |ops|
  {
    if ops != [] {
      OperationConserves(r, ops[0]);
      InboxConserves(Perform(r, ops[0]), ops[1..]);
    }
  }

  lemma {:induction false} StartConserved()
    ensures Conserved(NEW_RECORD)
  {
    assert Ids([]) == [];
  }

  /** No event is drained twice. */
  lemma {:induction false} DrainedOnce(ops: seq<Operation>)
    ensures Distinct(Ids(History(NEW_RECORD, ops).drained))
  {
    StartConserved();
    InboxConserves(NEW_RECORD, ops);
    var r := History(NEW_RECORD, ops);
    DistinctCounts(r.accepted);
    forall id
      ensures multiset(Ids(r.drained))[id] <= 1
    {
      assert multiset(Ids(r.drained))[id] <= multiset(r.accepted)[id];
    }
    CountsDistinct(Ids(r.drained));
  }

  lemma {:induction false} DistinctCounts(s: seq<string>)
    requires Distinct(s)
    ensures forall x :: multiset(s)[x] <= 1
    decreases |s|
  {
    if s != [] {
      DistinctCounts(s[1..]);
      assert s == [s[0]] + s[1..];
      assert s[0] !in s[1..];
      assert s[0] !in multiset(s[1..]);
    }
  }

  lemma {:induction false} CountsDistinct(s: seq<string>)
    requires forall x :: multiset(s)[x] <= 1
    ensures Distinct(s)
    decreases |s|
  {
    if s != [] {
      assert s == [s[0]] + s[1..];
      forall x
        ensures multiset(s[1..])[x] <= 1
      {
        assert multiset(s)[x] >= multiset(s[1..])[x];
      }
      CountsDistinct(s[1..]);
      assert multiset(s)[s[0]] == 1 + multiset(s[1..])[s[0]];
      assert s[0] !in multiset(s[1..]);
      forall i, j | 0 <= i < j < |s|
        ensures s[i] != s[j]
      {
        assert s[j] == s[1..][j - 1];
      }
    }
  }

  /** Acknowledging the events one peek returned leaves those drained since, all of them and in order. */
  lemma {:induction false} AckKeepsLaterDrains(peeked: seq<SteeringEvent>, later: seq<SteeringEvent>)
    requires Distinct(Ids(peeked + later))
    ensures Without(peeked + later, set id | id in Ids(peeked)) == later
  {
    var ids := set id | id in Ids(peeked);
    assert forall i :: 0 <= i < |peeked| ==> Ids(peeked)[i] == peeked[i].id;
    AckAll(peeked, later, ids);
    assert Ids(peeked + later) == Ids(peeked) + Ids(later);
    DistinctParts(Ids(peeked), Ids(later));
    assert forall i :: 0 <= i < |later| ==> Ids(later)[i] == later[i].id && Ids(later)[i] in Ids(later);
    AckNone(later, ids);
  }

  lemma {:induction false} DistinctParts(a: seq<string>, b: seq<string>)
    requires Distinct(a + b)
    ensures forall x :: x in b ==> x !in a
  {
    forall i, j | 0 <= i < |a| && 0 <= j < |b|
      ensures a[i] != b[j]
    {
      assert (a + b)[i] == a[i] && (a + b)[|a| + j] == b[j];
    }
  }

  lemma {:induction false} AckAll(peeked: seq<SteeringEvent>, later: seq<SteeringEvent>, ids: set<string>)
    requires forall i :: 0 <= i < |peeked| ==> peeked[i].id in ids
    ensures Without(peeked + later, ids) == Without(later, ids)
    decreases |peeked|
  {
    if peeked == [] {
      assert peeked + later == later;
    } else {
      assert (peeked + later)[1..] == peeked[1..] + later;
      AckAll(peeked[1..], later, ids);
    }
  }

  lemma {:induction false} AckNone(later: seq<SteeringEvent>, ids: set<string>)
    requires forall i :: 0 <= i < |later| ==> later[i].id !in ids
    ensures Without(later, ids) == later
    decreases |later|
  {
    if later != [] {
      AckNone(later[1..], ids);
    }
  }

  // ----- ordering -------------------------------------------------------------------------------------------

  /** Each newly ingested event is numbered from the next sequence on. */
  predicate InOrder(r: Record, op: Operation) {
    op.Ingest? && op.event.id !in r.inbox.seen ==> op.event.sequence >= r.inbox.next
  }

  ghost predicate AllInOrder(r: Record, ops: seq<Operation>)
    decreases |ops|
  {
    ops == [] || (InOrder(r, ops[0]) && AllInOrder(Perform(r, ops[0]), ops[1..]))
  }

  predicate StrictlyAscending(events: seq<SteeringEvent>) {
    forall i, j :: 0 <= i < j < |events| ==> events[i].sequence < events[j].sequence
  }

  /** Everything drained, followed by everything pending, is numbered in increasing order below the next. */
  ghost predicate Numbered(r: Record) {
    && StrictlyAscending(r.drained + r.inbox.pending)
    && (forall e :: e in r.drained + r.inbox.pending ==> e.sequence < r.inbox.next)
  }

  lemma {:induction false} SortedStays(events: seq<SteeringEvent>)
    requires Ascending(events)
    ensures BySequence(events) == events
    decreases |events|
  {
    if events != [] {
      var n := |events| - 1;
      SortedStays(events[..n]);
      assert events == events[..n] + [events[n]];
    }
  }

  /** Everything drained so far, followed by what the next drain would return. */
  function InDrainOrder(r: Record): seq<SteeringEvent> { r.drained + BySequence(r.inbox.pending) }

  predicate Bounded(r: Record) {
    forall e :: e in r.drained + r.inbox.pending ==> e.sequence < r.inbox.next
  }

  /** A newly ingested event is numbered above everything drained already and unlike everything still pending. */
  predicate Fits(r: Record, op: Operation) {
    op.Ingest? && op.event.id !in r.inbox.seen ==>
      && (forall e :: e in r.drained ==> e.sequence < op.event.sequence)
      && (forall e :: e in r.inbox.pending ==> e.sequence != op.event.sequence)
  }

  ghost predicate AllFit(r: Record, ops: seq<Operation>)
    decreases |ops|
  {
    ops == [] || (Fits(r, ops[0]) && AllFit(Perform(r, ops[0]), ops[1..]))
  }

  /** Insertion puts an event behind those numbered at most as high and before those numbered higher. */
  lemma {:induction false} InsertSplits(sorted: seq<SteeringEvent>, e: SteeringEvent) returns (i: nat)
    requires Ascending(sorted)
    ensures i <= |sorted| && Insert(sorted, e) == sorted[..i] + [e] + sorted[i..]
    ensures forall k :: 0 <= k < i ==> sorted[k].sequence <= e.sequence
    ensures forall k :: i <= k < |sorted| ==> sorted[k].sequence > e.sequence
    decreases |sorted|
  {
    if sorted == [] || sorted[|sorted| - 1].sequence <= e.sequence {
      i := |sorted|;
    } else {
      i := InsertSplits(sorted[..|sorted| - 1], e);
      assert sorted[..|sorted| - 1][..i] == sorted[..i];
      assert sorted[i..] == sorted[..|sorted| - 1][i..] + [sorted[|sorted| - 1]];
    }
  }

  predicate Before(front: seq<SteeringEvent>, back: seq<SteeringEvent>) {
    forall x, y :: x in front && y in back ==> x.sequence < y.sequence
  }

  lemma {:induction false} AscendsInParts(front: seq<SteeringEvent>, back: seq<SteeringEvent>)
    ensures StrictlyAscending(front + back) <==>
            StrictlyAscending(front) && StrictlyAscending(back) && Before(front, back)
  {
    var whole := front + back;
    assert forall i :: 0 <= i < |front| ==> front[i] == whole[i];
    assert forall i :: 0 <= i < |back| ==> back[i] == whole[|front| + i];
    if StrictlyAscending(whole) {
      forall x, y | x in front && y in back
        ensures x.sequence < y.sequence
      {
        var i, j :| 0 <= i < |front| && 0 <= j < |back| && front[i] == x && back[j] == y;
        assert whole[i].sequence < whole[|front| + j].sequence;
      }
    }
  }

  lemma {:induction false} Between(lower: seq<SteeringEvent>, e: SteeringEvent, upper: seq<SteeringEvent>)
    requires forall x :: x in lower ==> x.sequence <= e.sequence
    requires forall x :: x in upper ==> x.sequence > e.sequence
    ensures Before(lower, upper) && Before([e], upper)
    ensures Before(lower, [e] + upper) <==> forall x :: x in lower ==> x.sequence != e.sequence
  {
    var after := [e] + upper;
    assert after[0] == e;
    assert forall y :: y in after <==> y == e || y in upper;
  }

  lemma {:induction false} InsertStrict(sorted: seq<SteeringEvent>, e: SteeringEvent)
    requires Ascending(sorted)
    ensures StrictlyAscending(Insert(sorted, e)) <==>
            StrictlyAscending(sorted) && forall x :: x in sorted ==> x.sequence != e.sequence
  {
    assert StrictlyAscending([e]);
    var i := InsertSplits(sorted, e);
    var lower, upper := sorted[..i], sorted[i..];
    hide *;
    assert forall x :: x in lower ==> x.sequence <= e.sequence;
    assert forall x :: x in upper ==> x.sequence > e.sequence;
    assert sorted == lower + upper;
    assert forall x :: x in sorted <==> x in lower || x in upper;
    assert Insert(sorted, e) == lower + ([e] + upper);
    Between(lower, e, upper);
    AscendsInParts(lower, upper);
    AscendsInParts(lower, [e] + upper);
    AscendsInParts([e], upper);
  }

  lemma {:induction false} InsertAscends(front: seq<SteeringEvent>, sorted: seq<SteeringEvent>, e: SteeringEvent)
    requires Ascending(sorted)
    ensures StrictlyAscending(front + Insert(sorted, e)) <==>
            && StrictlyAscending(front + sorted)
            && (forall x :: x in front ==> x.sequence < e.sequence)
            && (forall x :: x in sorted ==> x.sequence != e.sequence)
  {
    hide Insert, StrictlyAscending, Ascending;
    AscendsInParts(front, sorted);
    AscendsInParts(front, Insert(sorted, e));
    InsertStrict(sorted, e);
    InsertMembers(sorted, e);
  }

  lemma {:induction false} SortedMembers(events: seq<SteeringEvent>)
    ensures Ascending(BySequence(events))
    ensures forall e :: e in BySequence(events) <==> e in events
  {
    BySequenceSorts(events);
    hide BySequence;
    SameLength(BySequence(events), events);
  }

  lemma {:induction false} AcceptAscends(r: Record, e: SteeringEvent)
    ensures StrictlyAscending(r.drained + BySequence(r.inbox.pending + [e])) <==>
            && StrictlyAscending(InDrainOrder(r))
            && (forall x :: x in r.drained ==> x.sequence < e.sequence)
            && (forall x :: x in r.inbox.pending ==> x.sequence != e.sequence)
  {
    assert (r.inbox.pending + [e])[..|r.inbox.pending|] == r.inbox.pending;
    assert BySequence(r.inbox.pending + [e]) == Insert(BySequence(r.inbox.pending), e);
    SortedMembers(r.inbox.pending);
    hide BySequence, Insert;
    InsertAscends(r.drained, BySequence(r.inbox.pending), e);
  }

  lemma {:induction false} BoundedStep(r: Record, op: Operation)
    requires Bounded(r)
    ensures Bounded(Perform(r, op))
  {
    SortedMembers(r.inbox.pending);
    hide BySequence, Without, Only;
  }

  /** One operation keeps the drains in order exactly when they were and it fits. */
  lemma {:induction false} AscendsStep(r: Record, op: Operation)
    requires Bounded(r)
    ensures StrictlyAscending(InDrainOrder(Perform(r, op))) <==> StrictlyAscending(InDrainOrder(r)) && Fits(r, op)
  {
    hide StrictlyAscending, BySequence, Without, Only;
    match op {
      case Submit(kind, payload, id) =>
        AcceptAscends(r, SteeringEvent(id, r.inbox.next, kind, payload));
      case Ingest(e) => AcceptAscends(r, e);
      case Drain =>
        assert BySequence([]) == [] by {
          SortedStays([]);
        }
        assert InDrainOrder(Perform(r, op)) == InDrainOrder(r);
      case Ack(ids) =>
    }
  }

  /** The concatenation of all drains, with the one that would come next, is strictly increasing after any operations
      if and only if it was before and each newly ingested event fits where it arrives. */
  lemma {:induction false} DrainsAscendExactly(r: Record, ops: seq<Operation>)
    requires Bounded(r)
    ensures Bounded(History(r, ops))
    ensures StrictlyAscending(InDrainOrder(History(r, ops))) <==> StrictlyAscending(InDrainOrder(r)) && AllFit(r, ops)
    decreases |ops|
  {
    hide StrictlyAscending, InDrainOrder, Bounded, Fits, Perform;
    if ops != [] {
      BoundedStep(r, ops[0]);
      AscendsStep(r, ops[0]);
      DrainsAscendExactly(Perform(r, ops[0]), ops[1..]);
    }
  }

  /** Numbers from the next sequence on always fit. */
  lemma {:induction false} InOrderFits(r: Record, ops: seq<Operation>)
    requires Bounded(r) && AllInOrder(r, ops)
    ensures AllFit(r, ops)
    decreases |ops|
  {
    hide Perform;
    if ops != [] {
      BoundedStep(r, ops[0]);
      InOrderFits(Perform(r, ops[0]), ops[1..]);
    }
  }

  lemma {:induction false} NumberedStays(r: Record, ops: seq<Operation>)
    requires Numbered(r) && AllInOrder(r, ops)
    ensures Numbered(History(r, ops))
    decreases |ops|
  {
    if ops != [] {
      NumberedStep(r, ops[0]);
      NumberedStays(Perform(r, ops[0]), ops[1..]);
    }
  }

  /** In particular when every newly ingested event is numbered from the next sequence on. */
  lemma {:induction false} DrainsAscend(r: Record, ops: seq<Operation>)
    requires Numbered(r) && AllInOrder(r, ops)
    ensures Numbered(History(r, ops)) && StrictlyAscending(History(r, ops).drained)
  {
    NumberedStays(r, ops);
    InOrderFits(r, ops);
    assert r.inbox.pending == (r.drained + r.inbox.pending)[|r.drained|..];
    SortedStays(r.inbox.pending);
    DrainsAscendExactly(r, ops);
    var h := History(r, ops);
    hide History, AllFit, AllInOrder, BySequence;
    assert h.drained == InDrainOrder(h)[..|h.drained|];
  }

  lemma {:induction false} NumberedAppend(r: Record, e: SteeringEvent)
    requires Numbered(r) && e.sequence >= r.inbox.next
    ensures StrictlyAscending(r.drained + (r.inbox.pending + [e]))
    ensures forall x :: x in r.drained + (r.inbox.pending + [e]) ==> x.sequence <= e.sequence
  {
    var all := r.drained + r.inbox.pending;
    assert StrictlyAscending([e]);
    hide StrictlyAscending;
    assert r.drained + (r.inbox.pending + [e]) == all + [e];
    AscendsInParts(all, [e]);
  }

  lemma {:induction false} NumberedStep(r: Record, op: Operation)
    requires Numbered(r) && InOrder(r, op)
    ensures Numbered(Perform(r, op))
  {
    match op {
      case Submit(kind, payload, id) =>
        hide StrictlyAscending;
        NumberedAppend(r, SteeringEvent(id, r.inbox.next, kind, payload));
      case Ingest(e) =>
        hide StrictlyAscending;
        if e.id !in r.inbox.seen {
          NumberedAppend(r, e);
        }
      case Drain =>
        var all := r.drained + r.inbox.pending;
        assert r.inbox.pending == all[|r.drained|..];
        SortedStays(r.inbox.pending);
        hide StrictlyAscending, BySequence;
        assert r.drained + BySequence(r.inbox.pending) + [] == all;
      case Ack(ids) =>
    }
  }

  /** A late row with a smaller sequence is drained after a larger one that was drained before it arrived. */
  lemma {:induction false} LateRowBreaksOrder()
    ensures var ops := [Ingest(SteeringEvent("b", 2, "", Null)), Drain, Ingest(SteeringEvent("a", 1, "", Null)), Drain];
            !StrictlyAscending(History(NEW_RECORD, ops).drained)
  {
    var late, early := SteeringEvent("a", 1, "", Null), SteeringEvent("b", 2, "", Null);
    var ops := [Ingest(early), Drain, Ingest(late), Drain];
    assert "a" != "b";
    SortedStays([early]);
    SortedStays([late]);
    var r1 := Perform(NEW_RECORD, Ingest(early));
    assert r1.inbox.pending == [early];
    var r2 := Perform(r1, Drain);
    assert r2.drained == [early] && r2.inbox.pending == [];
    var r3 := Perform(r2, Ingest(late));
    assert r3.inbox.pending == [late];
    var r4 := Perform(r3, Drain);
    assert r4.drained == [early, late];
    var none: seq<Operation> := [];
    HistoryOne(r3, Drain, none);
    HistoryOne(r2, Ingest(late), [Drain] + none);
    HistoryOne(r1, Drain, [Ingest(late)] + ([Drain] + none));
    HistoryOne(NEW_RECORD, Ingest(early), [Drain] + ([Ingest(late)] + ([Drain] + none)));
    assert ops == [Ingest(early)] + ([Drain] + ([Ingest(late)] + ([Drain] + none)));
    assert r4.drained[0].sequence > r4.drained[1].sequence;
  }

  lemma {:induction false} HistoryOne(r: Record, op: Operation, rest: seq<Operation>)
    ensures History(r, [op] + rest) == History(Perform(r, op), rest)
  {
    assert ([op] + rest)[1..] == rest;
  }
}
