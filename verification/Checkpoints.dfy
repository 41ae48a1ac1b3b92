/** In-process checkpoint storage (checkpoint/memory.py). */
module Checkpoints {
  import opened Prelude
  import opened Interrupts
  import opened Durability

  /** A thread id and a checkpoint namespace. */
  type Thread = (string, string)

  datatype PendingWrite = PendingWrite(taskId: TaskId, index: nat, values: map<Key, Value>, goto: seq<Target>)

  type WriteKey = (TaskId, nat)

  // ----- the order in which writes are read back ---------------------------------------------------

  predicate TextLess(a: string, b: string) {
    if b == [] then false
    else if a == [] then true
    else a[0] < b[0] || (a[0] == b[0] && TextLess(a[1..], b[1..]))
  }

  lemma {:induction false} TextOrder(a: string, b: string)
    ensures TextLess(a, b) || TextLess(b, a) || a == b
    ensures !(TextLess(a, b) && TextLess(b, a)) && !TextLess(a, a)
    decreases |a|
  {
    if a != [] {
      TextOrder(a[1..], a[1..]);
    }
    if a != [] && b != [] && a[0] == b[0] {
      TextOrder(a[1..], b[1..]);
      assert a == [a[0]] + a[1..] && b == [b[0]] + b[1..];
    }
  }

  lemma {:induction false} TextTransitive(a: string, b: string, c: string)
    requires TextLess(a, b) && TextLess(b, c)
    ensures TextLess(a, c)
    decreases |a|
  {
    if a != [] && a[0] == b[0] && b[0] == c[0] {
      TextTransitive(a[1..], b[1..], c[1..]);
    }
  }

  /** By index, and by task id within an index. */
  predicate KeyLess(a: WriteKey, b: WriteKey) {
    a.1 < b.1 || (a.1 == b.1 && TextLess(a.0, b.0))
  }

  lemma {:induction false} KeyOrder(a: WriteKey, b: WriteKey, c: WriteKey)
    ensures KeyLess(a, b) || KeyLess(b, a) || a == b
    ensures !(KeyLess(a, b) && KeyLess(b, a)) && !KeyLess(a, a)
    ensures KeyLess(a, b) && KeyLess(b, c) ==> KeyLess(a, c)
  {
    TextOrder(a.0, b.0);
    TextOrder(a.0, a.0);
    if TextLess(a.0, b.0) && TextLess(b.0, c.0) {
      TextTransitive(a.0, b.0, c.0);
    }
  }

  /** The first of the remaining keys. */
  method LeastKey(keys: set<WriteKey>) returns (least: WriteKey)
    requires keys != {}
    ensures least in keys && forall k :: k in keys && k != least ==> KeyLess(least, k)
  {
    least :| least in keys;
    var rest := keys - {least};
    while rest != {}
      invariant least in keys && rest <= keys
      invariant forall k :: k in keys - rest && k != least ==> KeyLess(least, k)
    {
      var k :| k in rest;
      forall j | j in keys {
        KeyOrder(k, least, j);
      }
      if KeyLess(k, least) { least := k; }
      rest := rest - {k};
    }
  }

  /** The write that storing a batch leaves under a key: the last one of the batch, if any. */
  function Stored(before: map<WriteKey, PendingWrite>, writes: seq<PendingWrite>): map<WriteKey, PendingWrite> {
    if writes == [] then before
    else
      var last := writes[|writes| - 1];
      Stored(before, writes[..|writes| - 1])[(last.taskId, last.index) := last]
  }

  function Newest(items: seq<Checkpoint>, id: CheckpointId): Option<Checkpoint> {
    if items == [] then None
    else if items[|items| - 1].id == id then Some(items[|items| - 1])
    else Newest(items[..|items| - 1], id)
  }

  class InMemorySaver {
    var storage: map<Thread, seq<Checkpoint>>
    var writes: map<(Thread, CheckpointId), map<WriteKey, PendingWrite>>

    function History(thread: Thread): seq<Checkpoint>
      reads this
    {
      if thread in storage then storage[thread] else []
    }

    function WritesOf(thread: Thread, id: CheckpointId): map<WriteKey, PendingWrite>
      reads this
    {
      if (thread, id) in writes then writes[(thread, id)] else map[]
    }

    /** Every stored write is filed under its own task and index. */
    ghost predicate Valid()
      reads this
    {
      forall t, id, k :: (t, id) in writes && k in writes[(t, id)] ==>
        k == (writes[(t, id)][k].taskId, writes[(t, id)][k].index)
    }

    constructor ()
      ensures Valid() && storage == map[] && writes == map[]
    {
      storage, writes := map[], map[];
    }

    method Put(thread: Thread, c: Checkpoint)
      requires Valid()
      modifies this`storage
      ensures Valid() && storage == old(storage)[thread := old(History(thread)) + [c]]
    {
      storage := storage[thread := History(thread) + [c]];
    }

    /** Without an id the newest checkpoint of the thread; with one, the newest that carries it. */
    method GetTuple(thread: Thread, id: Option<CheckpointId>) returns (item: Option<Checkpoint>)
      requires Valid()
      ensures id.None? ==>
                item == if History(thread) == [] then None else Some(History(thread)[|History(thread)| - 1])
      ensures id.Some? ==> item == Newest(History(thread), id.value)
    {
      var items := History(thread);
      if id.None? {
        return if items == [] then None else Some(items[|items| - 1]);
      }
      var i := |items|;
      assert items[..i] == items;
      while i > 0
        invariant 0 <= i <= |items| && Newest(items, id.value) == Newest(items[..i], id.value)
      {
        i := i - 1;
        assert items[..i + 1][..i] == items[..i] && items[..i + 1][i] == items[i];
        if items[i].id == id.value { return Some(items[i]); }
      }
      return None;
    }

    method PutWrites(thread: Thread, id: CheckpointId, batch: seq<PendingWrite>)
      requires Valid()
      modifies this`writes
      ensures Valid() && writes == old(writes)[(thread, id) := Stored(old(WritesOf(thread, id)), batch)]
    {
      var target := WritesOf(thread, id);
      for i := 0 to |batch|
        invariant target == Stored(old(WritesOf(thread, id)), batch[..i])
        invariant forall k :: k in target ==> k == (target[k].taskId, target[k].index)
      {
        assert batch[..i + 1][..i] == batch[..i];
        target := target[(batch[i].taskId, batch[i].index) := batch[i]];
      }
      assert batch[..|batch|] == batch;
      writes := writes[(thread, id) := target];
    }

    /** The stored writes, each once, by index and then task id. */
    method GetWrites(thread: Thread, id: CheckpointId) returns (found: seq<PendingWrite>)
      requires Valid()
      ensures forall i, j :: 0 <= i < j < |found| ==>
                KeyLess((found[i].taskId, found[i].index), (found[j].taskId, found[j].index))
      ensures forall w :: w in found <==>
                (w.taskId, w.index) in WritesOf(thread, id) && WritesOf(thread, id)[(w.taskId, w.index)] == w
    {
      found := [];
      var values := WritesOf(thread, id);
      var rest := values.Keys;
      while rest != {}
        invariant rest <= values.Keys
        invariant forall i, j :: 0 <= i < j < |found| ==>
                    KeyLess((found[i].taskId, found[i].index), (found[j].taskId, found[j].index))
        invariant forall i, k :: 0 <= i < |found| && k in rest ==> KeyLess((found[i].taskId, found[i].index), k)
        invariant forall w :: w in found <==>
                    (w.taskId, w.index) in values.Keys - rest && values[(w.taskId, w.index)] == w
      {
        var k := LeastKey(rest);
        found := found + [values[k]];
        rest := rest - {k};
      }
    }
  }

  /** `{write.task_id: write for write in writes}`: a later write of a task replaces an earlier one. */
  function ByTask(found: seq<PendingWrite>): map<TaskId, PendingWrite> {
    if found == [] then map[]
    else
      var last := found[|found| - 1];
      ByTask(found[..|found| - 1])[last.taskId := last]
  }

  lemma {:induction false} ByTaskFinds(found: seq<PendingWrite>, w: PendingWrite)
    requires w in found && forall v :: v in found && v.taskId == w.taskId ==> v == w
    ensures w.taskId in ByTask(found) && ByTask(found)[w.taskId] == w
    decreases |found|
  {
    var n := |found| - 1;
    assert found == found[..n] + [found[n]];
    assert found[n] in found;
    if found[n].taskId != w.taskId {
      ByTaskFinds(found[..n], w);
    }
  }

  lemma {:induction false} StoredKeeps(before: map<WriteKey, PendingWrite>, batch: seq<PendingWrite>, k: WriteKey)
    ensures (forall w :: w in batch ==> (w.taskId, w.index) != k) && k in before ==>
              k in Stored(before, batch) && Stored(before, batch)[k] == before[k]
    ensures k in Stored(before, batch) ==> k in before || exists w :: w in batch && (w.taskId, w.index) == k
    decreases |batch|
  {
    if batch != [] {
      var n := |batch| - 1;
      assert batch == batch[..n] + [batch[n]];
      assert batch[n] in batch;
      StoredKeeps(before, batch[..n], k);
    }
  }

  lemma {:induction false} StoredHolds(before: map<WriteKey, PendingWrite>, batch: seq<PendingWrite>, i: nat)
    requires i < |batch|
    requires forall a, b :: 0 <= a < b < |batch| ==> batch[a].taskId != batch[b].taskId
    ensures var k := (batch[i].taskId, batch[i].index);
            k in Stored(before, batch) && Stored(before, batch)[k] == batch[i]
    decreases |batch|
  {
    var n := |batch| - 1;
    if i < n {
      StoredHolds(before, batch[..n], i);
    }
  }

  /** What a restart reads back is what was stored: after a batch in which each task keeps its index, the
      results by task are the batch's, and the earlier ones of the other tasks. */
  lemma {:induction false} WritesRoundTrip(before: map<WriteKey, PendingWrite>, batch: seq<PendingWrite>,
        found: seq<PendingWrite>, w: PendingWrite)
    requires forall k :: k in before ==> k == (before[k].taskId, before[k].index)
    requires forall a, b :: 0 <= a < b < |batch| ==> batch[a].taskId != batch[b].taskId
    requires forall k, v :: k in before && v in batch && v.taskId == k.0 ==> v.index == k.1
    requires forall k, l :: k in before && l in before && k.0 == l.0 ==> k == l
    requires var after := Stored(before, batch);
             forall v :: v in found <==> (v.taskId, v.index) in after && after[(v.taskId, v.index)] == v
    requires w in batch || (w in before.Values && forall v :: v in batch ==> v.taskId != w.taskId)
    ensures w.taskId in ByTask(found) && ByTask(found)[w.taskId] == w
  {
    var after := Stored(before, batch);
    var key := (w.taskId, w.index);
    if w in batch {
      var i :| 0 <= i < |batch| && batch[i] == w;
      StoredHolds(before, batch, i);
    } else {
      StoredKeeps(before, batch, key);
    }
    assert key in after && after[key] == w;
    forall v | v in found && v.taskId == w.taskId
      ensures v == w
    {
      StoredKeeps(before, batch, (v.taskId, v.index));
      if u :| u in batch && (u.taskId, u.index) == (v.taskId, v.index) {
        assert w in batch ==> u == w;
      }
    }
    ByTaskFinds(found, w);
  }
}
