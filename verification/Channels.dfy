/** State channels and the deterministic merge of one superstep's updates (channels.py). */
module Channels {
  import opened Prelude

  type State = map<Key, Value>

  /** A write is a value to merge, or a `ReplaceValue` that overwrites the channel. */
  datatype Write = Plain(value: Value) | Replace(value: Value)

  type Update = map<Key, Write>

  datatype Channel =
    | LastValue
    | Reducer(op: (Value, Value) -> Value)
    | Topic(accumulate: bool)
    | Ephemeral

  /** A channel with its state key, in the order the schema declares them. */
  datatype Slot = Slot(key: Key, channel: Channel)

  // ----- one channel --------------------------------------------------------------------

  /** One write folded into a reducer channel; the first value of a missing channel is stored as is. */
  function ReduceOne(op: (Value, Value) -> Value, current: Option<Value>, write: Write): Option<Value> {
    match write
    case Replace(v) => Some(v)
    case Plain(v) => if current.None? then Some(v) else Some(op(current.value, v))
  }

  function Reduce(op: (Value, Value) -> Value, current: Option<Value>, writes: seq<Write>): Option<Value>
    decreases |writes|
  {
    if writes == [] then current
    else Reduce(op, ReduceOne(op, current, writes[0]), writes[1..])
  }

  /** One write appended to a topic; a list extends it, a replacement restarts it. */
  function Publish(values: seq<Value>, write: Write): Result<seq<Value>, Error> {
    match write
    case Replace(v) => if Iterate(v).Some? then Ok(Iterate(v).value) else Err(NotIterable)
    case Plain(List(items)) => Ok(values + items)
    case Plain(v) => Ok(values + [v])
  }

  function PublishAll(values: seq<Value>, writes: seq<Write>): Result<seq<Value>, Error>
    decreases |writes|
  {
    if writes == [] then Ok(values)
    else
      var values' :- Publish(values, writes[0]);
      PublishAll(values', writes[1..])
  }

  function TopicStart(accumulate: bool, current: Option<Value>): Result<seq<Value>, Error> {
    if !accumulate || current.None? then Ok([])
    else if Iterate(current.value).Some? then Ok(Iterate(current.value).value)
    else Err(NotIterable)
  }

  /** What a channel holds after a superstep's writes; `None` is a missing or cleared key. */
  function Merged(channel: Channel, current: Option<Value>, writes: seq<Write>): Result<Option<Value>, Error> {
    match channel
    case LastValue =>
      if |writes| > 1 then Err(InvalidUpdate)
      else if writes == [] then Ok(current) else Ok(Some(writes[0].value))
    case Ephemeral =>
      if |writes| > 1 then Err(InvalidUpdate)
      else if writes == [] then Ok(None) else Ok(Some(writes[0].value))
    case Reducer(op) => Ok(Reduce(op, current, writes))
    case Topic(accumulate) =>
      var start :- TopicStart(accumulate, current);
      var values :- PublishAll(start, writes);
      Ok(Some(List(values)))
  }

  method MergeChannel(channel: Channel, current: Option<Value>, writes: seq<Write>)
    returns (merged: Result<Option<Value>, Error>)
    ensures merged == Merged(channel, current, writes)
  {
    match channel {
      case LastValue =>
        if |writes| > 1 { return Err(InvalidUpdate); }
        if writes == [] { return Ok(current); }
        return Ok(Some(writes[0].value));
      case Ephemeral =>
        if |writes| > 1 { return Err(InvalidUpdate); }
        if writes == [] { return Ok(None); }
        return Ok(Some(writes[0].value));
      case Reducer(op) =>
        var result := current;
        for i := 0 to |writes|
          invariant Reduce(op, result, writes[i..]) == Reduce(op, current, writes)
        {
          result := match writes[i]
            case Replace(v) => Some(v)
            case Plain(v) => if result.None? then Some(v) else Some(op(result.value, v));
          assert writes[i..][1..] == writes[i + 1..];
        }
        return Ok(result);
      case Topic(accumulate) =>
        var values: seq<Value> := [];
        if accumulate && current.Some? {
          if Iterate(current.value).None? { return Err(NotIterable); }
          values := Iterate(current.value).value;
        }
        ghost var start := values;
        for i := 0 to |writes|
          invariant PublishAll(values, writes[i..]) == PublishAll(start, writes)
        {
          assert writes[i..][1..] == writes[i + 1..];
          var next := Publish(values, writes[i]);
          if next.Err? { return Err(next.error); }
          values := next.value;
        }
        return Ok(Some(List(values)));
    }
  }

  // ----- the merge of all updates ---------------------------------------------------------

  function Get(state: State, key: Key): Option<Value> {
    if key in state then Some(state[key]) else None
  }

  function Put(state: State, key: Key, slot: Option<Value>): State {
    if slot.None? then state - {key} else state[key := slot.value]
  }

  /** The writes one key receives, in task order. */
  function WritesFor(updates: seq<Update>, key: Key): seq<Write> {
    if updates == [] then []
    else (if key in updates[0] then [updates[0][key]] else []) + WritesFor(updates[1..], key)
  }

  function MergeSlots(state: State, updates: seq<Update>, slots: seq<Slot>): Result<State, Error>
    decreases |slots|
  {
    if slots == [] then Ok(state)
    else
      var slot :- Merged(slots[0].channel, Get(state, slots[0].key), WritesFor(updates, slots[0].key));
      MergeSlots(Put(state, slots[0].key, slot), updates, slots[1..])
  }

  function KeysOf(slots: seq<Slot>): set<Key> {
    set i | 0 <= i < |slots| :: slots[i].key
  }

  function MergeUpdates(state: State, updates: seq<Update>, slots: seq<Slot>): Result<State, Error> {
    if exists u :: u in updates && !(u.Keys <= KeysOf(slots)) then Err(InvalidUpdate)
    else MergeSlots(state, updates, slots)
  }

  /** Collect the writes per declared key, then merge each channel in declaration order. */
  method Merge(state: State, updates: seq<Update>, slots: seq<Slot>) returns (merged: Result<State, Error>)
    ensures merged == MergeUpdates(state, updates, slots)
  {
    var keys := KeysOf(slots);
    var writes: map<Key, seq<Write>> := map k | k in keys :: [];
    for i := 0 to |updates|
      invariant writes.Keys == keys
      invariant forall u :: u in updates[..i] ==> u.Keys <= keys
      invariant forall k :: k in keys ==> writes[k] == WritesFor(updates[..i], k)
    {
      assert updates[i] in updates;
      if !(updates[i].Keys <= keys) { return Err(InvalidUpdate); }
      assert updates[..i + 1] == updates[..i] + [updates[i]];
      forall k | k in keys
        ensures WritesFor(updates[..i + 1], k) ==
                WritesFor(updates[..i], k) + (if k in updates[i] then [updates[i][k]] else [])
      {
        WritesForConcat(updates[..i], [updates[i]], k);
        assert [updates[i]][1..] == [];
      }
      writes := map k | k in keys :: writes[k] + (if k in updates[i] then [updates[i][k]] else []);
    }
    assert updates[..|updates|] == updates;
    var result := state;
    for i := 0 to |slots|
      invariant MergeSlots(result, updates, slots[i..]) == MergeSlots(state, updates, slots)
    {
      assert slots[i..][1..] == slots[i + 1..] && slots[i].key in keys;
      var slot := MergeChannel(slots[i].channel, Get(result, slots[i].key), writes[slots[i].key]);
      if slot.Err? { return Err(slot.error); }
      result := Put(result, slots[i].key, slot.value);
    }
    return Ok(result);
  }

  // ----- what one merge does to each key ---------------------------------------------------

  predicate Schema(slots: seq<Slot>) {
    forall i, j :: 0 <= i < j < |slots| ==> slots[i].key != slots[j].key
  }

  function NewValue(state: State, updates: seq<Update>, slot: Slot): Result<Option<Value>, Error> {
    Merged(slot.channel, Get(state, slot.key), WritesFor(updates, slot.key))
  }

  /** Channels do not interfere: the merge succeeds exactly when every channel does, each key takes
      its own channel's result, and undeclared keys keep their value. */
  lemma {:induction false} MergeSlotsPointwise(state: State, updates: seq<Update>, slots: seq<Slot>)
    requires Schema(slots)
    ensures MergeSlots(state, updates, slots).Ok? <==>
            forall i :: 0 <= i < |slots| ==> NewValue(state, updates, slots[i]).Ok?
    ensures var m := MergeSlots(state, updates, slots);
            m.Ok? ==>
              && (forall i :: 0 <= i < |slots| ==>
                    Get(m.value, slots[i].key) == NewValue(state, updates, slots[i]).value)
              && (forall k :: k !in KeysOf(slots) ==> Get(m.value, k) == Get(state, k))
    decreases |slots|
  {
    if slots != [] && NewValue(state, updates, slots[0]).Ok? {
      var rest := slots[1..];
      var state' := Put(state, slots[0].key, NewValue(state, updates, slots[0]).value);
      MergeSlotsPointwise(state', updates, rest);
      forall i | 0 <= i < |rest|
        ensures NewValue(state', updates, rest[i]) == NewValue(state, updates, slots[i + 1])
      {
        assert rest[i] == slots[i + 1];
      }
      assert slots[0].key !in KeysOf(rest);
      assert KeysOf(rest) <= KeysOf(slots) by {
        assert forall i :: 0 <= i < |rest| ==> rest[i] == slots[i + 1];
      }
      forall i | 0 <= i < |slots| && NewValue(state, updates, slots[i]).Err?
        ensures exists j :: 0 <= j < |rest| && NewValue(state', updates, rest[j]).Err?
      {
        assert rest[i - 1] == slots[i];
      }
    }
  }

  // ----- splitting a batch of updates --------------------------------------------------------

  lemma {:induction false} WritesForConcat(us: seq<Update>, vs: seq<Update>, key: Key)
    ensures WritesFor(us + vs, key) == WritesFor(us, key) + WritesFor(vs, key)
  {
    if us == [] {
      assert us + vs == vs;
    } else {
      var first := if key in us[0] then [us[0][key]] else [];
      assert (us + vs)[0] == us[0] && (us + vs)[1..] == us[1..] + vs;
      WritesForConcat(us[1..], vs, key);
      assert first + (WritesFor(us[1..], key) + WritesFor(vs, key)) ==
             (first + WritesFor(us[1..], key)) + WritesFor(vs, key);
    }
  }

  lemma {:induction false} ReduceConcat(op: (Value, Value) -> Value, current: Option<Value>, us: seq<Write>,
        vs: seq<Write>)
    ensures Reduce(op, current, us + vs) == Reduce(op, Reduce(op, current, us), vs)
    decreases |us|
  {
    if us == [] {
      assert us + vs == vs;
    } else {
      assert (us + vs)[1..] == us[1..] + vs;
      ReduceConcat(op, ReduceOne(op, current, us[0]), us[1..], vs);
    }
  }

  lemma {:induction false} PublishConcat(values: seq<Value>, us: seq<Write>, vs: seq<Write>)
    ensures var first := PublishAll(values, us);
            PublishAll(values, us + vs) == if first.Err? then first else PublishAll(first.value, vs)
    decreases |us|
  {
    if us == [] {
      assert us + vs == vs;
    } else {
      assert (us + vs)[1..] == us[1..] + vs;
      var next := Publish(values, us[0]);
      if next.Ok? {
        PublishConcat(next.value, us[1..], vs);
      }
    }
  }

  /** Channels whose merge may be split at any point of the write list. */
  predicate Accumulates(channel: Channel) {
    channel.Reducer? || (channel.Topic? && channel.accumulate)
  }

  /** Merging all the writes at once is merging the first part and then the second. */
  ghost predicate Splits(channel: Channel, current: Option<Value>, us: seq<Write>, vs: seq<Write>) {
    var first := Merged(channel, current, us);
    Merged(channel, current, us + vs) == if first.Err? then first else Merged(channel, first.value, vs)
  }

  lemma {:induction false} SplitChannel(channel: Channel, current: Option<Value>, us: seq<Write>, vs: seq<Write>)
    requires Accumulates(channel)
    ensures Splits(channel, current, us, vs)
  {
    if channel.Reducer? {
      ReduceConcat(channel.op, current, us, vs);
    } else if TopicStart(true, current).Ok? {
      PublishConcat(TopicStart(true, current).value, us, vs);
    }
  }

  /** Exactly the accumulating channels cannot tell one batch from two. */
  lemma {:induction false} SplitsExactlyWhenAccumulating(channel: Channel)
    ensures Accumulates(channel) <==> forall current, us, vs :: Splits(channel, current, us, vs)
  {
    if Accumulates(channel) {
      forall current, us, vs
        ensures Splits(channel, current, us, vs)
      {
        SplitChannel(channel, current, us, vs);
      }
    } else {
      var one: seq<Write> := [Plain(Num(1))];
      var first := Merged(channel, None, one);
      if channel.LastValue? {
        assert |one + one| == 2;
        assert !Splits(channel, None, one, one);
      } else {
        assert one + [] == one;
        assert one[1..] == [] && PublishAll([Num(1)], []) == Ok([Num(1)]);
        assert !Splits(channel, None, one, []);
      }
    }
  }

  /** Merging `us ++ vs` in one superstep is merging `us` and then `vs`, for every schema of
      reducers and accumulating topics, replacements and missing values included. */
  lemma {:induction false} MergeSplits(state: State, us: seq<Update>, vs: seq<Update>, slots: seq<Slot>)
    requires Schema(slots)
    requires forall i :: 0 <= i < |slots| ==> Accumulates(slots[i].channel)
    ensures var first := MergeUpdates(state, us, slots);
            Agree(MergeUpdates(state, us + vs, slots),
                  if first.Err? then first else MergeUpdates(first.value, vs, slots))
  {
    var keys := KeysOf(slots);
    var first := MergeUpdates(state, us, slots);
    if u :| u in us && !(u.Keys <= keys) {
      assert u in us + vs;
      return;
    }
    MergeSlotsPointwise(state, us, slots);
    MergeSlotsPointwise(state, us + vs, slots);
    forall i | 0 <= i < |slots|
      ensures var a := NewValue(state, us, slots[i]);
              NewValue(state, us + vs, slots[i]) ==
              if a.Err? then a else Merged(slots[i].channel, a.value, WritesFor(vs, slots[i].key))
    {
      WritesForConcat(us, vs, slots[i].key);
      var slot := slots[i];
      SplitChannel(slot.channel, Get(state, slot.key), WritesFor(us, slot.key), WritesFor(vs, slot.key));
    }
    if first.Err? {
      return;
    }
    if v :| v in vs && !(v.Keys <= keys) {
      assert v in us + vs;
      return;
    }
    MergeSlotsPointwise(first.value, vs, slots);
    var whole := MergeUpdates(state, us + vs, slots);
    var second := MergeUpdates(first.value, vs, slots);
    if whole.Ok? && second.Ok? {
      SameSlots(whole.value, second.value, slots);
    }
  }

  /** States with the same value under every key are the same state. */
  lemma {:induction false} SameSlots(a: State, b: State, slots: seq<Slot>)
    requires forall i :: 0 <= i < |slots| ==> Get(a, slots[i].key) == Get(b, slots[i].key)
    requires forall k :: k !in KeysOf(slots) ==> Get(a, k) == Get(b, k)
    ensures a == b
  {
    forall k
      ensures Get(a, k) == Get(b, k)
    {
      if k in KeysOf(slots) {
        var i :| 0 <= i < |slots| && slots[i].key == k;
      }
    }
    assert forall k :: k in a <==> Get(a, k).Some?;
    assert forall k :: k in b <==> Get(b, k).Some?;
    assert a.Keys == b.Keys;
    assert forall k :: k in a ==> a[k] == Get(a, k).value && b[k] == Get(b, k).value;
  }

  // ----- independence of the task order ------------------------------------------------------

  ghost predicate LeftCommutative(op: (Value, Value) -> Value) {
    forall a, x, y :: op(op(a, x), y) == op(op(a, y), x)
  }

  predicate AllPlain(writes: seq<Write>) {
    forall w :: w in writes ==> w.Plain?
  }

  /** Moving a write to the front of a plain left-commutative fold changes nothing. */
  lemma {:induction false} PullToFront(op: (Value, Value) -> Value, current: Value, writes: seq<Write>, i: nat)
    requires LeftCommutative(op) && AllPlain(writes) && i < |writes|
    ensures Reduce(op, Some(current), writes) ==
            Reduce(op, Some(op(current, writes[i].value)), Remove(writes, i))
    decreases i
  {
    assert writes[0] in writes && writes[i] in writes;
    if i == 0 {
      assert Remove(writes, 0) == writes[1..];
    } else {
      var tail := writes[1..];
      PullToFront(op, op(current, writes[0].value), tail, i - 1);
      assert Remove(writes, i)[1..] == Remove(tail, i - 1);
    }
  }

  lemma {:induction false} ReducePermuted(op: (Value, Value) -> Value, current: Value, us: seq<Write>, vs: seq<Write>)
    requires LeftCommutative(op) && AllPlain(us) && multiset(us) == multiset(vs)
    ensures Reduce(op, Some(current), us) == Reduce(op, Some(current), vs)
    decreases |us|
  {
    SameLength(us, vs);
    if us != [] {
      var i := Permuted(us, vs);
      assert us[0] in us;
      PullToFront(op, current, vs, i);
      ReducePermuted(op, op(current, us[0].value), us[1..], Remove(vs, i));
    }
  }

  lemma {:induction false} WritesWithout(us: seq<Update>, i: nat, key: Key)
    requires i < |us|
    ensures multiset(WritesFor(us, key)) == multiset(WritesFor(Remove(us, i), key)) + multiset(WritesFor([us[i]], key))
  {
    assert us == us[..i] + ([us[i]] + us[i + 1..]);
    WritesForConcat(us[..i], us[i + 1..], key);
    WritesForConcat(us[..i], [us[i]] + us[i + 1..], key);
    WritesForConcat([us[i]], us[i + 1..], key);
  }

  /** Permuting the updates permutes the writes of every key. */
  lemma {:induction false} WritesPermuted(us: seq<Update>, vs: seq<Update>, key: Key)
    requires multiset(us) == multiset(vs)
    ensures multiset(WritesFor(us, key)) == multiset(WritesFor(vs, key))
    decreases |us|
  {
    SameLength(us, vs);
    if us == [] {
      assert vs == [];
    } else {
      var i := Permuted(us, vs);
      WritesWithout(us, 0, key);
      WritesWithout(vs, i, key);
      assert Remove(us, 0) == us[1..];
      WritesPermuted(us[1..], Remove(vs, i), key);
    }
  }

  /** A slot whose result cannot depend on the order of the tasks: at most one write is accepted, or
      a left-commutative reducer folds plain writes into a value that is already there. */
  ghost predicate OrderFree(state: State, updates: seq<Update>, slot: Slot) {
    || slot.channel.LastValue?
    || slot.channel.Ephemeral?
    || (slot.channel.Reducer? && LeftCommutative(slot.channel.op) && slot.key in state &&
        AllPlain(WritesFor(updates, slot.key)))
  }

  lemma {:induction false} SlotPermuted(state: State, us: seq<Update>, vs: seq<Update>, slot: Slot)
    requires multiset(us) == multiset(vs) && OrderFree(state, us, slot)
    ensures NewValue(state, us, slot) == NewValue(state, vs, slot)
  {
    hide WritesFor, Reduce, PublishAll;
    var a, b := WritesFor(us, slot.key), WritesFor(vs, slot.key);
    WritesPermuted(us, vs, slot.key);
    SameLength(a, b);
    if slot.channel.Reducer? {
      ReducePermuted(slot.channel.op, state[slot.key], a, b);
    } else if |a| == 1 {
      assert a[0] in a;
      assert b == [b[0]];
    }
  }

  /** Every permutation of the task updates gives the same state. */
  lemma {:induction false} MergePermuted(state: State, us: seq<Update>, vs: seq<Update>, slots: seq<Slot>)
    requires Schema(slots) && multiset(us) == multiset(vs)
    requires forall i :: 0 <= i < |slots| ==> OrderFree(state, us, slots[i])
    ensures Agree(MergeUpdates(state, us, slots), MergeUpdates(state, vs, slots))
  {
    hide OrderFree, NewValue, MergeSlots;
    SameLength(us, vs);
    forall i | 0 <= i < |slots|
      ensures NewValue(state, us, slots[i]) == NewValue(state, vs, slots[i])
    {
      SlotPermuted(state, us, vs, slots[i]);
    }
    MergeSlotsPointwise(state, us, slots);
    MergeSlotsPointwise(state, vs, slots);
    var a, b := MergeUpdates(state, us, slots), MergeUpdates(state, vs, slots);
    if a.Ok? && b.Ok? {
      SameSlots(a.value, b.value, slots);
    }
  }
}
