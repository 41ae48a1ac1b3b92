/** Provider-neutral messages and the message-state reducer (messages.py). */
module Messages {
  import opened Prelude

  /** A tool call, or some other object found in a call list. */
  datatype ToolCall = ToolCall(name: string, args: string, id: string) | Foreign

  /** `oid` is the identity of the Python object; content is its JSON text. */
  datatype Message =
    | System(oid: int, id: string, content: string)
    | Human(oid: int, id: string, content: string)
    | AI(oid: int, id: string, content: string, calls: seq<ToolCall>)
    | Tool(oid: int, id: string, content: string, callId: string)
    | Chunk(oid: int, id: string, content: string)

  /** `replace(message, content=...)`. */
  function WithContent(m: Message, content: string): (r: Message)
    ensures r.content == content && r.id == m.id && r.oid == m.oid
    ensures r.Tool? == m.Tool? && r.AI? == m.AI? && r.Human? == m.Human?
    ensures m.Tool? ==> r.callId == m.callId
    ensures m.AI? ==> r.calls == m.calls
  {
    match m
    case System(oid, id, _) => System(oid, id, content)
    case Human(oid, id, _) => Human(oid, id, content)
    case AI(oid, id, _, calls) => AI(oid, id, content, calls)
    case Tool(oid, id, _, callId) => Tool(oid, id, content, callId)
    case Chunk(oid, id, _) => Chunk(oid, id, content)
  }

  predicate Calling(m: Message) { m.AI? && m.calls != [] }

  // ----- add_messages: the plain reading ------------------------------------------------------------

  datatype Change = Upsert(message: Message) | RemoveMessage(id: string)

  const REMOVE_ALL := "__remove_all__"

  /** The last position of a message with this id, or -1. */
  function Find(ms: seq<Message>, id: string): (i: int)
    ensures -1 <= i < |ms|
    ensures i >= 0 ==> ms[i].id == id
    ensures forall j :: i < j < |ms| ==> ms[j].id != id
  {
    if ms == [] then -1
    else if ms[|ms| - 1].id == id then |ms| - 1
    else Find(ms[..|ms| - 1], id)
  }

  /** One change: replace or append by id, remove by id, or clear. */
  function Apply(ms: seq<Message>, change: Change, given: string): seq<Message> {
    match change
    case RemoveMessage(id) =>
      if id == REMOVE_ALL then []
      else if id != "" && Find(ms, id) >= 0 then Remove(ms, Find(ms, id)) else ms
    case Upsert(message) =>
      var m := if message.id == "" then message.(id := given) else message;
      if Find(ms, m.id) >= 0 then ms[Find(ms, m.id) := m] else ms + [m]
  }

  /** The k-th change is given the id `given(k)` in case its message has none. */
  function ApplyAll(ms: seq<Message>, changes: seq<Change>, given: nat -> string, k: nat): seq<Message>
    decreases |changes|
  {
    if changes == [] then ms
    else ApplyAll(Apply(ms, changes[0], given(k)), changes[1..], given, k + 1)
  }

  // ----- add_messages: with its positions table ------------------------------------------------------

  /** The table agrees with the list: it holds the last position of every id that is not empty. */
  ghost predicate Indexes(positions: map<string, nat>, ms: seq<Message>) {
    && (forall id :: id in positions <==> id != "" && Find(ms, id) >= 0)
    && (forall id :: id in positions ==> positions[id] == Find(ms, id))
  }

  lemma {:induction false} FindAppended(ms: seq<Message>, m: Message, id: string)
    ensures Find(ms + [m], id) == if m.id == id then |ms| else Find(ms, id)
  {
    assert (ms + [m])[..|ms|] == ms;
  }

  /** Putting a message where one with the same id was moves nothing. */
  lemma {:induction false} FindReplaced(ms: seq<Message>, i: nat, m: Message, id: string)
    requires i < |ms| && ms[i].id == m.id
    ensures Find(ms[i := m], id) == Find(ms, id)
  {
    var after := ms[i := m];
    assert forall j :: 0 <= j < |ms| ==> after[j].id == ms[j].id;
    var b := Find(ms, id);
    assert b >= 0 ==> after[b].id == ms[b].id;
  }

  lemma {:induction false} TableFinds(positions: map<string, nat>, ms: seq<Message>, id: string)
    requires Indexes(positions, ms)
    ensures id in positions <==> id != "" && Find(ms, id) >= 0
    ensures id in positions ==> positions[id] == Find(ms, id)
  {
  }

  lemma {:induction false} AppendIndexed(positions: map<string, nat>, ms: seq<Message>, m: Message)
    requires Indexes(positions, ms)
    ensures Indexes(if m.id == "" then positions else positions[m.id := |ms|], ms + [m])
  {
    forall id
      ensures Find(ms + [m], id) == if m.id == id then |ms| else Find(ms, id)
    {
      FindAppended(ms, m, id);
    }
  }

  lemma {:induction false} ReplaceIndexed(positions: map<string, nat>, ms: seq<Message>, i: nat, m: Message)
    requires Indexes(positions, ms) && i < |ms| && ms[i].id == m.id
    ensures Indexes(positions, ms[i := m])
  {
    forall id
      ensures Find(ms[i := m], id) == Find(ms, id)
    {
      FindReplaced(ms, i, m, id);
    }
  }

  /** The table that a comprehension over the whole list builds. */
  method IndexOf(ms: seq<Message>) returns (positions: map<string, nat>)
    ensures Indexes(positions, ms)
  {
    positions := map[];
    for i := 0 to |ms|
      invariant Indexes(positions, ms[..i])
    {
      assert ms[..i + 1] == ms[..i] + [ms[i]];
      AppendIndexed(positions, ms[..i], ms[i]);
      if ms[i].id != "" { positions := positions[ms[i].id := i]; }
    }
    assert ms[..|ms|] == ms;
  }

  /** `add_messages` with its table of positions is the plain fold, whatever the left list holds. */
  method AddMessages(left: seq<Message>, right: seq<Change>, given: nat -> string) returns (existing: seq<Message>)
    requires forall k :: given(k) != ""
    ensures existing == ApplyAll(left, right, given, 0)
  {
    assert Indexes(map[], []);
    hide Indexes, Find;
    existing := left;
    var positions := IndexOf(existing);
    for n := 0 to |right|
      invariant Indexes(positions, existing)
      invariant ApplyAll(existing, right[n..], given, n) == ApplyAll(left, right, given, 0)
    {
      assert right[n..][1..] == right[n + 1..];
      var change := right[n];
      match change {
        case RemoveMessage(id) =>
          TableFinds(positions, existing, id);
          if id == REMOVE_ALL {
            existing := [];
            positions := map[];
          } else if id in positions {
            existing := Remove(existing, positions[id]);
            positions := IndexOf(existing);
          }
        case Upsert(message) =>
          var m := if message.id == "" then message.(id := given(n)) else message;
          TableFinds(positions, existing, m.id);
          if m.id in positions {
            ReplaceIndexed(positions, existing, positions[m.id], m);
            existing := existing[positions[m.id] := m];
          } else {
            AppendIndexed(positions, existing, m);
            positions := positions[m.id := |existing|];
            existing := existing + [m];
          }
      }
    }
  }

  // ----- ids stay unique ------------------------------------------------------------------------------

  predicate UniqueIds(ms: seq<Message>) {
    && (forall i :: 0 <= i < |ms| ==> ms[i].id != "")
    && (forall i, j :: 0 <= i < j < |ms| ==> ms[i].id != ms[j].id)
  }

  lemma {:induction false} ApplyUnique(ms: seq<Message>, change: Change, given: string)
    requires UniqueIds(ms) && given != ""
    ensures UniqueIds(Apply(ms, change, given))
  {
    var after := Apply(ms, change, given);
    if change.RemoveMessage? && change.id != REMOVE_ALL && change.id != "" && Find(ms, change.id) >= 0 {
      var i := Find(ms, change.id);
      assert forall j :: 0 <= j < |after| ==> after[j] == ms[if j < i then j else j + 1];
    }
  }

  /** From a list whose messages each have an id of their own, the result is such a list again. */
  lemma {:induction false} IdsStayUnique(ms: seq<Message>, changes: seq<Change>, given: nat -> string, k: nat)
    requires UniqueIds(ms) && forall n :: given(n) != ""
    ensures UniqueIds(ApplyAll(ms, changes, given, k))
    decreases |changes|
  {
    if changes != [] {
      ApplyUnique(ms, changes[0], given(k));
      IdsStayUnique(Apply(ms, changes[0], given(k)), changes[1..], given, k + 1);
    }
  }

  // ----- applying the same messages again -------------------------------------------------------------

  /** A right side that removes nothing and whose messages all carry ids. */
  predicate Stable(changes: seq<Change>) {
    forall i :: 0 <= i < |changes| ==> changes[i].Upsert? && changes[i].message.id != ""
  }

  /** The message the changes leave under an id: the last one that carries it. */
  function LastOf(changes: seq<Change>, id: string): Option<Message>
    requires Stable(changes)
  {
    if changes == [] then None
    else if LastOf(changes[1..], id).Some? then LastOf(changes[1..], id)
    else if changes[0].message.id == id then Some(changes[0].message) else None
  }

  lemma {:induction false} LastOfExists(changes: seq<Change>, i: nat)
    requires Stable(changes) && i < |changes|
    ensures LastOf(changes, changes[i].message.id).Some?
  {
    if i > 0 {
      LastOfExists(changes[1..], i - 1);
    }
  }

  /** What an upsert does to the last position of any id. */
  lemma {:induction false} UpsertFinds(ms: seq<Message>, m: Message, id: string)
    requires m.id != ""
    ensures var after := Apply(ms, Upsert(m), "");
            && Find(after, id) == (if Find(ms, id) < 0 && id == m.id then |ms| else Find(ms, id))
            && (Find(ms, id) >= 0 && id != m.id ==> after[Find(ms, id)] == ms[Find(ms, id)])
            && (id == m.id ==> after[Find(after, id)] == m)
  {
    if Find(ms, m.id) >= 0 {
      FindReplaced(ms, Find(ms, m.id), m, id);
    } else {
      FindAppended(ms, m, id);
    }
  }

  /** After the changes, an id they carry is held by the last message for it, and another id by the message
      that held it. */
  lemma {:induction false} ApplyAllHolds(ms: seq<Message>, changes: seq<Change>, given: nat -> string, k: nat,
        id: string)
    requires Stable(changes)
    ensures var after := ApplyAll(ms, changes, given, k);
            && (LastOf(changes, id).Some? ==>
                  Find(after, id) >= 0 && after[Find(after, id)] == LastOf(changes, id).value)
            && (LastOf(changes, id).None? && Find(ms, id) >= 0 ==>
                  Find(after, id) >= 0 && after[Find(after, id)] == ms[Find(ms, id)])
    decreases |changes|
  {
    if changes != [] {
      var m := changes[0].message;
      assert Apply(ms, changes[0], given(k)) == Apply(ms, Upsert(m), "");
      UpsertFinds(ms, m, id);
      ApplyAllHolds(Apply(ms, changes[0], given(k)), changes[1..], given, k + 1, id);
    }
  }

  /** When every message the changes carry is held already, no change does anything. */
  lemma {:induction false} HeldChangesNothing(ms: seq<Message>, changes: seq<Change>, given: nat -> string, k: nat)
    requires Stable(changes)
    requires forall i :: 0 <= i < |changes| ==> Find(ms, changes[i].message.id) >= 0
    ensures |ApplyAll(ms, changes, given, k)| == |ms|
    ensures forall i :: 0 <= i < |ms| ==> ApplyAll(ms, changes, given, k)[i].id == ms[i].id
    ensures forall i :: 0 <= i < |ms| && Find(ms, ms[i].id) != i ==> ApplyAll(ms, changes, given, k)[i] == ms[i]
    decreases |changes|
  {
    if changes != [] {
      var after := Apply(ms, changes[0], given(k));
      forall id
        ensures Find(after, id) == Find(ms, id)
      {
        FindReplaced(ms, Find(ms, changes[0].message.id), changes[0].message, id);
      }
      HeldChangesNothing(after, changes[1..], given, k + 1);
    }
  }

  /** Applying once more a right side that removes nothing and whose messages all carry ids changes nothing. */
  lemma {:induction false} ReapplyChangesNothing(left: seq<Message>, right: seq<Change>, given: nat -> string,
        k: nat, l: nat)
    requires Stable(right)
    ensures var once := ApplyAll(left, right, given, k);
            ApplyAll(once, right, given, l) == once
  {
    var once := ApplyAll(left, right, given, k);
    forall i | 0 <= i < |right|
      ensures Find(once, right[i].message.id) >= 0
    {
      LastOfExists(right, i);
      ApplyAllHolds(left, right, given, k, right[i].message.id);
    }
    HeldChangesNothing(once, right, given, l);
    var twice := ApplyAll(once, right, given, l);
    forall i | 0 <= i < |once|
      ensures twice[i] == once[i]
    {
      var id := once[i].id;
      if Find(once, id) == i {
        ApplyAllHolds(left, right, given, k, id);
        ApplyAllHolds(once, right, given, l, id);
        assert Find(twice, id) == i;
      }
    }
  }
}
