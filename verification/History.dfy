/** Repair of the outgoing message history (cache_first/history.py, lines 56-150). */
module History {
  import opened Prelude
  import opened Messages

  // ----- the protocol a model provider expects ---------------------------------------------------------

  /** The calls of a message can be answered: each has a name and an id, and no id is used twice. */
  predicate Callable(ai: Message)
    requires ai.AI?
  {
    && (forall i :: 0 <= i < |ai.calls| ==> ai.calls[i].ToolCall? && ai.calls[i].id != "" && ai.calls[i].name != "")
    && (forall i, j :: 0 <= i < j < |ai.calls| ==> ai.calls[i].id != ai.calls[j].id)
  }

  /** The ids of the calls, in call order. */
  function Expected(ai: Message): (ids: seq<string>)
    requires ai.AI? && Callable(ai)
    ensures |ids| == |ai.calls| && forall i :: 0 <= i < |ids| ==> ids[i] == ai.calls[i].id
    ensures Distinct(ids)
  {
    seq(|ai.calls|, i requires 0 <= i < |ai.calls| => ai.calls[i].id)
  }

  /** Results that answer these call ids, one each and in order. */
  predicate Answers(results: seq<Message>, ids: seq<string>) {
    |results| == |ids| && forall i :: 0 <= i < |ids| ==> results[i].Tool? && results[i].callId == ids[i]
  }

  /** If message i makes calls, it is followed immediately by their results in call order. */
  predicate AnsweredAt(ms: seq<Message>, i: nat)
    requires i < |ms|
  {
    Calling(ms[i]) ==>
      Callable(ms[i]) && i + |ms[i].calls| < |ms| && Answers(ms[i + 1..i + 1 + |ms[i].calls|], Expected(ms[i]))
  }

  /** Message i stands among the results of message j. */
  predicate Owns(ms: seq<Message>, j: nat, i: nat) {
    j < i < |ms| && Calling(ms[j]) && i <= j + |ms[j].calls|
  }

  /** Each calling message is followed immediately by exactly its results in call order, and there is no other
      tool message anywhere. */
  ghost predicate Protocol(ms: seq<Message>) {
    && (forall i :: 0 <= i < |ms| ==> AnsweredAt(ms, i))
    && (forall i :: 0 <= i < |ms| && ms[i].Tool? ==> exists j: nat :: Owns(ms, j, i))
  }

  /** The same, read from the front block by block. */
  predicate WellFormed(ms: seq<Message>) {
    ms == [] ||
    if Calling(ms[0]) then
      var n := |ms[0].calls|;
      && Callable(ms[0]) && n < |ms|
      && Answers(ms[1..n + 1], Expected(ms[0]))
      && WellFormed(ms[n + 1..])
    else !ms[0].Tool? && WellFormed(ms[1..])
  }

  lemma {:induction false} AnsweredShift(ms: seq<Message>, n: nat, i: nat)
    requires n + i < |ms|
    ensures AnsweredAt(ms, n + i) <==> AnsweredAt(ms[n..], i)
  {
    var k := if Calling(ms[n + i]) then |ms[n + i].calls| else 0;
    if n + i + k < |ms| {
      assert ms[n + i + 1..n + i + 1 + k] == ms[n..][i + 1..i + 1 + k];
    }
  }

  lemma {:induction false} AnswersAreTools(ms: seq<Message>, i: nat)
    requires ms != [] && AnsweredAt(ms, 0) && Calling(ms[0]) && 1 <= i <= |ms[0].calls|
    ensures i < |ms| && ms[i].Tool? && Owns(ms, 0, i)
  {
    assert ms[i] == ms[1..1 + |ms[0].calls|][i - 1];
  }

  /** The length of the first block. */
  function Head(ms: seq<Message>): (n: nat)
    requires ms != []
    ensures n > 0
  {
    if Calling(ms[0]) then |ms[0].calls| + 1 else 1
  }

  lemma {:induction false} WellFormedIsProtocol(ms: seq<Message>)
    requires WellFormed(ms)
    ensures Protocol(ms)
  {
    if ms != [] {
      var n := Head(ms);
      assert AnsweredAt(ms, 0) && WellFormed(ms[n..]) && n <= |ms| && !ms[0].Tool?;
      WellFormedIsProtocol(ms[n..]);
      ProtocolExtends(ms, n);
    }
  }

  lemma {:induction false} ProtocolExtends(ms: seq<Message>, n: nat)
    requires ms != [] && n == Head(ms) <= |ms| && Protocol(ms[n..])
    requires AnsweredAt(ms, 0) && !ms[0].Tool?
    ensures Protocol(ms)
  {
    hide Callable, Answers;
    var rest := ms[n..];
    forall i | 0 <= i < |ms|
      ensures AnsweredAt(ms, i) && (ms[i].Tool? ==> exists j: nat :: Owns(ms, j, i))
    {
      if i >= n {
        AnsweredShift(ms, n, i - n);
        assert rest[i - n] == ms[i];
        if ms[i].Tool? {
          var j: nat :| Owns(rest, j, i - n);
          assert rest[j] == ms[j + n] && Owns(ms, j + n, i);
        }
      } else if i > 0 {
        AnswersAreTools(ms, i);
      }
    }
  }

  lemma {:induction false} ProtocolShrinks(ms: seq<Message>, n: nat)
    requires ms != [] && Protocol(ms) && n == Head(ms) <= |ms|
    ensures Protocol(ms[n..])
  {
    hide Callable, Answers;
    var rest := ms[n..];
    forall i | 0 <= i < |rest|
      ensures AnsweredAt(rest, i) && (rest[i].Tool? ==> exists j: nat :: Owns(rest, j, i))
    {
      AnsweredShift(ms, n, i);
      assert rest[i] == ms[i + n];
      if rest[i].Tool? {
        var j: nat :| Owns(ms, j, i + n);
        if 0 < j < n {
          AnswersAreTools(ms, j);
        }
        assert rest[j - n] == ms[j] && Owns(rest, j - n, i);
      }
    }
  }

  /** The two readings of the protocol are the same. */
  lemma {:induction false} ProtocolIsWellFormed(ms: seq<Message>)
    ensures WellFormed(ms) <==> Protocol(ms)
  {
    if WellFormed(ms) {
      WellFormedIsProtocol(ms);
    } else if Protocol(ms) {
      assert AnsweredAt(ms, 0);
      ProtocolShrinks(ms, Head(ms));
      ProtocolIsWellFormed(ms[Head(ms)..]);
    }
  }

  // ----- what repair computes ---------------------------------------------------------------------------

  datatype Finding =
    | OrphanToolResult | MalformedToolCallBlock | UnknownToolResult
    | DuplicateToolResult | MissingToolResultBlock | ToolResultsReordered

  datatype Report = Report(messages: seq<Message>, orphan: nat, missing: nat, duplicate: nat, malformed: nat,
                           reordered: nat, dropped: nat, findings: seq<Finding>)
  {
    function Then(next: Report): Report {
      Report(messages + next.messages, orphan + next.orphan, missing + next.missing, duplicate + next.duplicate,
             malformed + next.malformed, reordered + next.reordered, dropped + next.dropped, findings + next.findings)
    }

    /** The result's `changed` property. */
    predicate Changed() { dropped > 0 || reordered > 0 || findings != [] }
  }

  function Keeping(ms: seq<Message>): Report { Report(ms, 0, 0, 0, 0, 0, 0, []) }

  predicate AllTools(ms: seq<Message>) { forall i :: 0 <= i < |ms| ==> ms[i].Tool? }

  function CallIds(results: seq<Message>): seq<string>
    requires AllTools(results)
  {
    seq(|results|, i requires 0 <= i < |results| => results[i].callId)
  }

  /** The results that follow a calling message: those it keeps, in order of arrival, and what it counts. */
  datatype Sifted = Sifted(kept: seq<Message>, orphan: nat, duplicate: nat, findings: seq<Finding>)

  function Sift(ids: seq<string>, results: seq<Message>): (s: Sifted)
    requires AllTools(results)
    ensures AllTools(s.kept)
  {
    if results == [] then Sifted([], 0, 0, [])
    else
      var n := |results| - 1;
      var before := Sift(ids, results[..n]);
      if results[n].callId !in ids then
        before.(orphan := before.orphan + 1, findings := before.findings + [UnknownToolResult])
      else if results[n].callId in CallIds(before.kept) then
        before.(duplicate := before.duplicate + 1, findings := before.findings + [DuplicateToolResult])
      else before.(kept := before.kept + [results[n]])
  }

  /** The result kept for a call id. */
  function Pick(results: seq<Message>, id: string): (m: Message)
    requires AllTools(results) && id in CallIds(results)
    ensures m in results && m.Tool? && m.callId == id
  {
    if results[0].callId == id then results[0]
    else
      assert CallIds(results)[1..] == CallIds(results[1..]);
      Pick(results[1..], id)
  }

  function InCallOrder(ids: seq<string>, results: seq<Message>): (ordered: seq<Message>)
    requires AllTools(results) && Chosen(ids) <= Chosen(CallIds(results))
    ensures Answers(ordered, ids)
  {
    seq(|ids|, i requires 0 <= i < |ids| =>
      assert ids[i] in Chosen(ids);
      Pick(results, ids[i]))
  }

  /** A calling message and the results that follow it. */
  function Block(ai: Message, results: seq<Message>): Report
    requires Calling(ai) && AllTools(results)
  {
    if !Callable(ai) then Report([], 0, 0, 0, 1, 0, 1 + |results|, [MalformedToolCallBlock])
    else
      var ids := Expected(ai);
      var s := Sift(ids, results);
      if Chosen(CallIds(s.kept)) != Chosen(ids) then
        Report([], s.orphan, |Chosen(ids) - Chosen(CallIds(s.kept))|, s.duplicate, 0, 0,
               s.orphan + s.duplicate + 1 + |s.kept|, s.findings + [MissingToolResultBlock])
      else
        var late := CallIds(s.kept) != ids;
        Report([ai] + InCallOrder(ids, s.kept), s.orphan, 0, s.duplicate, 0, if late then 1 else 0,
               s.orphan + s.duplicate, s.findings + if late then [ToolResultsReordered] else [])
  }

  /** A message outside any block. */
  function Single(m: Message): Report
    requires !Calling(m)
  {
    if m.Tool? then Report([], 1, 0, 0, 0, 0, 1, [OrphanToolResult]) else Keeping([m])
  }

  /** How many tool messages a history starts with. */
  function Run(ms: seq<Message>): (n: nat)
    ensures n <= |ms| && AllTools(ms[..n])
    ensures n < |ms| ==> !ms[n].Tool?
  {
    if ms != [] && ms[0].Tool? then
      var n := 1 + Run(ms[1..]);
      assert ms[..n] == [ms[0]] + ms[1..][..n - 1];
      n
    else 0
  }

  function Repair(ms: seq<Message>): Report {
    if ms == [] then Keeping([])
    else if Calling(ms[0]) then
      var n := Run(ms[1..]);
      Block(ms[0], ms[1..][..n]).Then(Repair(ms[1..][n..]))
    else Single(ms[0]).Then(Repair(ms[1..]))
  }

  /** First occurrences only, in order. */
  function Unique(findings: seq<Finding>): seq<Finding> {
    if findings == [] then []
    else
      var n := |findings| - 1;
      if findings[n] in Unique(findings[..n]) then Unique(findings[..n]) else Unique(findings[..n]) + [findings[n]]
  }

  // ----- repair_model_history -----------------------------------------------------------------------------

  lemma {:induction false} RunIs(ms: seq<Message>, n: nat)
    requires n <= |ms| && AllTools(ms[..n]) && (n < |ms| ==> !ms[n].Tool?)
    ensures Run(ms) == n
  {
    if n > 0 {
      assert ms[0] == ms[..n][0] && ms[1..][..n - 1] == ms[..n][1..];
      RunIs(ms[1..], n - 1);
    }
  }

  lemma {:induction false} ThenAssociates(a: Report, b: Report, c: Report)
    ensures a.Then(b).Then(c) == a.Then(b.Then(c))
  {
    assert a.messages + b.messages + c.messages == a.messages + (b.messages + c.messages);
    assert a.findings + b.findings + c.findings == a.findings + (b.findings + c.findings);
  }

  lemma {:induction false} PickAppended(results: seq<Message>, m: Message, id: string)
    requires AllTools(results) && m.Tool? && m.callId !in CallIds(results)
    ensures CallIds(results + [m]) == CallIds(results) + [m.callId]
    ensures id in CallIds(results + [m]) ==>
              Pick(results + [m], id) == if id == m.callId then m else Pick(results, id)
  {
    assert CallIds(results + [m]) == CallIds(results) + [m.callId];
    if results != [] && id in CallIds(results + [m]) {
      assert CallIds(results)[0] == results[0].callId;
      assert CallIds(results)[1..] == CallIds(results[1..]);
      assert (results + [m])[1..] == results[1..] + [m];
      assert CallIds(results + [m])[1..] == CallIds(results[1..] + [m]);
      if results[0].callId != id {
        PickAppended(results[1..], m, id);
      }
    }
  }

  /** The dictionary of results, and its values in insertion order. */
  ghost predicate Holds(resultById: map<string, Message>, kept: seq<Message>)
    requires AllTools(kept)
  {
    && (forall id :: id in resultById <==> id in CallIds(kept))
    && (forall id :: id in resultById ==> resultById[id] == Pick(kept, id))
  }

  lemma {:induction false} HoldsAppended(resultById: map<string, Message>, kept: seq<Message>, m: Message)
    requires AllTools(kept) && Holds(resultById, kept) && m.Tool? && m.callId !in CallIds(kept)
    ensures Holds(resultById[m.callId := m], kept + [m])
  {
    var after := resultById[m.callId := m];
    forall id
      ensures id in after <==> id in CallIds(kept + [m])
      ensures id in after ==> after[id] == Pick(kept + [m], id)
    {
      PickAppended(kept, m, id);
    }
  }

  /** The scan over the tool messages that follow a calling message. */
  method Collect(source: seq<Message>, start: nat, expected: seq<string>)
    returns (scan: nat, resultById: map<string, Message>, arrived: seq<Message>, orphan: nat, duplicate: nat,
             findings: seq<Finding>)
    requires start <= |source|
    ensures scan == start + Run(source[start..])
    ensures Sift(expected, source[start..][..scan - start]) == Sifted(arrived, orphan, duplicate, findings)
    ensures AllTools(arrived) && Holds(resultById, arrived)
  {
    hide Pick, Run;
    scan, resultById, arrived, orphan, duplicate, findings := start, map[], [], 0, 0, [];
    while scan < |source|
      invariant start <= scan <= |source|
      invariant forall k :: start <= k < scan ==> source[k].Tool?
      invariant AllTools(arrived) && Holds(resultById, arrived)
      invariant Sift(expected, source[start..scan]) == Sifted(arrived, orphan, duplicate, findings)
    {
      var candidate := source[scan];
      if !candidate.Tool? { break; }
      assert source[start..scan + 1][..scan - start] == source[start..scan];
      if candidate.callId !in expected {
        orphan, findings := orphan + 1, findings + [UnknownToolResult];
      } else if candidate.callId in resultById {
        duplicate, findings := duplicate + 1, findings + [DuplicateToolResult];
      } else {
        HoldsAppended(resultById, arrived, candidate);
        resultById, arrived := resultById[candidate.callId := candidate], arrived + [candidate];
      }
      scan := scan + 1;
    }
    assert source[start..][..scan - start] == source[start..scan];
    RunIs(source[start..], scan - start);
  }

  /** The results in call order, taken from the dictionary. */
  method Order(expected: seq<string>, resultById: map<string, Message>, ghost arrived: seq<Message>)
    returns (ordered: seq<Message>)
    requires AllTools(arrived) && Holds(resultById, arrived)
    requires resultById.Keys == Chosen(expected)
    ensures Chosen(CallIds(arrived)) == Chosen(expected) && ordered == InCallOrder(expected, arrived)
  {
    assert Chosen(CallIds(arrived)) == resultById.Keys;
    ordered := [];
    for i := 0 to |expected|
      invariant |ordered| == i && forall k :: 0 <= k < i ==> ordered[k] == InCallOrder(expected, arrived)[k]
    {
      assert expected[i] in Chosen(expected);
      ordered := ordered + [resultById[expected[i]]];
    }
  }

  lemma {:induction false} NothingBefore(r: Report)
    ensures Keeping([]).Then(r) == r
  {
    assert [] + r.messages == r.messages && [] + r.findings == r.findings;
  }

  lemma {:induction false} NothingMore(r: Report)
    ensures Repair([]) == Keeping([]) && r.Then(Keeping([])) == r
  {
    assert r.messages + [] == r.messages && r.findings + [] == r.findings;
  }

  /** The first block of a history, or its first message when that is outside any block. */
  function FirstBlock(ms: seq<Message>): Report
    requires ms != []
  {
    if Calling(ms[0]) then Block(ms[0], ms[1..][..Run(ms[1..])]) else Single(ms[0])
  }

  function FirstLength(ms: seq<Message>): (n: nat)
    requires ms != []
    ensures 0 < n <= |ms|
  {
    if Calling(ms[0]) then 1 + Run(ms[1..]) else 1
  }

  /** The first block of what is left, in the terms of the loop. */
  lemma {:induction false} FirstIs(source: seq<Message>, index: nat)
    requires index < |source|
    ensures var ai, rest := source[index], source[index..];
            && (!Calling(ai) ==> FirstBlock(rest) == Single(ai) && FirstLength(rest) == 1)
            && (Calling(ai) ==> FirstLength(rest) == 1 + Run(source[index + 1..]))
            && (Calling(ai) && !Callable(ai) ==>
                  FirstBlock(rest) == Report([], 0, 0, 0, 1, 0, FirstLength(rest), [MalformedToolCallBlock]))
  {
    hide Callable, Run;
    assert source[index..][1..] == source[index + 1..];
  }

  lemma {:induction false} RepairFirst(ms: seq<Message>)
    requires ms != []
    ensures Repair(ms) == FirstBlock(ms).Then(Repair(ms[FirstLength(ms)..]))
  {
    hide Block, Single, Run;
    if Calling(ms[0]) {
      assert ms[1..][Run(ms[1..])..] == ms[1 + Run(ms[1..])..];
    }
  }

  /** One block, or one message outside any block, moves from the rest to what is settled. */
  lemma {:induction false} Advance(source: seq<Message>, index: nat, settled: Report, next: nat)
    requires index < |source| && next == index + FirstLength(source[index..])
    requires settled.Then(Repair(source[index..])) == Repair(source)
    ensures settled.Then(FirstBlock(source[index..])).Then(Repair(source[next..])) == Repair(source)
  {
    hide FirstBlock, FirstLength, Repair, Report.Then;
    var rest := source[index..];
    RepairFirst(rest);
    assert rest[next - index..] == source[next..];
    ThenAssociates(settled, FirstBlock(rest), Repair(source[next..]));
  }

  /** `dict.fromkeys` over the findings. */
  method Deduplicate(findings: seq<Finding>) returns (unique: seq<Finding>)
    ensures unique == Unique(findings)
  {
    unique := [];
    for n := 0 to |findings|
      invariant unique == Unique(findings[..n])
    {
      assert findings[..n + 1][..n] == findings[..n];
      if findings[n] !in unique { unique := unique + [findings[n]]; }
    }
    assert findings[..|findings|] == findings;
  }

  /** Past the tool messages that follow a malformed calling message. */
  method SkipResults(source: seq<Message>, start: nat) returns (index: nat)
    requires start <= |source|
    ensures index == start + Run(source[start..])
  {
    index := start;
    while index < |source| && source[index].Tool?
      invariant start <= index <= |source| && forall k :: start <= k < index ==> source[k].Tool?
    {
      index := index + 1;
    }
    RunIs(source[start..], index - start);
  }

  /** A calling message whose calls can be answered, with the results that follow it: what it adds to each count. */
  method SettleBlock(source: seq<Message>, index: nat) returns (block: Report, scan: nat)
    requires index < |source| && Calling(source[index]) && Callable(source[index])
    ensures block == FirstBlock(source[index..]) && scan == index + FirstLength(source[index..])
  {
    hide Sift, Run, Callable, Pick, InCallOrder;
    assert source[index..][1..] == source[index + 1..];
    var ai := source[index];
    var expected := Expected(ai);
    var resultById, arrived, orphan, duplicate, findings;
    scan, resultById, arrived, orphan, duplicate, findings := Collect(source, index + 1, expected);
    assert resultById.Keys == Chosen(CallIds(arrived));
    if resultById.Keys != Chosen(expected) {
      block := Report([], orphan, |Chosen(expected) - resultById.Keys|, duplicate, 0, 0,
                      orphan + duplicate + 1 + |arrived|, findings + [MissingToolResultBlock]);
    } else {
      var ordered := Order(expected, resultById, arrived);
      var late := CallIds(arrived) != expected;
      block := Report([ai] + ordered, orphan, 0, duplicate, 0, if late then 1 else 0, orphan + duplicate,
                      findings + if late then [ToolResultsReordered] else []);
    }
  }

  /** `repair_model_history`. */
  method RepairModelHistory(source: seq<Message>) returns (repaired: Report)
    ensures repaired == Repair(source).(findings := Unique(Repair(source).findings))
  {
    hide Repair, Run, FirstBlock, FirstLength, Callable, Unique;
    var settled := Keeping([]);
    var index := 0;
    NothingBefore(Repair(source));
    while index < |source|
      invariant index <= |source|
      invariant settled.Then(Repair(source[index..])) == Repair(source)
    {
      ghost var start, before := index, settled;
      FirstIs(source, index);
      var current := source[index];
      if !Calling(current) {
        if current.Tool? {
          settled := settled.Then(Keeping([]).(orphan := 1, dropped := 1, findings := [OrphanToolResult]));
        } else {
          settled := settled.Then(Keeping([current]));
        }
        index := index + 1;
      } else if !Callable(current) {
        var next := SkipResults(source, index + 1);
        var dropped := Keeping([]).(malformed := 1, dropped := next - index, findings := [MalformedToolCallBlock]);
        settled := settled.Then(dropped);
        index := next;
      } else {
        var block, scan := SettleBlock(source, index);
        settled := settled.Then(block);
        index := scan;
      }
      Advance(source, start, before, index);
    }
    assert source[index..] == [];
    NothingMore(settled);
    var unique := Deduplicate(settled.findings);
    repaired := settled.(findings := unique);
  }
}
