/** What repair promises: the protocol, nothing else touched, nothing lost uncounted (history.py 63-150). */
module RepairProofs {
  import opened Prelude
  import opened Messages
  import opened History

  // ----- one block --------------------------------------------------------------------------------------

  lemma {:induction false} AppendedId(results: seq<Message>, m: Message)
    requires AllTools(results) && m.Tool?
    ensures CallIds(results + [m]) == CallIds(results) + [m.callId]
    ensures Chosen(CallIds(results + [m])) == Chosen(CallIds(results)) + {m.callId}
  {
    assert CallIds(results + [m]) == CallIds(results) + [m.callId];
    assert m.callId in CallIds(results) + [m.callId];
  }

  /** The results kept of a run: for every expected id that occurs, the first that carries it. Every other result
      is counted once. */
  lemma {:induction false} SiftKeepsFirsts(ids: seq<string>, results: seq<Message>)
    requires AllTools(results)
    ensures var s := Sift(ids, results);
            && Distinct(CallIds(s.kept))
            && Chosen(CallIds(s.kept)) == Chosen(CallIds(results)) * Chosen(ids)
            && |s.kept| + s.orphan + s.duplicate == |results|
            && (s.findings == [] <==> s.orphan + s.duplicate == 0)
  {
    hide Pick;
    if results != [] {
      var n := |results| - 1;
      SiftKeepsFirsts(ids, results[..n]);
      assert results[..n] + [results[n]] == results;
      AppendedId(results[..n], results[n]);
      var before := Sift(ids, results[..n]);
      AppendedId(before.kept, results[n]);
      assert results[n].callId in Chosen(ids) <==> results[n].callId in ids;
    }
  }

  lemma {:induction false} PickFirst(results: seq<Message>, m: Message, id: string)
    requires AllTools(results) && m.Tool? && id in CallIds(results)
    ensures id in CallIds(results + [m]) && Pick(results + [m], id) == Pick(results, id)
  {
    AppendedId(results, m);
    assert CallIds(results)[0] == results[0].callId;
    if results[0].callId != id {
      assert CallIds(results)[1..] == CallIds(results[1..]);
      assert (results + [m])[1..] == results[1..] + [m];
      assert CallIds(results + [m])[1..] == CallIds(results[1..] + [m]);
      PickFirst(results[1..], m, id);
    }
  }

  /** The result kept for an id is the first one that arrived for it. */
  lemma {:induction false} SiftPicksFirst(ids: seq<string>, results: seq<Message>, id: string)
    requires AllTools(results) && id in ids && id in CallIds(results)
    ensures id in CallIds(Sift(ids, results).kept) && Pick(Sift(ids, results).kept, id) == Pick(results, id)
  {
    hide Pick;
    var n := |results| - 1;
    var before, last := Sift(ids, results[..n]).kept, results[n];
    assert results[..n] + [last] == results;
    SiftKeepsFirsts(ids, results[..n]);
    AppendedId(results[..n], last);
    assert id in ids <==> id in Chosen(ids);
    assert id in CallIds(before) <==> id in Chosen(CallIds(before));
    assert id in CallIds(results[..n]) <==> id in Chosen(CallIds(results[..n]));
    if id in CallIds(results[..n]) {
      SiftPicksFirst(ids, results[..n], id);
      PickFirst(results[..n], last, id);
      PickFirst(before, last, id);
    } else {
      PickAppended(results[..n], last, id);
      PickAppended(before, last, id);
    }
  }

  /** All calls of a message have a result among those that follow it. */
  predicate Complete(ai: Message, results: seq<Message>)
    requires ai.AI? && AllTools(results)
  {
    Callable(ai) && Chosen(Expected(ai)) <= Chosen(CallIds(results))
  }

  /** A block is kept whole when its calls can be answered and all are answered, with the first result of each
      call in call order, and dropped whole otherwise. */
  lemma {:induction false} BlockIsWholeOrGone(ai: Message, results: seq<Message>)
    requires Calling(ai) && AllTools(results)
    ensures Block(ai, results).messages ==
            if Complete(ai, results) then [ai] + InCallOrder(Expected(ai), results) else []
    ensures |Block(ai, results).messages| + Block(ai, results).dropped == 1 + |results|
  {
    hide Callable, Sift, Pick;
    if Callable(ai) {
      var ids := Expected(ai);
      var kept := Sift(ids, results).kept;
      SiftKeepsFirsts(ids, results);
      assert Chosen(CallIds(kept)) == Chosen(ids) <==> Chosen(ids) <= Chosen(CallIds(results));
      if Chosen(CallIds(kept)) == Chosen(ids) {
        ChosenSize(ids);
        ChosenSize(CallIds(kept));
        forall i | 0 <= i < |ids|
          ensures InCallOrder(ids, kept)[i] == InCallOrder(ids, results)[i]
        {
          assert ids[i] in Chosen(ids) && ids[i] in Chosen(CallIds(results));
          SiftPicksFirst(ids, results, ids[i]);
        }
      }
    }
  }

  lemma {:induction false} AnswersSift(ids: seq<string>, results: seq<Message>)
    requires Distinct(ids) && AllTools(results)
    requires |results| <= |ids| && forall i :: 0 <= i < |results| ==> results[i].callId == ids[i]
    ensures Sift(ids, results) == Sifted(results, 0, 0, [])
  {
    if results != [] {
      var n := |results| - 1;
      AnswersSift(ids, results[..n]);
      assert results[..n] + [results[n]] == results;
      assert CallIds(results[..n]) == ids[..n];
      assert results[n].callId == ids[n];
    }
  }

  lemma {:induction false} AnswersInOrder(ids: seq<string>, results: seq<Message>)
    requires Distinct(ids) && Answers(results, ids)
    ensures CallIds(results) == ids && InCallOrder(ids, results) == results
  {
    hide Pick;
    assert CallIds(results) == ids;
    forall i | 0 <= i < |ids|
      ensures InCallOrder(ids, results)[i] == results[i]
    {
      assert ids[i] in Chosen(ids);
      var m := Pick(results, ids[i]);
      var j :| 0 <= j < |results| && results[j] == m;
      assert ids[j] == ids[i];
    }
  }

  /** A block is reported unchanged exactly when it is one the protocol allows. */
  lemma {:induction false} BlockUnchanged(ai: Message, results: seq<Message>)
    requires Calling(ai) && AllTools(results)
    ensures Callable(ai) && Answers(results, Expected(ai)) ==> Block(ai, results) == Keeping([ai] + results)
    ensures !Block(ai, results).Changed() ==> Callable(ai) && Answers(results, Expected(ai))
  {
    hide Callable, Sift, Pick;
    if Callable(ai) {
      var ids := Expected(ai);
      if Answers(results, ids) {
        AnswersSift(ids, results);
        AnswersInOrder(ids, results);
      } else if !Block(ai, results).Changed() {
        UnchangedAnswers(ids, results);
      }
    }
  }

  lemma {:induction false} UnchangedAnswers(ids: seq<string>, results: seq<Message>)
    requires AllTools(results)
    requires Sift(ids, results).orphan + Sift(ids, results).duplicate == 0
    requires CallIds(Sift(ids, results).kept) == ids
    ensures Answers(results, ids)
  {
    SiftAll(ids, results);
    assert forall i :: 0 <= i < |ids| ==> CallIds(results)[i] == results[i].callId;
  }

  lemma {:induction false} SiftAll(ids: seq<string>, results: seq<Message>)
    requires AllTools(results)
    requires Sift(ids, results).orphan + Sift(ids, results).duplicate == 0
    ensures Sift(ids, results).kept == results
  {
    if results != [] {
      var n := |results| - 1;
      SiftAll(ids, results[..n]);
      assert results[..n] + [results[n]] == results;
    }
  }

  // ----- whole histories ---------------------------------------------------------------------------------

  /** What the first block of a history contributes, in the terms of the lemmas above. */
  lemma {:induction false} FirstFacts(ms: seq<Message>) returns (rest: seq<Message>, ai: Message, results: seq<Message>)
    requires ms != []
    ensures rest == ms[FirstLength(ms)..] && ms == [ai] + results + rest && AllTools(results)
    ensures Repair(ms) == FirstBlock(ms).Then(Repair(rest))
    ensures Calling(ai) ==> FirstBlock(ms) == Block(ai, results) && (rest != [] ==> !rest[0].Tool?)
    ensures !Calling(ai) ==> FirstBlock(ms) == Single(ai) && results == []
  {
    hide Block, Single;
    RepairFirst(ms);
    rest, ai := ms[FirstLength(ms)..], ms[0];
    results := ms[1..FirstLength(ms)];
    if Calling(ai) {
      assert results == ms[1..][..Run(ms[1..])];
      assert rest == ms[1..][Run(ms[1..])..];
    }
    assert ms == ms[..1] + ms[1..];
  }

  lemma {:induction false} BlockFront(ai: Message, results: seq<Message>, rest: seq<Message>)
    requires Calling(ai) && Callable(ai) && Answers(results, Expected(ai)) && WellFormed(rest)
    ensures WellFormed([ai] + results + rest)
  {
    var ms := [ai] + results + rest;
    assert ms[1..|ai.calls| + 1] == results && ms[|ai.calls| + 1..] == rest;
  }

  /** Whatever the history, repair leaves one that satisfies the protocol. */
  lemma {:induction false} RepairedIsWellFormed(ms: seq<Message>)
    ensures WellFormed(Repair(ms).messages)
  {
    hide Block, Callable, WellFormed, Answers;
    if ms != [] {
      var rest, ai, results := FirstFacts(ms);
      RepairedIsWellFormed(rest);
      var after := Repair(rest).messages;
      if Calling(ai) {
        BlockIsWholeOrGone(ai, results);
        if Complete(ai, results) {
          BlockFront(ai, InCallOrder(Expected(ai), results), after);
        } else {
          assert [] + after == after;
        }
      } else {
        PlainFront(ai, after);
      }
    } else {
      Empty();
    }
  }

  lemma {:induction false} Empty()
    ensures WellFormed([])
  {
  }

  lemma {:induction false} PlainFront(m: Message, rest: seq<Message>)
    requires !Calling(m) && WellFormed(rest)
    ensures WellFormed(Single(m).messages + rest)
  {
    var ms := Single(m).messages + rest;
    if m.Tool? {
      assert ms == rest;
    } else {
      assert ms == [m] + rest && ms[1..] == rest;
    }
  }

  /** A well-formed history starts with a block that repair leaves alone, or with a plain message. */
  lemma {:induction false} WellFormedFirst(ms: seq<Message>, ai: Message, results: seq<Message>, rest: seq<Message>)
    requires ms == [ai] + results + rest && AllTools(results)
    requires Calling(ai) ==> (rest != [] ==> !rest[0].Tool?)
    requires !Calling(ai) ==> results == []
    ensures WellFormed(ms) <==>
            WellFormed(rest) && !ai.Tool? && (Calling(ai) ==> Callable(ai) && Answers(results, Expected(ai)))
  {
    hide Callable;
    assert ms[0] == ai;
    if Calling(ai) {
      var n := |ai.calls|;
      assert n < |results| ==> ms[n + 1..][0] == results[n] && !WellFormed(ms[n + 1..]);
      assert |results| < n < |ms| ==> ms[1..n + 1][|results|] == rest[0];
      assert |results| < n < |ms| && Callable(ai) ==> !Answers(ms[1..n + 1], Expected(ai));
      if n == |results| {
        assert ms[1..n + 1] == results && ms[n + 1..] == rest;
      }
    } else {
      assert ms[1..] == rest;
    }
  }

  /** Repair is the identity on well-formed histories and reports a change on all others. */
  lemma {:induction false} IdentityOnWellFormed(ms: seq<Message>)
    ensures WellFormed(ms) ==> Repair(ms) == Keeping(ms)
    ensures WellFormed(ms) <==> !Repair(ms).Changed()
  {
    hide Block, Callable, WellFormed, Answers;
    if ms != [] {
      var rest, ai, results := FirstFacts(ms);
      WellFormedFirst(ms, ai, results, rest);
      IdentityOnWellFormed(rest);
      if Calling(ai) {
        BlockUnchanged(ai, results);
      }
    } else {
      Empty();
    }
  }

  /** Repairing twice is repairing once, with nothing left to count. */
  lemma {:induction false} RepairIsIdempotent(ms: seq<Message>)
    ensures Repair(Repair(ms).messages) == Keeping(Repair(ms).messages)
    ensures Repair(ms).messages == ms <==> WellFormed(ms)
  {
    RepairedIsWellFormed(ms);
    IdentityOnWellFormed(Repair(ms).messages);
    IdentityOnWellFormed(ms);
  }

  /** Every message is either in the output or counted as dropped. */
  lemma {:induction false} DroppedAreCounted(ms: seq<Message>)
    ensures |Repair(ms).messages| + Repair(ms).dropped == |ms|
  {
    hide Block;
    if ms != [] {
      var rest, ai, results := FirstFacts(ms);
      DroppedAreCounted(rest);
      if Calling(ai) {
        BlockIsWholeOrGone(ai, results);
      }
    }
  }

  // ----- nothing else is touched ----------------------------------------------------------------------------

  predicate Plain(m: Message) { !m.Tool? && !Calling(m) }

  function Plains(ms: seq<Message>): (r: seq<Message>) {
    if ms == [] then [] else (if Plain(ms[0]) then [ms[0]] else []) + Plains(ms[1..])
  }

  lemma {:induction false} PlainsConcat(a: seq<Message>, b: seq<Message>)
    ensures Plains(a + b) == Plains(a) + Plains(b)
  {
    if a == [] {
      assert a + b == b;
    } else {
      assert (a + b)[1..] == a[1..] + b;
      PlainsConcat(a[1..], b);
    }
  }

  lemma {:induction false} NoPlains(ms: seq<Message>)
    requires forall i :: 0 <= i < |ms| ==> !Plain(ms[i])
    ensures Plains(ms) == []
  {
    if ms != [] {
      NoPlains(ms[1..]);
    }
  }

  lemma {:induction false} PlainsOfBlock(ai: Message, results: seq<Message>)
    requires Calling(ai) && AllTools(results)
    ensures Plains([ai] + results) == [] && Plains(Block(ai, results).messages) == []
  {
    hide Block, Callable, Pick;
    BlockIsWholeOrGone(ai, results);
    NoPlains([ai] + results);
    NoPlains(Block(ai, results).messages);
  }

  /** The messages that neither make calls nor answer them all stay, in their order. */
  lemma {:induction false} PlainMessagesStay(ms: seq<Message>)
    ensures Plains(Repair(ms).messages) == Plains(ms)
  {
    hide Block, Plains;
    if ms != [] {
      var rest, ai, results := FirstFacts(ms);
      PlainMessagesStay(rest);
      PlainsConcat([ai] + results, rest);
      PlainsConcat(FirstBlock(ms).messages, Repair(rest).messages);
      if Calling(ai) {
        PlainsOfBlock(ai, results);
      } else {
        assert [ai] + results == [ai];
        PlainsOfOne(ai);
      }
    }
  }

  lemma {:induction false} PlainsOfOne(m: Message)
    requires !Calling(m)
    ensures Plains([m]) == Plains(Single(m).messages)
  {
    assert [m][1..] == [];
  }

  lemma {:induction false} DistinctIsIncluded(s: seq<Message>, t: seq<Message>)
    requires Distinct(s) && forall m :: m in s ==> m in t
    ensures multiset(s) <= multiset(t)
  {
    if s != [] {
      var n := |s| - 1;
      DistinctIsIncluded(s[..n], t);
      assert s == s[..n] + [s[n]];
      assert s[n] !in s[..n] && s[n] in t;
      assert multiset(s[..n])[s[n]] == 0;
    }
  }

  /** No message of the output is invented or repeated. */
  lemma {:induction false} OutputComesFromInput(ms: seq<Message>)
    ensures multiset(Repair(ms).messages) <= multiset(ms)
  {
    hide Block, Callable;
    if ms != [] {
      var rest, ai, results := FirstFacts(ms);
      OutputComesFromInput(rest);
      assert multiset(ms) == multiset([ai] + results) + multiset(rest);
      if Calling(ai) {
        BlockIsWholeOrGone(ai, results);
        if Complete(ai, results) {
          var ordered := InCallOrder(Expected(ai), results);
          assert forall i, j :: 0 <= i < j < |ordered| ==> ordered[i].callId != ordered[j].callId;
          OrderedFromResults(Expected(ai), results);
          DistinctIsIncluded(ordered, results);
        }
      }
    }
  }

  lemma {:induction false} OrderedFromResults(ids: seq<string>, results: seq<Message>)
    requires AllTools(results) && Chosen(ids) <= Chosen(CallIds(results))
    ensures forall m :: m in InCallOrder(ids, results) ==> m in results
  {
    hide Pick;
    forall i | 0 <= i < |ids|
      ensures InCallOrder(ids, results)[i] in results
    {
      assert ids[i] in Chosen(ids);
    }
  }
}
