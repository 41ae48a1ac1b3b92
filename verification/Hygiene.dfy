/** Bounded hygiene of a repaired history (cache_first/history.py, lines 265-328). */
module Hygiene {
  import opened Messages
  import opened History
  import opened RepairProofs
  import opened Tokens

  /** How single texts are bounded: a result's text, the arguments of an answered call and of another one, and
      the digest that stands for an omitted text. */
  datatype Bounds = Bounds(text: string -> string, capped: string -> string, canonical: string -> string,
                           digest: string -> string)
  {
    ghost predicate Valid() {
      forall t :: |digest(t)| == 16 && forall i :: 0 <= i < 16 ==> digest(t)[i] as int <= 127
    }

    function Call(call: ToolCall, cap: bool): ToolCall {
      match call
      case ToolCall(name, args, id) => ToolCall(name, if cap then capped(args) else canonical(args), id)
      case Foreign => Foreign
    }

    function Omitted(text: string): string {
      OMISSION + digest(text) + "]"
    }
  }

  /** The ids that have a result somewhere. */
  function Answered(ms: seq<Message>): set<string> {
    set i | 0 <= i < |ms| && ms[i].Tool? :: ms[i].callId
  }

  function BoundedCalls(calls: seq<ToolCall>, answered: set<string>, b: Bounds): seq<ToolCall> {
    seq(|calls|, i requires 0 <= i < |calls| => b.Call(calls[i], calls[i].ToolCall? && calls[i].id in answered))
  }

  function BoundedMessage(m: Message, answered: set<string>, b: Bounds): Message {
    if Calling(m) then m.(calls := BoundedCalls(m.calls, answered, b))
    else if m.Tool? then WithContent(m, b.text(m.content)) else m
  }

  function Bounded(ms: seq<Message>, answered: set<string>, b: Bounds): seq<Message> {
    seq(|ms|, i requires 0 <= i < |ms| => BoundedMessage(ms[i], answered, b))
  }

  /** `set(tool_result_indexes[-keep:])` holds the result that has `later` results after it: with keep = 0 the slice
      starts at the front and holds all of them. */
  predicate Recent(keep: nat, later: nat) { keep == 0 || later < keep }

  /** The cumulative budget, from the newest result to the oldest. */
  function Trim(ms: seq<Message>, later: nat, used: nat, config: Config, b: Bounds): seq<Message>
    decreases |ms|
  {
    if ms == [] then []
    else
      var n, m := |ms| - 1, ms[|ms| - 1];
      if !m.Tool? then Trim(ms[..n], later, used, config, b) + [m]
      else if Recent(config.keepRecentResults, later) || used + Approx(m.content) <= config.maxCumulative then
        Trim(ms[..n], later + 1, used + Approx(m.content), config, b) + [m]
      else Trim(ms[..n], later + 1, used, config, b) + [WithContent(m, b.Omitted(m.content))]
  }

  function Hygienic(ms: seq<Message>, config: Config, b: Bounds): seq<Message> {
    var repaired := Repair(ms).messages;
    var bounded := Bounded(repaired, Answered(repaired), b);
    if config.maxCumulative == 0 then bounded else Trim(bounded, 0, 0, config, b)
  }

  // ----- apply_history_hygiene --------------------------------------------------------------------------------

  lemma {:induction false} TrimSkips(ms: seq<Message>, p: nat, later: nat, used: nat, config: Config, b: Bounds)
    requires p <= |ms| && forall i :: p <= i < |ms| ==> !ms[i].Tool?
    ensures Trim(ms, later, used, config, b) == Trim(ms[..p], later, used, config, b) + ms[p..]
    decreases |ms|
  {
    if p == |ms| {
      assert ms[..p] == ms;
    } else {
      var n := |ms| - 1;
      TrimSkips(ms[..n], p, later, used, config, b);
      assert ms[..n][..p] == ms[..p] && ms[..n][p..] + [ms[n]] == ms[p..];
    }
  }

  method BoundCalls(calls: seq<ToolCall>, answered: set<string>, b: Bounds) returns (bounded: seq<ToolCall>)
    ensures bounded == BoundedCalls(calls, answered, b)
  {
    bounded := [];
    for i := 0 to |calls|
      invariant |bounded| == i && forall k :: 0 <= k < i ==> bounded[k] == BoundedCalls(calls, answered, b)[k]
    {
      bounded := bounded + [b.Call(calls[i], calls[i].ToolCall? && calls[i].id in answered)];
    }
  }

  method BoundMessages(repaired: seq<Message>, b: Bounds) returns (output: seq<Message>, toolIndexes: seq<nat>)
    ensures output == Bounded(repaired, Answered(repaired), b)
    ensures IndexesTools(toolIndexes, output)
  {
    var answered := {};
    for i := 0 to |repaired|
      invariant answered == Answered(repaired[..i])
    {
      assert repaired[..i + 1] == repaired[..i] + [repaired[i]];
      AnsweredAppended(repaired[..i], repaired[i]);
      if repaired[i].Tool? { answered := answered + {repaired[i].callId}; }
    }
    assert repaired[..|repaired|] == repaired;
    output, toolIndexes := [], [];
    for i := 0 to |repaired|
      invariant |output| == i
      invariant forall k :: 0 <= k < i ==> output[k] == BoundedMessage(repaired[k], answered, b)
      invariant forall k :: 0 <= k < |toolIndexes| ==> toolIndexes[k] < i
      invariant forall k, l :: 0 <= k < l < |toolIndexes| ==> toolIndexes[k] < toolIndexes[l]
      invariant forall k :: 0 <= k < i ==> (output[k].Tool? <==> k in toolIndexes)
    {
      var message := repaired[i];
      if Calling(message) {
        var calls := BoundCalls(message.calls, answered, b);
        message := message.(calls := calls);
      }
      if message.Tool? {
        message := WithContent(message, b.text(message.content));
        toolIndexes := toolIndexes + [|output|];
      }
      output := output + [message];
    }
  }

  lemma {:induction false} AnsweredAppended(ms: seq<Message>, m: Message)
    ensures Answered(ms + [m]) == Answered(ms) + if m.Tool? then {m.callId} else {}
  {
    var all := ms + [m];
    assert m == all[|ms|];
    forall id | id in Answered(ms)
      ensures id in Answered(all)
    {
      var i :| 0 <= i < |ms| && ms[i].Tool? && ms[i].callId == id;
      assert all[i] == ms[i];
    }
  }

  /** `apply_history_hygiene`. */
  method ApplyHygiene(messages: seq<Message>, config: Config, b: Bounds) returns (output: seq<Message>)
    ensures output == Hygienic(messages, config, b)
  {
    var repaired := RepairModelHistory(messages);
    var bounded, toolIndexes := BoundMessages(repaired.messages, b);
    if config.maxCumulative == 0 {
      return bounded;
    }
    output := TrimResults(bounded, toolIndexes, config, b);
  }

  /** Positions of the tool messages of a list, in order. */
  predicate IndexesTools(toolIndexes: seq<nat>, ms: seq<Message>) {
    && (forall k :: 0 <= k < |toolIndexes| ==> toolIndexes[k] < |ms|)
    && (forall k, l :: 0 <= k < l < |toolIndexes| ==> toolIndexes[k] < toolIndexes[l])
    && (forall i :: 0 <= i < |ms| ==> (ms[i].Tool? <==> i in toolIndexes))
  }

  /** Where the k-th tool message stands, and the end of the list after the last one. */
  function Place(toolIndexes: seq<nat>, ms: seq<Message>, k: nat): nat
    requires k <= |toolIndexes|
  {
    if k == |toolIndexes| then |ms| else toolIndexes[k]
  }

  lemma {:induction false} NoToolsBetween(toolIndexes: seq<nat>, ms: seq<Message>, k: nat)
    requires IndexesTools(toolIndexes, ms) && k <= |toolIndexes|
    ensures k > 0 ==> toolIndexes[k - 1] < Place(toolIndexes, ms, k) <= |ms| && ms[toolIndexes[k - 1]].Tool?
    ensures forall i :: (if k == 0 then 0 else toolIndexes[k - 1] + 1) <= i < Place(toolIndexes, ms, k) ==> !ms[i].Tool?
  {
    forall i | (if k == 0 then 0 else toolIndexes[k - 1] + 1) <= i < Place(toolIndexes, ms, k)
      ensures i !in toolIndexes
    {
    }
  }

  /** The slice of the last `keep` positions. */
  function Latest(toolIndexes: seq<nat>, keep: nat): seq<nat> {
    toolIndexes[if keep == 0 || keep > |toolIndexes| then 0 else |toolIndexes| - keep..]
  }

  lemma {:induction false} LatestIsRecent(toolIndexes: seq<nat>, ms: seq<Message>, keep: nat, k: nat)
    requires IndexesTools(toolIndexes, ms) && k < |toolIndexes|
    ensures toolIndexes[k] in Latest(toolIndexes, keep) <==> Recent(keep, |toolIndexes| - k - 1)
  {
    var start := |toolIndexes| - |Latest(toolIndexes, keep)|;
    if k >= start {
      assert Latest(toolIndexes, keep)[k - start] == toolIndexes[k];
    }
  }

  method TrimResults(bounded: seq<Message>, toolIndexes: seq<nat>, config: Config, b: Bounds)
    returns (output: seq<Message>)
    requires IndexesTools(toolIndexes, bounded)
    ensures output == Trim(bounded, 0, 0, config, b)
  {
    hide IndexesTools, Trim, Recent, Latest, Approx;
    output := bounded;
    var used: nat := 0;
    var recent := Latest(toolIndexes, config.keepRecentResults);
    var k := |toolIndexes|;
    ghost var pos := |bounded|;
    assert bounded[..pos] == bounded;
    while k > 0
      invariant 0 <= k <= |toolIndexes| && |output| == |bounded| && pos == Place(toolIndexes, bounded, k) <= |bounded|
      invariant output[..pos] == bounded[..pos]
      invariant Trim(bounded, 0, 0, config, b) ==
                Trim(bounded[..pos], |toolIndexes| - k, used, config, b) + output[pos..]
    {
      NoToolsBetween(toolIndexes, bounded, k);
      LatestIsRecent(toolIndexes, bounded, config.keepRecentResults, k - 1);
      ghost var before, later := output, |toolIndexes| - k;
      k := k - 1;
      var index := toolIndexes[k];
      var message := output[index];
      assert message == output[..pos][index] == bounded[index];
      var tokens := Approx(message.content);
      TrimTo(bounded, index, pos, later, used, config, b);
      if index in recent || used + tokens <= config.maxCumulative {
        used := used + tokens;
      } else {
        output := output[index := WithContent(message, b.Omitted(message.content))];
      }
      assert output[index..] == [output[index]] + bounded[index + 1..pos] + before[pos..];
      assert output[..index] == bounded[..index];
      pos := index;
    }
    NoToolsBetween(toolIndexes, bounded, 0);
    TrimNothing(bounded[..pos], |toolIndexes|, used, config, b);
    assert output == output[..pos] + output[pos..];
  }

  lemma {:induction false} TrimNothing(ms: seq<Message>, later: nat, used: nat, config: Config, b: Bounds)
    requires forall i :: 0 <= i < |ms| ==> !ms[i].Tool?
    ensures Trim(ms, later, used, config, b) == ms
  {
    TrimSkips(ms, 0, later, used, config, b);
  }

  /** From one result to the one before it: what lies between is left alone. */
  lemma {:induction false} TrimTo(ms: seq<Message>, index: nat, pos: nat, later: nat, used: nat, config: Config,
        b: Bounds)
    requires index < pos <= |ms| && ms[index].Tool?
    requires forall i :: index < i < pos ==> !ms[i].Tool?
    ensures var tokens := Approx(ms[index].content);
            var whole := Recent(config.keepRecentResults, later) || used + tokens <= config.maxCumulative;
            Trim(ms[..pos], later, used, config, b) ==
            Trim(ms[..index], later + 1, if whole then used + tokens else used, config, b)
            + ([if whole then ms[index] else WithContent(ms[index], b.Omitted(ms[index].content))] + ms[index + 1..pos])
  {
    TrimSkips(ms[..pos], index + 1, later, used, config, b);
    assert ms[..pos][..index + 1] == ms[..index + 1] && ms[..pos][index + 1..] == ms[index + 1..pos];
    assert ms[..index + 1][..index] == ms[..index];
  }

  // ----- only contents and arguments change ---------------------------------------------------------------------

  predicate SameCalls(a: seq<ToolCall>, b: seq<ToolCall>) {
    && |a| == |b|
    && (forall i :: 0 <= i < |a| ==>
          a[i].ToolCall? == b[i].ToolCall? && (a[i].ToolCall? ==> a[i].name == b[i].name && a[i].id == b[i].id))
  }

  /** One message stands for another: the text of a result and the arguments of calls may differ. */
  predicate Stands(a: Message, b: Message) {
    if a.Tool? then b == WithContent(a, b.content)
    else if Calling(a) then b.AI? && SameCalls(a.calls, b.calls) && b == a.(calls := b.calls)
    else b == a
  }

  predicate SameShape(a: seq<Message>, b: seq<Message>) {
    |a| == |b| && forall i :: 0 <= i < |a| ==> Stands(a[i], b[i])
  }

  lemma {:induction false} StandsKinds(a: Message, b: Message)
    requires Stands(a, b)
    ensures a.Tool? == b.Tool? && Calling(a) == Calling(b)
    ensures a.Tool? ==> a.callId == b.callId
    ensures Calling(a) ==>
              |a.calls| == |b.calls| && Callable(a) == Callable(b) && (Callable(a) ==> Expected(a) == Expected(b))
  {
    if Calling(a) && Callable(a) {
      assert forall i :: 0 <= i < |a.calls| ==>
        b.calls[i].ToolCall? && b.calls[i].id == a.calls[i].id && b.calls[i].name == a.calls[i].name;
    } else if Calling(a) && Callable(b) {
      assert forall i :: 0 <= i < |a.calls| ==>
        a.calls[i].ToolCall? && b.calls[i].id == a.calls[i].id && b.calls[i].name == a.calls[i].name;
    }
  }

  /** The protocol sees only the shape. */
  lemma {:induction false} ShapeKeepsProtocol(a: seq<Message>, b: seq<Message>)
    requires SameShape(a, b) && WellFormed(a)
    ensures WellFormed(b)
  {
    hide Callable, Stands;
    if a != [] {
      StandsKinds(a[0], b[0]);
      var n := if Calling(a[0]) then |a[0].calls| + 1 else 1;
      ShapeKeepsProtocol(a[n..], b[n..]);
      if Calling(a[0]) {
        forall i | 0 <= i < n - 1
          ensures b[1..n][i].Tool? && b[1..n][i].callId == Expected(b[0])[i]
        {
          assert a[1..n][i] == a[i + 1];
          StandsKinds(a[i + 1], b[i + 1]);
        }
      }
    }
  }

  lemma {:induction false} ShapeKeepsPlains(a: seq<Message>, b: seq<Message>)
    requires SameShape(a, b)
    ensures Plains(a) == Plains(b)
  {
    hide Stands;
    if a != [] {
      assert Stands(a[0], b[0]);
      StandsKinds(a[0], b[0]);
      assert Plain(a[0]) ==> a[0] == b[0] by { StandsPlain(a[0], b[0]); }
      ShapeKeepsPlains(a[1..], b[1..]);
    }
  }

  lemma {:induction false} StandsPlain(a: Message, b: Message)
    requires Stands(a, b)
    ensures Plain(a) ==> a == b
  {
  }

  lemma {:induction false} BoundedShape(ms: seq<Message>, answered: set<string>, b: Bounds)
    ensures SameShape(ms, Bounded(ms, answered, b))
  {
    forall i | 0 <= i < |ms|
      ensures Stands(ms[i], BoundedMessage(ms[i], answered, b))
    {
    }
  }

  lemma {:induction false} TrimShape(ms: seq<Message>, later: nat, used: nat, config: Config, b: Bounds)
    ensures SameShape(ms, Trim(ms, later, used, config, b))
    decreases |ms|
  {
    hide Recent, Approx;
    if ms != [] {
      var n, m := |ms| - 1, ms[|ms| - 1];
      TrimShape(ms[..n], later, used, config, b);
      TrimShape(ms[..n], later + 1, used, config, b);
      TrimShape(ms[..n], later + 1, used + Approx(m.content), config, b);
      assert Stands(m, m);
    }
  }

  /** Whatever the history, hygiene leaves one that satisfies the protocol, with every plain message untouched and
      in its place. */
  lemma {:induction false} HygieneKeepsProtocol(ms: seq<Message>, config: Config, b: Bounds)
    ensures WellFormed(Hygienic(ms, config, b))
    ensures Plains(Hygienic(ms, config, b)) == Plains(ms)
  {
    hide WellFormed, Stands, Repair, Bounded, Trim;
    var repaired := Repair(ms).messages;
    var bounded := Bounded(repaired, Answered(repaired), b);
    RepairedIsWellFormed(ms);
    PlainMessagesStay(ms);
    BoundedShape(repaired, Answered(repaired), b);
    ShapeKeepsProtocol(repaired, bounded);
    ShapeKeepsPlains(repaired, bounded);
    TrimShape(bounded, 0, 0, config, b);
    ShapeKeepsProtocol(bounded, Trim(bounded, 0, 0, config, b));
    ShapeKeepsPlains(bounded, Trim(bounded, 0, 0, config, b));
  }

  lemma {:induction false} EveryCallAnswered(ms: seq<Message>, i: nat, k: nat)
    requires WellFormed(ms) && i < |ms| && Calling(ms[i]) && k < |ms[i].calls|
    ensures ms[i].calls[k].ToolCall? && ms[i].calls[k].id in Answered(ms)
  {
    WellFormedIsProtocol(ms);
    assert AnsweredAt(ms, i);
    var results := ms[i + 1..i + 1 + |ms[i].calls|];
    assert results[k] == ms[i + 1 + k] && results[k].callId == Expected(ms[i])[k];
  }

  /** After repair every call has a result, so the arguments of every call are capped. */
  lemma {:induction false} EveryCallIsCapped(ms: seq<Message>, b: Bounds, i: nat, k: nat)
    requires i < |Repair(ms).messages| && Calling(Repair(ms).messages[i]) && k < |Repair(ms).messages[i].calls|
    ensures var repaired := Repair(ms).messages;
            Bounded(repaired, Answered(repaired), b)[i].calls[k] == b.Call(repaired[i].calls[k], true)
  {
    hide Repair, Answered;
    RepairedIsWellFormed(ms);
    EveryCallAnswered(Repair(ms).messages, i, k);
  }

  // ----- the cumulative budget --------------------------------------------------------------------------------------

  function ToolTokens(ms: seq<Message>): nat {
    if ms == [] then 0
    else ToolTokens(ms[..|ms| - 1]) + if ms[|ms| - 1].Tool? then Approx(ms[|ms| - 1].content) else 0
  }

  /** The tokens of the results the configuration keeps however large they are. */
  function RecentTokens(ms: seq<Message>, later: nat, keep: nat): nat
    decreases |ms|
  {
    if ms == [] then 0
    else
      var n, m := |ms| - 1, ms[|ms| - 1];
      if m.Tool? then RecentTokens(ms[..n], later + 1, keep) + if Recent(keep, later) then Approx(m.content) else 0
      else RecentTokens(ms[..n], later, keep)
  }

  const OMISSION := "[older tool result omitted; original_sha256="

  /** How many results of a list are placeholders. */
  function Placeholders(ms: seq<Message>): nat {
    if ms == [] then 0
    else Placeholders(ms[..|ms| - 1]) + if ms[|ms| - 1].Tool? && OMISSION <= ms[|ms| - 1].content then 1 else 0
  }

  lemma {:induction false} OmittedCost(text: string, b: Bounds)
    requires b.Valid()
    ensures Approx(b.Omitted(text)) == 16 && OMISSION <= b.Omitted(text)
  {
    var t := b.Omitted(text);
    forall i | 0 <= i < |t|
      ensures t[i] as int <= 127
    {
      assert i < |OMISSION| ==> t[i] == OMISSION[i];
      assert |OMISSION| <= i < |OMISSION| + 16 ==> t[i] == b.digest(text)[i - |OMISSION|];
    }
    AllAscii(t);
  }

  lemma {:induction false} NothingRecent(ms: seq<Message>, later: nat, keep: nat)
    requires !Recent(keep, later)
    ensures RecentTokens(ms, later, keep) == 0
    decreases |ms|
  {
    if ms != [] {
      NothingRecent(ms[..|ms| - 1], later, keep);
      NothingRecent(ms[..|ms| - 1], later + 1, keep);
    }
  }

  lemma {:induction false} Appended(ms: seq<Message>, m: Message)
    ensures ToolTokens(ms + [m]) == ToolTokens(ms) + if m.Tool? then Approx(m.content) else 0
    ensures Placeholders(ms + [m]) >= Placeholders(ms)
    ensures m.Tool? && OMISSION <= m.content ==> Placeholders(ms + [m]) == Placeholders(ms) + 1
  {
    assert (ms + [m])[..|ms|] == ms;
  }

  /** With what is used up already, the results end within the budget, or within what the recent ones alone take,
      and sixteen tokens for each placeholder. */
  lemma {:induction false} TrimWithin(ms: seq<Message>, later: nat, used: nat, config: Config, b: Bounds)
    requires b.Valid()
    ensures var out := Trim(ms, later, used, config, b);
            used + ToolTokens(out) <=
            Max(config.maxCumulative, used + RecentTokens(ms, later, config.keepRecentResults)) + 16 * Placeholders(out)
    decreases |ms|
  {
    hide Approx, Recent, ToolTokens, Placeholders, Bounds.Omitted, Bounds.Valid;
    if ms == [] {
      NoTokens();
    } else {
      var m, rest := ms[|ms| - 1], ms[..|ms| - 1];
      var tokens := Approx(m.content);
      if !m.Tool? {
        TrimWithin(rest, later, used, config, b);
        Appended(Trim(rest, later, used, config, b), m);
      } else if Recent(config.keepRecentResults, later) || used + tokens <= config.maxCumulative {
        TrimWithin(rest, later + 1, used + tokens, config, b);
        Appended(Trim(rest, later + 1, used + tokens, config, b), m);
        if !Recent(config.keepRecentResults, later) {
          NothingRecent(ms, later, config.keepRecentResults);
        }
      } else {
        TrimWithin(rest, later + 1, used, config, b);
        OmittedCost(m.content, b);
        Appended(Trim(rest, later + 1, used, config, b), WithContent(m, b.Omitted(m.content)));
      }
    }
  }

  lemma {:induction false} NoTokens()
    ensures ToolTokens([]) == 0 && Placeholders([]) == 0
  {
  }

  /** The results of a projection together stay within the cumulative budget, or within what the recent results
      alone take, and sixteen tokens for each placeholder. */
  lemma {:induction false} CumulativeBudget(ms: seq<Message>, config: Config, b: Bounds)
    requires b.Valid() && config.maxCumulative > 0
    ensures var repaired := Repair(ms).messages;
            var bounded := Bounded(repaired, Answered(repaired), b);
            ToolTokens(Hygienic(ms, config, b)) <=
            Max(config.maxCumulative, RecentTokens(bounded, 0, config.keepRecentResults))
            + 16 * Placeholders(Hygienic(ms, config, b))
  {
    hide Repair, Bounded, Trim, Bounds.Valid;
    var repaired := Repair(ms).messages;
    TrimWithin(Bounded(repaired, Answered(repaired), b), 0, 0, config, b);
  }

  /** With no recent results to keep the slice holds all of them, and the budget trims nothing. */
  lemma {:induction false} KeepNoneKeepsAll(ms: seq<Message>, later: nat, used: nat, config: Config, b: Bounds)
    requires config.keepRecentResults == 0
    ensures Trim(ms, later, used, config, b) == ms
    decreases |ms|
  {
    if ms != [] {
      KeepNoneKeepsAll(ms[..|ms| - 1], later, used, config, b);
      KeepNoneKeepsAll(ms[..|ms| - 1], later + 1, used + Approx(ms[|ms| - 1].content), config, b);
    }
  }
}
