/** Budgeted compaction of a dynamic history by whole blocks (cache_first/compaction.py). */
module Compaction {
  import opened Prelude
  import opened Messages
  import opened History
  import opened Tokens

  type Blocks = seq<seq<Message>>

  // ----- blocks --------------------------------------------------------------------------------------------

  /** A calling message with the tool messages that follow it, and any other message alone. */
  function HistoryBlocks(ms: seq<Message>): Blocks {
    if ms == [] then []
    else if Calling(ms[0]) then
      var n := 1 + Run(ms[1..]);
      [ms[..n]] + HistoryBlocks(ms[n..])
    else [ms[..1]] + HistoryBlocks(ms[1..])
  }

  function Flatten(blocks: Blocks): seq<Message> {
    if blocks == [] then [] else blocks[0] + Flatten(blocks[1..])
  }

  lemma {:induction false} FlattenConcat(a: Blocks, b: Blocks)
    ensures Flatten(a + b) == Flatten(a) + Flatten(b)
  {
    if a == [] {
      assert a + b == b;
    } else {
      assert (a + b)[1..] == a[1..] + b;
      FlattenConcat(a[1..], b);
      assert a[0] + (Flatten(a[1..]) + Flatten(b)) == a[0] + Flatten(a[1..]) + Flatten(b);
    }
  }

  /** Nothing is lost by cutting a history into blocks. */
  lemma {:induction false} BlocksFlatten(ms: seq<Message>)
    ensures Flatten(HistoryBlocks(ms)) == ms
  {
    if ms != [] {
      var n := if Calling(ms[0]) then 1 + Run(ms[1..]) else 1;
      BlocksFlatten(ms[n..]);
      assert ms == ms[..n] + ms[n..];
      assert HistoryBlocks(ms)[1..] == HistoryBlocks(ms[n..]);
    }
  }

  lemma {:induction false} BlocksFirst(messages: seq<Message>, index: nat, end: nat)
    requires index < |messages|
    requires end == index + 1 + if Calling(messages[index]) then Run(messages[index + 1..]) else 0
    ensures HistoryBlocks(messages[index..]) == [messages[index..end]] + HistoryBlocks(messages[end..])
  {
    hide Run;
    var rest := messages[index..];
    assert rest[1..] == messages[index + 1..];
    assert rest[..end - index] == messages[index..end] && rest[end - index..] == messages[end..];
  }

  /** `_history_blocks`. */
  method CutBlocks(messages: seq<Message>) returns (blocks: Blocks)
    ensures blocks == HistoryBlocks(messages)
  {
    hide HistoryBlocks, Run;
    blocks := [];
    var index := 0;
    assert messages[0..] == messages;
    while index < |messages|
      invariant index <= |messages|
      invariant blocks + HistoryBlocks(messages[index..]) == HistoryBlocks(messages)
    {
      var end := index + 1;
      if Calling(messages[index]) {
        end := SkipResults(messages, index + 1);
      }
      BlocksFirst(messages, index, end);
      blocks := blocks + [messages[index..end]];
      index := end;
    }
    assert messages[index..] == [];
    NoBlocks();
  }

  lemma {:induction false} NoBlocks()
    ensures HistoryBlocks([]) == []
  {
  }

  // ----- the budget ------------------------------------------------------------------------------------------

  /** What the request holds besides the dynamic history. */
  datatype Request = Request(prefix: seq<Message>, extra: nat, config: Config)
  {
    /** `hard_threshold_tokens or context_window_tokens`. */
    function Limit(): Option<int> {
      if config.hardThreshold.Some? && config.hardThreshold.value != 0 then config.hardThreshold
      else config.contextWindow
    }

    function Input(ms: seq<Message>): nat { Estimate(prefix) + Estimate(ms) + extra }

    function Total(ms: seq<Message>): int { Input(ms) + config.maxOutput }

    predicate Fits(ms: seq<Message>) { Limit().Some? && Total(ms) <= Limit().value }

    predicate Needed(ms: seq<Message>) {
      Limit().Some? &&
      (Total(ms) > Limit().value || (config.softThreshold.Some? && Input(ms) > config.softThreshold.value))
    }

    /** What the dynamic history may take, at least one token. */
    function Available(): int
      requires Limit().Some?
    {
      Max(1, Limit().value - config.maxOutput - Estimate(prefix) - extra)
    }
  }

  /** The last user message. */
  function LatestHuman(ms: seq<Message>): (m: Option<Message>)
    ensures m.Some? ==> m.value.Human? && m.value in ms
    ensures m.None? ==> forall i :: 0 <= i < |ms| ==> !ms[i].Human?
  {
    if ms == [] then None
    else if ms[|ms| - 1].Human? then Some(ms[|ms| - 1])
    else LatestHuman(ms[..|ms| - 1])
  }

  /** The block contains the object that is the latest user message. */
  predicate Pins(block: seq<Message>, latest: Option<Message>) {
    latest.Some? && exists i :: 0 <= i < |block| && block[i].oid == latest.value.oid
  }

  function Pinned(blocks: Blocks, latest: Option<Message>): (pinned: Blocks)
    ensures |pinned| <= |blocks| && forall i :: 0 <= i < |pinned| ==> Pins(pinned[i], latest) && pinned[i] in blocks
  {
    if blocks == [] then []
    else
      var n := |blocks| - 1;
      Pinned(blocks[..n], latest) + if Pins(blocks[n], latest) then [blocks[n]] else []
  }

  /** The tokens of the blocks from block i on. */
  function TokensFrom(blocks: Blocks, i: nat): nat
    requires i <= |blocks|
  {
    Estimate(Flatten(blocks[i..]))
  }

  /** The longest suffix of blocks, no more than `most` of them, whose tokens stay within the budget, looked for
      from block i backwards. */
  function RecentFrom(blocks: Blocks, i: nat, budget: int, most: int): (k: nat)
    requires i <= |blocks| && TokensFrom(blocks, i) <= budget
    ensures k <= i && TokensFrom(blocks, k) <= budget
    ensures k < i ==> |blocks| - k <= most
    ensures k == 0 || |blocks| - k >= most || TokensFrom(blocks, k - 1) > budget
  {
    if i == 0 || |blocks| - i >= most || TokensFrom(blocks, i - 1) > budget then i
    else RecentFrom(blocks, i - 1, budget, most)
  }

  function RecentStart(blocks: Blocks, budget: int, most: int): (k: nat)
    requires budget >= 0
    ensures k <= |blocks|
  {
    assert blocks[|blocks|..] == [];
    RecentFrom(blocks, |blocks|, budget, most)
  }

  /** The blocks compaction starts from: recent ones, and the latest user message in front if it is not there. */
  function RecentBlocks(dynamic: seq<Message>, r: Request): Blocks
    requires r.Limit().Some?
  {
    var blocks := HistoryBlocks(dynamic);
    var keep := blocks[RecentStart(blocks, r.Available(), r.config.keepRecentMessages)..];
    var latest := LatestHuman(dynamic);
    if latest.Some? && Pinned(keep, latest) == [] then [[latest.value]] + keep else keep
  }

  /** The blocks left when those among the first k that do not hold the latest user message are gone. */
  function Held(keep: Blocks, k: nat, latest: Option<Message>): (held: Blocks)
    requires k <= |keep|
    ensures |held| >= |keep| - k
  {
    Pinned(keep[..k], latest) + keep[k..]
  }

  // ----- truncation ---------------------------------------------------------------------------------------------

  function Front(text: string, n: nat): string { if n <= |text| then text[..n] else text }

  function Back(text: string, n: nat): string { if n <= |text| then text[|text| - n..] else text }

  /** `_truncate_text`. */
  function TruncateText(text: string, budget: int): string {
    if budget <= 0 then "[content omitted]"
    else if Approx(text) <= budget then text
    else
      var width := Max(24, budget * 4);
      var head := Max(8, width / 2);
      var tail := Max(8, width - head - 32);
      Front(text, head) + "\n[content compacted]\n" + Back(text, tail)
  }

  /** Every occurrence of the latest user message shows a shortened text. */
  function Shortened(ms: seq<Message>, latest: Option<Message>, budget: int): (r: seq<Message>)
    ensures |r| == |ms|
  {
    seq(|ms|, i requires 0 <= i < |ms| =>
      if latest.Some? && ms[i].oid == latest.value.oid then WithContent(ms[i], TruncateText(ms[i].content, budget))
      else ms[i])
  }

  function ShortenedBlocks(blocks: Blocks, latest: Option<Message>, budget: int): (r: Blocks)
    ensures |r| == |blocks|
  {
    seq(|blocks|, i requires 0 <= i < |blocks| => Shortened(blocks[i], latest, budget))
  }

  // ----- the order of preference ----------------------------------------------------------------------------------

  /** A new user message; nothing asks for its identity. */
  function Summary(text: string): Message { Human(-1, "", text) }

  function SummaryBudget(r: Request): int
    requires r.Limit().Some?
  {
    Max(1, Min(r.config.summaryMax, r.Available() / 3))
  }

  const SHORT_SUMMARY := "[older context compacted]"

  /** What compaction would send, best first: the summary with fewer and fewer blocks; then with a shorter summary,
      with a shorter latest user message, with a one-line summary, and with none. */
  function Preference(dynamic: seq<Message>, summary: string, r: Request, n: nat): seq<Message>
    requires r.Limit().Some? && n < |RecentBlocks(dynamic, r)| + 5
  {
    var keep, latest := RecentBlocks(dynamic, r), LatestHuman(dynamic);
    if n <= |keep| then [Summary(summary)] + Flatten(Held(keep, n, latest))
    else
      var pinned := Held(keep, |keep|, latest);
      var shortened := ShortenedBlocks(pinned, latest, Max(1, r.Available() - SummaryBudget(r) - 8));
      var shorter := Summary(TruncateText(summary, SummaryBudget(r)));
      if n == |keep| + 1 then [shorter] + Flatten(pinned)
      else if n == |keep| + 2 then [shorter] + Flatten(shortened)
      else if n == |keep| + 3 then [Summary(SHORT_SUMMARY)] + Flatten(shortened)
      else Flatten(shortened)
  }

  /** The last block is a tool block that alone exceeds the budget. */
  predicate LastBlockTooLarge(dynamic: seq<Message>, r: Request)
    requires r.Limit().Some?
  {
    var blocks := HistoryBlocks(dynamic);
    && blocks != [] && blocks[|blocks| - 1] != [] && Calling(blocks[|blocks| - 1][0])
    && Estimate(blocks[|blocks| - 1]) > r.Available()
  }

  datatype Diagnostic = LatestToolBlockExceedsBudget | CannotFitCompleteBlock | HistoryCompacted | SummarizerFailed

  datatype Projection = Projection(
    messages: seq<Message>, compacted: bool, input: int, total: int, summary: Option<string>,
                           diagnostics: seq<Diagnostic>)

  function Unchanged(dynamic: seq<Message>, r: Request, diagnostics: seq<Diagnostic>): Projection {
    Projection(dynamic, false, r.Input(dynamic), r.Total(dynamic), None, diagnostics)
  }

  // ----- _compact_with_summary --------------------------------------------------------------------------------------

  lemma {:induction false} EstimateFront(block: seq<Message>, blocks: Blocks)
    ensures Flatten([block] + blocks) == block + Flatten(blocks)
    ensures Estimate(Flatten([block] + blocks)) == Estimate(block) + Estimate(Flatten(blocks))
  {
    assert ([block] + blocks)[1..] == blocks;
    EstimateConcat(block, Flatten(blocks));
  }

  lemma {:induction false} RecentStep(blocks: Blocks, i: nat, budget: int, most: int)
    requires 0 < i <= |blocks| && TokensFrom(blocks, i) <= budget && |blocks| - i < most
    ensures blocks[i - 1..] == [blocks[i - 1]] + blocks[i..]
    ensures TokensFrom(blocks, i - 1) == Estimate(blocks[i - 1]) + TokensFrom(blocks, i)
    ensures RecentFrom(blocks, i, budget, most) ==
            if TokensFrom(blocks, i - 1) > budget then i else RecentFrom(blocks, i - 1, budget, most)
  {
    hide Estimate, Flatten;
    assert blocks[i - 1..] == [blocks[i - 1]] + blocks[i..];
    EstimateFront(blocks[i - 1], blocks[i..]);
  }

  lemma {:induction false} RecentStop(blocks: Blocks, i: nat, budget: int, most: int)
    requires i <= |blocks| && TokensFrom(blocks, i) <= budget && (i == 0 || |blocks| - i >= most)
    ensures RecentFrom(blocks, i, budget, most) == i
  {
  }

  /** The loop over the blocks from the newest, until the budget or the number of blocks is reached. */
  method KeepRecent(blocks: Blocks, budget: int, most: int) returns (keep: Blocks)
    requires budget >= 0 && most > 0
    ensures keep == blocks[RecentStart(blocks, budget, most)..]
  {
    keep := [];
    var used, i := 0, |blocks|;
    assert blocks[i..] == [] && TokensFrom(blocks, i) == 0;
    assert RecentStart(blocks, budget, most) == RecentFrom(blocks, i, budget, most);
    hide *;
    while i > 0
      invariant 0 <= i <= |blocks| && keep == blocks[i..] && used == TokensFrom(blocks, i) <= budget
      invariant |keep| < most
      invariant RecentStart(blocks, budget, most) == RecentFrom(blocks, i, budget, most)
    {
      RecentStep(blocks, i, budget, most);
      var tokens := Estimate(blocks[i - 1]);
      if used + tokens > budget {
        return;
      }
      keep, used, i := [blocks[i - 1]] + keep, used + tokens, i - 1;
      if |keep| >= most {
        RecentStop(blocks, i, budget, most);
        return;
      }
    }
    RecentStop(blocks, i, budget, most);
  }

  lemma {:induction false} PinnedConcat(a: Blocks, b: Blocks, latest: Option<Message>)
    ensures Pinned(a + b, latest) == Pinned(a, latest) + Pinned(b, latest)
  {
    hide Pins;
    if b == [] {
      assert a + b == a;
    } else {
      var n := |b| - 1;
      assert (a + b)[..|a| + n] == a + b[..n] && (a + b)[|a| + n] == b[n];
      PinnedConcat(a, b[..n], latest);
    }
  }

  lemma {:induction false} AllPinned(a: Blocks, latest: Option<Message>)
    requires forall i :: 0 <= i < |a| ==> Pins(a[i], latest)
    ensures Pinned(a, latest) == a
  {
    if a != [] {
      AllPinned(a[..|a| - 1], latest);
      assert a[..|a| - 1] + [a[|a| - 1]] == a;
    }
  }

  /** Going past blocks that are pinned changes nothing. */
  lemma {:induction false} HeldSame(keep: Blocks, k: nat, m: nat, latest: Option<Message>)
    requires k <= m <= |keep| && forall i :: k <= i < m ==> Pins(keep[i], latest)
    ensures Held(keep, m, latest) == Held(keep, k, latest)
  {
    hide Pins, Pinned;
    assert keep[..m] == keep[..k] + keep[k..m];
    PinnedConcat(keep[..k], keep[k..m], latest);
    AllPinned(keep[k..m], latest);
    assert keep[k..] == keep[k..m] + keep[m..];
  }

  lemma {:induction false} HeldAll(keep: Blocks, latest: Option<Message>)
    ensures Held(keep, 0, latest) == keep
  {
  }

  lemma {:induction false} RemoveHeld(all: Blocks, j: nat, latest: Option<Message>)
    requires j < |all| && !Pins(all[j], latest)
    ensures var p := |Pinned(all[..j], latest)|;
            p < |Held(all, j, latest)| && Remove(Held(all, j, latest), p) == Held(all, j + 1, latest)
  {
    hide Pins;
    var held, pinned := Held(all, j, latest), Pinned(all[..j], latest);
    assert all[..j + 1][..j] == all[..j];
    assert held[..|pinned|] == pinned && held[|pinned| + 1..] == all[j + 1..];
  }

  /** Of the blocks held from k on, the first that is not pinned is block j of the list, and taking it out leaves
      the blocks held from j + 1 on. */
  lemma {:induction false} NextRemovable(all: Blocks, k: nat, latest: Option<Message>, removable: nat) returns (j: nat)
    requires k <= |all| && removable <= |Held(all, k, latest)|
    requires removable < |Held(all, k, latest)| ==> !Pins(Held(all, k, latest)[removable], latest)
    requires forall i :: 0 <= i < removable ==> Pins(Held(all, k, latest)[i], latest)
    ensures k <= j <= |all| && forall m :: k <= m <= j ==> Held(all, m, latest) == Held(all, k, latest)
    ensures removable == |Held(all, k, latest)| <==> j == |all|
    ensures j < |all| ==> Remove(Held(all, k, latest), removable) == Held(all, j + 1, latest)
  {
    hide Pins, Pinned, Remove;
    var held, p := Held(all, k, latest), |Pinned(all[..k], latest)|;
    j := k + removable - p;
    forall i | k <= i < j
      ensures Pins(all[i], latest)
    {
      assert held[i - k + p] == all[i];
    }
    forall m | k <= m <= j
      ensures Held(all, m, latest) == held
    {
      HeldSame(all, k, m, latest);
    }
    if j < |all| {
      assert held[removable] == all[j];
      RemoveHeld(all, j, latest);
    }
  }

  /** The first block that does not hold the latest user message, or the number of blocks. */
  method FirstRemovable(keep: Blocks, latest: Option<Message>) returns (index: nat)
    ensures index <= |keep| && (index < |keep| ==> !Pins(keep[index], latest))
    ensures forall i :: 0 <= i < index ==> Pins(keep[i], latest)
  {
    index := 0;
    while index < |keep| && Pins(keep[index], latest)
      invariant index <= |keep| && forall i :: 0 <= i < index ==> Pins(keep[i], latest)
    {
      index := index + 1;
    }
  }

  predicate FitsHeld(all: Blocks, k: nat, summary: string, latest: Option<Message>, r: Request)
    requires k <= |all|
  {
    r.Fits([Summary(summary)] + Flatten(Held(all, k, latest)))
  }

  /** Whole blocks go, the oldest first, until the candidate fits or only the latest user message is left. */
  method DropBlocks(all: Blocks, summary: string, latest: Option<Message>, r: Request)
    returns (keep: Blocks, candidate: seq<Message>, ghost k: nat)
    ensures k <= |all| && keep == Held(all, k, latest) && candidate == [Summary(summary)] + Flatten(keep)
    ensures forall m :: 0 <= m < k ==> !FitsHeld(all, m, summary, latest, r)
    ensures r.Fits(candidate) || k == |all|
  {
    hide Pins, Flatten, Pinned, Held, Request.Fits;
    keep, k := all, 0;
    HeldAll(all, latest);
    candidate := [Summary(summary)] + Flatten(keep);
    while !r.Fits(candidate) && keep != []
      invariant k <= |all| && keep == Held(all, k, latest) && candidate == [Summary(summary)] + Flatten(keep)
      invariant forall m :: 0 <= m < k ==> !FitsHeld(all, m, summary, latest, r)
      decreases |keep|
    {
      var removable := FirstRemovable(keep, latest);
      ghost var j := NextRemovable(all, k, latest, removable);
      assert forall m :: k <= m <= j ==> !FitsHeld(all, m, summary, latest, r);
      if removable == |keep| {
        k := |all|;
        break;
      }
      keep := Remove(keep, removable);
      k := j + 1;
      candidate := [Summary(summary)] + Flatten(keep);
    }
  }

  method ShortenBlocks(blocks: Blocks, latest: Option<Message>, budget: int) returns (shortened: Blocks)
    ensures shortened == ShortenedBlocks(blocks, latest, budget)
  {
    shortened := [];
    for i := 0 to |blocks|
      invariant |shortened| == i
      invariant forall k :: 0 <= k < i ==> shortened[k] == ShortenedBlocks(blocks, latest, budget)[k]
    {
      shortened := shortened + [Shortened(blocks[i], latest, budget)];
    }
  }

  function Compacted(candidate: seq<Message>, r: Request): Projection {
    Projection(candidate, true, r.Input(candidate), r.Total(candidate),
           if candidate != [] && candidate[0].Human? then Some(candidate[0].content) else None, [HistoryCompacted])
  }

  /** The n-th preference fits and no better one does. */
  predicate BestFit(dynamic: seq<Message>, summary: string, r: Request, n: nat)
    requires r.Limit().Some?
  {
    && n < |RecentBlocks(dynamic, r)| + 5 && r.Fits(Preference(dynamic, summary, r, n))
    && forall m :: 0 <= m < n ==> !r.Fits(Preference(dynamic, summary, r, m))
  }

  /** The blocks compaction starts from. */
  method Select(dynamic: seq<Message>, blocks: Blocks, latest: Option<Message>, r: Request) returns (keep: Blocks)
    requires r.Limit().Some? && r.config.Valid() && blocks == HistoryBlocks(dynamic) && latest == LatestHuman(dynamic)
    ensures keep == RecentBlocks(dynamic, r)
  {
    keep := KeepRecent(blocks, r.Available(), r.config.keepRecentMessages);
    if latest.Some? && Pinned(keep, latest) == [] {
      keep := [[latest.value]] + keep;
    }
  }

  lemma {:induction false} HeldPreferences(dynamic: seq<Message>, summary: string, r: Request, k: nat)
    requires r.Limit().Some? && k <= |RecentBlocks(dynamic, r)|
    requires forall m :: 0 <= m < k ==> !FitsHeld(RecentBlocks(dynamic, r), m, summary, LatestHuman(dynamic), r)
    ensures forall m :: 0 <= m < k ==> !r.Fits(Preference(dynamic, summary, r, m))
    ensures Preference(dynamic, summary, r, k) ==
            [Summary(summary)] + Flatten(Held(RecentBlocks(dynamic, r), k, LatestHuman(dynamic)))
  {
    hide RecentBlocks, Held, LatestHuman, Request.Fits, Flatten;
    forall m | 0 <= m < k
      ensures !r.Fits(Preference(dynamic, summary, r, m))
    {
      assert !FitsHeld(RecentBlocks(dynamic, r), m, summary, LatestHuman(dynamic), r);
    }
  }

  /** The candidate is the n-th preference, one with shortened texts, and no better one of those fits; it fits
      itself unless it is the last. */
  predicate FirstShortened(candidate: seq<Message>, dynamic: seq<Message>, summary: string, r: Request, n: nat)
    requires r.Limit().Some?
  {
    var k := |RecentBlocks(dynamic, r)|;
    && k < n <= k + 4 && candidate == Preference(dynamic, summary, r, n)
    && (forall m :: k < m < n ==> !r.Fits(Preference(dynamic, summary, r, m)))
    && (n < k + 4 ==> r.Fits(candidate))
  }

  /** When no whole number of blocks fits: shorter texts, in the order of preference. */
  method Shorten(dynamic: seq<Message>, summary: string, latest: Option<Message>, pinned: Blocks, r: Request)
    returns (candidate: seq<Message>)
    requires r.Limit().Some? && latest == LatestHuman(dynamic)
    requires pinned == Held(RecentBlocks(dynamic, r), |RecentBlocks(dynamic, r)|, latest)
    ensures exists n :: FirstShortened(candidate, dynamic, summary, r, n)
  {
    hide RecentBlocks, Held, LatestHuman, Request.Fits, Flatten, TruncateText, ShortenedBlocks;
    var budget := SummaryBudget(r);
    var shorter := Summary(TruncateText(summary, budget));
    var k := |RecentBlocks(dynamic, r)|;
    candidate := [shorter] + Flatten(pinned);
    assert r.Fits(candidate) ==> FirstShortened(candidate, dynamic, summary, r, k + 1);
    if r.Fits(candidate) {
      return;
    }
    var keep := ShortenBlocks(pinned, latest, Max(1, r.Available() - budget - 8));
    candidate := [shorter] + Flatten(keep);
    assert r.Fits(candidate) ==> FirstShortened(candidate, dynamic, summary, r, k + 2);
    if r.Fits(candidate) {
      return;
    }
    candidate := [Summary(SHORT_SUMMARY)] + Flatten(keep);
    assert r.Fits(candidate) ==> FirstShortened(candidate, dynamic, summary, r, k + 3);
    if !r.Fits(candidate) {
      candidate := Flatten(keep);
      assert FirstShortened(candidate, dynamic, summary, r, k + 4);
    }
  }

  /** What compacting with a given summary comes to: the history as it is, or the best preference that fits. */
  ghost predicate CompactionOf(result: Projection, dynamic: seq<Message>, summary: string, r: Request) {
    if !r.Needed(dynamic) then result == Unchanged(dynamic, r, [])
    else if LastBlockTooLarge(dynamic, r) then result == Unchanged(dynamic, r, [LatestToolBlockExceedsBudget])
    else if result.compacted then
      exists n :: BestFit(dynamic, summary, r, n) && result == Compacted(Preference(dynamic, summary, r, n), r)
    else
      && result == Unchanged(dynamic, r, [CannotFitCompleteBlock])
      && forall m :: 0 <= m < |RecentBlocks(dynamic, r)| + 5 ==> !r.Fits(Preference(dynamic, summary, r, m))
  }

  /** `_compact_with_summary`. */
  method CompactWithSummary(dynamic: seq<Message>, summary: string, r: Request) returns (result: Projection)
    requires r.config.Valid()
    ensures CompactionOf(result, dynamic, summary, r)
  {
    hide Preference, RecentBlocks, Held, Estimate, Flatten, Request.Fits, LatestHuman, HistoryBlocks, Request.Available;
    if !r.Needed(dynamic) {
      return Unchanged(dynamic, r, []);
    }
    var blocks := CutBlocks(dynamic);
    if blocks != [] && blocks[|blocks| - 1] != [] && Calling(blocks[|blocks| - 1][0])
       && Estimate(blocks[|blocks| - 1]) > r.Available() {
      return Unchanged(dynamic, r, [LatestToolBlockExceedsBudget]);
    }
    var latest := LatestHuman(dynamic);
    var all := Select(dynamic, blocks, latest, r);
    var keep, candidate;
    ghost var n;
    keep, candidate, n := DropBlocks(all, summary, latest, r);
    HeldPreferences(dynamic, summary, r, n);
    if !r.Fits(candidate) {
      candidate := Shorten(dynamic, summary, latest, keep, r);
      n :| FirstShortened(candidate, dynamic, summary, r, n);
      if !r.Fits(candidate) {
        return Unchanged(dynamic, r, [CannotFitCompleteBlock]);
      }
    }
    assert BestFit(dynamic, summary, r, n);
    result := Compacted(candidate, r);
  }

  // ----- compact and acompact --------------------------------------------------------------------------------------

  /** The summarizer callback as one call sees it. */
  datatype Summarizer = Heuristic | Returns(text: string) | Awaits(text: string) | Fails

  /** `compact`: no result when the callback raises or would have to be awaited. `local` is the deterministic
      summary. */
  method Compact(dynamic: seq<Message>, r: Request, summarizer: Summarizer, local: string)
    returns (result: Option<Projection>)
    requires r.config.Valid()
    ensures result.None? <==> r.Needed(dynamic) && (summarizer.Awaits? || summarizer.Fails?)
    ensures result.Some? ==>
              CompactionOf(result.value, dynamic, if summarizer.Returns? then summarizer.text else local, r)
  {
    if !r.Needed(dynamic) {
      return Some(Unchanged(dynamic, r, []));
    }
    var summary := local;
    match summarizer {
      case Heuristic =>
      case Returns(text) => summary := text;
      case _ => return None;
    }
    var compacted := CompactWithSummary(dynamic, summary, r);
    result := Some(compacted);
  }

  /** `acompact`: a callback that fails costs its summary, never the request. */
  method CompactAsync(dynamic: seq<Message>, r: Request, summarizer: Summarizer, local: string)
    returns (result: Projection)
    requires r.config.Valid()
    ensures var summary := if summarizer.Returns? || summarizer.Awaits? then summarizer.text else local;
            if r.Needed(dynamic) && summarizer.Fails? then
              exists plain :: CompactionOf(plain, dynamic, local, r) &&
                result == plain.(diagnostics := plain.diagnostics + [SummarizerFailed])
            else CompactionOf(result, dynamic, summary, r)
  {
    if !r.Needed(dynamic) {
      return Unchanged(dynamic, r, []);
    }
    match summarizer {
      case Fails =>
        var plain := CompactWithSummary(dynamic, local, r);
        result := plain.(diagnostics := plain.diagnostics + [SummarizerFailed]);
      case Heuristic =>
        result := CompactWithSummary(dynamic, local, r);
      case _ =>
        result := CompactWithSummary(dynamic, summarizer.text, r);
    }
  }
}
