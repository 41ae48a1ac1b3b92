/** What compaction promises: the bound, the shape, whole tool blocks, the latest request (compaction.py 225-388). */
module CompactionProofs {
  import opened Prelude
  import opened Messages
  import opened History
  import opened Tokens
  import opened Compaction

  // ----- the bound ----------------------------------------------------------------------------------------

  /** With a limit configured, either the estimated total is within it or the history is sent as it is with a
      diagnostic; the reported totals are those of what is sent. */
  lemma {:induction false} WithinLimitOrReported(result: Projection, dynamic: seq<Message>, summary: string, r: Request)
    requires CompactionOf(result, dynamic, summary, r) && r.Limit().Some?
    ensures result.total <= r.Limit().value ||
            (result.messages == dynamic && !result.compacted && result.diagnostics != [])
    ensures result.total == r.Total(result.messages) && result.input == r.Input(result.messages)
    ensures result.compacted ==> result.total <= r.Limit().value && r.Needed(dynamic)
  {
    hide Preference, RecentBlocks, Estimate;
  }

  // ----- blocks keep the protocol ----------------------------------------------------------------------------

  lemma {:induction false} WellFormedConcat(a: seq<Message>, b: seq<Message>)
    requires WellFormed(a) && WellFormed(b)
    ensures WellFormed(a + b)
  {
    hide Callable;
    if a == [] {
      assert a + b == b;
    } else {
      var n := if Calling(a[0]) then |a[0].calls| + 1 else 1;
      assert (a + b)[n..] == a[n..] + b;
      assert (a + b)[1..n] == a[1..n];
      WellFormedConcat(a[n..], b);
    }
  }

  predicate GoodBlocks(blocks: Blocks) {
    forall i :: 0 <= i < |blocks| ==> WellFormed(blocks[i])
  }

  lemma {:induction false} GoodFlatten(blocks: Blocks)
    requires GoodBlocks(blocks)
    ensures WellFormed(Flatten(blocks))
  {
    hide WellFormed;
    if blocks == [] {
      NothingIsWellFormed();
    } else {
      GoodFlatten(blocks[1..]);
      WellFormedConcat(blocks[0], Flatten(blocks[1..]));
    }
  }

  lemma {:induction false} NothingIsWellFormed()
    ensures WellFormed([])
  {
  }

  /** The blocks of a well-formed history are well-formed: no tool block is cut. */
  lemma {:induction false} BlocksAreGood(ms: seq<Message>)
    requires WellFormed(ms)
    ensures GoodBlocks(HistoryBlocks(ms))
  {
    hide Callable;
    if ms != [] {
      var n := if Calling(ms[0]) then |ms[0].calls| + 1 else 1;
      if Calling(ms[0]) {
        assert ms[1..][..n - 1] == ms[1..n];
        assert n < |ms| ==> ms[n..][0] == ms[1..][n - 1];
        RunIs(ms[1..], n - 1);
        assert ms[..n][1..n] == ms[1..n] && ms[..n][n..] == [];
      } else {
        assert ms[..1][1..] == [];
      }
      assert WellFormed(ms[..n]);
      BlocksAreGood(ms[n..]);
      assert HistoryBlocks(ms) == [ms[..n]] + HistoryBlocks(ms[n..]);
    }
  }

  lemma {:induction false} SameCallsExpected(a: Message, b: Message)
    requires a.AI? && b.AI? && a.calls == b.calls && Callable(a)
    ensures Callable(b) && Expected(a) == Expected(b)
  {
  }

  lemma {:induction false} ShortenedIsGood(ms: seq<Message>, latest: Option<Message>, budget: int)
    requires WellFormed(ms)
    ensures WellFormed(Shortened(ms, latest, budget))
  {
    hide Callable, TruncateText;
    if ms != [] {
      var n := if Calling(ms[0]) then |ms[0].calls| + 1 else 1;
      var short := Shortened(ms, latest, budget);
      assert short[n..] == Shortened(ms[n..], latest, budget);
      ShortenedIsGood(ms[n..], latest, budget);
      if Calling(ms[0]) {
        assert Expected(short[0]) == Expected(ms[0]) && Callable(short[0]) by { SameCallsExpected(ms[0], short[0]); }
        assert forall i :: 0 <= i < n - 1 ==> ms[1..n][i] == ms[i + 1] && short[1..n][i] == short[i + 1];
      }
    }
  }

  lemma {:induction false} SummaryFront(text: string, rest: seq<Message>)
    requires WellFormed(rest)
    ensures WellFormed([Summary(text)] + rest)
  {
    assert ([Summary(text)] + rest)[1..] == rest;
  }

  /** The blocks compaction keeps: blocks of the history, or the latest user message alone. */
  lemma {:induction false} HeldBlocks(dynamic: seq<Message>, r: Request, k: nat)
    requires r.Limit().Some? && k <= |RecentBlocks(dynamic, r)|
    ensures var latest := LatestHuman(dynamic);
            forall b :: b in Held(RecentBlocks(dynamic, r), k, latest) ==>
              b in HistoryBlocks(dynamic) || (latest.Some? && b == [latest.value])
  {
    hide HistoryBlocks, LatestHuman, RecentStart, Pins;
  }

  /** Each preference satisfies the protocol when the history does. */
  lemma {:induction false} PreferenceIsWellFormed(dynamic: seq<Message>, summary: string, r: Request, n: nat)
    requires r.Limit().Some? && n < |RecentBlocks(dynamic, r)| + 5 && WellFormed(dynamic)
    ensures WellFormed(Preference(dynamic, summary, r, n))
  {
    hide WellFormed, HistoryBlocks, LatestHuman, RecentBlocks, Held, Flatten, TruncateText, SummaryBudget,
      Request.Available, Shortened;
    var keep, latest := RecentBlocks(dynamic, r), LatestHuman(dynamic);
    var held := Held(keep, if n <= |keep| then n else |keep|, latest);
    HeldBlocks(dynamic, r, if n <= |keep| then n else |keep|);
    BlocksAreGood(dynamic);
    forall i | 0 <= i < |held|
      ensures WellFormed(held[i])
    {
      assert held[i] in held;
      if held[i] in HistoryBlocks(dynamic) {
        var j :| 0 <= j < |HistoryBlocks(dynamic)| && HistoryBlocks(dynamic)[j] == held[i];
      } else {
        OneHuman(latest.value);
      }
    }
    GoodFlatten(held);
    if n <= |keep| {
      SummaryFront(summary, Flatten(held));
    } else {
      var budget := Max(1, r.Available() - SummaryBudget(r) - 8);
      var shortened := ShortenedBlocks(held, latest, budget);
      forall i | 0 <= i < |shortened|
        ensures WellFormed(shortened[i])
      {
        ShortenedIsGood(held[i], latest, budget);
      }
      GoodFlatten(shortened);
      var shorter := TruncateText(summary, SummaryBudget(r));
      SummaryFront(shorter, Flatten(held));
      SummaryFront(shorter, Flatten(shortened));
      SummaryFront(SHORT_SUMMARY, Flatten(shortened));
    }
  }

  lemma {:induction false} OneHuman(m: Message)
    requires m.Human?
    ensures WellFormed([m])
  {
    assert [m][1..] == [];
  }

  /** Compaction keeps the protocol and the limit, and leaves alone what needs no compaction. */
  lemma {:induction false} CompactionIsSafe(result: Projection, dynamic: seq<Message>, summary: string, r: Request)
    requires CompactionOf(result, dynamic, summary, r) && WellFormed(dynamic)
    ensures WellFormed(result.messages) && result.total == r.Total(result.messages)
    ensures !r.Needed(dynamic) ==> result == Unchanged(dynamic, r, [])
    ensures r.Limit().Some? ==>
              result.total <= r.Limit().value || (result.messages == dynamic && result.diagnostics != [])
  {
    hide Preference, RecentBlocks, WellFormed, Estimate;
    if result.compacted {
      var n :| BestFit(dynamic, summary, r, n) && result == Compacted(Preference(dynamic, summary, r, n), r);
      PreferenceIsWellFormed(dynamic, summary, r, n);
    }
    if r.Limit().Some? {
      WithinLimitOrReported(result, dynamic, summary, r);
    }
  }

  // ----- the shape of what is sent ----------------------------------------------------------------------------

  /** How often an object occurs in a history. */
  function Occurrences(ms: seq<Message>, oid: int): nat {
    if ms == [] then 0 else (if ms[0].oid == oid then 1 else 0) + Occurrences(ms[1..], oid)
  }

  /** At most one summary, then blocks that hold the latest user message, then a suffix of the blocks of the history;
      no more blocks hold that message than it has occurrences; it may show a shortened text, and nothing else is
      altered. */
  ghost predicate Shape(out: seq<Message>, dynamic: seq<Message>, lead: seq<Message>, pins: Blocks, k: nat,
                        budget: Option<int>) {
    var latest := LatestHuman(dynamic);
    var blocks := HistoryBlocks(dynamic);
    && |lead| <= 1 && (forall m :: m in lead ==> m.Human?)
    && k <= |blocks|
    && (forall b :: b in pins ==> Pins(b, latest) && (b in blocks || b == [latest.value]))
    && (latest.Some? ==> 1 <= |Pinned(pins + blocks[k..], latest)| <= Occurrences(dynamic, latest.value.oid))
    && out == lead + Flatten(if budget.None? then pins + blocks[k..]
                             else ShortenedBlocks(pins + blocks[k..], latest, budget.value))
  }

  /** Dropping blocks never drops one that holds the latest user message. */
  lemma {:induction false} HeldPins(keep: Blocks, n: nat, latest: Option<Message>)
    requires n <= |keep|
    ensures Pinned(Held(keep, n, latest), latest) == Pinned(keep, latest)
  {
    hide Pins;
    AllPinned(Pinned(keep[..n], latest), latest);
    PinnedConcat(Pinned(keep[..n], latest), keep[n..], latest);
    PinnedConcat(keep[..n], keep[n..], latest);
    assert keep == keep[..n] + keep[n..];
  }

  lemma {:induction false} PinsItself(m: Message)
    ensures Pins([m], Some(m))
  {
    assert [m][0].oid == m.oid;
  }

  lemma {:induction false} OccursIn(ms: seq<Message>, i: nat)
    requires i < |ms|
    ensures Occurrences(ms, ms[i].oid) >= 1
  {
    if i > 0 {
      OccursIn(ms[1..], i - 1);
    }
  }

  lemma {:induction false} OccurrencesConcat(a: seq<Message>, b: seq<Message>, oid: int)
    ensures Occurrences(a + b, oid) == Occurrences(a, oid) + Occurrences(b, oid)
  {
    if a == [] {
      assert a + b == b;
    } else {
      assert (a + b)[1..] == a[1..] + b;
      OccurrencesConcat(a[1..], b, oid);
    }
  }

  lemma {:induction false} PinnedOccurs(blocks: Blocks, latest: Option<Message>)
    requires latest.Some?
    ensures |Pinned(blocks, latest)| <= Occurrences(Flatten(blocks), latest.value.oid)
  {
    if blocks != [] {
      var block := blocks[0];
      PinnedOccurs(blocks[1..], latest);
      PinnedConcat([block], blocks[1..], latest);
      assert blocks == [block] + blocks[1..];
      OccurrencesConcat(block, Flatten(blocks[1..]), latest.value.oid);
      if Pins(block, latest) {
        var i :| 0 <= i < |block| && block[i].oid == latest.value.oid;
        OccursIn(block, i);
      }
      OnePinned(block, latest);
    }
  }

  lemma {:induction false} OnePinned(block: seq<Message>, latest: Option<Message>)
    ensures |Pinned([block], latest)| == if Pins(block, latest) then 1 else 0
  {
    assert [block][..0] == [];
  }

  /** The blocks compaction starts from: a suffix of the history's, with the latest user message in front when the
      suffix does not hold it. */
  lemma {:induction false} RecentIs(dynamic: seq<Message>, r: Request) returns (from: nat, added: Blocks)
    requires r.Limit().Some?
    ensures var latest := LatestHuman(dynamic);
            && from <= |HistoryBlocks(dynamic)| && RecentBlocks(dynamic, r) == added + HistoryBlocks(dynamic)[from..]
            && added == (if latest.Some? && Pinned(HistoryBlocks(dynamic)[from..], latest) == [] then [[latest.value]]
                         else [])
            && (forall b :: b in added ==> Pins(b, latest))
  {
    hide HistoryBlocks, RecentStart, LatestHuman, Pinned, Pins;
    var blocks, latest := HistoryBlocks(dynamic), LatestHuman(dynamic);
    from := RecentStart(blocks, r.Available(), r.config.keepRecentMessages);
    added := [];
    if latest.Some? && Pinned(blocks[from..], latest) == [] {
      added := [[latest.value]];
      PinsItself(latest.value);
    }
  }

  /** Compaction starts with a block that holds the latest user message, and with no more of them than it occurs. */
  lemma {:induction false} RecentPins(dynamic: seq<Message>, r: Request)
    requires r.Limit().Some? && LatestHuman(dynamic).Some?
    ensures var latest := LatestHuman(dynamic);
            1 <= |Pinned(RecentBlocks(dynamic, r), latest)| <= Occurrences(dynamic, latest.value.oid)
  {
    hide HistoryBlocks, RecentBlocks, Pins, Flatten, Pinned, Occurrences;
    var latest, blocks := LatestHuman(dynamic), HistoryBlocks(dynamic);
    var from, added := RecentIs(dynamic, r);
    assert blocks == blocks[..from] + blocks[from..];
    PinnedConcat(blocks[..from], blocks[from..], latest);
    PinnedOccurs(blocks, latest);
    BlocksFlatten(dynamic);
    var i :| 0 <= i < |dynamic| && dynamic[i] == latest.value;
    OccursIn(dynamic, i);
    PinsItself(latest.value);
    OnePinned([latest.value], latest);
    PinnedConcat(added, blocks[from..], latest);
    assert [] + blocks[from..] == blocks[from..];
  }

  /** The blocks held are pinned ones and a suffix of the history's blocks. */
  lemma {:induction false} HeldShape(dynamic: seq<Message>, r: Request, n: nat) returns (pins: Blocks, k: nat)
    requires r.Limit().Some? && n <= |RecentBlocks(dynamic, r)|
    ensures var latest := LatestHuman(dynamic);
            var blocks := HistoryBlocks(dynamic);
            && k <= |blocks| && Held(RecentBlocks(dynamic, r), n, latest) == pins + blocks[k..]
            && (forall b :: b in pins ==> Pins(b, latest) && (b in blocks || b == [latest.value]))
  {
    hide HistoryBlocks, RecentBlocks, Pins, Pinned, LatestHuman;
    var keep, latest, blocks := RecentBlocks(dynamic, r), LatestHuman(dynamic), HistoryBlocks(dynamic);
    var from, added := RecentIs(dynamic, r);
    if n == 0 && |added| == 1 {
      pins, k := Pinned(keep[..0], latest) + added, from;
    } else {
      pins, k := Pinned(keep[..n], latest), from + n - |added|;
    }
  }

  /** Each preference has the shape, whatever the history and the budget. */
  lemma {:induction false} PreferenceShape(dynamic: seq<Message>, summary: string, r: Request, n: nat)
    returns (lead: seq<Message>, pins: Blocks, k: nat, budget: Option<int>)
    requires r.Limit().Some? && n < |RecentBlocks(dynamic, r)| + 5
    ensures Shape(Preference(dynamic, summary, r, n), dynamic, lead, pins, k, budget)
  {
    hide HistoryBlocks, LatestHuman, RecentBlocks, Held, Flatten, TruncateText, ShortenedBlocks, SummaryBudget,
      Request.Available, Pins, Pinned, Occurrences;
    var keep, latest := RecentBlocks(dynamic, r), LatestHuman(dynamic);
    var m := if n <= |keep| then n else |keep|;
    pins, k := HeldShape(dynamic, r, m);
    HeldPins(keep, m, latest);
    if latest.Some? {
      RecentPins(dynamic, r);
    }
    budget := if n <= |keep| + 1 then None else Some(Max(1, r.Available() - SummaryBudget(r) - 8));
    lead := if n <= |keep| then [Summary(summary)]
            else if n <= |keep| + 2 then [Summary(TruncateText(summary, SummaryBudget(r)))]
            else if n == |keep| + 3 then [Summary(SHORT_SUMMARY)] else [];
  }

  // ----- the latest request ------------------------------------------------------------------------------------

  /** The identity of a user message stands for that message. */
  predicate Objects(ms: seq<Message>) {
    forall i, j :: 0 <= i < |ms| && 0 <= j < |ms| && ms[i].Human? && ms[i].oid == ms[j].oid ==> ms[i] == ms[j]
  }

  lemma {:induction false} InFlatten(blocks: Blocks, b: seq<Message>, m: Message)
    requires b in blocks && m in b
    ensures m in Flatten(blocks)
  {
    if b != blocks[0] {
      InFlatten(blocks[1..], b, m);
    }
  }

  lemma {:induction false} FirstPinned(blocks: Blocks, latest: Option<Message>) returns (i: nat)
    requires Pinned(blocks, latest) != []
    ensures i < |blocks| && Pins(blocks[i], latest)
  {
    hide Pins;
    if Pins(blocks[|blocks| - 1], latest) {
      i := |blocks| - 1;
    } else {
      i := FirstPinned(blocks[..|blocks| - 1], latest);
    }
  }

  /** What is sent always shows the latest user message, with its own text or a shortened one. */
  lemma {:induction false} LatestIsShown(out: seq<Message>, dynamic: seq<Message>, lead: seq<Message>,
        pins: Blocks, k: nat, budget: Option<int>)
    requires Shape(out, dynamic, lead, pins, k, budget) && Objects(dynamic) && LatestHuman(dynamic).Some?
    ensures var latest := LatestHuman(dynamic).value;
            (if budget.None? then latest else WithContent(latest, TruncateText(latest.content, budget.value))) in out
  {
    hide HistoryBlocks, LatestHuman, Flatten, TruncateText, Pinned, Occurrences;
    var latest := LatestHuman(dynamic);
    var all := pins + HistoryBlocks(dynamic)[k..];
    var i := FirstPinned(all, latest);
    var j :| 0 <= j < |all[i]| && all[i][j].oid == latest.value.oid;
    BlocksFlatten(dynamic);
    if all[i] in HistoryBlocks(dynamic) {
      InFlatten(HistoryBlocks(dynamic), all[i], all[i][j]);
    }
    assert all[i][j] == latest.value;
    if budget.None? {
      InFlatten(all, all[i], latest.value);
    } else {
      var shown := ShortenedBlocks(all, latest, budget.value);
      assert shown[i][j] == WithContent(latest.value, TruncateText(latest.value.content, budget.value));
      InFlatten(shown, shown[i], shown[i][j]);
    }
  }

  /** A compacted history is an optional summary, the block of the latest user message and a suffix of the blocks, and
      that message is always shown. */
  lemma {:induction false} CompactedShape(result: Projection, dynamic: seq<Message>, summary: string, r: Request)
    returns (lead: seq<Message>, pins: Blocks, k: nat, budget: Option<int>)
    requires CompactionOf(result, dynamic, summary, r) && result.compacted
    ensures Shape(result.messages, dynamic, lead, pins, k, budget)
  {
    hide Preference, RecentBlocks, Shape;
    var n :| BestFit(dynamic, summary, r, n) && result == Compacted(Preference(dynamic, summary, r, n), r);
    lead, pins, k, budget := PreferenceShape(dynamic, summary, r, n);
  }
}
