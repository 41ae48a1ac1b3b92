/** How an outgoing request is prepared: repair, hygiene, compaction (cache_first/wrapper.py 231-289). */
module Pipeline {
  import opened Messages
  import opened History
  import opened RepairProofs
  import opened Tokens
  import opened Hygiene
  import opened Compaction
  import opened CompactionProofs

  /** The history starts with messages equivalent to the prefix. */
  ghost predicate StartsWith(messages: seq<Message>, prefix: seq<Message>, same: (Message, Message) -> bool) {
    |prefix| <= |messages| && forall i :: 0 <= i < |prefix| ==> same(messages[i], prefix[i])
  }

  /** `_without_duplicate_prefix`. */
  method WithoutDuplicatePrefix(messages: seq<Message>, prefix: seq<Message>, same: (Message, Message) -> bool)
    returns (dynamic: seq<Message>)
    ensures dynamic == if StartsWith(messages, prefix, same) then messages[|prefix|..] else messages
  {
    if |messages| < |prefix| {
      return messages;
    }
    for i := 0 to |prefix|
      invariant forall k :: 0 <= k < i ==> same(messages[k], prefix[k])
    {
      if !same(messages[i], prefix[i]) {
        return messages;
      }
    }
    dynamic := messages[|prefix|..];
  }

  /** Hygiene of a repaired history is hygiene of the history itself: the second repair finds nothing. */
  lemma {:induction false} HygieneAfterRepair(ms: seq<Message>, config: Config, b: Bounds)
    ensures Hygienic(Repair(ms).messages, config, b) == Hygienic(ms, config, b)
  {
    hide Repair, Bounded, Trim, Answered;
    RepairIsIdempotent(ms);
  }

  /** `_prepare`: whatever the history, what follows the prefix has each calling message followed immediately by
      exactly its results in call order and no other tool message, and the request is within the limit or the
      compaction says why not. */
  method Prepare(messages: seq<Message>, prefix: seq<Message>, extra: nat, config: Config, b: Bounds,
                 summarizer: Summarizer, local: string, same: (Message, Message) -> bool)
    returns (request: seq<Message>, repaired: Report, sent: Projection)
    requires config.Valid()
    ensures var dynamic := if StartsWith(messages, prefix, same) then messages[|prefix|..] else messages;
            var hygienic := Hygienic(dynamic, config, b);
            var r := Request(prefix, extra, config);
            && request == prefix + sent.messages
            && repaired.messages == Repair(dynamic).messages && repaired.dropped == |dynamic| - |repaired.messages|
            && Protocol(sent.messages)
            && (Protocol(prefix) ==> Protocol(request))
            && (!r.Needed(hygienic) ==> sent.messages == hygienic)
            && (r.Limit().Some? ==>
                  sent.total <= r.Limit().value || (sent.messages == hygienic && sent.diagnostics != []))
            && sent.total == r.Total(sent.messages)
  {
    hide Repair, Hygienic, Protocol, Preference, RecentBlocks, WellFormed, Estimate, LastBlockTooLarge, BestFit;
    var dynamic := WithoutDuplicatePrefix(messages, prefix, same);
    repaired := RepairModelHistory(dynamic);
    DroppedAreCounted(dynamic);
    var hygienic := ApplyHygiene(repaired.messages, config, b);
    HygieneAfterRepair(dynamic, config, b);
    HygieneKeepsProtocol(dynamic, config, b);
    var r := Request(prefix, extra, config);
    sent := CompactAsync(hygienic, r, summarizer, local);
    ghost var summary := if summarizer.Returns? || summarizer.Awaits? then summarizer.text else local;
    if r.Needed(hygienic) && summarizer.Fails? {
      ghost var plain :| CompactionOf(plain, hygienic, local, r) &&
        sent == plain.(diagnostics := plain.diagnostics + [SummarizerFailed]);
      CompactionIsSafe(plain, hygienic, local, r);
    } else {
      CompactionIsSafe(sent, hygienic, summary, r);
    }
    request := prefix + sent.messages;
    ProtocolIsWellFormed(sent.messages);
    ProtocolIsWellFormed(prefix);
    ProtocolIsWellFormed(request);
    if Protocol(prefix) {
      WellFormedConcat(prefix, sent.messages);
    }
  }
}
