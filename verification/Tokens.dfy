/** Settings of the request projection and its token estimates (config.py, history.py 162-168, compaction.py 15-16). */
module Tokens {
  import opened Prelude
  import opened Messages

  datatype Config = Config(maxCumulative: nat, keepRecentResults: nat, contextWindow: Option<int>,
                           softThreshold: Option<int>, hardThreshold: Option<int>, maxOutput: int,
                           keepRecentMessages: int, summaryMax: int)
  {
    /** What the configuration accepts. */
    predicate Valid() {
      && maxOutput > 0 && keepRecentMessages > 0 && summaryMax > 0
      && (contextWindow.Some? ==> contextWindow.value > 0)
      && (softThreshold.Some? ==> softThreshold.value > 0)
      && (hardThreshold.Some? ==> hardThreshold.value > 0)
      && (softThreshold.Some? && hardThreshold.Some? ==> softThreshold.value <= hardThreshold.value)
    }
  }

  function Max(a: int, b: int): int { if a >= b then a else b }

  function Min(a: int, b: int): int { if a <= b then a else b }

  function NonAscii(text: string): (n: nat)
    ensures n <= |text|
  {
    if text == [] then 0 else NonAscii(text[..|text| - 1]) + if text[|text| - 1] as int > 127 then 1 else 0
  }

  /** Four ASCII characters to a token, other characters one each, and never less than one token. */
  function Approx(text: string): (n: nat)
    ensures n >= 1
  {
    Max(1, (|text| - NonAscii(text) + 3) / 4 + NonAscii(text))
  }

  function Estimate(ms: seq<Message>): nat {
    if ms == [] then 0 else Estimate(ms[..|ms| - 1]) + Approx(ms[|ms| - 1].content) + 4
  }

  lemma {:induction false} EstimateConcat(a: seq<Message>, b: seq<Message>)
    ensures Estimate(a + b) == Estimate(a) + Estimate(b)
  {
    if b == [] {
      assert a + b == a;
    } else {
      assert (a + b)[..|a + b| - 1] == a + b[..|b| - 1];
      EstimateConcat(a, b[..|b| - 1]);
    }
  }

  lemma {:induction false} AllAscii(text: string)
    requires forall i :: 0 <= i < |text| ==> text[i] as int <= 127
    ensures NonAscii(text) == 0 && Approx(text) == Max(1, (|text| + 3) / 4)
  {
    if text != [] {
      AllAscii(text[..|text| - 1]);
    }
  }
}
