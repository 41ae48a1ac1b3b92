/** The tool node runs read-only calls in overlapping batches (tools.py 232-274). */
module ToolNode {
  import opened Prelude
  import opened Messages

  /** What a tool produces, or where it stands between two steps. */
  datatype Progress = Running(local: Value) | Finished(result: Answer)

  datatype Answer = Reply(content: Value) | Command(command: Value)

  /** A tool takes steps that see and change the world; others may take steps in between. */
  datatype Tool = Tool(readOnly: bool, enter: ToolCall -> Value, step: (ToolCall, Value, Value) -> (Progress, Value))

  datatype Toolbox = Toolbox(tools: map<string, Tool>, unknown: ToolCall -> Value, batchSize: nat, concurrency: nat)
  {
    predicate Has(call: ToolCall) { call.ToolCall? && call.name in tools }

    predicate ReadOnly(call: ToolCall) { Has(call) && tools[call.name].readOnly }

    /** An unknown tool answers with an error at once. */
    function Start(call: ToolCall): Progress {
      if Has(call) then Running(tools[call.name].enter(call)) else Finished(Reply(unknown(call)))
    }

    function Step(call: ToolCall, progress: Progress, world: Value): (Progress, Value) {
      if progress.Running? && Has(call) then tools[call.name].step(call, progress.local, world) else (progress, world)
    }

    /** Read-only tools leave the world as they find it. */
    ghost predicate Honest() {
      batchSize > 0 && concurrency > 0 &&
      forall call, progress, world :: ReadOnly(call) ==> Step(call, progress, world).1 == world
    }
  }

  // ----- one call alone, and several overlapping -----------------------------------------------------------------

  function Alone(box: Toolbox, call: ToolCall, progress: Progress, world: Value, steps: nat): (Progress, Value)
    decreases steps
  {
    if steps == 0 then (progress, world)
    else
      var (next, world') := box.Step(call, progress, world);
      Alone(box, call, next, world', steps - 1)
  }

  /** A schedule names the call that takes the next step. */
  function Overlap(box: Toolbox, calls: seq<ToolCall>, states: seq<Progress>, world: Value, schedule: seq<nat>)
    : (r: (seq<Progress>, Value))
    requires |states| == |calls|
    ensures |r.0| == |calls|
    decreases |schedule|
  {
    if schedule == [] then (states, world)
    else if schedule[0] < |calls| then
      var i := schedule[0];
      var (next, world') := box.Step(calls[i], states[i], world);
      Overlap(box, calls, states[i := next], world', schedule[1..])
    else Overlap(box, calls, states, world, schedule[1..])
  }

  function Starts(box: Toolbox, calls: seq<ToolCall>): seq<Progress> {
    seq(|calls|, i requires 0 <= i < |calls| => box.Start(calls[i]))
  }

  /** A scheduler that runs whatever calls it is given to their end. */
  type Scheduler = (seq<ToolCall>, Value) -> seq<nat>

  predicate AllFinished(states: seq<Progress>) { forall i :: 0 <= i < |states| ==> states[i].Finished? }

  ghost predicate Fair(box: Toolbox, scheduler: Scheduler) {
    forall calls, world ::
      AllFinished(Overlap(box, calls, Starts(box, calls), world, scheduler(calls, world)).0)
  }

  function Answers(states: seq<Progress>): seq<Answer>
    requires AllFinished(states)
  {
    seq(|states|, i requires 0 <= i < |states| => states[i].result)
  }

  /** `gather` over a batch: every call runs to its end, their steps in any order. */
  function Gather(box: Toolbox, scheduler: Scheduler, calls: seq<ToolCall>, world: Value): (seq<Answer>, Value)
    requires Fair(box, scheduler)
  {
    var (states, world') := Overlap(box, calls, Starts(box, calls), world, scheduler(calls, world));
    (Answers(states), world')
  }

  /** One call at a time, in call order. */
  function Sequential(box: Toolbox, scheduler: Scheduler, calls: seq<ToolCall>, world: Value): (seq<Answer>, Value)
    requires Fair(box, scheduler)
    decreases |calls|
  {
    if calls == [] then ([], world)
    else
      var n := |calls| - 1;
      var (before, world') := Sequential(box, scheduler, calls[..n], world);
      var (last, world'') := Gather(box, scheduler, [calls[n]], world');
      (before + last, world'')
  }

  // ----- overlapping read-only calls -------------------------------------------------------------------------------

  lemma {:induction false} AloneMore(box: Toolbox, call: ToolCall, progress: Progress, world: Value, steps: nat)
    ensures Alone(box, call, progress, world, steps + 1) ==
            (var (p, w) := Alone(box, call, progress, world, steps); box.Step(call, p, w))
    decreases steps
  {
    if steps > 0 {
      var (next, world') := box.Step(call, progress, world);
      AloneMore(box, call, next, world', steps - 1);
    }
  }

  /** Once finished, further steps change nothing. */
  lemma {:induction false} FinishedStays(box: Toolbox, call: ToolCall, progress: Progress, world: Value, m: nat, n: nat)
    requires m <= n && Alone(box, call, progress, world, m).0.Finished?
    ensures Alone(box, call, progress, world, n) == Alone(box, call, progress, world, m)
  {
    if m < n {
      FinishedStays(box, call, progress, world, m, n - 1);
      AloneMore(box, call, progress, world, n - 1);
    }
  }

  /** How many steps a schedule gives to a call. */
  function Share(schedule: seq<nat>, i: nat): nat {
    if schedule == [] then 0 else (if schedule[0] == i then 1 else 0) + Share(schedule[1..], i)
  }

  predicate AllReadOnly(box: Toolbox, calls: seq<ToolCall>) {
    forall i :: 0 <= i < |calls| ==> box.ReadOnly(calls[i])
  }

  lemma {:induction false} ReadOnlyAlone(box: Toolbox, call: ToolCall, progress: Progress, world: Value, steps: nat)
    requires box.Honest() && box.ReadOnly(call)
    ensures Alone(box, call, progress, world, steps).1 == world
    decreases steps
  {
    if steps > 0 {
      var (next, world') := box.Step(call, progress, world);
      ReadOnlyAlone(box, call, next, world', steps - 1);
    }
  }

  /** Read-only calls that overlap do not notice each other. */
  lemma {:induction false} OverlapIsAlone(box: Toolbox, calls: seq<ToolCall>, states: seq<Progress>, world: Value,
                                          schedule: seq<nat>, i: nat)
    requires box.Honest() && AllReadOnly(box, calls) && |states| == |calls| && i < |calls|
    ensures Overlap(box, calls, states, world, schedule).1 == world
    ensures Overlap(box, calls, states, world, schedule).0[i] ==
            Alone(box, calls[i], states[i], world, Share(schedule, i)).0
    decreases |schedule|
  {
    if schedule != [] {
      if schedule[0] < |calls| {
        var j := schedule[0];
        var (next, world') := box.Step(calls[j], states[j], world);
        assert world' == world;
        OverlapIsAlone(box, calls, states[j := next], world, schedule[1..], i);
      } else {
        OverlapIsAlone(box, calls, states, world, schedule[1..], i);
      }
    }
  }

  /** A batch of read-only calls gives each call the answer it gives alone, and leaves the world as it is. */
  lemma {:induction false} GatherIsAlone(box: Toolbox, scheduler: Scheduler, calls: seq<ToolCall>, world: Value, i: nat)
    requires box.Honest() && Fair(box, scheduler) && AllReadOnly(box, calls) && i < |calls|
    ensures Gather(box, scheduler, calls, world).1 == world
    ensures Gather(box, scheduler, [calls[i]], world) == ([Gather(box, scheduler, calls, world).0[i]], world)
  {
    hide Toolbox.Honest, Toolbox.ReadOnly, Alone, Overlap, Share, Toolbox.Start;
    var call, schedule, lone := calls[i], scheduler(calls, world), scheduler([calls[i]], world);
    var start := box.Start(call);
    OverlapIsAlone(box, calls, Starts(box, calls), world, schedule, i);
    OverlapIsAlone(box, [call], Starts(box, [call]), world, lone, 0);
    var m, n := Share(schedule, i), Share(lone, 0);
    assert Alone(box, call, start, world, m).0.Finished? && Alone(box, call, start, world, n).0.Finished?;
    FinishedStays(box, call, start, world, if m <= n then m else n, if m <= n then n else m);
    assert Alone(box, call, start, world, m).0 == Alone(box, call, start, world, n).0;
    assert Gather(box, scheduler, [call], world).0 == [Gather(box, scheduler, calls, world).0[i]];
  }

  /** A batch of read-only calls is the same calls one at a time. */
  lemma {:induction false} BatchIsSequential(box: Toolbox, scheduler: Scheduler, calls: seq<ToolCall>, world: Value,
                                             start: nat, end: nat, k: nat)
    requires box.Honest() && Fair(box, scheduler) && start < end <= |calls| && k <= end - start
    requires AllReadOnly(box, calls[start..end])
    ensures var (before, w) := Sequential(box, scheduler, calls[..start], world);
            var (batch, w') := Gather(box, scheduler, calls[start..end], w);
            |batch| == end - start && w' == w &&
            Sequential(box, scheduler, calls[..start + k], world) == (before + batch[..k], w)
    decreases k
  {
    hide Toolbox.Honest, Fair, Gather, Toolbox.ReadOnly;
    var (before, w) := Sequential(box, scheduler, calls[..start], world);
    var batch := Gather(box, scheduler, calls[start..end], w).0;
    GatherSize(box, scheduler, calls[start..end], w);
    if k == 0 {
      GatherIsAlone(box, scheduler, calls[start..end], w, 0);
      assert before + batch[..0] == before;
    } else {
      BatchIsSequential(box, scheduler, calls, world, start, end, k - 1);
      GatherIsAlone(box, scheduler, calls[start..end], w, k - 1);
      assert calls[..start + k][..start + k - 1] == calls[..start + k - 1];
      assert before + batch[..k - 1] + [batch[k - 1]] == before + batch[..k];
    }
  }

  lemma {:induction false} GatherSize(box: Toolbox, scheduler: Scheduler, calls: seq<ToolCall>, world: Value)
    requires Fair(box, scheduler)
    ensures |Gather(box, scheduler, calls, world).0| == |calls|
  {
  }

  lemma {:induction false} OverlapOne(box: Toolbox, call: ToolCall, progress: Progress, world: Value,
        schedule: seq<nat>)
    ensures var (states, w) := Overlap(box, [call], [progress], world, schedule);
            (states[0], w) == Alone(box, call, progress, world, Share(schedule, 0))
    decreases |schedule|
  {
    if schedule != [] {
      if schedule[0] == 0 {
        var (next, world') := box.Step(call, progress, world);
        assert [progress][0 := next] == [next];
        OverlapOne(box, call, next, world', schedule[1..]);
      } else {
        OverlapOne(box, call, progress, world, schedule[1..]);
      }
    }
  }

  /** One at a time, the answers and the effect are the tools' own: no scheduler has a say. */
  lemma {:induction false} SequentialIsDeterminate(box: Toolbox, one: Scheduler, other: Scheduler,
        calls: seq<ToolCall>, world: Value)
    requires Fair(box, one) && Fair(box, other)
    ensures Sequential(box, one, calls, world) == Sequential(box, other, calls, world)
    decreases |calls|
  {
    hide Toolbox.Start, Toolbox.Step, Alone, Overlap, Share, Fair, Gather;
    if calls != [] {
      var n := |calls| - 1;
      SequentialIsDeterminate(box, one, other, calls[..n], world);
      LoneIsDeterminate(box, one, other, calls[n], Sequential(box, one, calls[..n], world).1);
    }
  }

  lemma {:induction false} LoneIsDeterminate(box: Toolbox, one: Scheduler, other: Scheduler, call: ToolCall,
        world: Value)
    requires Fair(box, one) && Fair(box, other)
    ensures Gather(box, one, [call], world) == Gather(box, other, [call], world)
  {
    hide Toolbox.Start, Toolbox.Step, Alone, Overlap, Share;
    var start := box.Start(call);
    assert Starts(box, [call]) == [start];
    OverlapOne(box, call, start, world, one([call], world));
    OverlapOne(box, call, start, world, other([call], world));
    var m, n := Share(one([call], world), 0), Share(other([call], world), 0);
    assert Alone(box, call, start, world, m).0.Finished? && Alone(box, call, start, world, n).0.Finished?;
    FinishedStays(box, call, start, world, if m <= n then m else n, if m <= n then n else m);
    assert Gather(box, one, [call], world).0 == Gather(box, other, [call], world).0;
  }

  // ----- the loop of the node ------------------------------------------------------------------------------------

  /** The calls that ran together, as ranges of positions. */
  type Groups = seq<(nat, nat)>

  /** The groups cover the calls from front to back, each call once; a group of several is read-only and no wider
      than allowed. */
  predicate Grouped(box: Toolbox, calls: seq<ToolCall>, groups: Groups, end: nat) {
    if groups == [] then end == 0
    else
      var (s, e) := groups[|groups| - 1];
      && s < e == end <= |calls| && Grouped(box, calls, groups[..|groups| - 1], s)
      && (e - s > 1 ==> AllReadOnly(box, calls[s..e]) && e - s <= box.batchSize && e - s <= box.concurrency)
  }

  predicate Filled(indexed: array<Option<Answer>>, count: nat, answers: seq<Answer>)
    requires count <= indexed.Length
    reads indexed
  {
    |answers| == count && (forall i :: 0 <= i < count ==> indexed[i] == Some(answers[i]))
  }

  lemma {:induction false} OneIsSequential(box: Toolbox, scheduler: Scheduler, calls: seq<ToolCall>, world: Value,
        start: nat)
    requires Fair(box, scheduler) && start < |calls|
    ensures var (before, w) := Sequential(box, scheduler, calls[..start], world);
            var (last, w') := Gather(box, scheduler, calls[start..start + 1], w);
            Sequential(box, scheduler, calls[..start + 1], world) == (before + last, w')
  {
    hide Fair, Gather;
    assert calls[..start + 1][..start] == calls[..start] && calls[start..start + 1] == [calls[start]];
  }

  /** The calls before a position have run: their answers are in place, and the world and the groups are theirs. */
  ghost predicate SoFar(box: Toolbox, scheduler: Scheduler, calls: seq<ToolCall>, first: Value,
                        indexed: array<Option<Answer>>, count: nat, world: Value, groups: Groups)
    requires Fair(box, scheduler)
    reads indexed
  {
    && count <= |calls| == indexed.Length && Grouped(box, calls, groups, count)
    && Filled(indexed, count, Sequential(box, scheduler, calls[..count], first).0)
    && world == Sequential(box, scheduler, calls[..count], first).1
  }

  /** One batch: the calls overlap, and their answers fill their places. */
  method RunBatch(box: Toolbox, scheduler: Scheduler, calls: seq<ToolCall>, ghost first: Value, ghost groups: Groups,
                  indexed: array<Option<Answer>>, start: nat, end: nat, world: Value)
    returns (world': Value, ghost groups': Groups)
    requires box.Honest() && Fair(box, scheduler) && start < end <= |calls|
    requires end == start + 1 ||
             (AllReadOnly(box, calls[start..end]) && end - start <= box.batchSize && end - start <= box.concurrency)
    requires SoFar(box, scheduler, calls, first, indexed, start, world, groups)
    modifies indexed
    ensures SoFar(box, scheduler, calls, first, indexed, end, world', groups')
  {
    hide Toolbox.Honest, Fair, Gather, Sequential, AllReadOnly;
    var (results, after) := Gather(box, scheduler, calls[start..end], world);
    world', groups' := after, groups + [(start, end)];
    assert groups'[..|groups|] == groups;
    GatherSize(box, scheduler, calls[start..end], world);
    ghost var before := Sequential(box, scheduler, calls[..start], first).0;
    if end == start + 1 {
      OneIsSequential(box, scheduler, calls, first, start);
    } else {
      BatchIsSequential(box, scheduler, calls, first, start, end, end - start);
      assert results[..end - start] == results;
    }
    assert Sequential(box, scheduler, calls[..end], first) == (before + results, after);
    for i := start to end
      invariant forall k :: 0 <= k < i ==> indexed[k] == Some((before + results)[k])
    {
      indexed[i] := Some(results[i - start]);
    }
  }

  /** The contiguous read-only calls from a position on, in batches. */
  method RunReadOnly(box: Toolbox, scheduler: Scheduler, calls: seq<ToolCall>, ghost first: Value, ghost groups: Groups,
                     indexed: array<Option<Answer>>, index: nat, world: Value)
    returns (end: nat, world': Value, ghost groups': Groups)
    requires box.Honest() && Fair(box, scheduler) && index < |calls| && box.ReadOnly(calls[index])
    requires SoFar(box, scheduler, calls, first, indexed, index, world, groups)
    modifies indexed
    ensures index < end <= |calls| && SoFar(box, scheduler, calls, first, indexed, end, world', groups')
  {
    var width := if box.batchSize <= box.concurrency then box.batchSize else box.concurrency;
    assert width > 0;
    hide SoFar, Toolbox.Honest, Fair, Toolbox.ReadOnly;
    end := index + 1;
    while end < |calls| && box.ReadOnly(calls[end])
      invariant index < end <= |calls| && forall k :: index <= k < end ==> box.ReadOnly(calls[k])
    {
      end := end + 1;
    }
    var start := index;
    world', groups' := world, groups;
    while start < end
      invariant index <= start <= end && SoFar(box, scheduler, calls, first, indexed, start, world', groups')
    {
      var batchEnd := if start + width <= end then start + width else end;
      world', groups' := RunBatch(box, scheduler, calls, first, groups', indexed, start, batchEnd, world');
      start := batchEnd;
    }
  }

  /** The node's loop over the calls of the last message: with honest read-only tools its answers and its effect are
      those of running the calls one at a time in call order. */
  method RunCalls(box: Toolbox, scheduler: Scheduler, calls: seq<ToolCall>, world: Value)
    returns (indexed: array<Option<Answer>>, world': Value, ghost groups: Groups)
    requires box.Honest() && Fair(box, scheduler)
    ensures fresh(indexed) && indexed.Length == |calls|
    ensures Filled(indexed, |calls|, Sequential(box, scheduler, calls, world).0)
    ensures world' == Sequential(box, scheduler, calls, world).1
    ensures Grouped(box, calls, groups, |calls|)
  {
    indexed := new Option<Answer>[|calls|](i => None);
    world', groups := world, [];
    var index := 0;
    assert calls[..0] == [] && calls[..|calls|] == calls;
    while index < |calls|
      invariant index <= |calls| && SoFar(box, scheduler, calls, world, indexed, index, world', groups)
    {
      hide SoFar, Toolbox.Honest, Fair, Toolbox.ReadOnly;
      if box.ReadOnly(calls[index]) {
        index, world', groups := RunReadOnly(box, scheduler, calls, world, groups, indexed, index, world');
      } else {
        world', groups := RunBatch(box, scheduler, calls, world, groups, indexed, index, index + 1, world');
        index := index + 1;
      }
    }
  }

  // ----- the node -------------------------------------------------------------------------------------------------

  datatype Update = Messages(answers: seq<Answer>) | Jump(command: Value) | Invalid

  /** `ToolNode.__call__`: the last message must come from the model, and a command must be the only answer. */
  method Call(box: Toolbox, scheduler: Scheduler, messages: seq<Message>, world: Value)
    returns (update: Update, world': Value)
    requires box.Honest() && Fair(box, scheduler)
    ensures messages == [] || !messages[|messages| - 1].AI? ==> update == Invalid && world' == world
    ensures messages != [] && messages[|messages| - 1].AI? ==>
              var (answers, after) := Sequential(box, scheduler, messages[|messages| - 1].calls, world);
              world' == after &&
              update == if forall i :: 0 <= i < |answers| ==> answers[i].Reply? then Messages(answers)
                        else if |answers| == 1 then Jump(answers[0].command) else Invalid
  {
    if messages == [] || !messages[|messages| - 1].AI? {
      return Invalid, world;
    }
    hide Toolbox.Honest, Fair, Sequential, Grouped;
    var calls := messages[|messages| - 1].calls;
    var indexed;
    ghost var groups;
    indexed, world', groups := RunCalls(box, scheduler, calls, world);
    ghost var answers := Sequential(box, scheduler, calls, world).0;
    var results: seq<Answer>, commands := [], 0;
    for i := 0 to |calls|
      invariant results == answers[..i] && 0 <= commands <= i
      invariant commands == 0 <==> forall k :: 0 <= k < i ==> answers[k].Reply?
    {
      results := results + [indexed[i].value];
      if indexed[i].value.Command? { commands := commands + 1; }
    }
    if commands == 0 {
      update := Messages(results);
    } else if |results| != 1 {
      update := Invalid;
    } else {
      update := Jump(results[0].command);
    }
  }
}
