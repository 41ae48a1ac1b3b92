/** `Durability.EXIT` (graph/executor.py): no checkpoint is written between supersteps, so every superstep
    of an invocation stores its results under the same base id, and looks there for results to reuse. */
module ExitDurability {
  import opened Prelude
  import opened Channels
  import opened Interrupts
  import opened Supersteps
  import opened Durability
  import opened Transparency
  import Suspension

  /** What an undisturbed invocation carries: the run, and the results stored under its one base id. */
  datatype ExitRun = ExitRun(run: RunState, stored: map<TaskId, Return>)

  function JobsFrom(g: Graph, rs: RunState): seq<Suspension.Job> {
    var tasks := Plan(g, Settle(g, rs));
    if tasks.Ok? then Jobs(g, tasks.value) else []
  }

  function IdsFrom(g: Graph, rs: RunState): set<TaskId> {
    set i | 0 <= i < |JobsFrom(g, rs)| :: JobsFrom(g, rs)[i].id
  }

  /** One superstep in which no task raises and none asks a question. */
  function ExitStep(g: Graph, x: ExitRun): Result<ExitRun, Error> {
    var settled := Settle(g, x.run);
    var tasks :- Plan(g, settled);
    var jobs := Jobs(g, tasks);
    var outcomes := Suspension.Outcomes(jobs, Suspension.Session(x.stored, map[]));
    if Done(x.run) || Suspension.Markers(outcomes) != [] then Err(NodeFailed)
    else
      var next :- Commit(g, settled, tasks, ResultsOf(outcomes));
      Ok(ExitRun(next, x.stored + Successful(jobs, outcomes)))
  }

  predicate NeverAsks(g: Graph, rs: RunState) {
    forall i :: 0 <= i < |JobsFrom(g, rs)| ==> JobsFrom(g, rs)[i].body([]).Return?
  }

  lemma {:induction false} NoMarkersWhenFinished(outcomes: seq<Outcome>)
    requires forall i :: 0 <= i < |outcomes| ==> outcomes[i].Finished?
    ensures Suspension.Markers(outcomes) == []
    decreases |outcomes|
  {
    if outcomes != [] {
      NoMarkersWhenFinished(outcomes[1..]);
    }
  }

  lemma {:induction false} SuccessfulIds(jobs: seq<Suspension.Job>, outcomes: seq<Outcome>)
    requires |jobs| == |outcomes|
    ensures forall id :: id in Successful(jobs, outcomes) ==> exists i :: 0 <= i < |jobs| && jobs[i].id == id
    decreases |jobs|
  {
    if jobs != [] {
      SuccessfulIds(jobs[1..], outcomes[1..]);
      var rest := Successful(jobs[1..], outcomes[1..]);
      forall id | id in Successful(jobs, outcomes)
        ensures exists i :: 0 <= i < |jobs| && jobs[i].id == id
      {
        if id != jobs[0].id {
          assert id in rest;
          var i :| 0 <= i < |jobs[1..]| && jobs[1..][i].id == id;
          assert jobs[i + 1].id == id;
        }
      }
    }
  }

  lemma {:induction false} SilentResult(body: Body, oracle: Oracle, step: nat, id: TaskId)
    requires body([]).Return?
    ensures EventuallyReturns(body, oracle, step, id)
    ensures ReturnOf(body, oracle, step, id) == (body([]).update, body([]).goto)
  {
    assert Told(oracle, step, id, 0) == [];
    assert ReturnsAfter(body, oracle, step, id, 0);
    forall n | ReturnsAfter(body, oracle, step, id, n)
      ensures n == 0
    {
      ResultIsUnique(body, oracle, step, id, n, 0);
    }
  }

  /** A superstep none of whose task ids is stored yet is the undisturbed one. */
  lemma {:induction false} FreshIdsAreUndisturbed(g: Graph, oracle: Oracle, x: ExitRun)
    requires NeverAsks(g, x.run) && IdsFrom(g, x.run) !! x.stored.Keys
    ensures var next, reference := ExitStep(g, x), Undisturbed(g, oracle, x.run);
            && (next.Ok? <==> reference.Ok?)
            && (next.Ok? ==> next.value.run == reference.value &&
                             next.value.stored.Keys <= x.stored.Keys + IdsFrom(g, x.run))
  {
    hide Commit, Settle, Plan, Jobs;
    var settled := Settle(g, x.run);
    if Plan(g, settled).Ok? {
      var jobs := JobsFrom(g, x.run);
      var outcomes := Suspension.Outcomes(jobs, Suspension.Session(x.stored, map[]));
      forall i | 0 <= i < |jobs|
        ensures outcomes[i] == Finished(jobs[i].body([]).update, jobs[i].body([]).goto)
        ensures EventuallyReturns(jobs[i].body, oracle, x.run.step, jobs[i].id)
        ensures ReturnOf(jobs[i].body, oracle, x.run.step, jobs[i].id) == (outcomes[i].update, outcomes[i].goto)
      {
        assert jobs[i].id in IdsFrom(g, x.run);
        SilentResult(jobs[i].body, oracle, x.run.step, jobs[i].id);
      }
      NoMarkersWhenFinished(outcomes);
      SuccessfulIds(jobs, outcomes);
      assert AllReturn(jobs, oracle, x.run.step);
      assert ResultsOf(outcomes) == AllResults(jobs, oracle, x.run.step);
    }
  }

  ghost function ExitAfter(g: Graph, entry: Entry, k: nat): Result<ExitRun, Error> {
    if k == 0 then
      var rs :- Entered(g, entry);
      Ok(ExitRun(rs, map[]))
    else
      var x :- ExitAfter(g, entry, k - 1);
      ExitStep(g, x)
  }

  /** The task ids of the first k supersteps of the failure-free run. */
  ghost function IdsBefore(g: Graph, entry: Entry, oracle: Oracle, k: nat): set<TaskId> {
    if k == 0 then {}
    else
      var rs := Reference(g, entry, oracle, k - 1);
      IdsBefore(g, entry, oracle, k - 1) + if rs.Ok? then IdsFrom(g, rs.value) else {}
  }

  /** No task id is scheduled in two supersteps, and no task asks. */
  ghost predicate NoRepeats(g: Graph, entry: Entry, oracle: Oracle, k: nat) {
    forall j :: 0 <= j < k && Reference(g, entry, oracle, j).Ok? ==>
      var rs := Reference(g, entry, oracle, j).value;
      NeverAsks(g, rs) && IdsFrom(g, rs) !! IdsBefore(g, entry, oracle, j)
  }

  /** An invocation whose supersteps never schedule the same task id twice is the failure-free run, step
      by step. */
  lemma {:induction false} UnrepeatedIsFaithful(g: Graph, entry: Entry, oracle: Oracle, k: nat)
    requires NoRepeats(g, entry, oracle, k)
    ensures var x, rs := ExitAfter(g, entry, k), Reference(g, entry, oracle, k);
            && (x.Ok? <==> rs.Ok?)
            && (x.Ok? ==> x.value.run == rs.value && x.value.stored.Keys <= IdsBefore(g, entry, oracle, k))
  {
    hide ExitStep, Undisturbed, Entered, IdsFrom, NeverAsks;
    if k > 0 {
      UnrepeatedIsFaithful(g, entry, oracle, k - 1);
      var x := ExitAfter(g, entry, k - 1);
      if x.Ok? {
        FreshIdsAreUndisturbed(g, oracle, x.value);
      }
    }
  }

  // ----- exactly when it is faithful ----------------------------------------------------------------------

  /** What a task that asks nothing returns. */
  function Direct(body: Body): Return
    requires body([]).Return?
  {
    (body([]).update, body([]).goto)
  }

  /** What a superstep hands to its commit. */
  function Fed(g: Graph, x: ExitRun): seq<Return> {
    ResultsOf(Suspension.Outcomes(JobsFrom(g, x.run), Suspension.Session(x.stored, map[])))
  }

  /** Each scheduled id that has a stored result has the one its task would return. */
  predicate Harmless(g: Graph, x: ExitRun)
    requires NeverAsks(g, x.run)
  {
    var jobs := JobsFrom(g, x.run);
    forall i :: 0 <= i < |jobs| && jobs[i].id in x.stored ==> x.stored[jobs[i].id] == Direct(jobs[i].body)
  }

  lemma {:induction false} AllDirect(g: Graph, oracle: Oracle, rs: RunState)
    requires NeverAsks(g, rs)
    ensures AllReturn(JobsFrom(g, rs), oracle, rs.step)
    ensures var jobs := JobsFrom(g, rs);
            AllResults(jobs, oracle, rs.step) == seq(|jobs|, i requires 0 <= i < |jobs| => Direct(jobs[i].body))
  {
    hide JobsFrom;
    var jobs := JobsFrom(g, rs);
    forall i | 0 <= i < |jobs|
      ensures EventuallyReturns(jobs[i].body, oracle, rs.step, jobs[i].id)
      ensures ReturnOf(jobs[i].body, oracle, rs.step, jobs[i].id) == Direct(jobs[i].body)
    {
      SilentResult(jobs[i].body, oracle, rs.step, jobs[i].id);
    }
  }

  lemma {:induction false} OutcomeIs(g: Graph, x: ExitRun, i: nat)
    requires NeverAsks(g, x.run) && i < |JobsFrom(g, x.run)|
    ensures var job := JobsFrom(g, x.run)[i];
            var result := if job.id in x.stored then x.stored[job.id] else Direct(job.body);
            Suspension.JobOutcome(job, Suspension.Session(x.stored, map[])) == Finished(result.0, result.1)
  {
    hide JobsFrom;
  }

  /** A superstep hands the failure-free results to its commit if and only if each repeated id is harmless. */
  lemma {:induction false} FedExactly(g: Graph, oracle: Oracle, x: ExitRun)
    requires NeverAsks(g, x.run)
    ensures AllReturn(JobsFrom(g, x.run), oracle, x.run.step)
    ensures Fed(g, x) == AllResults(JobsFrom(g, x.run), oracle, x.run.step) <==> Harmless(g, x)
  {
    AllDirect(g, oracle, x.run);
    hide JobsFrom, AllResults, AllReturn;
    var jobs, fed := JobsFrom(g, x.run), Fed(g, x);
    var direct := seq(|jobs|, i requires 0 <= i < |jobs| => Direct(jobs[i].body));
    forall i | 0 <= i < |jobs|
      ensures fed[i] == if jobs[i].id in x.stored then x.stored[jobs[i].id] else Direct(jobs[i].body)
    {
      OutcomeIs(g, x, i);
    }
    if Harmless(g, x) {
      assert fed == direct;
    } else {
      var i :| 0 <= i < |jobs| && jobs[i].id in x.stored && x.stored[jobs[i].id] != Direct(jobs[i].body);
      assert fed[i] != direct[i];
    }
  }

  /** The task with this id returns this result in the j-th superstep of the failure-free run. */
  ghost predicate Returns(g: Graph, entry: Entry, oracle: Oracle, j: nat, id: TaskId, result: Return) {
    var rs := Reference(g, entry, oracle, j);
    && rs.Ok?
    && exists i :: 0 <= i < |JobsFrom(g, rs.value)| && JobsFrom(g, rs.value)[i].id == id &&
                   JobsFrom(g, rs.value)[i].body([]).Return? && Direct(JobsFrom(g, rs.value)[i].body) == result
  }

  ghost predicate ReturnedBefore(g: Graph, entry: Entry, oracle: Oracle, k: nat, id: TaskId, result: Return) {
    exists j: nat :: j < k && Returns(g, entry, oracle, j, id, result)
  }

  /** A task id scheduled in two of the first k supersteps of the failure-free run returns the same in both. */
  ghost predicate RepeatsAgree(g: Graph, entry: Entry, oracle: Oracle, k: nat) {
    forall i: nat, j: nat, id, a, b ::
      i < j < k && Returns(g, entry, oracle, i, id, a) && Returns(g, entry, oracle, j, id, b) ==> a == b
  }

  ghost predicate NothingAsks(g: Graph, entry: Entry, oracle: Oracle, k: nat) {
    forall j: nat :: j < k && Reference(g, entry, oracle, j).Ok? ==>
                       NeverAsks(g, Reference(g, entry, oracle, j).value)
  }

  /** The invocation is at the failure-free run after k supersteps and hands its results to the commit. */
  ghost predicate FedRight(g: Graph, entry: Entry, oracle: Oracle, k: nat) {
    var x, rs := ExitAfter(g, entry, k), Reference(g, entry, oracle, k);
    && x.Ok? && rs.Ok? && x.value.run == rs.value && AllReturn(JobsFrom(g, rs.value), oracle, rs.value.step)
    && Fed(g, x.value) == AllResults(JobsFrom(g, rs.value), oracle, rs.value.step)
  }

  ghost predicate AllFedRight(g: Graph, entry: Entry, oracle: Oracle, k: nat) {
    forall j: nat :: j < k && Reference(g, entry, oracle, j).Ok? ==> FedRight(g, entry, oracle, j)
  }

  /** What is stored is what the tasks of the earlier supersteps returned. */
  ghost predicate StoredAre(g: Graph, entry: Entry, oracle: Oracle, k: nat, stored: map<TaskId, Return>) {
    && (forall id, result :: ReturnedBefore(g, entry, oracle, k, id, result) ==> id in stored && stored[id] == result)
    && (forall id :: id in stored ==> ReturnedBefore(g, entry, oracle, k, id, stored[id]))
  }

  ghost predicate SameAt(g: Graph, entry: Entry, oracle: Oracle, k: nat) {
    var x, rs := ExitAfter(g, entry, k), Reference(g, entry, oracle, k);
    && (x.Ok? <==> rs.Ok?)
    && (x.Ok? ==> x.value.run == rs.value && StoredAre(g, entry, oracle, k, x.value.stored))
  }

  lemma {:induction false} SuccessfulAre(jobs: seq<Suspension.Job>, outcomes: seq<Outcome>, i: nat)
    requires |jobs| == |outcomes| && Suspension.DistinctIds(jobs) && i < |jobs| && outcomes[i].Finished?
    ensures jobs[i].id in Successful(jobs, outcomes)
    ensures Successful(jobs, outcomes)[jobs[i].id] == (outcomes[i].update, outcomes[i].goto)
    decreases |jobs|
  {
    if i > 0 {
      assert Suspension.DistinctIds(jobs[1..]);
      SuccessfulAre(jobs[1..], outcomes[1..], i - 1);
      assert jobs[1..][i - 1] == jobs[i] && outcomes[1..][i - 1] == outcomes[i];
    }
  }

  /** A harmless superstep is the undisturbed one, and stores what its tasks return. */
  lemma {:induction false} HarmlessStep(g: Graph, oracle: Oracle, x: ExitRun)
    requires NeverAsks(g, x.run) && Harmless(g, x) && Suspension.DistinctIds(JobsFrom(g, x.run))
    ensures var next, reference := ExitStep(g, x), Undisturbed(g, oracle, x.run);
            && (next.Ok? <==> reference.Ok?)
            && (next.Ok? ==> next.value.run == reference.value && StoresDirect(g, x, next.value.stored))
  {
    FedExactly(g, oracle, x);
    var jobs := JobsFrom(g, x.run);
    var outcomes := Suspension.Outcomes(jobs, Suspension.Session(x.stored, map[]));
    forall i | 0 <= i < |jobs|
      ensures outcomes[i] == Finished(Direct(jobs[i].body).0, Direct(jobs[i].body).1)
    {
      OutcomeIs(g, x, i);
    }
    NoMarkersWhenFinished(outcomes);
    StoresAll(g, x, outcomes);
    hide Commit, Settle, Plan, Jobs, Successful, NeverAsks, Harmless, StoresDirect, AllReturn, AllResults,
      Suspension.Outcomes, ResultsOf;
    if Plan(g, Settle(g, x.run)).Ok? {
      assert JobsFrom(g, x.run) == Jobs(g, Plan(g, Settle(g, x.run)).value);
    }
  }

  predicate StoresDirect(g: Graph, x: ExitRun, stored: map<TaskId, Return>)
    requires NeverAsks(g, x.run)
  {
    var jobs := JobsFrom(g, x.run);
    && stored.Keys == x.stored.Keys + IdsFrom(g, x.run)
    && (forall i :: 0 <= i < |jobs| ==> jobs[i].id in stored && stored[jobs[i].id] == Direct(jobs[i].body))
    && (forall id :: id in x.stored && id !in IdsFrom(g, x.run) ==> stored[id] == x.stored[id])
  }

  lemma {:induction false} StoresAll(g: Graph, x: ExitRun, outcomes: seq<Outcome>)
    requires NeverAsks(g, x.run) && Suspension.DistinctIds(JobsFrom(g, x.run))
    requires |outcomes| == |JobsFrom(g, x.run)|
    requires forall i :: 0 <= i < |outcomes| ==>
               outcomes[i] == Finished(Direct(JobsFrom(g, x.run)[i].body).0, Direct(JobsFrom(g, x.run)[i].body).1)
    ensures StoresDirect(g, x, x.stored + Successful(JobsFrom(g, x.run), outcomes))
  {
    hide JobsFrom, Successful;
    var jobs := JobsFrom(g, x.run);
    SuccessfulIds(jobs, outcomes);
    forall i | 0 <= i < |jobs|
      ensures jobs[i].id in Successful(jobs, outcomes)
      ensures Successful(jobs, outcomes)[jobs[i].id] == Direct(jobs[i].body)
    {
      SuccessfulAre(jobs, outcomes, i);
    }
  }

  lemma {:induction false} ReferenceIdsDistinct(g: Graph, entry: Entry, oracle: Oracle, k: nat)
    requires ValidGraph(g) && Reference(g, entry, oracle, k).Ok?
    ensures Suspension.DistinctIds(JobsFrom(g, Reference(g, entry, oracle, k).value))
  {
    var rs := Reference(g, entry, oracle, k).value;
    ReferencePlanned(g, entry, oracle, k);
    SettlePlanned(g, rs);
    hide Reference, Settle, Plan, Jobs;
    if Plan(g, Settle(g, rs)).Ok? {
      TaskIdsDistinct(g, Settle(g, rs));
    } else {
      assert JobsFrom(g, rs) == [];
    }
  }

  lemma {:induction false} ReturnsIs(g: Graph, entry: Entry, oracle: Oracle, k: nat, i: nat)
    requires Reference(g, entry, oracle, k).Ok?
    requires var rs := Reference(g, entry, oracle, k).value; NeverAsks(g, rs) && i < |JobsFrom(g, rs)|
    ensures var job := JobsFrom(g, Reference(g, entry, oracle, k).value)[i];
            Returns(g, entry, oracle, k, job.id, Direct(job.body))
  {
    hide JobsFrom, Reference;
  }

  /** Where everything before agreed, a superstep is harmless exactly when it agrees with all of it. */
  lemma {:induction false} HarmlessAgrees(g: Graph, entry: Entry, oracle: Oracle, k: nat, x: ExitRun)
    requires Reference(g, entry, oracle, k) == Ok(x.run) && NeverAsks(g, x.run)
    requires StoredAre(g, entry, oracle, k, x.stored) && RepeatsAgree(g, entry, oracle, k)
    ensures Harmless(g, x) <==> RepeatsAgree(g, entry, oracle, k + 1)
  {
    hide JobsFrom, Reference;
    var jobs := JobsFrom(g, x.run);
    if Harmless(g, x) {
      forall i: nat, id, a, b | i < k && Returns(g, entry, oracle, i, id, a) && Returns(g, entry, oracle, k, id, b)
        ensures a == b
      {
        assert ReturnedBefore(g, entry, oracle, k, id, a);
      }
    }
    if RepeatsAgree(g, entry, oracle, k + 1) {
      forall i | 0 <= i < |jobs| && jobs[i].id in x.stored
        ensures x.stored[jobs[i].id] == Direct(jobs[i].body)
      {
        assert ReturnedBefore(g, entry, oracle, k, jobs[i].id, x.stored[jobs[i].id]);
        ReturnsIs(g, entry, oracle, k, i);
      }
    }
  }

  lemma {:induction false} StoresMore(g: Graph, entry: Entry, oracle: Oracle, k: nat, next: nat, x: ExitRun,
                                      stored: map<TaskId, Return>)
    requires Reference(g, entry, oracle, k) == Ok(x.run) && NeverAsks(g, x.run) && Harmless(g, x)
    requires StoredAre(g, entry, oracle, k, x.stored) && StoresDirect(g, x, stored) && next == k + 1
    ensures StoredAre(g, entry, oracle, next, stored)
  {
    hide JobsFrom, Reference;
    var jobs := JobsFrom(g, x.run);
    forall id, result | ReturnedBefore(g, entry, oracle, next, id, result)
      ensures id in stored && stored[id] == result
    {
      var j: nat :| j < next && Returns(g, entry, oracle, j, id, result);
      if j < k {
        assert ReturnedBefore(g, entry, oracle, k, id, result);
      }
    }
    forall id | id in stored
      ensures ReturnedBefore(g, entry, oracle, next, id, stored[id])
    {
      if id in IdsFrom(g, x.run) {
        var i :| 0 <= i < |jobs| && jobs[i].id == id;
        ReturnsIs(g, entry, oracle, k, i);
      } else {
        assert ReturnedBefore(g, entry, oracle, k, id, stored[id]);
      }
    }
  }

  lemma {:induction false} Unfolded(g: Graph, entry: Entry, oracle: Oracle, k: nat)
    requires SameAt(g, entry, oracle, k) && Reference(g, entry, oracle, k).Ok?
    ensures ExitAfter(g, entry, k).Ok? && Reference(g, entry, oracle, k) == Ok(ExitAfter(g, entry, k).value.run)
    ensures StoredAre(g, entry, oracle, k, ExitAfter(g, entry, k).value.stored)
    ensures ExitAfter(g, entry, k + 1) == ExitStep(g, ExitAfter(g, entry, k).value)
    ensures Reference(g, entry, oracle, k + 1) == Undisturbed(g, oracle, ExitAfter(g, entry, k).value.run)
  {
    hide StoredAre, ExitStep, Undisturbed, Entered;
  }

  lemma {:induction false} FedRightIs(g: Graph, entry: Entry, oracle: Oracle, k: nat, x: ExitRun)
    requires ExitAfter(g, entry, k) == Ok(x) && Reference(g, entry, oracle, k) == Ok(x.run)
    requires AllReturn(JobsFrom(g, x.run), oracle, x.run.step)
    ensures FedRight(g, entry, oracle, k) <==> Fed(g, x) == AllResults(JobsFrom(g, x.run), oracle, x.run.step)
  {
    hide ExitAfter, Reference, Fed, JobsFrom, AllReturn, AllResults;
  }

  lemma {:induction false} SameAtIs(g: Graph, entry: Entry, oracle: Oracle, k: nat)
    requires var x, rs := ExitAfter(g, entry, k), Reference(g, entry, oracle, k);
             && (x.Ok? <==> rs.Ok?)
             && (x.Ok? ==> x.value.run == rs.value && StoredAre(g, entry, oracle, k, x.value.stored))
    ensures SameAt(g, entry, oracle, k)
  {
    hide ExitAfter, Reference, StoredAre;
  }

  /** One more superstep. */
  lemma {:induction false} ExactlyStep(g: Graph, entry: Entry, oracle: Oracle, k: nat)
    requires ValidGraph(g) && RepeatsAgree(g, entry, oracle, k) && SameAt(g, entry, oracle, k)
    requires Reference(g, entry, oracle, k).Ok? && NeverAsks(g, Reference(g, entry, oracle, k).value)
    ensures FedRight(g, entry, oracle, k) <==> RepeatsAgree(g, entry, oracle, k + 1)
    ensures RepeatsAgree(g, entry, oracle, k + 1) ==> SameAt(g, entry, oracle, k + 1)
  {
    hide *;
    Unfolded(g, entry, oracle, k);
    var x := ExitAfter(g, entry, k).value;
    FedExactly(g, oracle, x);
    FedRightIs(g, entry, oracle, k, x);
    HarmlessAgrees(g, entry, oracle, k, x);
    if Harmless(g, x) {
      ReferenceIdsDistinct(g, entry, oracle, k);
      HarmlessStep(g, oracle, x);
      if ExitStep(g, x).Ok? {
        StoresMore(g, entry, oracle, k, k + 1, x, ExitStep(g, x).value.stored);
      }
      SameAtIs(g, entry, oracle, k + 1);
    }
  }

  lemma {:induction false} NothingReturns(g: Graph, entry: Entry, oracle: Oracle, k: nat)
    requires RepeatsAgree(g, entry, oracle, k) && Reference(g, entry, oracle, k).Err?
    ensures RepeatsAgree(g, entry, oracle, k + 1)
  {
    hide Reference;
    assert forall id, result :: !Returns(g, entry, oracle, k, id, result);
  }

  lemma {:induction false} AgreementShrinks(g: Graph, entry: Entry, oracle: Oracle, k: nat)
    requires RepeatsAgree(g, entry, oracle, k + 1)
    ensures RepeatsAgree(g, entry, oracle, k)
  {
    hide Returns;
  }

  lemma {:induction false} FewerAsk(g: Graph, entry: Entry, oracle: Oracle, k: nat)
    requires NothingAsks(g, entry, oracle, k + 1)
    ensures NothingAsks(g, entry, oracle, k)
    ensures Reference(g, entry, oracle, k).Ok? ==> NeverAsks(g, Reference(g, entry, oracle, k).value)
  {
    hide Reference, NeverAsks;
  }

  lemma {:induction false} AllFedStep(g: Graph, entry: Entry, oracle: Oracle, k: nat)
    ensures AllFedRight(g, entry, oracle, k + 1) <==>
            && AllFedRight(g, entry, oracle, k)
            && (Reference(g, entry, oracle, k).Ok? ==> FedRight(g, entry, oracle, k))
  {
    hide Reference, FedRight;
  }

  lemma {:induction false} ExactAtStart(g: Graph, entry: Entry, oracle: Oracle)
    ensures AllFedRight(g, entry, oracle, 0) && RepeatsAgree(g, entry, oracle, 0) && SameAt(g, entry, oracle, 0)
  {
    hide Entered, Returns, FedRight;
    assert forall id, result :: !ReturnedBefore(g, entry, oracle, 0, id, result);
  }

  lemma {:induction false} SameErrors(g: Graph, entry: Entry, oracle: Oracle, k: nat)
    requires SameAt(g, entry, oracle, k) && Reference(g, entry, oracle, k).Err?
    ensures SameAt(g, entry, oracle, k + 1)
  {
    hide StoredAre, ExitStep, Undisturbed, Entered;
  }

  /** Where no task asks, an invocation hands every commit the failure-free results if and only if each task id that
      is scheduled again returns again what it returned before; and then it is the failure-free run, step by step. */
  lemma {:induction false} ExitIsFaithfulExactly(g: Graph, entry: Entry, oracle: Oracle, k: nat)
    requires ValidGraph(g) && NothingAsks(g, entry, oracle, k)
    ensures AllFedRight(g, entry, oracle, k) <==> RepeatsAgree(g, entry, oracle, k)
    ensures RepeatsAgree(g, entry, oracle, k) ==> SameAt(g, entry, oracle, k)
  {
    hide *;
    if k == 0 {
      ExactAtStart(g, entry, oracle);
    } else {
      FewerAsk(g, entry, oracle, k - 1);
      ExitIsFaithfulExactly(g, entry, oracle, k - 1);
      AllFedStep(g, entry, oracle, k - 1);
      if RepeatsAgree(g, entry, oracle, k) {
        AgreementShrinks(g, entry, oracle, k - 1);
      }
      if RepeatsAgree(g, entry, oracle, k - 1) {
        if Reference(g, entry, oracle, k - 1).Ok? {
          ExactlyStep(g, entry, oracle, k - 1);
        } else {
          NothingReturns(g, entry, oracle, k - 1);
          SameErrors(g, entry, oracle, k - 1);
        }
      }
    }
  }

  // ----- where it fails ---------------------------------------------------------------------------------

  /** A task id that is scheduled again gets the result it stored before, whatever its input is now. */
  lemma {:induction false} RepeatedIdIsStale(g: Graph, x: ExitRun, i: nat)
    requires i < |JobsFrom(g, x.run)| && JobsFrom(g, x.run)[i].id in x.stored
    ensures var job := JobsFrom(g, x.run)[i];
            Suspension.JobOutcome(job, Suspension.Session(x.stored, map[])) ==
            Finished(x.stored[job.id].0, x.stored[job.id].1)
  {
  }
}
