/** How many results a task can get, over every run of the dispatch protocol with any number of workers
    (services/agent-orchestration/src/consumer/redis_consumer.py, lines 52-87). */
module ResultCounting {
  import opened Common
  import opened Dispatcher
  import opened Protocol
  import opened ProtocolProofs

  function Count(results: seq<Result>, k: nat): nat {
    if results == [] then 0
    else Count(results[..|results| - 1], k) + if results[|results| - 1].taskId == k then 1 else 0
  }

  /** What the worker of a task may have published so far. */
  function Allowed(job: Job): nat {
    match job
    case Running => 0
    case Published => 1
    case Failing => 1
    case Finished => 2
  }

  function AllowedFor(jobs: seq<Job>, i: nat): nat {
    if i < |jobs| then Allowed(jobs[i]) else 0
  }

  ghost predicate CountsOk(tasks: seq<Task>, jobs: seq<Job>, results: seq<Result>) {
    forall i :: 0 <= i < |tasks| ==> Count(results, tasks[i].taskId) <= AllowedFor(jobs, i)
  }

  /** Only the first result of a task can be `completed`. */
  ghost predicate OnlyFirstIsValue(results: seq<Result>) {
    forall j, j' :: 0 <= j < j' < |results| && results[j].taskId == results[j'].taskId ==>
        results[j'].status.NotCompleted?
  }

  lemma CountOneMore(results: seq<Result>, r: Result, k: nat)
    ensures Count(results + [r], k) == Count(results, k) + if r.taskId == k then 1 else 0
  {
    assert (results + [r])[..|results|] == results;
  }

  lemma {:induction false} CountZero(results: seq<Result>, k: nat)
    ensures Count(results, k) == 0 <==> forall j :: 0 <= j < |results| ==> results[j].taskId != k
    decreases |results|
  {
    if results != [] {
      var last := |results| - 1;
      CountZero(results[..last], k);
      assert results == results[..last] + [results[last]];
    }
  }

  /** One more result of task `i`, whose worker may publish one more. */
  lemma ResultKeepsCounts(tasks: seq<Task>, jobs: seq<Job>, results: seq<Result>, i: nat, job: Job, r: Result)
    requires CountsOk(tasks, jobs, results) && i < |jobs| <= |tasks| && r.taskId == tasks[i].taskId
    requires Allowed(jobs[i]) < Allowed(job)
    requires forall m, m' :: 0 <= m < m' < |tasks| ==> tasks[m].taskId != tasks[m'].taskId
    ensures CountsOk(tasks, jobs[i := job], results + [r])
  {
    forall m | 0 <= m < |tasks| ensures Count(results + [r], tasks[m].taskId) <= AllowedFor(jobs[i := job], m) {
      CountOneMore(results, r, tasks[m].taskId);
    }
  }

  lemma FirstResult(results: seq<Result>, r: Result)
    requires OnlyFirstIsValue(results) && (r.status.NotCompleted? || Count(results, r.taskId) == 0)
    ensures OnlyFirstIsValue(results + [r])
  {
    CountZero(results, r.taskId);
  }

  /** A task that is just being appended has no results. */
  lemma AppendKeepsCounts(s: State, e: string)
    requires Inv(s) && CountsOk(s.tasks, s.jobs, s.results) && Enabled(s, Append(e))
    ensures CountsOk(After(s, Append(e)).tasks, s.jobs, s.results)
  {
    var k := s.execs[e].visit;
    assert PhaseOk(s.visits, s.tasks, s.table.futures, s.stored, e, s.execs[e]);
    forall j | 0 <= j < |s.results| ensures s.results[j].taskId != k {
      assert Answered(s.tasks, s.jobs, s.results[j]);
      assert !Dispatched(s.tasks, k);
    }
    CountZero(s.results, k);
  }

  ghost predicate Counted(s: State) {
    CountsOk(s.tasks, s.jobs, s.results) && OnlyFirstIsValue(s.results)
  }

  lemma PublishCounts(s: State, i: nat, status: Status)
    requires Inv(s) && Counted(s) && JobIs(s, i, Running)
    ensures Counted(After(s, Publish(i, status)))
  {
    var r := ResultFor(s.tasks[i], status);
    ResultKeepsCounts(s.tasks, s.jobs, s.results, i, Published, r);
    FirstResult(s.results, r);
  }

  lemma FailureCounts(s: State, i: nat, sent: bool, error: string)
    requires Inv(s) && Counted(s) && JobIs(s, i, Failing)
    ensures Counted(After(s, PublishFailure(i, sent, error)))
  {
    var r := ResultFor(s.tasks[i], NotCompleted(error));
    ResultKeepsCounts(s.tasks, s.jobs, s.results, i, Finished, r);
    FirstResult(s.results, r);
  }

  lemma OtherStepCounts(s: State, a: Step)
    requires Counted(s) && Enabled(s, a) && !a.Append? && !a.Publish? && !a.PublishFailure?
    ensures Counted(After(s, a))
  {
  }

  lemma StepCounts(s: State, a: Step)
    requires Inv(s) && Enabled(s, a) && Counted(s)
    ensures Counted(After(s, a))
  {
    match a
    case Append(e) => AppendKeepsCounts(s, e);
    case Publish(i, status) => PublishCounts(s, i, status);
    case PublishFailure(i, sent, error) => FailureCounts(s, i, sent, error);
    case _ => OtherStepCounts(s, a);
  }

  lemma {:induction false} RunCounts(s: State, steps: seq<Step>)
    requires Inv(s) && Run(s, steps).Some? && Counted(s)
    ensures Counted(Run(s, steps).value)
    decreases |steps|
  {
    if steps != [] {
      StepKeeps(s, steps[0]);
      StepCounts(s, steps[0]);
      RunCounts(After(s, steps[0]), steps[1..]);
    }
  }

  /** In every reachable state, with workers interleaving in any way, a task has at most two results, none while its
      worker runs and one before the worker fails or finishes; only the first of them can be `completed`. */
  lemma AtMostTwoResults(s: State, k: nat)
    requires Reachable(s)
    ensures Count(s.results, k) <= 2 && OnlyFirstIsValue(s.results)
    ensures forall i :: 0 <= i < |s.tasks| ==> Count(s.results, s.tasks[i].taskId) <= AllowedFor(s.jobs, i)
  {
    var steps :| Run(INITIAL, steps) == Some(s);
    ReachableInv(INITIAL);
    RunCounts(INITIAL, steps);
    ReachableInv(s);
    CountZero(s.results, k);
    if j :| 0 <= j < |s.results| && s.results[j].taskId == k {
      assert Answered(s.tasks, s.jobs, s.results[j]);
      var i: nat :| Answers(s.tasks, s.jobs, s.results[j], i);
      assert Count(s.results, s.tasks[i].taskId) <= AllowedFor(s.jobs, i);
    }
  }

  // ---- Where a second result comes from ----

  /** One more result than a worker makes that did not fail after publishing. */
  predicate OneMoreThanUsual(job: Job, count: nat) {
    (job.Failing? && count == 1) || (job.Finished? && count == 2)
  }

  ghost predicate Explained(s: State, past: seq<Step>) {
    forall i :: 0 <= i < |s.jobs| && i < |s.tasks| && OneMoreThanUsual(s.jobs[i], Count(s.results, s.tasks[i].taskId))
      ==> AfterPublishRaises(i) in past
  }

  lemma ResultKeepsExplained(s: State, a: Step, past: seq<Step>, i: nat, r: Result)
    requires Inv(s) && Counted(s) && Explained(s, past) && Enabled(s, a)
    requires i < |s.tasks| && r.taskId == s.tasks[i].taskId
    requires a == Publish(i, r.status) || (r.status.NotCompleted? && a == PublishFailure(i, true, r.status.error))
    requires After(s, a).results == s.results + [r]
    ensures Explained(After(s, a), past + [a])
  {
    var s' := After(s, a);
    forall m | 0 <= m < |s'.jobs| && OneMoreThanUsual(s'.jobs[m], Count(s'.results, s'.tasks[m].taskId))
      ensures AfterPublishRaises(m) in past
    {
      CountOneMore(s.results, r, s.tasks[m].taskId);
      assert Count(s.results, s.tasks[m].taskId) <= AllowedFor(s.jobs, m);
    }
  }

  lemma OtherStepKeepsExplained(s: State, a: Step, past: seq<Step>)
    requires Inv(s) && Counted(s) && Explained(s, past) && Enabled(s, a)
    requires !a.Publish? && !(a.PublishFailure? && a.sent)
    ensures Explained(After(s, a), past + [a])
  {
    var s' := After(s, a);
    forall m | 0 <= m < |s'.jobs| && m < |s'.tasks|
               && OneMoreThanUsual(s'.jobs[m], Count(s'.results, s'.tasks[m].taskId))
      ensures AfterPublishRaises(m) in past + [a]
    {
      if m < |s.jobs| {
        assert Count(s.results, s.tasks[m].taskId) <= AllowedFor(s.jobs, m);
      }
    }
  }

  lemma StepKeepsExplained(s: State, a: Step, past: seq<Step>)
    requires Inv(s) && Counted(s) && Explained(s, past) && Enabled(s, a)
    ensures Explained(After(s, a), past + [a])
  {
    if a.Publish? {
      ResultKeepsExplained(s, a, past, a.job, ResultFor(s.tasks[a.job], a.status));
    } else if a.PublishFailure? && a.sent {
      ResultKeepsExplained(s, a, past, a.job, ResultFor(s.tasks[a.job], NotCompleted(a.error)));
    } else {
      OtherStepKeepsExplained(s, a, past);
    }
  }

  lemma {:induction false} RunKeepsExplained(s: State, past: seq<Step>, steps: seq<Step>)
    requires Inv(s) && Counted(s) && Explained(s, past) && Run(s, steps).Some?
    ensures Explained(Run(s, steps).value, past + steps)
    decreases |steps|
  {
    if steps == [] {
      assert past + steps == past;
    } else {
      StepKeeps(s, steps[0]);
      StepCounts(s, steps[0]);
      StepKeepsExplained(s, steps[0], past);
      RunKeepsExplained(After(s, steps[0]), past + [steps[0]], steps[1..]);
      assert past + [steps[0]] + steps[1..] == past + steps;
    }
  }

  lemma {:induction false} CountTwo(results: seq<Result>, k: nat, j: nat, j': nat)
    requires j < j' < |results| && results[j].taskId == k && results[j'].taskId == k
    ensures Count(results, k) >= 2
    decreases |results|
  {
    var front := results[..|results| - 1];
    if j' < |front| {
      CountTwo(front, k, j, j');
    } else {
      CountZero(front, k);
      assert front[j].taskId == k;
    }
  }

  lemma {:induction false} CountThree(results: seq<Result>, k: nat, j: nat, j': nat, j'': nat)
    requires j < j' < j'' < |results|
    requires results[j].taskId == k && results[j'].taskId == k && results[j''].taskId == k
    ensures Count(results, k) >= 3
    decreases |results|
  {
    var front := results[..|results| - 1];
    if j'' < |front| {
      CountThree(front, k, j, j', j'');
    } else {
      CountTwo(front, k, j, j');
    }
  }

  /** In every reachable state no task has three results, and of two only the first can be `completed`. */
  lemma NoThirdResult(s: State, j: nat, j': nat)
    requires Reachable(s) && j < j' < |s.results| && s.results[j].taskId == s.results[j'].taskId
    ensures s.results[j'].status.NotCompleted?
    ensures forall i :: 0 <= i < |s.results| && s.results[i].taskId == s.results[j].taskId ==> i == j || i == j'
  {
    AtMostTwoResults(s, s.results[j].taskId);
    forall i | 0 <= i < |s.results| && s.results[i].taskId == s.results[j].taskId ensures i == j || i == j' {
      if i < j {
        CountThree(s.results, s.results[j].taskId, i, j, j');
      } else if j < i < j' {
        CountThree(s.results, s.results[j].taskId, j, i, j');
      } else if j' < i {
        CountThree(s.results, s.results[j].taskId, j, j', i);
      }
    }
  }

  /** The job behind two results failed after publishing. */
  lemma TwoMeanFailure(s: State, past: seq<Step>, j: nat, j': nat) returns (i: nat)
    requires Inv(s) && Counted(s) && Explained(s, past)
    requires j < j' < |s.results| && s.results[j].taskId == s.results[j'].taskId
    ensures i < |s.tasks| && s.tasks[i].taskId == s.results[j'].taskId && AfterPublishRaises(i) in past
  {
    var r := s.results[j'];
    CountTwo(s.results, r.taskId, j, j');
    assert Answered(s.tasks, s.jobs, r);
    i :| Answers(s.tasks, s.jobs, r, i);
    assert Count(s.results, s.tasks[i].taskId) <= AllowedFor(s.jobs, i);
  }

  lemma StartsExplained(steps: seq<Step>, s: State)
    requires Run(INITIAL, steps) == Some(s)
    ensures Reachable(s) && Inv(s) && Counted(s) && Explained(s, steps)
  {
    assert Run(INITIAL, []) == Some(INITIAL);
    ReachableInv(INITIAL);
    RunCounts(INITIAL, steps);
    RunKeeps(INITIAL, steps);
    RunKeepsExplained(INITIAL, [], steps);
    assert [] + steps == steps;
  }

  /** A result can settle another visit's Future only if its worker failed after publishing: in every run that comes to
      such a settlement, that failure is one of the steps. */
  lemma ForeignNeedsFailure(steps: seq<Step>, s: State) returns (i: nat)
    requires Run(INITIAL, steps) == Some(s) && Enabled(s, HandleNext) && Awaited(s.table, s.results[s.handled].exec)
    requires s.table.pending[s.results[s.handled].exec] != s.results[s.handled].taskId
    ensures i < |s.tasks| && s.tasks[i].taskId == s.results[s.handled].taskId && AfterPublishRaises(i) in steps
  {
    StartsExplained(steps, s);
    ForeignSettlement(s);
    var j: nat :| j < s.handled && IsValue(s.results, j, s.results[s.handled].taskId);
    i := TwoMeanFailure(s, steps, j, s.handled);
  }
}
