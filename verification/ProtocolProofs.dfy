/** What every interleaving of the dispatch protocol keeps. */
module ProtocolProofs {
  import opened Common
  import opened Dispatcher
  import opened Protocol

  // ---- The invariant: each part names only the fields it depends on ----

  ghost predicate CountersOk(s: State) {
    && |s.visits| == |s.table.futures|
    && |s.jobs| <= |s.tasks|
    && s.handled <= s.read <= |s.results|
    && (forall j :: j in s.applied ==> j < s.handled)
  }

  /** A task belongs to the visit it is named after, and no visit has two tasks. */
  ghost predicate TasksOk(visits: seq<Visit>, tasks: seq<Task>) {
    && (forall i :: 0 <= i < |tasks| ==>
          tasks[i].taskId < |visits| && visits[tasks[i].taskId] == Visit(tasks[i].exec, tasks[i].step))
    && (forall i, i' :: 0 <= i < i' < |tasks| ==> tasks[i].taskId != tasks[i'].taskId)
  }

  ghost predicate Answers(tasks: seq<Task>, jobs: seq<Job>, r: Result, i: nat) {
    i < |jobs| <= |tasks| && r.taskId == tasks[i].taskId && r.exec == tasks[i].exec && jobs[i] != Running
  }

  ghost predicate Answered(tasks: seq<Task>, jobs: seq<Job>, r: Result) {
    exists i: nat :: Answers(tasks, jobs, r, i)
  }

  ghost predicate IsValue(results: seq<Result>, j: nat, k: nat) {
    j < |results| && results[j].taskId == k && results[j].status.Completed?
  }

  /** Every result answers a task some worker is past running, and no task has two `completed` results. */
  ghost predicate ResultsOk(tasks: seq<Task>, jobs: seq<Job>, results: seq<Result>) {
    && (forall j :: 0 <= j < |results| ==> Answered(tasks, jobs, results[j]))
    && (forall j: nat, j': nat, k: nat :: IsValue(results, j, k) && IsValue(results, j', k) ==> j == j')
  }

  ghost predicate Latest(visits: seq<Visit>, e: string, k: nat) {
    k < |visits| && visits[k].exec == e && forall k' :: k < k' < |visits| ==> visits[k'].exec != e
  }

  ghost predicate Done(futures: seq<Future>, stored: map<nat, Json>, k: nat) {
    k < |futures| && futures[k].HasResult? && k in stored
  }

  ghost predicate Dispatched(tasks: seq<Task>, k: nat) {
    exists i :: 0 <= i < |tasks| && tasks[i].taskId == k
  }

  ghost predicate AllDone(visits: seq<Visit>, futures: seq<Future>, stored: map<nat, Json>, e: string) {
    forall k :: 0 <= k < |visits| && visits[k].exec == e ==> Done(futures, stored, k)
  }

  ghost predicate EarlierDone(visits: seq<Visit>, futures: seq<Future>, stored: map<nat, Json>) {
    forall k, k' :: 0 <= k < k' < |visits| && visits[k].exec == visits[k'].exec ==> Done(futures, stored, k)
  }

  ghost predicate PhaseOk(visits: seq<Visit>, tasks: seq<Task>, futures: seq<Future>, stored: map<nat, Json>,
      e: string, p: Phase) {
    match p
    case Between => AllDone(visits, futures, stored, e)
    case Ended => AllDone(visits, futures, stored, e)
    case Registered(k) => Latest(visits, e, k) && !Dispatched(tasks, k)
    case Appended(k) => Latest(visits, e, k) && Dispatched(tasks, k)
    case Waiting(k) => Latest(visits, e, k) && Dispatched(tasks, k)
    case Dead => true
  }

  ghost predicate PhasesOk(execs: map<string, Phase>, visits: seq<Visit>, tasks: seq<Task>, futures: seq<Future>,
      stored: map<nat, Json>) {
    && (forall e :: e in execs ==> PhaseOk(visits, tasks, futures, stored, e, execs[e]))
    && (forall k :: 0 <= k < |visits| ==> visits[k].exec in execs)
  }

  /** `_pending` holds each execution's most recent Future, and every unsettled Future is held there. */
  ghost predicate PendingOk(t: Table, visits: seq<Visit>) {
    && (forall e :: e in t.pending ==> Latest(visits, e, t.pending[e]))
    && (forall k :: 0 <= k < |visits| && k < |t.futures| && t.futures[k].Unsettled?
          ==> visits[k].exec in t.pending && t.pending[visits[k].exec] == k)
  }

  /** Entry `j` is the `completed` result of task `k`; it reached the pending table and carries `v`. */
  ghost predicate Source(results: seq<Result>, applied: set<nat>, j: nat, k: nat, v: Json) {
    IsValue(results, j, k) && j in applied && results[j].status.output == v
  }

  ghost predicate HasSource(results: seq<Result>, applied: set<nat>, k: nat, v: Json) {
    exists j :: Source(results, applied, j, k, v)
  }

  ghost predicate FuturesOk(futures: seq<Future>, results: seq<Result>, applied: set<nat>) {
    forall k :: 0 <= k < |futures| && futures[k].HasResult? ==> HasSource(results, applied, k, futures[k].output)
  }

  ghost predicate StoredOk(futures: seq<Future>, stored: map<nat, Json>) {
    forall k :: k in stored ==> k < |futures| && futures[k] == HasResult(stored[k])
  }

  ghost predicate AppliedSettles(futures: seq<Future>, results: seq<Result>, applied: set<nat>) {
    forall j :: j in applied && j < |results| && results[j].taskId < |futures| ==>
        !futures[results[j].taskId].Unsettled?
  }

  ghost predicate CancelledOk(execs: map<string, Phase>, visits: seq<Visit>, futures: seq<Future>) {
    forall k :: 0 <= k < |futures| && k < |visits| && futures[k].Cancelled?
      ==> visits[k].exec in execs && execs[visits[k].exec].Dead?
  }

  ghost predicate Inv(s: State) {
    && CountersOk(s)
    && TasksOk(s.visits, s.tasks)
    && ResultsOk(s.tasks, s.jobs, s.results)
    && PhasesOk(s.execs, s.visits, s.tasks, s.table.futures, s.stored)
    && EarlierDone(s.visits, s.table.futures, s.stored)
    && PendingOk(s.table, s.visits)
    && FuturesOk(s.table.futures, s.results, s.applied)
    && StoredOk(s.table.futures, s.stored)
    && AppliedSettles(s.table.futures, s.results, s.applied)
    && CancelledOk(s.execs, s.visits, s.table.futures)
  }

  // ---- Evidence in the streams is never withdrawn ----

  lemma AnsweredStays(tasks: seq<Task>, jobs: seq<Job>, tasks': seq<Task>, jobs': seq<Job>, r: Result)
    requires Answered(tasks, jobs, r) && tasks <= tasks' && |jobs| <= |jobs'| <= |tasks'|
    requires forall i :: 0 <= i < |jobs| && jobs[i] != Running ==> jobs'[i] != Running
    ensures Answered(tasks', jobs', r)
  {
    var i: nat :| Answers(tasks, jobs, r, i);
    assert Answers(tasks', jobs', r, i);
  }

  lemma SourcesStay(results: seq<Result>, applied: set<nat>, results': seq<Result>, applied': set<nat>, k: nat, v: Json)
    requires HasSource(results, applied, k, v) && results <= results' && applied <= applied'
    ensures HasSource(results', applied', k, v)
  {
    var j: nat :| Source(results, applied, j, k, v);
    assert Source(results', applied', j, k, v);
  }

  lemma DispatchedGrows(tasks: seq<Task>, t: Task, k: nat)
    ensures Dispatched(tasks + [t], k) <==> Dispatched(tasks, k) || k == t.taskId
  {
    var tasks' := tasks + [t];
    if Dispatched(tasks, k) {
      var i :| 0 <= i < |tasks| && tasks[i].taskId == k;
      assert tasks'[i].taskId == k;
    }
    assert tasks'[|tasks|] == t;
  }

  ghost predicate ResultsKept(futures: seq<Future>, futures': seq<Future>) {
    |futures| <= |futures'| && forall k :: 0 <= k < |futures| && futures[k].HasResult? ==> futures'[k] == futures[k]
  }

  lemma DoneStays(s: State, futures': seq<Future>)
    requires Inv(s) && ResultsKept(s.table.futures, futures')
    ensures PhasesOk(s.execs, s.visits, s.tasks, futures', s.stored)
    ensures EarlierDone(s.visits, futures', s.stored)
    ensures StoredOk(futures', s.stored)
  {
    forall e | e in s.execs ensures PhaseOk(s.visits, s.tasks, futures', s.stored, e, s.execs[e]) {
      assert PhaseOk(s.visits, s.tasks, s.table.futures, s.stored, e, s.execs[e]);
    }
  }

  // ---- One lemma per kind of step ----

  lemma VisitKeepsPhases(s: State, s': State, e: string, step: string)
    requires Inv(s) && Enabled(s, Step.Register(e, step)) && s' == After(s, Step.Register(e, step))
    ensures PhasesOk(s'.execs, s'.visits, s'.tasks, s'.table.futures, s'.stored)
  {
    DoneStays(s, s'.table.futures);
    forall e' | e' in s'.execs
      ensures PhaseOk(s'.visits, s'.tasks, s'.table.futures, s'.stored, e', s'.execs[e'])
    {
      if e' != e {
        assert PhaseOk(s.visits, s.tasks, s'.table.futures, s.stored, e', s.execs[e']);
      }
    }
  }

  lemma RegisterKeeps(s: State, e: string, step: string)
    requires Inv(s) && Enabled(s, Step.Register(e, step))
    ensures Inv(After(s, Step.Register(e, step)))
  {
    var s' := After(s, Step.Register(e, step));
    VisitKeepsPhases(s, s', e, step);
    assert PhaseOk(s.visits, s.tasks, s.table.futures, s.stored, e, s.execs[e]);
    assert EarlierDone(s'.visits, s'.table.futures, s'.stored);
    assert PendingOk(s'.table, s'.visits);
  }

  lemma AppendKeeps(s: State, e: string)
    requires Inv(s) && Enabled(s, Append(e))
    ensures Inv(After(s, Append(e)))
  {
    var s' := After(s, Append(e));
    var k := s.execs[e].visit;
    assert PhaseOk(s.visits, s.tasks, s.table.futures, s.stored, e, s.execs[e]);
    assert forall i :: 0 <= i < |s.tasks| ==> s.tasks[i].taskId != k;
    forall e' | e' in s'.execs
      ensures PhaseOk(s'.visits, s'.tasks, s'.table.futures, s'.stored, e', s'.execs[e'])
    {
      var p := s'.execs[e'];
      if p.Registered? || p.Appended? || p.Waiting? {
        DispatchedGrows(s.tasks, s'.tasks[|s.tasks|], p.visit);
      }
    }
    forall j | 0 <= j < |s.results| ensures Answered(s'.tasks, s'.jobs, s'.results[j]) {
      AnsweredStays(s.tasks, s.jobs, s'.tasks, s'.jobs, s.results[j]);
    }
  }

  /** Storing the value of its visit leaves an execution with all its visits done. */
  lemma StoringKeepsPhases(execs: map<string, Phase>, visits: seq<Visit>, tasks: seq<Task>, futures: seq<Future>,
      stored: map<nat, Json>, e: string, k: nat)
    requires PhasesOk(execs, visits, tasks, futures, stored) && EarlierDone(visits, futures, stored)
    requires e in execs && execs[e] == Waiting(k) && k < |futures| && futures[k].HasResult?
    ensures PhasesOk(execs[e := Between], visits, tasks, futures, stored[k := futures[k].output])
    ensures EarlierDone(visits, futures, stored[k := futures[k].output])
  {
    var stored' := stored[k := futures[k].output];
    assert forall i :: Done(futures, stored, i) ==> Done(futures, stored', i);
    assert Latest(visits, e, k);
    var execs' := execs[e := Between];
    forall e' | e' in execs' ensures PhaseOk(visits, tasks, futures, stored', e', execs'[e']) {
      if e' != e {
        assert PhaseOk(visits, tasks, futures, stored, e', execs[e']);
      }
    }
  }

  lemma CollectKeeps(s: State, e: string)
    requires Inv(s) && Enabled(s, Collect(e))
    ensures Inv(After(s, Collect(e)))
  {
    var k := s.execs[e].visit;
    if s.table.futures[k].HasResult? {
      StoringKeepsPhases(s.execs, s.visits, s.tasks, s.table.futures, s.stored, e, k);
    }
  }

  lemma TimeoutKeeps(s: State, e: string)
    requires Inv(s) && Enabled(s, Timeout(e))
    ensures Inv(After(s, Timeout(e)))
  {
    DoneStays(s, After(s, Timeout(e)).table.futures);
    assert PhaseOk(s.visits, s.tasks, s.table.futures, s.stored, e, s.execs[e]);
  }

  /** Steps that only move an execution's own phase. */
  lemma MoveKeeps(s: State, a: Step)
    requires Inv(s) && Enabled(s, a) && (a.Start? || a.BeginWait? || a.Abort? || a.Finish?)
    ensures Inv(After(s, a))
  {
    if !a.Start? {
      assert PhaseOk(s.visits, s.tasks, s.table.futures, s.stored, a.exec, s.execs[a.exec]);
    }
  }

  lemma JobKeeps(s: State, a: Step)
    requires Inv(s) && Enabled(s, a) && (a.Deliver? || a.RunRaises? || a.AfterPublishRaises? || a.LogWritten?)
    ensures Inv(After(s, a))
  {
    var s' := After(s, a);
    forall j | 0 <= j < |s.results| ensures Answered(s'.tasks, s'.jobs, s'.results[j]) {
      AnsweredStays(s.tasks, s.jobs, s'.tasks, s'.jobs, s.results[j]);
    }
  }

  lemma ResultsGrow(s: State, s': State)
    requires Inv(s) && s.results <= s'.results && s.applied == s'.applied && s.table == s'.table
    requires s.handled == s'.handled
    ensures FuturesOk(s'.table.futures, s'.results, s'.applied)
    ensures AppliedSettles(s'.table.futures, s'.results, s'.applied)
  {
    forall k | 0 <= k < |s.table.futures| && s.table.futures[k].HasResult?
      ensures HasSource(s'.results, s'.applied, k, s.table.futures[k].output)
    {
      SourcesStay(s.results, s.applied, s'.results, s'.applied, k, s.table.futures[k].output);
    }
  }

  lemma PublishKeeps(s: State, i: nat, status: Status)
    requires Inv(s) && Enabled(s, Publish(i, status))
    ensures Inv(After(s, Publish(i, status)))
  {
    var s' := After(s, Publish(i, status));
    var k, last := s.tasks[i].taskId, |s.results|;
    forall j | 0 <= j < |s'.results| ensures Answered(s'.tasks, s'.jobs, s'.results[j]) {
      if j < last {
        AnsweredStays(s.tasks, s.jobs, s'.tasks, s'.jobs, s.results[j]);
      } else {
        assert Answers(s'.tasks, s'.jobs, s'.results[j], i);
      }
    }
    forall j: nat | j < last ensures s.results[j].taskId != k {
      NoResultWhileRunning(s, i, j);
    }
    forall j: nat, j': nat, k': nat | IsValue(s'.results, j, k') && IsValue(s'.results, j', k') ensures j == j' {
      if j < last && j' < last {
        assert IsValue(s.results, j, k') && IsValue(s.results, j', k');
      }
    }
    ResultsGrow(s, s');
  }

  lemma NoResultWhileRunning(s: State, i: nat, j: nat)
    requires Inv(s) && JobIs(s, i, Running) && j < |s.results|
    ensures s.results[j].taskId != s.tasks[i].taskId
  {
    assert Answered(s.tasks, s.jobs, s.results[j]);
    var i': nat :| Answers(s.tasks, s.jobs, s.results[j], i');
  }

  lemma PublishFailureKeeps(s: State, i: nat, sent: bool, error: string)
    requires Inv(s) && Enabled(s, PublishFailure(i, sent, error))
    ensures Inv(After(s, PublishFailure(i, sent, error)))
  {
    var s' := After(s, PublishFailure(i, sent, error));
    forall j | 0 <= j < |s'.results| ensures Answered(s'.tasks, s'.jobs, s'.results[j]) {
      if j < |s.results| {
        AnsweredStays(s.tasks, s.jobs, s'.tasks, s'.jobs, s.results[j]);
      } else {
        assert Answers(s'.tasks, s'.jobs, s'.results[j], i);
      }
    }
    forall j: nat, j': nat, k: nat | IsValue(s'.results, j, k) && IsValue(s'.results, j', k) ensures j == j' {
      assert IsValue(s.results, j, k) && IsValue(s.results, j', k);
    }
    ResultsGrow(s, s');
  }

  lemma ResultIsOfVisit(s: State, j: nat)
    requires Inv(s) && j < |s.results|
    ensures s.results[j].taskId < |s.visits| && s.visits[s.results[j].taskId].exec == s.results[j].exec
    ensures Dispatched(s.tasks, s.results[j].taskId)
  {
    assert Answered(s.tasks, s.jobs, s.results[j]);
    var i: nat :| Answers(s.tasks, s.jobs, s.results[j], i);
    assert s.tasks[i].taskId == s.results[j].taskId;
  }

  /** The heart of the matter: Futures are keyed by execution only, yet a `completed` result that finds
      one waiting finds its own, because the value of an earlier visit can no longer be under way. */
  lemma ValueFindsItsOwnFuture(s: State)
    requires Inv(s) && Enabled(s, HandleNext)
    requires var r := s.results[s.handled]; r.status.Completed? && Awaited(s.table, r.exec)
    ensures var r := s.results[s.handled]; s.table.pending[r.exec] == r.taskId
  {
    var r := s.results[s.handled];
    var k, f := r.taskId, s.table.pending[r.exec];
    ResultIsOfVisit(s, s.handled);
    if k != f {
      assert Latest(s.visits, r.exec, f);
      assert Done(s.table.futures, s.stored, k);
      assert HasSource(s.results, s.applied, k, s.table.futures[k].output);
      var j: nat :| Source(s.results, s.applied, j, k, s.table.futures[k].output);
      assert IsValue(s.results, j, k) && IsValue(s.results, s.handled, k);
      assert false;
    }
  }

  /** A Future that the result just handled gave a value has that result for its source. */
  lemma HandleKeepsSources(s: State)
    requires Inv(s) && Enabled(s, HandleNext)
    ensures FuturesOk(Handle(s.table, Some(s.results[s.handled])).futures, s.results, s.applied + {s.handled})
  {
    var j := s.handled;
    var r := s.results[j];
    var futures, applied := Handle(s.table, Some(r)).futures, s.applied + {j};
    ResultIsOfVisit(s, j);
    if r.status.Completed? && Awaited(s.table, r.exec) {
      ValueFindsItsOwnFuture(s);
    }
    forall k | 0 <= k < |futures| && futures[k].HasResult? ensures HasSource(s.results, applied, k, futures[k].output) {
      if s.table.futures[k].HasResult? {
        SourcesStay(s.results, s.applied, s.results, applied, k, s.table.futures[k].output);
      } else {
        assert Source(s.results, applied, j, k, futures[k].output);
      }
    }
  }

  lemma SettlingKeepsPending(t: Table, visits: seq<Visit>, e: string, to: Future)
    requires PendingOk(t, visits) && |visits| == |t.futures| && !to.Unsettled?
    ensures PendingOk(Settle(t, e, to), visits) && ResultsKept(t.futures, Settle(t, e, to).futures)
  {
  }

  /** The result just handled finds its Future settled afterwards, and nothing gets cancelled. */
  lemma HandleKeepsSettled(s: State)
    requires Inv(s) && s.handled < s.read
    ensures var futures := Handle(s.table, Some(s.results[s.handled])).futures;
            AppliedSettles(futures, s.results, s.applied + {s.handled}) && CancelledOk(s.execs, s.visits, futures)
  {
    ResultIsOfVisit(s, s.handled);
  }

  lemma HandleKeeps(s: State)
    requires Inv(s) && Enabled(s, HandleNext)
    ensures Inv(After(s, HandleNext))
  {
    var r := s.results[s.handled];
    SettlingKeepsPending(s.table, s.visits, r.exec, Verdict(r.status));
    HandleKeepsSources(s);
    HandleKeepsSettled(s);
    DoneStays(s, Handle(s.table, Some(r)).futures);
  }

  lemma StepKeeps(s: State, a: Step)
    requires Inv(s) && Enabled(s, a)
    ensures Inv(After(s, a))
  {
    match a
    case Register(e, step) => RegisterKeeps(s, e, step);
    case Append(e) => AppendKeeps(s, e);
    case Collect(e) => CollectKeeps(s, e);
    case Timeout(e) => TimeoutKeeps(s, e);
    case Start(_) => MoveKeeps(s, a);
    case BeginWait(_) => MoveKeeps(s, a);
    case Abort(_) => MoveKeeps(s, a);
    case Finish(_) => MoveKeeps(s, a);
    case Publish(i, status) => PublishKeeps(s, i, status);
    case PublishFailure(i, sent, error) => PublishFailureKeeps(s, i, sent, error);
    case HandleNext => HandleKeeps(s);
    case Read(_) =>
    case AbandonBatch =>
    case Deliver => JobKeeps(s, a);
    case RunRaises(_) => JobKeeps(s, a);
    case AfterPublishRaises(_) => JobKeeps(s, a);
    case LogWritten(_) => JobKeeps(s, a);
  }

  lemma {:induction false} RunKeeps(s: State, steps: seq<Step>)
    requires Inv(s) && Run(s, steps).Some?
    ensures Inv(Run(s, steps).value)
    decreases |steps|
  {
    if steps != [] {
      StepKeeps(s, steps[0]);
      RunKeeps(After(s, steps[0]), steps[1..]);
    }
  }

  lemma ReachableInv(s: State)
    requires Reachable(s)
    ensures Inv(s)
  {
    var steps :| Run(INITIAL, steps) == Some(s);
    RunKeeps(INITIAL, steps);
  }

  // ---- Main results ----

  /** Correlation. Whatever the interleaving, the value a visit stored is the output of the one `completed`
      result published for the one task that visit dispatched. */
  lemma Correlation(s: State, k: nat) returns (j: nat, i: nat)
    requires Reachable(s) && k in s.stored
    ensures k < |s.visits| && i < |s.tasks| && j < |s.results|
    ensures s.tasks[i] == Task(k, s.visits[k].exec, s.visits[k].step)
    ensures forall i' :: 0 <= i' < |s.tasks| && s.tasks[i'].taskId == k ==> i' == i
    ensures s.results[j] == Result(k, s.visits[k].exec, Completed(s.stored[k]))
    ensures forall j' :: 0 <= j' < |s.results| && s.results[j'].taskId == k && s.results[j'].status.Completed? ==>
              j' == j
  {
    ReachableInv(s);
    assert HasSource(s.results, s.applied, k, s.table.futures[k].output);
    j :| Source(s.results, s.applied, j, k, s.stored[k]);
    assert Answered(s.tasks, s.jobs, s.results[j]);
    i :| Answers(s.tasks, s.jobs, s.results[j], i);
    forall j' | 0 <= j' < |s.results| && s.results[j'].taskId == k && s.results[j'].status.Completed? ensures j' == j {
      assert IsValue(s.results, j', k) && IsValue(s.results, j, k);
    }
  }

  /** An awaited Future is its execution's most recent one, and that execution is inside
      `dispatch_agent_step` for it, or failed and left it behind. No unsettled Future is out of reach. */
  lemma FutureDiscipline(s: State, f: nat)
    requires Reachable(s) && f < |s.table.futures| && s.table.futures[f].Unsettled?
    ensures f < |s.visits| && Latest(s.visits, s.visits[f].exec, f)
    ensures var e := s.visits[f].exec;
            && e in s.table.pending && s.table.pending[e] == f && e in s.execs
            && s.execs[e] in {Registered(f), Appended(f), Waiting(f), Dead}
  {
    ReachableInv(s);
    var e := s.visits[f].exec;
    assert PhaseOk(s.visits, s.tasks, s.table.futures, s.stored, e, s.execs[e]);
  }

  lemma WaitsForLatest(s: State, e: string)
    requires Inv(s) && e in s.execs && s.execs[e].Waiting?
    ensures Latest(s.visits, e, s.execs[e].visit)
  {
    assert PhaseOk(s.visits, s.tasks, s.table.futures, s.stored, e, s.execs[e]);
  }

  lemma HandleSettles(s: State, f: nat)
    requires Inv(s) && s.handled < s.read && f < |s.table.futures|
    requires Handle(s.table, Some(s.results[s.handled])).futures[f] != s.table.futures[f]
    ensures s.table.futures[f].Unsettled? && s.results[s.handled].exec == s.visits[f].exec
  {
    assert Latest(s.visits, s.results[s.handled].exec, f);
  }

  /** The Future is not what it was; none is ever dropped. */
  predicate Changed(t: Table, t': Table, f: nat) {
    f < |t.futures| && (f < |t'.futures| ==> t'.futures[f] != t.futures[f])
  }

  predicate HandlesResultOf(s: State, a: Step, e: string) {
    a.HandleNext? && s.handled < |s.results| && s.results[s.handled].exec == e
  }

  /** A step changes at most one Future, from unsettled, and only for its own execution. */
  lemma StepSettles(s: State, a: Step, f: nat)
    requires Inv(s) && Enabled(s, a) && Changed(s.table, After(s, a).table, f)
    ensures s.table.futures[f].Unsettled? && f < |s.visits|
    ensures var e := s.visits[f].exec; HandlesResultOf(s, a, e) || a == Timeout(e)
  {
    match a
    case HandleNext => HandleSettles(s, f);
    case Timeout(e) => WaitsForLatest(s, e);
    case _ =>
  }

  /** Each Future settles at most once: over any continuation of any run a settled one keeps its state. */
  lemma {:induction false} SettledForGood(s: State, steps: seq<Step>, f: nat)
    requires Inv(s) && Run(s, steps).Some?
    requires f < |s.table.futures| && !s.table.futures[f].Unsettled?
    ensures f < |Run(s, steps).value.table.futures|
    ensures Run(s, steps).value.table.futures[f] == s.table.futures[f]
    decreases |steps|
  {
    if steps != [] {
      var s' := After(s, steps[0]);
      if Changed(s.table, s'.table, f) {
        StepSettles(s, steps[0], f);
      }
      StepKeeps(s, steps[0]);
      SettledForGood(s', steps[1..], f);
    }
  }

  /** No lost wake-up. Handling a result of a task finds that task's Future registered and settles it,
      unless it was settled before; this holds before `wait_for` starts as well as after. */
  lemma NoLostWakeUp(s: State)
    requires Reachable(s) && Enabled(s, HandleNext)
    ensures var r := s.results[s.handled];
            && r.taskId < |s.table.futures|
            && After(s, HandleNext).table.futures[r.taskId]
                 == if s.table.futures[r.taskId].Unsettled? then Verdict(r.status) else s.table.futures[r.taskId]
  {
    ReachableInv(s);
    ResultIsOfVisit(s, s.handled);
    var r := s.results[s.handled];
    if !s.table.futures[r.taskId].Unsettled? && Changed(s.table, After(s, HandleNext).table, r.taskId) {
      StepSettles(s, HandleNext, r.taskId);
    }
  }

  /** An execution that waits for a task with an applied result can go on. */
  lemma WaiterCanCollect(s: State, e: string, j: nat)
    requires Reachable(s) && e in s.execs && s.execs[e].Waiting?
    requires j in s.applied && j < |s.results| && s.results[j].taskId == s.execs[e].visit
    ensures Enabled(s, Collect(e))
  {
    ReachableInv(s);
    assert PhaseOk(s.visits, s.tasks, s.table.futures, s.stored, e, s.execs[e]);
  }

  ghost predicate AcksHold(steps: seq<Step>) {
    forall i :: 0 <= i < |steps| ==> steps[i] != AbandonBatch
  }

  lemma {:induction false} HandledAreApplied(s: State, steps: seq<Step>)
    requires AcksHold(steps) && Run(s, steps).Some?
    requires forall j :: 0 <= j < s.handled ==> j in s.applied
    ensures forall j :: 0 <= j < Run(s, steps).value.handled ==> j in Run(s, steps).value.applied
    decreases |steps|
  {
    if steps != [] {
      assert steps[0] != AbandonBatch && AcksHold(steps[1..]);
      HandledAreApplied(After(s, steps[0]), steps[1..]);
    }
  }

  /** While acknowledgements do not raise, an execution that waits for a task goes on as soon as a result of the task
      has been handled. */
  lemma HandledWakesUp(steps: seq<Step>, s: State, e: string, j: nat)
    requires AcksHold(steps) && Run(INITIAL, steps) == Some(s) && e in s.execs && s.execs[e].Waiting?
    requires j < s.handled && j < |s.results| && s.results[j].taskId == s.execs[e].visit
    ensures Enabled(s, Collect(e))
  {
    HandledAreApplied(INITIAL, steps);
    WaiterCanCollect(s, e, j);
  }

  /** Rejections are not correlated: a Future is settled by a result of another task exactly when that
      task's own value has been delivered already, and then only by a result that is not `completed`. */
  lemma ForeignSettlement(s: State)
    requires Reachable(s) && Enabled(s, HandleNext) && Awaited(s.table, s.results[s.handled].exec)
    ensures var r := s.results[s.handled];
            && r.taskId < |s.table.futures|
            && (s.table.pending[r.exec] != r.taskId <==> s.table.futures[r.taskId].HasResult?)
            && (s.table.pending[r.exec] != r.taskId ==> r.status.NotCompleted?)
            && (s.table.pending[r.exec] != r.taskId ==>
                  exists j: nat :: j < s.handled && IsValue(s.results, j, r.taskId))
  {
    ReachableInv(s);
    var r := s.results[s.handled];
    ResultIsOfVisit(s, s.handled);
    if s.table.pending[r.exec] != r.taskId {
      assert Latest(s.visits, r.exec, s.table.pending[r.exec]);
      assert Done(s.table.futures, s.stored, r.taskId);
      assert HasSource(s.results, s.applied, r.taskId, s.table.futures[r.taskId].output);
      var j: nat :| Source(s.results, s.applied, j, r.taskId, s.table.futures[r.taskId].output);
      assert j < s.handled && IsValue(s.results, j, r.taskId);
      if r.status.Completed? {
        ValueFindsItsOwnFuture(s);
      }
    }
  }

  /** The case occurs: the log write of task 0 fails after its value was published, and the second result
      rejects the Future of visit 1 before the task of visit 1 is even in the stream. */
  lemma DuplicateRejectsNextVisit(e: string) returns (s: State)
    ensures Reachable(s) && |s.table.futures| == 2 && s.table.futures[1] == HasException("log")
    ensures |s.tasks| == 1 && s.tasks[0].taskId == 0 && s.execs == map[e := Registered(1)]
  {
    TwoResultsForOneTask(e);
    s := RejectedBeforeAppend(e);
    RunConcat(INITIAL, FirstLeg(e), SecondLeg(e));
  }

  function FirstLeg(e: string): seq<Step> {
    [Start(e), Step.Register(e, "a"), Append(e), BeginWait(e)]
    + [Deliver, Publish(0, Completed(Null)), AfterPublishRaises(0), PublishFailure(0, true, "log")]
  }

  function SecondLeg(e: string): seq<Step> {
    [Read(2), HandleNext, Collect(e), Step.Register(e, "b")] + [HandleNext]
  }

  function BothPublished(e: string): State {
    State(Table(map[e := 0], [Unsettled]), map[e := Waiting(0)], [Visit(e, "a")], [Task(0, e, "a")], [Finished],
          [Result(0, e, Completed(Null)), Result(0, e, NotCompleted("log"))], 0, 0, {}, map[])
  }

  lemma TwoResultsForOneTask(e: string)
    ensures Run(INITIAL, FirstLeg(e)) == Some(BothPublished(e))
  {
    var steps := FirstLeg(e);
    var s := RunFour(INITIAL, steps);
    assert s == State(Table(map[e := 0], [Unsettled]), map[e := Waiting(0)], [Visit(e, "a")], [Task(0, e, "a")], [],
                      [], 0, 0, {}, map[]);
    var s' := RunFour(s, steps[4..]);
    assert s' == BothPublished(e);
    assert steps[4..][4..] == [];
  }

  lemma RejectedBeforeAppend(e: string) returns (s: State)
    ensures Run(BothPublished(e), SecondLeg(e)) == Some(s)
    ensures |s.table.futures| == 2 && s.table.futures[1] == HasException("log")
    ensures |s.tasks| == 1 && s.tasks[0].taskId == 0 && s.execs == map[e := Registered(1)]
  {
    var steps := SecondLeg(e);
    var s4 := RunFour(BothPublished(e), steps);
    assert s4 == State(Table(map[e := 1], [HasResult(Null), Unsettled]), map[e := Registered(1)],
                       [Visit(e, "a"), Visit(e, "b")], [Task(0, e, "a")], [Finished],
                       [Result(0, e, Completed(Null)), Result(0, e, NotCompleted("log"))], 2, 1, {0}, map[0 := Null]);
    assert steps[4..] == [HandleNext];
    s := After(s4, HandleNext);
    assert Run(s4, [HandleNext]) == Run(s, []);
  }

  lemma RunFour(s: State, steps: seq<Step>) returns (s': State)
    requires |steps| >= 4
    requires Enabled(s, steps[0]) && Enabled(After(s, steps[0]), steps[1])
    requires Enabled(After(After(s, steps[0]), steps[1]), steps[2])
    requires Enabled(After(After(After(s, steps[0]), steps[1]), steps[2]), steps[3])
    ensures s' == After(After(After(After(s, steps[0]), steps[1]), steps[2]), steps[3])
    ensures Run(s, steps) == Run(s', steps[4..])
  {
    var s1 := After(s, steps[0]);
    var s2 := After(s1, steps[1]);
    var s3 := After(s2, steps[2]);
    s' := After(s3, steps[3]);
    assert steps[1..][1..] == steps[2..] && steps[2..][1..] == steps[3..] && steps[3..][1..] == steps[4..];
    assert Run(s, steps) == Run(s1, steps[1..]) == Run(s2, steps[2..]) == Run(s3, steps[3..]);
  }

  lemma {:induction false} RunConcat(s: State, first: seq<Step>, second: seq<Step>)
    requires Run(s, first).Some?
    ensures Run(s, first + second) == Run(Run(s, first).value, second)
    decreases |first|
  {
    if first == [] {
      assert first + second == second;
    } else {
      assert (first + second)[1..] == first[1..] + second;
      RunConcat(After(s, first[0]), first[1..], second);
    }
  }
}
