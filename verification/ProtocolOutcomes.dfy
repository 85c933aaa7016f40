/** What comes of each awaited Future and of each result, over every continuation of every run
    (services/platform-api/src/executions/executor.py, lines 56-59,
    services/platform-api/src/executions/dispatcher.py). */
module ProtocolOutcomes {
  import opened Common
  import opened Dispatcher
  import opened Protocol
  import opened ProtocolProofs

  // ---- Timeouts ----

  /** A failed execution does nothing more. */
  lemma {:induction false} DeadForGood(s: State, steps: seq<Step>, s': State, e: string)
    requires Run(s, steps) == Some(s') && e in s.execs && s.execs[e].Dead?
    ensures e in s'.execs && s'.execs[e].Dead?
    decreases |steps|
  {
    if steps != [] {
      DeadForGood(After(s, steps[0]), steps[1..], s', e);
    }
  }

  /** `wait_for` can give up whenever it waits. It cancels the Future, unless that was settled already, and then no
      result, however late, is ever put into it; the execution has failed. */
  lemma TimedOutForGood(s: State, e: string, steps: seq<Step>, s': State)
    requires Reachable(s) && e in s.execs && s.execs[e].Waiting?
    requires Enabled(s, Timeout(e)) ==> Run(After(s, Timeout(e)), steps) == Some(s')
    ensures Enabled(s, Timeout(e))
    ensures var k := s.execs[e].visit;
            && k < |s.table.futures| && k < |s'.table.futures|
            && s'.table.futures[k] == (if s.table.futures[k].Unsettled? then Cancelled else s.table.futures[k])
    ensures e in s'.execs && s'.execs[e].Dead?
  {
    ReachableInv(s);
    WaitsForLatest(s, e);
    StepKeeps(s, Timeout(e));
    SettledForGood(After(s, Timeout(e)), steps, s.execs[e].visit);
    DeadForGood(After(s, Timeout(e)), steps, s', e);
  }

  // ---- Results ----

  /** The result of a task turns its still unsettled Future into the value it carries, or into the error. */
  lemma ResultIsPutIn(s: State)
    requires Reachable(s) && Enabled(s, HandleNext) && s.results[s.handled].taskId < |s.table.futures|
    requires s.table.futures[s.results[s.handled].taskId].Unsettled?
    ensures var r, s' := s.results[s.handled], After(s, HandleNext);
            && r.taskId < |s'.table.futures|
            && match r.status
               case Completed(output) => s'.table.futures[r.taskId] == HasResult(output)
               case NotCompleted(error) => s'.table.futures[r.taskId] == HasException(error)
  {
    NoLostWakeUp(s);
  }

  /** A waiting execution stores the value of its Future and goes on, or fails with the error of its Future. */
  lemma WaiterTakesOver(s: State, e: string)
    requires Reachable(s) && e in s.execs && s.execs[e].Waiting?
    ensures var k := s.execs[e].visit;
            && k < |s.table.futures|
            && match s.table.futures[k]
               case HasResult(v) =>
                 && Enabled(s, Collect(e)) && After(s, Collect(e)).execs == s.execs[e := Between]
                 && After(s, Collect(e)).stored == s.stored[k := v]
               case HasException(_) =>
                 && Enabled(s, Collect(e)) && After(s, Collect(e)).execs == s.execs[e := Dead]
                 && After(s, Collect(e)).stored == s.stored
               case Unsettled => !Enabled(s, Collect(e))
               case Cancelled => false
  {
    ReachableInv(s);
    WaitsForLatest(s, e);
  }

  /** A result that was delivered but not applied before an acknowledgement raised never reaches a Future. */
  lemma {:induction false} AbandonedForGood(s: State, steps: seq<Step>, s': State, j: nat)
    requires Run(s, steps) == Some(s') && j < s.handled && j !in s.applied
    ensures j < s'.handled && j !in s'.applied
    decreases |steps|
  {
    if steps != [] {
      AbandonedForGood(After(s, steps[0]), steps[1..], s', j);
    }
  }

  lemma AbandoningGivesUp(s: State, steps: seq<Step>, s': State, j: nat)
    requires Reachable(s) && Enabled(s, AbandonBatch) && s.handled <= j < s.read
    requires Run(After(s, AbandonBatch), steps) == Some(s')
    ensures j !in s'.applied
  {
    ReachableInv(s);
    AbandonedForGood(After(s, AbandonBatch), steps, s', j);
  }

  /** Tasks and results are there for delivery as soon as they are appended. */
  lemma AppendedIsDelivered(s: State)
    requires Reachable(s)
    ensures |s.jobs| < |s.tasks| <==> Enabled(s, Deliver)
    ensures s.handled == s.read < |s.results| ==>
              Enabled(s, Read(|s.results|)) && Enabled(After(s, Read(|s.results|)), HandleNext)
  {
    ReachableInv(s);
  }
}
