/** How a worker turns task entries into results: services/agent-orchestration/src/consumer/redis_consumer.py. */
module AgentConsumer {
  import opened Common
  import opened Dispatcher
  import opened Protocol

  datatype RunOutcome = Returns(status: Status) | RunRaises(error: string)

  /** An append to a stream: it succeeds, it raises although the entry arrived, or it raises without effect. */
  datatype Delivery = Arrives | ArrivesAndRaises(error: string) | GetsLost(error: string)

  /** Everything outside the worker that processing one entry depends on; `ack` says whether the final
      acknowledgement goes through. */
  datatype Pattern = Pattern(run: RunOutcome, publish: Delivery, logWrite: Option<string>, publishFailure: Delivery,
      ack: bool)

  datatype StreamEntry = StreamEntry(result: Result, handlerMade: bool)

  function ErrorOf(pat: Pattern): string {
    if pat.run.RunRaises? then pat.run.error
    else if !pat.publish.Arrives? then pat.publish.error
    else if pat.logWrite.Some? then pat.logWrite.value
    else ""
  }

  /** The results that processing an entry adds to the stream. */
  function Gained(entry: Option<Task>, pat: Pattern): seq<StreamEntry> {
    match entry
    case None => []
    case Some(t) =>
      var second := StreamEntry(ResultFor(t, NotCompleted(ErrorOf(pat))), true);
      if pat.run.RunRaises? || pat.publish.GetsLost? then (if pat.publishFailure.GetsLost? then [] else [second])
      else
        var first := StreamEntry(ResultFor(t, pat.run.status), false);
        if (pat.publish.Arrives? && pat.logWrite.None?) || pat.publishFailure.GetsLost? then [first]
        else [first, second]
  }

  /** At most one ordinary result, then at most one made by the handler, and that one is `failed`; nothing at all
      exactly for a malformed entry or when the handler's publication was the only one and was lost. */
  lemma GainedFacts(entry: Option<Task>, pat: Pattern)
    ensures var g := Gained(entry, pat);
            && |g| <= 2
            && (forall j :: 0 <= j < |g| ==>
                  entry.Some? && g[j].result.taskId == entry.value.taskId && g[j].result.exec == entry.value.exec)
            && (forall j :: 0 <= j < |g| && g[j].handlerMade ==> g[j].result.status.NotCompleted? && j == |g| - 1)
            && (|g| == 2 ==> !g[0].handlerMade && g[1].handlerMade)
            && (g == [] <==>
                  entry.None? || ((pat.run.RunRaises? || pat.publish.GetsLost?) && pat.publishFailure.GetsLost?))
  {
  }

  /** What the results say. The runner's own result is published unless it raised; the handler's carries the text of
      whatever raised first: the run, the publication, or the log write. */
  lemma GainedMeaning(t: Task, pat: Pattern)
    ensures var g := Gained(Some(t), pat);
            && (forall r :: r in g && !r.handlerMade ==>
                  pat.run.Returns? && r.result == Result(t.taskId, t.exec, pat.run.status))
            && (forall r, text :: r in g && r.handlerMade && r.result.status == NotCompleted(text) ==>
                  || pat.run == RunOutcome.RunRaises(text)
                  || (pat.run.Returns? && !pat.publish.Arrives? && pat.publish.error == text)
                  || (pat.run.Returns? && pat.publish.Arrives? && pat.logWrite == Some(text)))
            && ((exists r :: r in g && !r.handlerMade) <==> pat.run.Returns? && !pat.publish.GetsLost?)
            && ((exists r :: r in g && r.handlerMade) <==>
                  && (pat.run.RunRaises? || !pat.publish.Arrives? || pat.logWrite.Some?)
                  && !pat.publishFailure.GetsLost?)
  {
    var g := Gained(Some(t), pat);
    if g != [] {
      assert g[0] in g && g[|g| - 1] in g;
    }
  }

  class Worker {
    var results: seq<StreamEntry>
    var acked: seq<nat>

    constructor ()
      ensures results == [] && acked == []
    {
      results, acked := [], [];
    }

    /** `ResultPublisher.publish`. */
    method Publish(r: StreamEntry, how: Delivery) returns (raised: bool)
      modifies this`results
      ensures results == (if how.GetsLost? then old(results) else old(results) + [r])
      ensures raised <==> !how.Arrives?
    {
      if !how.GetsLost? {
        results := results + [r];
      }
      raised := !how.Arrives?;
    }

    /** `_process`: every entry reaches the acknowledgement, whatever went wrong before. */
    method Process(entryId: nat, entry: Option<Task>, pat: Pattern)
      modifies this
      ensures results == old(results) + Gained(entry, pat)
      ensures acked == if pat.ack then old(acked) + [entryId] else old(acked)
    {
      if entry.Some? {
        var task := entry.value;
        var error: Option<string> := None;
        match pat.run {
          case RunRaises(e) => error := Some(e);
          case Returns(status) =>
            var raised := Publish(StreamEntry(ResultFor(task, status), false), pat.publish);
            if raised {
              error := Some(pat.publish.error);
            } else {
              error := pat.logWrite;
            }
        }
        if error.Some? {
          var _ := Publish(StreamEntry(ResultFor(task, NotCompleted(error.value)), true), pat.publishFailure);
        }
      }
      if pat.ack {
        acked := acked + [entryId];
      }
    }

    /** One delivered batch; an acknowledgement that raises abandons the rest of it. */
    method ProcessBatch(entries: seq<Option<Task>>, pats: seq<Pattern>) returns (processed: nat)
      requires |pats| == |entries|
      modifies this
      ensures processed <= |entries|
      ensures results == old(results) + AllGained(entries, pats, processed)
      ensures forall k :: 0 <= k < processed - 1 ==> pats[k].ack
      ensures processed < |entries| ==> processed > 0 && !pats[processed - 1].ack
    {
      processed := 0;
      while processed < |entries|
        invariant processed <= |entries|
        invariant results == old(results) + AllGained(entries, pats, processed)
        invariant forall k :: 0 <= k < processed ==> pats[k].ack
      {
        Process(processed, entries[processed], pats[processed]);
        processed := processed + 1;
        if !pats[processed - 1].ack {
          return;
        }
      }
    }
  }

  /** The results gained by the first `n` entries. */
  function AllGained(entries: seq<Option<Task>>, pats: seq<Pattern>, n: nat): seq<StreamEntry>
    requires n <= |entries| == |pats|
  {
    if n == 0 then [] else AllGained(entries, pats, n - 1) + Gained(entries[n - 1], pats[n - 1])
  }

  ghost predicate AllOf(g: seq<StreamEntry>, taskId: nat) {
    forall j :: 0 <= j < |g| ==> g[j].result.taskId == taskId
  }

  ghost predicate NoneOf(g: seq<StreamEntry>, taskId: nat) {
    forall j :: 0 <= j < |g| ==> g[j].result.taskId != taskId
  }

  ghost predicate IsEntryOf(entry: Option<Task>, taskId: nat) {
    entry.Some? && entry.value.taskId == taskId
  }

  ghost predicate OnlyEntryOf(entries: seq<Option<Task>>, k: nat, taskId: nat) {
    k < |entries| && forall j :: 0 <= j < |entries| ==> (IsEntryOf(entries[j], taskId) <==> j == k)
  }

  lemma GainedIsOf(entry: Option<Task>, pat: Pattern, taskId: nat)
    ensures if IsEntryOf(entry, taskId) then AllOf(Gained(entry, pat), taskId) else NoneOf(Gained(entry, pat), taskId)
  {
  }

  lemma {:induction false} NoneBefore(entries: seq<Option<Task>>, pats: seq<Pattern>, n: nat, k: nat, taskId: nat)
    requires n <= k && |entries| == |pats| && OnlyEntryOf(entries, k, taskId)
    ensures NoneOf(AllGained(entries, pats, n), taskId)
  {
    if n > 0 {
      NoneBefore(entries, pats, n - 1, k, taskId);
      GainedIsOf(entries[n - 1], pats[n - 1], taskId);
    }
  }

  lemma MoreAfter(front: seq<StreamEntry>, after: seq<StreamEntry>, g: seq<StreamEntry>, taskId: nat)
    requires NoneOf(after, taskId) && NoneOf(g, taskId)
    ensures front + after + g == front + (after + g) && NoneOf(after + g, taskId)
  {
  }

  lemma {:induction false} NoneAfter(entries: seq<Option<Task>>, pats: seq<Pattern>, n: nat, k: nat, taskId: nat)
    returns (after: seq<StreamEntry>)
    requires k < n <= |entries| == |pats| && OnlyEntryOf(entries, k, taskId)
    ensures AllGained(entries, pats, n) == AllGained(entries, pats, k + 1) + after && NoneOf(after, taskId)
  {
    if n == k + 1 {
      after := [];
    } else {
      var before := NoneAfter(entries, pats, n - 1, k, taskId);
      var g := Gained(entries[n - 1], pats[n - 1]);
      GainedIsOf(entries[n - 1], pats[n - 1], taskId);
      MoreAfter(AllGained(entries, pats, k + 1), before, g, taskId);
      after := before + g;
    }
  }

  /** Result counting: over any batch with one entry per task and any failures, the results of a task are those
      gained by its own entry: at most two, at most one not made by the error handler, a second one always `failed`
      and made by the handler, and none only if the handler's publication was lost too. */
  lemma ResultsPerTask(entries: seq<Option<Task>>, pats: seq<Pattern>, k: nat, taskId: nat)
    returns (before: seq<StreamEntry>, mine: seq<StreamEntry>, after: seq<StreamEntry>)
    requires |entries| == |pats| && OnlyEntryOf(entries, k, taskId)
    ensures AllGained(entries, pats, |entries|) == before + mine + after
    ensures NoneOf(before, taskId) && AllOf(mine, taskId) && NoneOf(after, taskId)
    ensures |mine| <= 2 && (|mine| == 2 ==> mine[1].handlerMade && mine[1].result.status.NotCompleted?)
    ensures forall j :: 0 <= j < |mine| && !mine[j].handlerMade ==> j == 0
    ensures mine == [] <==> (pats[k].run.RunRaises? || pats[k].publish.GetsLost?) && pats[k].publishFailure.GetsLost?
  {
    before, mine := AllGained(entries, pats, k), Gained(entries[k], pats[k]);
    NoneBefore(entries, pats, k, k, taskId);
    GainedIsOf(entries[k], pats[k], taskId);
    GainedFacts(entries[k], pats[k]);
    after := NoneAfter(entries, pats, |entries|, k, taskId);
  }

  // ---- The worker's steps in the dispatch protocol ----

  /** The protocol steps that processing a delivered task amounts to. */
  function JobSteps(i: nat, pat: Pattern): seq<Step> {
    var failure := PublishFailure(i, !pat.publishFailure.GetsLost?, ErrorOf(pat));
    if pat.run.RunRaises? || pat.publish.GetsLost? then [Step.RunRaises(i), failure]
    else if pat.publish.Arrives? && pat.logWrite.None? then [Step.Publish(i, pat.run.status), LogWritten(i)]
    else [Step.Publish(i, pat.run.status), AfterPublishRaises(i), failure]
  }

  function Bare(g: seq<StreamEntry>): seq<Result> {
    seq(|g|, j requires 0 <= j < |g| => g[j].result)
  }

  lemma TwoSteps(s: State, a: Step, b: Step)
    requires Enabled(s, a) && Enabled(After(s, a), b)
    ensures Run(s, [a, b]) == Some(After(After(s, a), b))
  {
    var s1 := After(s, a);
    assert [a, b][1..] == [b] && [b][1..] == [];
    assert Run(s, [a, b]) == Run(s1, [b]) == Run(After(s1, b), []);
  }

  lemma ThreeSteps(s: State, a: Step, b: Step, c: Step)
    requires Enabled(s, a) && Enabled(After(s, a), b) && Enabled(After(After(s, a), b), c)
    ensures Run(s, [a, b, c]) == Some(After(After(After(s, a), b), c))
  {
    assert [a, b, c][1..] == [b, c];
    TwoSteps(After(s, a), b, c);
  }

  /** What the error handler's publication adds to the stream. */
  function FailureResults(t: Task, failure: Step): seq<Result>
    requires failure.PublishFailure?
  {
    if failure.sent then [ResultFor(t, NotCompleted(failure.error))] else []
  }

  lemma NothingPublished(s: State, i: nat, failure: Step)
    requires JobIs(s, i, Running) && failure.PublishFailure? && failure.job == i
    ensures Run(s, [Step.RunRaises(i), failure])
         == Some(s.(jobs := s.jobs[i := Finished],
                    results := s.results + FailureResults(s.tasks[i], failure)))
  {
    TwoSteps(s, Step.RunRaises(i), failure);
    assert s.results + [] == s.results;
    assert s.jobs[i := Failing][i := Finished] == s.jobs[i := Finished];
  }

  lemma PublishedOnce(s: State, i: nat, status: Status)
    requires JobIs(s, i, Running)
    ensures Run(s, [Step.Publish(i, status), LogWritten(i)])
         == Some(s.(jobs := s.jobs[i := Finished], results := s.results + [ResultFor(s.tasks[i], status)]))
  {
    TwoSteps(s, Step.Publish(i, status), LogWritten(i));
    assert s.jobs[i := Published][i := Finished] == s.jobs[i := Finished];
  }

  lemma PublishedThenFailed(s: State, i: nat, status: Status, failure: Step)
    requires JobIs(s, i, Running) && failure.PublishFailure? && failure.job == i
    ensures Run(s, [Step.Publish(i, status), AfterPublishRaises(i), failure])
         == Some(s.(jobs := s.jobs[i := Finished],
                    results := s.results + ([ResultFor(s.tasks[i], status)] + FailureResults(s.tasks[i], failure))))
  {
    var first, second := [ResultFor(s.tasks[i], status)], [ResultFor(s.tasks[i], NotCompleted(failure.error))];
    assert s.results + first + second == s.results + (first + second) && first + [] == first;
    ThreeSteps(s, Step.Publish(i, status), AfterPublishRaises(i), failure);
    assert s.jobs[i := Published][i := Failing][i := Finished] == s.jobs[i := Finished];
  }

  /** Every way `_process` can go is a run of the protocol with the same results, after which the job is finished. */
  lemma WorkerRefinesProtocol(s: State, i: nat, pat: Pattern)
    requires JobIs(s, i, Running)
    ensures Run(s, JobSteps(i, pat))
         == Some(s.(jobs := s.jobs[i := Finished], results := s.results + Bare(Gained(Some(s.tasks[i]), pat))))
  {
    var failure := PublishFailure(i, !pat.publishFailure.GetsLost?, ErrorOf(pat));
    var bare := Bare(Gained(Some(s.tasks[i]), pat));
    var second := FailureResults(s.tasks[i], failure);
    if pat.run.RunRaises? || pat.publish.GetsLost? {
      NothingPublished(s, i, failure);
      assert bare == second && s.results + [] == s.results;
    } else if pat.publish.Arrives? && pat.logWrite.None? {
      PublishedOnce(s, i, pat.run.status);
      assert bare == [ResultFor(s.tasks[i], pat.run.status)];
    } else {
      PublishedThenFailed(s, i, pat.run.status, failure);
      assert bare == [ResultFor(s.tasks[i], pat.run.status)] + second;
    }
  }
}
