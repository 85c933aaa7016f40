/** What the commits and status events of one run look like from outside
    (services/platform-api/src/executions/executor.py, lines 21-35 and 81-127). */
module ExecutionEvents {
  import opened Common
  import opened Workflow
  import opened Interpreter
  import opened Executor

  /** Every event shows the row exactly as it was committed just before. */
  ghost predicate Agreement(log: seq<Effect>) {
    forall i :: 0 <= i < |log| && log[i].Published? ==> i > 0 && log[i - 1] == Committed(log[i].row)
  }

  lemma AnnounceAgrees(log: seq<Effect>, row: Row, env: Env, k: nat)
    requires Agreement(log)
    ensures Agreement(log + Announce(row, env, k))
  {
  }

  lemma ExtendAgrees(log: seq<Effect>, steps: seq<Step>, env: Env, r: Run, r': Run)
    requires Agreement(log)
    ensures Agreement(Extend(log, steps, env, r, r'))
  {
    var log1 := log + EntryEffects(env, r, r');
    AnnounceAgrees(log, EntryRow(r, r'), env, |r'.visited|);
    var log2 := log1 + StepEffects(steps, r, r');
    AnnounceAgrees(log2, FinalRow(r'), env, |r'.visited| + 1);
  }

  lemma {:induction false} EffectsAgree(steps: seq<Step>, env: Env, runs: seq<Run>)
    ensures Agreement(Effects(steps, env, runs))
    decreases |runs|
  {
    if |runs| == 1 {
      AnnounceAgrees([], RunningRow(runs[0]), env, 0);
      assert [] + Effects(steps, env, runs) == Effects(steps, env, runs);
    } else if runs != [] {
      EffectsAgree(steps, env, runs[..|runs| - 1]);
      ExtendAgrees(Effects(steps, env, runs[..|runs| - 1]), steps, env, runs[|runs| - 2], runs[|runs| - 1]);
    }
  }

  // ---- The events themselves ----

  function PublishedRows(log: seq<Effect>): seq<Row> {
    if log == [] then []
    else PublishedRows(log[..|log| - 1]) + (if log[|log| - 1].Published? then [log[|log| - 1].row] else [])
  }

  function EntryRows(r: Run, r': Run): seq<Row> {
    if |r'.visited| > |r.visited| then [EntryRow(r, r')] else []
  }

  function FinalRows(r: Run, r': Run): seq<Row> {
    if r.phase.Going? && !r'.phase.Going? then [FinalRow(r')] else []
  }

  /** The rows announced by a run that has passed through `runs`, in order. */
  function Announced(runs: seq<Run>): seq<Row> {
    if runs == [] then []
    else if |runs| == 1 then [RunningRow(runs[0])]
    else
      var r, r' := runs[|runs| - 2], runs[|runs| - 1];
      Announced(runs[..|runs| - 1]) + EntryRows(r, r') + FinalRows(r, r')
  }

  /** Those of the announced rows whose publication reaches the stream. */
  function Kept(rows: seq<Row>, env: Env): seq<Row> {
    if rows == [] then []
    else Kept(rows[..|rows| - 1], env) + (if env.publishes(|rows| - 1) then [rows[|rows| - 1]] else [])
  }

  lemma {:induction false} PublishedConcat(a: seq<Effect>, b: seq<Effect>)
    ensures PublishedRows(a + b) == PublishedRows(a) + PublishedRows(b)
    decreases |b|
  {
    if b == [] {
      assert a + b == a;
    } else {
      var last := |b| - 1;
      assert (a + b)[..|a + b| - 1] == a + b[..last];
      PublishedConcat(a, b[..last]);
    }
  }

  lemma PublishedAnnounce(log: seq<Effect>, rows: seq<Row>, row: Row, env: Env)
    requires PublishedRows(log) == Kept(rows, env)
    ensures PublishedRows(log + Announce(row, env, |rows|)) == Kept(rows + [row], env)
  {
    assert (rows + [row])[..|rows|] == rows;
    if env.publishes(|rows|) {
      var tail := [Committed(row), Published(row)];
      assert (log + tail)[..|log| + 1] == log + [Committed(row)] && (log + [Committed(row)])[..|log|] == log;
    } else {
      assert (log + [Committed(row)])[..|log|] == log;
    }
  }

  lemma PublishedCommit(log: seq<Effect>, row: Row)
    ensures PublishedRows(log + [Committed(row)]) == PublishedRows(log)
  {
    assert (log + [Committed(row)])[..|log|] == log;
  }

  /** A first row, one row per entered step, and once the run is over its final row. */
  ghost predicate Shape(r: Run, rows: seq<Row>, context: Context) {
    && |rows| == |r.visited| + (if r.phase.Going? then 1 else 2)
    && rows[0] == Row(Running, context, None, false)
    && (forall k :: 0 < k <= |r.visited| ==> rows[k].status == Running && rows[k].currentStep == Some(r.visited[k - 1]))
    && (!r.phase.Going? ==> rows[|r.visited| + 1] == FinalRow(r))
  }

  /** One turn of a run: nothing, or one more step entered and possibly the end. */
  ghost predicate IsTurn(r: Run, r': Run) {
    if !r.phase.Going? then r' == r
    else
      && r.visited <= r'.visited && |r'.visited| <= |r.visited| + 1
      && (r'.phase.Going? ==> |r'.visited| == |r.visited| + 1)
  }

  /** The course of a run from its beginning. */
  ghost predicate Course(runs: seq<Run>, context: Context) {
    && runs != [] && runs[0].context == context && runs[0].visited == [] && runs[0].phase.Going?
    && forall k :: 0 < k < |runs| ==> IsTurn(runs[k - 1], runs[k])
  }

  lemma VisitIsTurn(steps: seq<Step>, env: Env, r: Run)
    ensures IsTurn(r, Visit(steps, env, r))
  {
  }

  lemma RunsAreCourses(steps: seq<Step>, env: Env, context: Context, n: nat)
    ensures Course(Runs(steps, env, context, n), context)
  {
    var runs := Runs(steps, env, context, n);
    forall k | 0 < k < |runs| ensures IsTurn(runs[k - 1], runs[k]) {
      VisitIsTurn(steps, env, After(steps, env, context, k - 1));
    }
  }

  lemma ShapeKept(r: Run, r': Run, rows: seq<Row>, context: Context)
    requires Shape(r, rows, context) && IsTurn(r, r')
    ensures Shape(r', rows + EntryRows(r, r') + FinalRows(r, r'), context)
  {
    var rows' := rows + EntryRows(r, r') + FinalRows(r, r');
    assert forall k :: 0 <= k < |rows| ==> rows'[k] == rows[k];
  }

  lemma {:induction false} AnnouncedShape(runs: seq<Run>, context: Context)
    requires Course(runs, context)
    ensures Shape(runs[|runs| - 1], Announced(runs), context)
    decreases |runs|
  {
    var last := |runs| - 1;
    if last > 0 {
      AnnouncedShape(runs[..last], context);
      ShapeKept(runs[last - 1], runs[last], Announced(runs[..last]), context);
    }
  }

  lemma PublishedMaybe(log: seq<Effect>, rows: seq<Row>, row: Row, env: Env, announced: bool)
    requires PublishedRows(log) == Kept(rows, env)
    ensures PublishedRows(log + if announced then Announce(row, env, |rows|) else [])
              == Kept(rows + if announced then [row] else [], env)
  {
    if announced {
      PublishedAnnounce(log, rows, row, env);
    } else {
      assert log + [] == log && rows + [] == rows;
    }
  }

  lemma PublishedStep(log: seq<Effect>, steps: seq<Step>, r: Run, r': Run)
    ensures PublishedRows(log + StepEffects(steps, r, r')) == PublishedRows(log)
  {
    PublishedCommit(log, RunningRow(r'));
    assert log + [] == log;
  }

  lemma TurnAnnounces(steps: seq<Step>, env: Env, r: Run, r': Run, log: seq<Effect>, rows: seq<Row>)
    requires PublishedRows(log) == Kept(rows, env) && IsTurn(r, r')
    requires |rows| == |r.visited| + (if r.phase.Going? then 1 else 2)
    ensures PublishedRows(Extend(log, steps, env, r, r')) == Kept(rows + EntryRows(r, r') + FinalRows(r, r'), env)
  {
    var log1, rows1 := log + EntryEffects(env, r, r'), rows + EntryRows(r, r');
    PublishedMaybe(log, rows, EntryRow(r, r'), env, |r'.visited| > |r.visited|);
    PublishedStep(log1, steps, r, r');
    PublishedMaybe(log1 + StepEffects(steps, r, r'), rows1, FinalRow(r'), env, r.phase.Going? && !r'.phase.Going?);
  }

  lemma FirstEvent(row: Row, env: Env)
    ensures PublishedRows(Announce(row, env, 0)) == Kept([row], env)
  {
    PublishedAnnounce([], [], row, env);
    assert [] + Announce(row, env, 0) == Announce(row, env, 0) && [] + [row] == [row];
  }

  /** The status stream receives exactly the announced rows whose publication goes through. */
  lemma {:induction false} EventsAreAnnouncements(steps: seq<Step>, env: Env, runs: seq<Run>, context: Context)
    requires Course(runs, context)
    ensures PublishedRows(Effects(steps, env, runs)) == Kept(Announced(runs), env)
    decreases |runs|
  {
    var last := |runs| - 1;
    if last == 0 {
      FirstEvent(RunningRow(runs[0]), env);
    } else {
      EventsAreAnnouncements(steps, env, runs[..last], context);
      AnnouncedShape(runs[..last], context);
      TurnAnnounces(steps, env, runs[last - 1], runs[last], Effects(steps, env, runs[..last]), Announced(runs[..last]));
    }
  }

  lemma {:induction false} ReliableKeepsAll(rows: seq<Row>, env: Env)
    requires forall k :: env.publishes(k)
    ensures Kept(rows, env) == rows
  {
    if rows != [] {
      ReliableKeepsAll(rows[..|rows| - 1], env);
    }
  }

  /** The row of a run that is over: completed with the run's context, or failed with the exception's text under
      `_error` and everything else as it was. */
  ghost predicate Terminal(row: Row, r: Run) {
    match r.phase
    case Finished => row == Row(Completed, r.context, None, true)
    case Crashed(error) =>
      row == Row(Status.Failed, r.context["_error" := Leaf(error)],
                 if r.visited == [] then None else Some(r.visited[|r.visited| - 1]), false)
    case Going => false
  }

  // ---- Main results, for every definition, context, environment and number of turns ----

  /** Commit-publish agreement, whatever publications are lost. */
  lemma EventsAgreeWithCommits(steps: seq<Step>, env: Env, context: Context, n: nat)
    ensures Agreement(Effects(steps, env, Runs(steps, env, context, n)))
  {
    EffectsAgree(steps, env, Runs(steps, env, context, n));
  }

  /** With reliable publishing the events of a halted run are `running` without a step, `running` once per entered
      step in order, and one terminal event: `completed` comes with a completion time and no step, `failed` keeps the
      last entered step and has an `_error` entry. */
  lemma ReliableEvents(steps: seq<Step>, env: Env, context: Context, n: nat)
    requires Halted(steps, env, context, n) && forall k :: env.publishes(k)
    ensures var w, rows := After(steps, env, context, n).visited,
              PublishedRows(Effects(steps, env, Runs(steps, env, context, n)));
            && |rows| == |w| + 2
            && rows[0] == Row(Running, context, None, false)
            && (forall k :: 0 < k <= |w| ==> rows[k].status == Running && rows[k].currentStep == Some(w[k - 1]))
            && Terminal(rows[|w| + 1], After(steps, env, context, n))
  {
    var runs := Runs(steps, env, context, n);
    RunsAreCourses(steps, env, context, n);
    EventsAreAnnouncements(steps, env, runs, context);
    ReliableKeepsAll(Announced(runs), env);
    AnnouncedShape(runs, context);
  }

  // ---- What is committed ----

  function LastCommit(log: seq<Effect>): Option<Row> {
    if log == [] then None
    else if log[|log| - 1].Committed? then Some(log[|log| - 1].row)
    else LastCommit(log[..|log| - 1])
  }

  lemma AnnounceCommits(log: seq<Effect>, row: Row, env: Env, k: nat)
    ensures LastCommit(log + Announce(row, env, k)) == Some(row)
  {
    var more := Announce(row, env, k);
    if env.publishes(k) {
      assert (log + more)[..|log| + 1] == log + [Committed(row)];
    }
  }

  /** The row a run stands for: as it goes on, or as it ended. */
  ghost predicate Durable(row: Row, r: Run) {
    if r.phase.Going? then
      row == Row(Running, r.context, if r.visited == [] then None else Some(r.visited[|r.visited| - 1]), false)
    else Terminal(row, r)
  }

  ghost predicate UpToDate(log: seq<Effect>, r: Run) {
    LastCommit(log).Some? && Durable(LastCommit(log).value, r)
  }

  lemma ConditionKeepsContext(steps: seq<Step>, env: Env, r: Run)
    ensures var r' := Visit(steps, env, r);
            r.phase.Going? && r'.phase.Going? && StepKind(steps, r'.visited) == "condition" ==> r'.context == r.context
  {
    if r.phase.Going? && Truthy(r.ref) && Lookup(steps, r.ref).Ok? {
      TurnFollowsEdge(steps, env, r, Lookup(steps, r.ref).value);
    }
  }

  lemma TurnCommits(steps: seq<Step>, env: Env, r: Run, log: seq<Effect>)
    requires UpToDate(log, r)
    ensures UpToDate(Extend(log, steps, env, r, Visit(steps, env, r)), Visit(steps, env, r))
  {
    var r' := Visit(steps, env, r);
    VisitIsTurn(steps, env, r);
    ConditionKeepsContext(steps, env, r);
    var log1 := log + EntryEffects(env, r, r');
    AnnounceCommits(log, EntryRow(r, r'), env, |r'.visited|);
    assert log + [] == log && log1 + [] == log1;
    var log2 := log1 + StepEffects(steps, r, r');
    AnnounceCommits(log2, FinalRow(r'), env, |r'.visited| + 1);
    assert log2 + [] == log2;
  }

  lemma StartIsCommitted(steps: seq<Step>, env: Env, context: Context)
    ensures UpToDate(Effects(steps, env, Runs(steps, env, context, 0)), Begin(steps, context))
  {
    var r := Begin(steps, context);
    assert Runs(steps, env, context, 0) == [r];
    AnnounceCommits([], RunningRow(r), env, 0);
    assert [] + Announce(RunningRow(r), env, 0) == Announce(RunningRow(r), env, 0);
  }

  /** After every turn the last commit is the run's own state: context, entered step, and the end once it is over. */
  lemma {:induction false} StateIsCommitted(steps: seq<Step>, env: Env, context: Context, n: nat)
    ensures UpToDate(Effects(steps, env, Runs(steps, env, context, n)), After(steps, env, context, n))
  {
    if n == 0 {
      StartIsCommitted(steps, env, context);
    } else {
      StateIsCommitted(steps, env, context, n - 1);
      EffectsOfTurn(steps, env, context, n - 1);
      TurnCommits(steps, env, After(steps, env, context, n - 1), Effects(steps, env, Runs(steps, env, context, n - 1)));
    }
  }

  /** A terminal row is the last of its sequence. */
  ghost predicate TerminalIsLast(rows: seq<Row>) {
    forall i :: 0 <= i < |rows| - 1 ==> rows[i].status == Running
  }

  lemma {:induction false} KeptTerminalIsLast(rows: seq<Row>, env: Env)
    requires forall i :: 0 <= i < |rows| ==> rows[i].status == Running
    ensures forall i :: 0 <= i < |Kept(rows, env)| ==> Kept(rows, env)[i].status == Running
  {
    if rows != [] {
      KeptTerminalIsLast(rows[..|rows| - 1], env);
    }
  }

  lemma ShapeEndsWithTerminal(r: Run, rows: seq<Row>, context: Context, env: Env)
    requires Shape(r, rows, context)
    ensures TerminalIsLast(Kept(rows, env))
  {
    var before := rows[..|rows| - 1];
    forall i | 0 <= i < |before| ensures before[i].status == Running {
      assert before[i] == rows[i];
    }
    KeptTerminalIsLast(before, env);
  }

  /** Whatever publications are lost, no event of a run follows its terminal one. */
  lemma NothingAfterTerminal(steps: seq<Step>, env: Env, context: Context, n: nat)
    ensures TerminalIsLast(PublishedRows(Effects(steps, env, Runs(steps, env, context, n))))
  {
    var runs := Runs(steps, env, context, n);
    RunsAreCourses(steps, env, context, n);
    EventsAreAnnouncements(steps, env, runs, context);
    AnnouncedShape(runs, context);
    ShapeEndsWithTerminal(runs[n], Announced(runs), context, env);
  }
}
