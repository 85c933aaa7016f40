/** services/platform-api/src/executions/executor.py: the loop that drives one execution row. */
module Executor {
  import opened Common
  import opened Tree
  import opened Graph
  import opened TransformGraph
  import opened Contexts
  import opened Transform
  import opened ContextDicts
  import opened Workflow
  import opened Interpreter

  datatype Status = Pending | Running | Completed | Failed

  datatype Row = Row(status: Status, context: Context, currentStep: Option<string>, completedAt: bool)

  /** What the outside sees, in order. */
  datatype Effect = Committed(row: Row) | Published(row: Row)

  // ---- Specification: the effects of a run ----

  function Last(w: seq<string>): Option<string> {
    if w == [] then None else Some(w[|w| - 1])
  }

  function RunningRow(r: Run): Row {
    Row(Running, r.context, Last(r.visited), false)
  }

  /** The row a halted run leaves. */
  function FinalRow(r: Run): Row {
    match r.phase
    case Crashed(error) => Row(Failed, r.context["_error" := Leaf(error)], Last(r.visited), false)
    case Finished => Row(Completed, r.context, None, true)
    case Going => RunningRow(r)
  }

  /** A commit and the k-th publication, which may not reach the stream. */
  function Announce(row: Row, env: Env, k: nat): seq<Effect> {
    if env.publishes(k) then [Committed(row), Published(row)] else [Committed(row)]
  }

  /** The row as it is committed when `r'` has just entered its last step. */
  function EntryRow(r: Run, r': Run): Row {
    Row(Running, r.context, Last(r'.visited), false)
  }

  function EntryEffects(env: Env, r: Run, r': Run): seq<Effect> {
    if |r'.visited| > |r.visited| then Announce(EntryRow(r, r'), env, |r'.visited|) else []
  }

  function StepEffects(steps: seq<Step>, r: Run, r': Run): seq<Effect> {
    if r.phase.Going? && r'.phase.Going? &&
        StepKind(steps, r'.visited) != "condition" then [Committed(RunningRow(r'))] else []
  }

  function FinalEffects(env: Env, r: Run, r': Run): seq<Effect> {
    if r.phase.Going? && !r'.phase.Going? then Announce(FinalRow(r'), env, |r'.visited| + 1) else []
  }

  /** The log once the turn that leads from `r` to `r'` is over. */
  function Extend(log: seq<Effect>, steps: seq<Step>, env: Env, r: Run, r': Run): seq<Effect> {
    log + EntryEffects(env, r, r') + StepEffects(steps, r, r') + FinalEffects(env, r, r')
  }

  function StepKind(steps: seq<Step>, w: seq<string>): string {
    if w != [] && FindStep(steps, w[|w| - 1]).Some? then FindStep(steps, w[|w| - 1]).value.kind else ""
  }

  /** All effects of a run that has passed through `runs`. */
  function Effects(steps: seq<Step>, env: Env, runs: seq<Run>): seq<Effect> {
    if runs == [] then []
    else if |runs| == 1 then Announce(RunningRow(runs[0]), env, 0)
    else Extend(Effects(steps, env, runs[..|runs| - 1]), steps, env, runs[|runs| - 2], runs[|runs| - 1])
  }

  lemma EffectsOfTurn(steps: seq<Step>, env: Env, context: Context, n: nat)
    ensures Effects(steps, env, Runs(steps, env, context, n + 1))
         == Extend(Effects(steps, env, Runs(steps, env, context, n)), steps, env, After(steps, env, context, n),
             After(steps, env, context, n + 1))
  {
    var runs := Runs(steps, env, context, n + 1);
    assert runs[..n + 1] == Runs(steps, env, context, n);
    assert runs[n] == After(steps, env, context, n) && runs[n + 1] == After(steps, env, context, n + 1);
  }

  /** The turn that meets a falsy reference ends the run. */
  lemma LastTurn(steps: seq<Step>, env: Env, context: Context, n: nat)
    requires var r := After(steps, env, context, n); r.phase.Going? && !Truthy(r.ref)
    ensures var r, r' := After(steps, env, context, n), After(steps, env, context, n + 1);
            && r' == r.(phase := Finished)
            && Effects(steps, env, Runs(steps, env, context, n + 1))
               == Effects(steps, env, Runs(steps, env, context, n)) + Announce(FinalRow(r'), env, |r.visited| + 1)
  {
    EffectsOfTurn(steps, env, context, n);
    var log := Effects(steps, env, Runs(steps, env, context, n));
    assert log + [] + [] == log;
  }

  /** The row and the log that a completed run leaves. */
  lemma CompletedRun(steps: seq<Step>, env: Env, start: Context, n: nat, before: seq<Effect>, row: Row,
      after: seq<Effect>)
    requires var r := After(steps, env, start, n);
             && r.phase.Going? && !Truthy(r.ref) && row == Row(Completed, r.context, None, true)
             && before == Effects(steps, env, Runs(steps, env, start, n))
             && after == before + Announce(row, env, |r.visited| + 1)
    ensures Halted(steps, env, start, n + 1) && row == FinalRow(After(steps, env, start, n + 1))
    ensures after == Effects(steps, env, Runs(steps, env, start, n + 1))
  {
    LastTurn(steps, env, start, n);
  }

  // ---- The imperative executor ----

  /** No transform of the definition can leave anything shared. */
  ghost predicate CarefulDefinition(steps: seq<Step>) {
    forall i :: 0 <= i < |steps| && steps[i].kind == "transform" ==> Careful(steps[i].config.entries)
  }

  /** A transform with independent destinations fails exactly if some entry does on the context as it was, and otherwise
      leaves the simultaneous update of it. */
  ghost predicate UpdatesOrFails(entries: seq<Entry>, before: Context, after: Context, failed: bool) {
    && (failed <==> SomeFails(entries, Obj(before)))
    && (if failed then after == before else forall p :: UpdatedAt(entries, before, Obj(before), Obj(after), p))
  }

  lemma IndependentUpdates(entries: seq<Entry>, before: Context)
    ensures Independent(entries) ==>
              var r := Tree.ApplyTransform(entries, before);
              UpdatesOrFails(entries, before, if r.Ok? then r.value else before, r.Raise?)
  {
    if Independent(entries) {
      var r := Tree.ApplyTransform(entries, before);
      ApplyMeaning(entries, before, before, []);
      if r.Ok? {
        forall p ensures UpdatedAt(entries, before, Obj(before), Obj(r.value), p) {
          ApplyMeaning(entries, before, before, p);
        }
      }
    }
  }

  /** The `ProcessExecution` row, whose context is a dict, and the log of what was committed and published. */
  class Execution {
    var status: Status
    var context: Dict
    var currentStepId: Option<string>
    var completedAt: bool
    var log: seq<Effect>
    var publications: nat
    ghost var dicts: set<Dict>
    ghost var value: Context

    ghost predicate Valid()
      reads this, dicts
    {
      Holds(dicts, context, value)
    }

    /** The row as it is read from the database. */
    constructor (fields: Context)
      ensures Valid() && fresh(dicts)
      ensures Current() == Row(Pending, fields, None, false) && log == [] && publications == 0
    {
      var d, made := LoadFields(fields);
      status, context, currentStepId, completedAt := Pending, d, None, false;
      log, publications, dicts, value := [], 0, made, fields;
    }

    ghost function Current(): Row
      reads this
    {
      Row(status, value, currentStepId, completedAt)
    }

    method Commit()
      requires Valid()
      modifies this`log
      ensures Valid() && log == old(log) + [Committed(Current())]
    {
      var stored := Store(Node(context), dicts, Obj(value));
      log := log + [Committed(Row(status, stored.fields, currentStepId, completedAt))];
    }

    /** `_publish_status_change` never raises. */
    method Publish(env: Env)
      requires Valid()
      modifies this`log, this`publications
      ensures Valid()
      ensures log == old(log) + (if env.publishes(old(publications)) then [Published(Current())] else [])
      ensures publications == old(publications) + 1
    {
      if env.publishes(publications) {
        var sent := Store(Node(context), dicts, Obj(value));
        log := log + [Published(Row(status, sent.fields, currentStepId, completedAt))];
      }
      publications := publications + 1;
    }

    /** The row stands where run `r` of the interpreter stands, and announced as many rows. */
    ghost predicate At(r: Run)
      reads this, dicts
    {
      Valid() && r.phase.Going? && Current() == RunningRow(r) && publications == |r.visited| + 1
    }

    /** `{**execution.context, key: j}` becomes the context. */
    method SetKey(key: string, j: Json)
      requires Valid()
      modifies this`context, this`dicts, this`value
      ensures Valid() && fresh(dicts - old(dicts)) && value == old(value)[key := j]
    {
      var v, made := Load(j);
      context, dicts := WithKey(context, key, v, dicts, value, made, j);
      value := value[key := j];
    }

    /** `execution.context = apply_transform(...)`. */
    method TransformContext(entries: seq<Entry>) returns (raised: Option<string>)
      requires Valid() && Careful(entries)
      modifies this`context, this`dicts, this`value, dicts
      ensures Valid() && fresh(dicts - old(dicts)) && raised == Ending(entries, old(value))
      ensures value == if raised.None? then Tree.ApplyTransform(entries, old(value)).value else old(value)
    {
      var result;
      ghost var all;
      raised, result, all := Update(entries, context, dicts, value);
      if raised.None? {
        context, dicts, value := result, all, Tree.ApplyTransform(entries, value).value;
      }
    }

    /** The `match` on the step's type; only a transform or an agent's answer replaces the context. */
    method PerformStep(step: Step, env: Env, visit: nat) returns (next: Outcome<Ref>)
      requires Valid() && (step.kind == "transform" ==> Careful(step.config.entries))
      modifies this`context, this`dicts, this`value, dicts
      ensures Valid() && fresh(dicts - old(dicts))
      ensures step.kind == "transform" && Independent(step.config.entries) ==>
                UpdatesOrFails(step.config.entries, old(value), value, next.Raise?)
      ensures match Perform(step, old(value), visit, env)
              case Ok((ref, context')) => next == Ok(ref) && value == context'
              case Raise(error) => next == Raise(error) && value == old(value)
    {
      if step.kind == "condition" {
        var read := Store(Node(context), dicts, Obj(value));
        next := EvaluateCondition(step.config, read.fields, env);
        return;
      } else if step.kind == "transform" {
        var raised := TransformContext(step.config.entries);
        ghost var was := old(value);
        IndependentUpdates(step.config.entries, was);
        if raised.Some? {
          return Raise(raised.value);
        }
      } else if step.kind == "agent" {
        var answer := env.agent(visit);
        match answer {
          case Returned(output) => SetKey(step.id, output);
          case TimedOut => return Raise("Timeout on step '" + step.id + "'");
          case Errored(error) => return Raise(error);
        }
      }
      next := Ok(step.next);
    }

    /** Lines 96 to 109: only a condition goes on without a commit. */
    method PerformAndCommit(step: Step, env: Env, visit: nat) returns (next: Outcome<Ref>)
      requires Valid() && (step.kind == "transform" ==> Careful(step.config.entries))
      modifies this`context, this`dicts, this`value, this`log, dicts
      ensures Valid() && fresh(dicts - old(dicts))
      ensures match Perform(step, old(value), visit, env)
              case Ok((ref, context')) => next == Ok(ref) && value == context'
              case Raise(error) => next == Raise(error) && value == old(value)
      ensures log == old(log) + if next.Ok? && step.kind != "condition" then [Committed(Current())] else []
    {
      next := PerformStep(step, env, visit);
      if next.Ok? && step.kind != "condition" {
        Commit();
      }
    }

    /** Lines 92 to 94: the step is entered. */
    method EnterStep(step: Step, env: Env, ghost r: Run, ghost r': Run)
      requires At(r) && r'.visited == r.visited + [step.id]
      modifies this`currentStepId, this`log, this`publications
      ensures Valid() && Current() == EntryRow(r, r') && publications == |r'.visited| + 1
      ensures log == old(log) + EntryEffects(env, r, r')
    {
      currentStepId := Some(step.id);
      Commit();
      Publish(env);
    }

    /** One turn of the loop for a truthy reference; `Raise` hands an exception to the handlers. `visit` only
        says which agent outcome of the environment is meant. */
    method Turn(steps: seq<Step>, env: Env, ref: Ref, visit: nat, ghost r: Run) returns (next: Outcome<Ref>)
      requires CarefulDefinition(steps)
      requires At(r) && r.ref == ref && Truthy(ref) && |r.visited| == visit
      modifies this, dicts
      ensures Valid() && fresh(dicts - old(dicts))
      ensures var r' := Visit(steps, env, r);
              match next
              case Ok(ref') => At(r') && r'.ref == ref' && log == Extend(old(log), steps, env, r, r')
              case Raise(error) =>
                && r'.phase == Crashed(error) && Current() == RunningRow(r') && publications == |r'.visited| + 1
                && log + Announce(FinalRow(r'), env, publications) == Extend(old(log), steps, env, r, r')
    {
      ghost var r' := Visit(steps, env, r);
      var found := Lookup(steps, ref);
      if found.Raise? {
        return Raise(found.error);
      }
      var step := found.value;
      FindStepFinds(steps, ref.id);
      EnterStep(step, env, r, r');
      next := PerformAndCommit(step, env, visit);
    }

    /** The handlers of `execute_workflow`: both write the exception's text under `_error`. */
    method Fail(error: string, env: Env)
      requires Valid()
      modifies this
      ensures Valid() && fresh(dicts - old(dicts))
      ensures Current() == Row(Failed, old(value)["_error" := Leaf(error)], old(currentStepId), old(completedAt))
      ensures log == old(log) + Announce(Current(), env, old(publications))
    {
      status := Failed;
      SetKey("_error", Leaf(error));
      Commit();
      Publish(env);
    }

    method Complete(env: Env)
      requires Valid()
      modifies this
      ensures Valid() && dicts == old(dicts)
      ensures Current() == Row(Completed, old(value), None, true)
      ensures log == old(log) + Announce(Current(), env, old(publications))
    {
      status, currentStepId, completedAt := Completed, None, true;
      Commit();
      Publish(env);
    }

    /** The loop is about to take its turn `n`, on `ref`. */
    ghost predicate Stands(steps: seq<Step>, env: Env, start: Context, n: nat, ref: Ref)
      reads this, dicts
    {
      var r := After(steps, env, start, n);
      At(r) && r.ref == ref && log == Effects(steps, env, Runs(steps, env, start, n))
    }

    /** An exception has left the loop after `n` turns; what the handler writes is still to come. */
    ghost predicate Broke(steps: seq<Step>, env: Env, start: Context, n: nat, error: string)
      reads this, dicts
    {
      var r := After(steps, env, start, n);
      && Valid() && r.phase == Crashed(error) && Current() == RunningRow(r)
      && log + Announce(FinalRow(r), env, publications) == Effects(steps, env, Runs(steps, env, start, n))
    }

    method NextTurn(steps: seq<Step>, env: Env, ref: Ref, visit: nat, ghost start: Context) returns (next: Outcome<Ref>)
      requires CarefulDefinition(steps) && Stands(steps, env, start, visit, ref) && Truthy(ref)
      modifies this, dicts
      ensures fresh(dicts - old(dicts))
      ensures match next
              case Ok(ref') => Stands(steps, env, start, visit + 1, ref')
              case Raise(error) => Broke(steps, env, start, visit + 1, error)
    {
      OneVisitPerTurn(steps, env, start, visit);
      EffectsOfTurn(steps, env, start, visit);
      next := Turn(steps, env, ref, visit, After(steps, env, start, visit));
    }

    /** The loop inside the `try` block, for a run that halts within `bound` turns. It ends after `turns` turns,
        on a falsy reference or with an exception. */
    method RunSteps(steps: seq<Step>, env: Env, ghost start: Context, ghost bound: nat)
      returns (raised: Option<string>, ghost turns: nat)
      requires CarefulDefinition(steps) && Stands(steps, env, start, 0, Begin(steps, start).ref)
      requires Halted(steps, env, start, bound)
      modifies this, dicts
      ensures fresh(dicts - old(dicts)) && turns <= bound
      ensures match raised
              case None => turns < bound && exists ref :: Stands(steps, env, start, turns, ref) && !Truthy(ref)
              case Some(error) => Broke(steps, env, start, turns, error)
    {
      var ref := if steps == [] then NoRef else Name(steps[0].id);
      var visit := 0;
      while Truthy(ref)
        invariant visit <= bound && fresh(dicts - old(dicts)) && Stands(steps, env, start, visit, ref)
        decreases bound - visit
      {
        StandingIsGoing(steps, env, start, visit, bound, ref);
        var next := NextTurn(steps, env, ref, visit, start);
        visit := visit + 1;
        if next.Raise? {
          return Some(next.error), visit;
        }
        ref := next.value;
      }
      StandingIsGoing(steps, env, start, visit, bound, ref);
      raised, turns := None, visit;
    }

    lemma StandingIsGoing(steps: seq<Step>, env: Env, start: Context, n: nat, bound: nat, ref: Ref)
      requires Stands(steps, env, start, n, ref) && n <= bound && Halted(steps, env, start, bound)
      ensures n < bound
    {
      assert n == bound ==> Halted(steps, env, start, n);
    }

    method StartRun(ghost steps: seq<Step>, env: Env)
      requires Valid() && Current() == Row(Pending, value, None, false) && log == [] && publications == 0
      modifies this
      ensures dicts == old(dicts)
      ensures Stands(steps, env, old(value), 0, Begin(steps, old(value)).ref)
    {
      status := Running;
      Commit();
      Publish(env);
    }

    /** The row and the log after a run that is over. */
    ghost predicate IsOver(steps: seq<Step>, env: Env, start: Context, n: nat)
      reads this, dicts
    {
      && Valid() && Halted(steps, env, start, n) && Current() == FinalRow(After(steps, env, start, n))
      && log == Effects(steps, env, Runs(steps, env, start, n))
    }

    method FailRun(error: string, ghost steps: seq<Step>, env: Env, ghost start: Context, ghost n: nat)
      requires Broke(steps, env, start, n, error)
      modifies this
      ensures fresh(dicts - old(dicts)) && IsOver(steps, env, start, n)
    {
      Fail(error, env);
    }

    method CompleteRun(ghost steps: seq<Step>, env: Env, ghost start: Context, ghost n: nat)
      requires exists ref :: Stands(steps, env, start, n, ref) && !Truthy(ref)
      modifies this
      ensures dicts == old(dicts) && IsOver(steps, env, start, n + 1)
    {
      ghost var before := log;
      Complete(env);
      CompletedRun(steps, env, start, n, before, Current(), log);
    }

    /** `execute_workflow` for a careful definition and a run that halts within `bound` turns: it takes the turns up to
        the one that halts, the row ends as the interpreter's run does, and commits and events are those of its
        turns. */
    method ExecuteWorkflow(steps: seq<Step>, env: Env, ghost bound: nat) returns (ghost turns: nat)
      requires CarefulDefinition(steps)
      requires Valid() && Current() == Row(Pending, value, None, false) && log == [] && publications == 0
      requires Halted(steps, env, value, bound)
      modifies this, dicts
      ensures turns <= bound && IsOver(steps, env, old(value), turns)
    {
      ghost var start := value;
      StartRun(steps, env);
      var raised;
      raised, turns := RunSteps(steps, env, start, bound);
      if raised.Some? {
        FailRun(raised.value, steps, env, start, turns);
      } else {
        CompleteRun(steps, env, start, turns);
        turns := turns + 1;
      }
    }
  }
}
