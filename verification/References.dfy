/** Which definitions can fail on a step that is not there: what `validate_steps` leaves open about `next` and about
    condition branches (services/platform-api/src/executions/executor.py, lines 87-99 and 122-127). */
module References {
  import opened Common
  import opened Workflow
  import opened Validator
  import opened Interpreter
  import opened ValidatedDefinition
  import Executor

  /** Null, empty, or the id of a declared step. */
  predicate Safe(steps: seq<Step>, ref: Ref) {
    !Truthy(ref) || (ref.Name? && FindStep(steps, ref.id).Some?)
  }

  predicate BranchSafe(steps: seq<Step>, c: Config, key: string) {
    c.branches.Some? && key in c.branches.value ==> Safe(steps, c.branches.value[key])
  }

  /** The references that the executor may take after a step. */
  predicate StepSafe(steps: seq<Step>, s: Step) {
    if s.kind == "condition" then BranchSafe(steps, s.config, "true") && BranchSafe(steps, s.config, "false")
    else Safe(steps, s.next)
  }

  predicate DefinitionSafe(steps: seq<Step>) {
    forall i :: 0 <= i < |steps| ==> StepSafe(steps, steps[i])
  }

  /** The run is about to look up a step that is not there. */
  predicate Dangles(steps: seq<Step>, r: Run) {
    r.phase.Going? && Truthy(r.ref) && Lookup(steps, r.ref).Raise?
  }

  lemma SafeStepLeadsOn(steps: seq<Step>, s: Step, context: Context, visit: nat, env: Env)
    requires StepSafe(steps, s)
    ensures Perform(s, context, visit, env).Ok? ==> Safe(steps, Perform(s, context, visit, env).value.0)
  {
  }

  /** In a safe definition no run, whatever its context, searches, comparisons and agents, ever meets an unknown
      step. */
  lemma {:induction false} SafeNeverDangles(steps: seq<Step>, env: Env, context: Context, n: nat)
    requires DefinitionSafe(steps)
    ensures !Dangles(steps, After(steps, env, context, n))
  {
    if n == 0 {
      if steps != [] {
        FindStepFinds(steps, steps[0].id);
      }
    } else {
      var r := After(steps, env, context, n - 1);
      SafeNeverDangles(steps, env, context, n - 1);
      if r.phase.Going? && Truthy(r.ref) {
        var s := Lookup(steps, r.ref).value;
        FindStepFinds(steps, r.ref.id);
        SafeStepLeadsOn(steps, s, r.context, |r.visited|, env);
      }
    }
  }

  /** A run that dangles fails in its next turn, and the last step it entered stays the current one of its row. */
  lemma DanglingFails(steps: seq<Step>, env: Env, context: Context, n: nat)
    requires Dangles(steps, After(steps, env, context, n))
    ensures var r, r' := After(steps, env, context, n), After(steps, env, context, n + 1);
            && r' == r.(phase := Crashed(Lookup(steps, r.ref).error))
            && Executor.FinalRow(r').status == Executor.Failed
            && Executor.FinalRow(r').currentStep == Executor.Last(r.visited)
  {
  }

  // ---- Unsafe references are taken ----

  /** A run that completes a step with an unsafe `next` dangles. */
  lemma UnsafeNextDangles(steps: seq<Step>, env: Env, context: Context, n: nat, s: Step)
    requires var r := After(steps, env, context, n); r.phase.Going? && Truthy(r.ref) && Lookup(steps, r.ref) == Ok(s)
    requires s.kind != "condition" && !Safe(steps, s.next) && !After(steps, env, context, n + 1).phase.Crashed?
    ensures Dangles(steps, After(steps, env, context, n + 1))
  {
  }

  /** The condition has all that an evaluation reads before its branches. */
  predicate Askable(c: Config) {
    c.expression.Some? && c.operator.Some? && c.operator.value in OPERATORS && c.value.Some?
  }

  /** Surroundings with the same agents in which every comparison of the operator comes out as `holds`. */
  function Deciding(env: Env, operator: string, holds: bool): Env {
    var b := if operator == "!=" || operator == "not_in" then !holds else holds;
    env.(search := (e, c) => Ok(Null), order := (o, x, y) => Ok(b), equal := (x, y) => b, contains := (x, y) => Ok(b))
  }

  /** There the condition leads to its branch for `holds`. */
  lemma DecidesAsWanted(c: Config, context: Context, env: Env, holds: bool)
    requires Askable(c) && c.branches.Some? && (if holds then "true" else "false") in c.branches.value
    ensures EvaluateCondition(c, context, Deciding(env, c.operator.value, holds))
         == Ok(c.branches.value[if holds then "true" else "false"])
  {
  }

  ghost predicate NoConditions(steps: seq<Step>, w: seq<string>) {
    forall i :: 0 <= i < |w| ==> FindStep(steps, w[i]).Some? && FindStep(steps, w[i]).value.kind != "condition"
  }

  lemma SameTurn(steps: seq<Step>, env: Env, env': Env, r: Run)
    requires env.agent == env'.agent && NoConditions(steps, Visit(steps, env, r).visited)
    ensures Visit(steps, env', r) == Visit(steps, env, r)
  {
    if r.phase.Going? && Truthy(r.ref) && Lookup(steps, r.ref).Ok? {
      TurnFollowsEdge(steps, env, r, Lookup(steps, r.ref).value);
      assert Visit(steps, env, r).visited[|r.visited|] == Lookup(steps, r.ref).value.id;
    }
  }

  lemma NoConditionsBefore(steps: seq<Step>, w: seq<string>, more: seq<string>)
    requires NoConditions(steps, more) && w <= more
    ensures NoConditions(steps, w)
  {
    assert forall i :: 0 <= i < |w| ==> w[i] == more[i];
  }

  /** Searches and comparisons do not matter before the first condition. */
  lemma {:induction false} SameUntilCondition(steps: seq<Step>, env: Env, env': Env, context: Context, n: nat)
    requires env.agent == env'.agent && NoConditions(steps, After(steps, env, context, n).visited)
    ensures After(steps, env', context, n) == After(steps, env, context, n)
  {
    if n > 0 {
      OneVisitPerTurn(steps, env, context, n);
      NoConditionsBefore(steps, After(steps, env, context, n - 1).visited, After(steps, env, context, n).visited);
      SameUntilCondition(steps, env, env', context, n - 1);
      SameTurn(steps, env, env', After(steps, env, context, n - 1));
    }
  }

  /** The converse for conditions. If the first condition that a run comes to can be asked, then each of its unsafe
      branches makes a run with the same context and the same agents fail. */
  lemma UnsafeBranchDangles(steps: seq<Step>, env: Env, context: Context, n: nat, s: Step, holds: bool)
      returns (env': Env)
    requires var r := After(steps, env, context, n);
             r.phase.Going? && Truthy(r.ref) && Lookup(steps, r.ref) == Ok(s) && NoConditions(steps, r.visited)
    requires s.kind == "condition" && Askable(s.config) && s.config.branches.Some?
    requires var key := if holds then "true" else "false";
             key in s.config.branches.value && !Safe(steps, s.config.branches.value[key])
    ensures env'.agent == env.agent && Dangles(steps, After(steps, env', context, n + 1))
    ensures Executor.FinalRow(After(steps, env', context, n + 2)).status == Executor.Failed
    ensures Executor.FinalRow(After(steps, env', context, n + 2)).currentStep == Some(s.id)
  {
    env' := Deciding(env, s.config.operator.value, holds);
    SameUntilCondition(steps, env, env', context, n);
    var r := After(steps, env, context, n);
    DecidesAsWanted(s.config, r.context, env, holds);
    DanglingFails(steps, env', context, n + 1);
  }

  // ---- The smallest case ----

  /** One condition, both branches of which name a step that does not exist. */
  function Lost(): Step {
    Step("a", "condition",
         Config(Some("x"), Some("=="), Some(Null), Some(map["true" := Name("b"), "false" := Name("b")]), []), NoRef, 60)
  }

  lemma LostIsValid()
    ensures Valid(DumpAll([Lost()]))
  {
    assert DumpAll([Lost()]) == [Dump(Lost())];
  }

  lemma LostSteps()
    ensures FindStep([Lost()], "a") == Some(Lost()) && FindStep([Lost()], "b") == None
  {
    assert [Lost()][..0] == [];
  }

  lemma LostTurns(env: Env, context: Context)
    requires env.search("x", context).Ok?
    ensures var r := Begin([Lost()], context);
            && Visit([Lost()], env, r) == Run(Name("b"), context, ["a"], Going)
            && Lookup([Lost()], Name("b")) == Raise("Step 'b' not in definition")
  {
    LostSteps();
    assert [] + ["a"] == ["a"];
    assert "Step '" + "b" + "' not in definition" == "Step 'b' not in definition";
  }

  /** It is valid, and each of its runs fails on the missing step, whose place the condition keeps in the row. */
  lemma ValidDefinitionCanDangle(env: Env, context: Context)
    requires env.search("x", context).Ok?
    ensures Valid(DumpAll([Lost()]))
    ensures var r := After([Lost()], env, context, 2);
            && r.phase == Crashed("Step 'b' not in definition") && r.visited == ["a"]
            && Executor.FinalRow(r).status == Executor.Failed && Executor.FinalRow(r).currentStep == Some("a")
  {
    LostIsValid();
    LostTurns(env, context);
    assert After([Lost()], env, context, 0) == Begin([Lost()], context);
    assert After([Lost()], env, context, 1) == Visit([Lost()], env, Begin([Lost()], context));
    DanglingFails([Lost()], env, context, 1);
  }
}
