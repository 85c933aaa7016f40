/** What one turn of a run does, for each kind of step (services/platform-api/src/executions/executor.py, lines 87-127,
    services/platform-api/src/executions/condition.py). */
module Turns {
  import opened Common
  import opened Tree
  import opened Workflow
  import opened Interpreter
  import Executor

  /** The run is about to take turn `n`, on the declared step `s`. */
  ghost predicate StandsAt(steps: seq<Step>, env: Env, context: Context, n: nat, s: Step) {
    var r := After(steps, env, context, n);
    r.phase.Going? && r.ref == Name(s.id) && s.id != "" && FindStep(steps, s.id) == Some(s)
  }

  /** The turn entered the step, changed the context to `after` and goes on to `next`. */
  ghost predicate GoesOn(r: Run, r': Run, id: string, next: Ref, after: Context) {
    r'.phase.Going? && r'.ref == next && r'.visited == r.visited + [id] && r'.context == after
  }

  /** The turn entered the step, which raised; the context is as it was, and the row says so. */
  ghost predicate BreaksOff(r: Run, r': Run, id: string, error: string) {
    && r'.phase == Crashed(error) && r'.visited == r.visited + [id] && r'.context == r.context
    && Executor.FinalRow(r')
       == Executor.Row(Executor.Failed, r.context["_error" := Leaf(error)], Some(id), false)
  }

  // ---- Where a run starts, ends and cannot go on ----

  lemma Beginning(steps: seq<Step>, env: Env, context: Context)
    ensures var r := After(steps, env, context, 0);
            && r.context == context && r.visited == [] && r.phase.Going?
            && r.ref == (if steps == [] then NoRef else Name(steps[0].id))
  {
  }

  /** Null, the empty string and other falsy values end a run. */
  lemma FalsyCompletes(steps: seq<Step>, env: Env, context: Context, n: nat)
    requires var r := After(steps, env, context, n);
             r.phase.Going? && (r.ref == NoRef || r.ref == Name("") || (r.ref.Other? && !r.ref.truthy))
    ensures var r, r' := After(steps, env, context, n), After(steps, env, context, n + 1);
            && r'.phase.Finished? && r'.context == r.context && r'.visited == r.visited
            && Executor.FinalRow(r') == Executor.Row(Executor.Completed, r.context, None, true)
  {
  }

  /** An id that is not declared fails the run without entering anything. */
  lemma UnknownFails(steps: seq<Step>, env: Env, context: Context, n: nat, id: string)
    requires var r := After(steps, env, context, n); r.phase.Going? && r.ref == Name(id) && id != ""
    requires forall i :: 0 <= i < |steps| ==> steps[i].id != id
    ensures var r, r' := After(steps, env, context, n), After(steps, env, context, n + 1);
            r' == r.(phase := Crashed("Step '" + id + "' not in definition"))
  {
    FindStepFinds(steps, id);
  }

  /** A reference that is neither null nor a string fails the run with the lookup's own error. */
  lemma OtherFails(steps: seq<Step>, env: Env, context: Context, n: nat, error: string)
    requires var r := After(steps, env, context, n); r.phase.Going? && r.ref == Other(true, error)
    ensures var r, r' := After(steps, env, context, n), After(steps, env, context, n + 1);
              r' == r.(phase := Crashed(error))
  {
  }

  /** Of several steps with one id, the step map has the last. */
  lemma {:induction false} LastOfItsId(steps: seq<Step>, i: nat)
    requires i < |steps| && forall k :: i < k < |steps| ==> steps[k].id != steps[i].id
    ensures FindStep(steps, steps[i].id) == Some(steps[i])
    decreases |steps|
  {
    if i < |steps| - 1 {
      LastOfItsId(steps[..|steps| - 1], i);
    }
  }

  // ---- Transforms ----

  lemma TransformTurn(steps: seq<Step>, env: Env, context: Context, n: nat, s: Step)
    requires StandsAt(steps, env, context, n, s) && s.kind == "transform"
    ensures var r, r' := After(steps, env, context, n), After(steps, env, context, n + 1);
            match ApplyTransform(s.config.entries, r.context)
            case Ok(after) => GoesOn(r, r', s.id, s.next, after)
            case Raise(error) => BreaksOff(r, r', s.id, error)
  {
    assert After(steps, env, context, n + 1) == Visit(steps, env, After(steps, env, context, n));
  }

  /** A turn with a transform of independent destinations fails exactly if some entry does on the context as it was;
      otherwise the context is the simultaneous update of itself. */
  lemma IndependentTransformTurn(steps: seq<Step>, env: Env, context: Context, n: nat, s: Step)
    requires StandsAt(steps, env, context, n, s) && s.kind == "transform" && Independent(s.config.entries)
    ensures var r, r' := After(steps, env, context, n), After(steps, env, context, n + 1);
            && (r'.phase.Crashed? <==> SomeFails(s.config.entries, Obj(r.context)))
            && (r'.phase.Crashed? ==> BreaksOff(r, r', s.id, r'.phase.error))
            && (!r'.phase.Crashed? ==>
                  && GoesOn(r, r', s.id, s.next, r'.context)
                  && forall p :: UpdatedAt(s.config.entries, r.context, Obj(r.context), Obj(r'.context), p))
  {
    TransformTurn(steps, env, context, n, s);
    var r := After(steps, env, context, n);
    ApplyMeaning(s.config.entries, r.context, r.context, []);
    if ApplyTransform(s.config.entries, r.context).Ok? {
      var after := After(steps, env, context, n + 1).context;
      forall p ensures UpdatedAt(s.config.entries, r.context, Obj(r.context), Obj(after), p) {
        ApplyMeaning(s.config.entries, r.context, r.context, p);
      }
    }
  }

  /** `after` is `before` with what the source is in `context` put under the destination, at path `p`. */
  ghost predicate WrittenAt(e: Entry, context: Context, before: Context, after: Context, p: Path) {
    var keys, found := Split(e.dest), Get(Obj(after), p);
    && (keys <= p ==> found == Get(Search(context, Split(e.src)), p[|keys|..]))
    && (p < keys ==> found.Some? && found.value.Obj?)
    && (!Comparable(keys, p) ==> found == Get(Obj(before), p))
  }

  ghost predicate Written(e: Entry, context: Context, before: Context, after: Context) {
    forall p :: WrittenAt(e, context, before, after, p)
  }

  /** `stages` are the contexts after 0, 1, 2, ... entries. */
  ghost predicate Stages(entries: seq<Entry>, context: Context, stages: seq<Context>) {
    && 0 < |stages| <= |entries| + 1 && stages[0] == context
    && forall i, j :: 0 <= i < j < |stages| && j == i + 1 ==> Written(entries[i], context, stages[i], stages[j])
  }

  lemma EntryMeaning(e: Entry, context: Context, before: Context)
    ensures ApplyEntry(e, context, before).Raise? <==> Fails(e, Obj(before))
    ensures ApplyEntry(e, context, before).Ok? ==> Written(e, context, before, ApplyEntry(e, context, before).value)
  {
    SetNestedMeaning(before, Split(e.dest), Search(context, Split(e.src)), []);
    if ApplyEntry(e, context, before).Ok? {
      forall p ensures WrittenAt(e, context, before, ApplyEntry(e, context, before).value, p) {
        SetNestedMeaning(before, Split(e.dest), Search(context, Split(e.src)), p);
      }
    }
  }

  lemma {:induction false} StagesOf(entries: seq<Entry>, context: Context, n: nat) returns (stages: seq<Context>)
    requires n <= |entries| && ApplyEntries(entries[..n], context, context).Ok?
    ensures Stages(entries, context, stages) && |stages| == n + 1
    ensures stages[n] == ApplyEntries(entries[..n], context, context).value
  {
    if n == 0 {
      assert entries[..0] == [];
      stages := [context];
    } else {
      assert entries[..n] == entries[..n - 1] + [entries[n - 1]];
      EntriesInTurn(entries[..n - 1], [entries[n - 1]], context, context);
      stages := StagesOf(entries, context, n - 1);
      var last := stages[n - 1];
      EntryMeaning(entries[n - 1], context, last);
      var next := ApplyEntry(entries[n - 1], context, last);
      assert [entries[n - 1]][1..] == [];
      assert next.Ok? ==> ApplyEntries([], context, next.value) == next;
      stages := stages + [next.value];
    }
  }

  /** The entries that the pure update gets through before one raises. */
  lemma {:induction false} LastStage(entries: seq<Entry>, context: Context, n: nat) returns (m: nat)
    requires n <= |entries| && ApplyEntries(entries[..n], context, context).Ok?
    ensures n <= m <= |entries| && ApplyEntries(entries[..m], context, context).Ok?
    ensures m < |entries| ==> ApplyEntry(entries[m], context, ApplyEntries(entries[..m], context, context).value).Raise?
    decreases |entries| - n
  {
    m := n;
    if n < |entries| {
      var next := ApplyEntry(entries[n], context, ApplyEntries(entries[..n], context, context).value);
      if next.Ok? {
        assert entries[..n + 1] == entries[..n] + [entries[n]] && [entries[n]][1..] == [];
        EntriesInTurn(entries[..n], [entries[n]], context, context);
        assert ApplyEntries([], context, next.value) == next;
        m := LastStage(entries, context, n + 1);
      }
    }
  }

  /** Any transform, entry by entry: each entry reads the context as it was before the step and writes the stage that
      the one before it left. If an entry fails on its stage, so does the run; if none does, the last stage is the
      context. */
  lemma TransformTurnByEntry(steps: seq<Step>, env: Env, context: Context, n: nat, s: Step)
      returns (stages: seq<Context>)
    requires StandsAt(steps, env, context, n, s) && s.kind == "transform"
    ensures var r, r' := After(steps, env, context, n), After(steps, env, context, n + 1);
            && Stages(s.config.entries, r.context, stages)
            && var m := |stages| - 1;
            if m == |s.config.entries| then
              GoesOn(r, r', s.id, s.next, stages[m])
            else
              && Fails(s.config.entries[m], Obj(stages[m]))
              && r'.phase.Crashed? && BreaksOff(r, r', s.id, r'.phase.error)
  {
    var r, entries := After(steps, env, context, n), s.config.entries;
    TransformTurn(steps, env, context, n, s);
    assert entries[..0] == [];
    var m := LastStage(entries, r.context, 0);
    stages := StagesOf(entries, r.context, m);
    assert entries == entries[..m] + entries[m..];
    EntriesInTurn(entries[..m], entries[m..], r.context, r.context);
    if m < |entries| {
      assert entries[m..][0] == entries[m];
      EntryMeaning(entries[m], r.context, stages[m]);
    } else {
      assert entries[m..] == [];
    }
  }

  // ---- Agents and other steps ----

  /** An agent step's answer is stored under its id; a timeout and an exception fail the run with their texts. */
  lemma AgentTurn(steps: seq<Step>, env: Env, context: Context, n: nat, s: Step)
    requires StandsAt(steps, env, context, n, s) && s.kind == "agent"
    ensures var r, r' := After(steps, env, context, n), After(steps, env, context, n + 1);
            match env.agent(n)
            case Returned(v) => GoesOn(r, r', s.id, s.next, r.context[s.id := v])
            case TimedOut => BreaksOff(r, r', s.id, "Timeout on step '" + s.id + "'")
            case Errored(error) => BreaksOff(r, r', s.id, error)
  {
    OneVisitPerTurn(steps, env, context, n);
  }

  /** `notify`, `wait`, `human_approval` and unknown types are passed over. */
  lemma StubTurn(steps: seq<Step>, env: Env, context: Context, n: nat, s: Step)
    requires StandsAt(steps, env, context, n, s) && s.kind !in {"condition", "transform", "agent"}
    ensures var r, r' := After(steps, env, context, n), After(steps, env, context, n + 1);
            GoesOn(r, r', s.id, s.next, r.context)
  {
  }

  // ---- Conditions ----

  /** How `left operator right` comes out, operator by operator; the others compare an order. */
  ghost predicate ComesOut(env: Env, operator: string, left: Json, right: Json, result: Outcome<bool>) {
    && (operator == "==" ==> result == Ok(env.equal(left, right)))
    && (operator == "!=" ==> result == Ok(!env.equal(left, right)))
    && (operator == "in" ==> result == env.contains(right, left))
    && (operator == "not_in" ==>
          match env.contains(right, left)
          case Ok(b) => result == Ok(!b)
          case Raise(error) => result == Raise(error))
    && (operator in {">", ">=", "<", "<="} ==> result == env.order(operator, left, right))
  }

  /** The left operand is what the expression finds in the run's context, the right one the configured value; a
      comparison that holds leads to the branch "true", one that does not to "false", and the context stays; without
      that branch the run fails. */
  lemma ConditionTurn(steps: seq<Step>, env: Env, context: Context, n: nat, s: Step, left: Json, result: Outcome<bool>)
    requires StandsAt(steps, env, context, n, s) && s.kind == "condition"
    requires s.config.expression.Some? && s.config.operator.Some? && s.config.value.Some? && s.config.branches.Some?
    requires env.search(s.config.expression.value, After(steps, env, context, n).context) == Ok(left)
    requires s.config.operator.value in {">", ">=", "<", "<=", "==", "!=", "in", "not_in"}
    requires ComesOut(env, s.config.operator.value, left, s.config.value.value, result)
    ensures var r, r' := After(steps, env, context, n), After(steps, env, context, n + 1);
            match result
            case Ok(holds) =>
              var branch, branches := if holds then "true" else "false", s.config.branches.value;
              if branch in branches then
                GoesOn(r, r', s.id, branches[branch], r.context)
              else
                r'.phase.Crashed? && BreaksOff(r, r', s.id, r'.phase.error)
            case Raise(error) => BreaksOff(r, r', s.id, error)
  {
  }

  /** A condition that lacks a part, has an unknown operator or cannot search fails the run. */
  lemma IncompleteConditionFails(steps: seq<Step>, env: Env, context: Context, n: nat, s: Step)
    requires StandsAt(steps, env, context, n, s) && s.kind == "condition"
    requires || s.config.expression.None? || s.config.operator.None? || s.config.value.None? || s.config.branches.None?
             || s.config.operator.value !in {">", ">=", "<", "<=", "==", "!=", "in", "not_in"}
             || env.search(s.config.expression.value, After(steps, env, context, n).context).Raise?
    ensures var r, r' := After(steps, env, context, n), After(steps, env, context, n + 1);
            r'.phase.Crashed? && BreaksOff(r, r', s.id, r'.phase.error)
  {
  }
}
