/** What the executor may rely on once `validate_steps` found nothing
    (services/platform-api/src/workflows/schemas.py, services/platform-api/src/executions/executor.py). */
module ValidatedDefinition {
  import opened Common
  import opened Workflow
  import opened Validator
  import opened Interpreter

  /** `StepSchema.model_dump()`: every key is present. */
  function Dump(s: Step): RawStep {
    RawStep(Some(s.id), Some(s.kind), Some(s.timeoutSeconds), s.next)
  }

  function DumpAll(steps: seq<Step>): (raw: seq<RawStep>)
    ensures |raw| == |steps| && forall i :: 0 <= i < |steps| ==> raw[i] == Dump(steps[i])
  {
    seq(|steps|, i requires 0 <= i < |steps| => Dump(steps[i]))
  }

  /** In a valid definition the step map leads from each id to its own step and a run starts; if moreover every
      `next` is null or a string, an unknown step can only be one that a condition branch named. */
  lemma ValidDefinitionRuns(steps: seq<Step>, env: Env, context: Context, n: nat)
    requires Valid(DumpAll(steps))
    ensures forall i :: 0 <= i < |steps| ==> FindStep(steps, steps[i].id) == Some(steps[i])
    ensures Begin(steps, context).ref == Name(steps[0].id) && Truthy(Begin(steps, context).ref)
    ensures (forall i :: 0 <= i < |steps| ==> !steps[i].next.Other?) ==> NextDeclared(steps)
    ensures var r := After(steps, env, context, n);
            (forall i :: 0 <= i < |steps| ==> !steps[i].next.Other?) && r.phase.Going? && Truthy(r.ref) &&
                Lookup(steps, r.ref).Raise?
            ==> r.visited != [] && FindStep(steps, r.visited[|r.visited| - 1]).Some?
                && FindStep(steps, r.visited[|r.visited| - 1]).value.kind == "condition"
  {
    var raw := DumpAll(steps);
    forall i | 0 <= i < |steps| ensures FindStep(steps, steps[i].id) == Some(steps[i]) {
      FindStepFinds(steps, steps[i].id);
      var s := FindStep(steps, steps[i].id).value;
      var k :| 0 <= k < |steps| && steps[k] == s;
      assert raw[k].id == raw[i].id;
    }
    assert HasId(raw[0]);
    if forall i :: 0 <= i < |steps| ==> !steps[i].next.Other? {
      forall i | 0 <= i < |steps| && steps[i].next.Name?
          ensures exists k :: 0 <= k < |steps| && steps[k].id == steps[i].next.id {
        assert raw[i].next.Name?;
        var k :| 0 <= k < |raw| && raw[k].id == Some(raw[i].next.id);
        assert steps[k].id == steps[i].next.id;
      }
      OnlyBranchesDangle(steps, env, context, n);
    }
  }
}
