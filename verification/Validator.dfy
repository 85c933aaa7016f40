/** services/platform-api/src/workflows/validator.py. */
module Validator {
  import opened Common
  import opened Workflow

  /** A step as the raw dict that the check reads with `.get`. */
  datatype RawStep = RawStep(id: Option<string>, kind: Option<string>, timeoutSeconds: Option<int>, next: Ref)

  datatype Problem =
    | NoSteps
    | InvalidType(i: nat)
    | IdRequired(i: nat)
    | DuplicateId(i: nat, id: string)
    | BadTimeout(i: nat)
    | UnknownNext(i: nat, id: string)

  const VALID_STEP_TYPES := {"agent", "condition", "transform", "notify", "wait", "human_approval"}

  predicate HasId(s: RawStep) {
    s.id.Some? && s.id.value != ""
  }

  ghost predicate Declares(steps: seq<RawStep>, n: nat, id: string) {
    exists j :: 0 <= j < n && j < |steps| && HasId(steps[j]) && steps[j].id.value == id
  }

  function Timeout(s: RawStep): int {
    if s.timeoutSeconds.Some? then s.timeoutSeconds.value else 60
  }

  /** What is wrong with step `p.i` taken by itself and with the steps before it. */
  ghost predicate FirstPass(steps: seq<RawStep>, p: Problem) {
    match p
    case NoSteps => steps == []
    case InvalidType(i) => i < |steps| && (steps[i].kind.None? || steps[i].kind.value !in VALID_STEP_TYPES)
    case IdRequired(i) => i < |steps| && !HasId(steps[i])
    case DuplicateId(i, id) => i < |steps| && HasId(steps[i]) && steps[i].id.value == id && Declares(steps, i, id)
    case BadTimeout(i) => i < |steps| && Timeout(steps[i]) <= 0
    case UnknownNext(_, _) => false
  }

  /** A dangling reference is looked for only in a definition that is sound otherwise. */
  ghost predicate Fault(steps: seq<RawStep>, p: Problem) {
    if p.UnknownNext? then
      && p.i < |steps| && steps[p.i].next == Name(p.id) && !Declares(steps, |steps|, p.id)
      && forall q :: !FirstPass(steps, q)
    else FirstPass(steps, p)
  }

  ghost predicate Valid(steps: seq<RawStep>) {
    && steps != []
    && (forall i :: 0 <= i < |steps| ==> steps[i].kind.Some? && steps[i].kind.value in VALID_STEP_TYPES)
    && (forall i :: 0 <= i < |steps| ==> HasId(steps[i]) && Timeout(steps[i]) > 0)
    && (forall i, j :: 0 <= i < j < |steps| ==> steps[i].id != steps[j].id)
    && (forall i :: 0 <= i < |steps| && steps[i].next.Name? ==>
          exists j :: 0 <= j < |steps| && steps[j].id == Some(steps[i].next.id))
  }

  function At(p: Problem): nat {
    if p.NoSteps? then 0 else p.i
  }

  /** Each fault is reported once, by increasing step. */
  ghost predicate InOrder(errors: seq<Problem>) {
    forall i, j :: 0 <= i < j < |errors| ==> errors[i] != errors[j] && At(errors[i]) <= At(errors[j])
  }

  /** One turn of the first loop. */
  method CheckStep(steps: seq<RawStep>, i: nat, seen: set<string>) returns (found: seq<Problem>, seen': set<string>)
    requires i < |steps| && forall id :: id in seen <==> Declares(steps, i, id)
    ensures forall id :: id in seen' <==> Declares(steps, i + 1, id)
    ensures forall p :: p in found <==> FirstPass(steps, p) && !p.NoSteps? && At(p) == i
    ensures InOrder(found)
  {
    var s := steps[i];
    found, seen' := [], seen;
    if s.kind.None? || s.kind.value !in VALID_STEP_TYPES {
      found := found + [InvalidType(i)];
    }
    if !HasId(s) {
      found := found + [IdRequired(i)];
    } else if s.id.value in seen {
      found := found + [DuplicateId(i, s.id.value)];
    } else {
      seen' := seen + {s.id.value};
    }
    if Timeout(s) <= 0 {
      found := found + [BadTimeout(i)];
    }
  }

  /** `validate_steps`. The list holds exactly the faults, in order, and is empty exactly for a valid definition. */
  method ValidateSteps(steps: seq<RawStep>) returns (errors: seq<Problem>)
    ensures forall p :: p in errors <==> Fault(steps, p)
    ensures errors == [] <==> Valid(steps)
    ensures InOrder(errors)
  {
    errors := [];
    if steps == [] {
      errors := errors + [NoSteps];
      assert Fault(steps, NoSteps);
      return;
    }
    var seen := {};
    for i := 0 to |steps|
      invariant forall id :: id in seen <==> Declares(steps, i, id)
      invariant forall p :: p in errors <==> FirstPass(steps, p) && At(p) < i
      invariant InOrder(errors)
    {
      var found;
      found, seen := CheckStep(steps, i, seen);
      errors := errors + found;
    }
    assert forall p :: p in errors <==> FirstPass(steps, p);
    if errors != [] {
      assert errors[0] in errors && FirstPass(steps, errors[0]);
    } else {
      for i := 0 to |steps|
        invariant forall q :: !FirstPass(steps, q)
        invariant forall p :: p in errors <==> Fault(steps, p) && At(p) < i
        invariant InOrder(errors)
      {
        if steps[i].next.Name? && steps[i].next.id !in seen {
          errors := errors + [UnknownNext(i, steps[i].next.id)];
        }
      }
    }
    assert errors != [] ==> errors[0] in errors && Fault(steps, errors[0]);
    ValidMeansFaultless(steps);
  }

  /** The six types, the defaults and the bounds, one by one: a type is accepted exactly if it is one of these, an id
      unless it is missing or empty, a timeout if it is missing or positive. */
  lemma AcceptedValues(steps: seq<RawStep>, i: nat)
    requires i < |steps|
    ensures FirstPass(steps, InvalidType(i)) <==>
              && steps[i].kind != Some("agent") && steps[i].kind != Some("condition")
              && steps[i].kind != Some("transform") && steps[i].kind != Some("notify")
              && steps[i].kind != Some("wait") && steps[i].kind != Some("human_approval")
    ensures FirstPass(steps, IdRequired(i)) <==> steps[i].id == None || steps[i].id == Some("")
    ensures FirstPass(steps, BadTimeout(i)) <==> steps[i].timeoutSeconds.Some? && steps[i].timeoutSeconds.value <= 0
  {
  }

  lemma ValidMeansFaultless(steps: seq<RawStep>)
    ensures Valid(steps) <==> forall p :: !Fault(steps, p)
  {
    if Valid(steps) {
      forall p ensures !FirstPass(steps, p) {
      }
    } else if forall p :: !Fault(steps, p) {
      assert !Fault(steps, NoSteps);
      forall i | 0 <= i < |steps|
        ensures steps[i].kind.Some? && steps[i].kind.value in VALID_STEP_TYPES && HasId(steps[i]) &&
                  Timeout(steps[i]) > 0
      {
        assert !Fault(steps, InvalidType(i)) && !Fault(steps, IdRequired(i)) && !Fault(steps, BadTimeout(i));
      }
      forall i, j | 0 <= i < j < |steps| ensures steps[i].id != steps[j].id {
        assert !Fault(steps, DuplicateId(j, steps[j].id.value));
      }
      forall q ensures !FirstPass(steps, q) {
        assert !Fault(steps, q);
      }
      forall i | 0 <= i < |steps| && steps[i].next.Name?
        ensures exists j :: 0 <= j < |steps| && steps[j].id == Some(steps[i].next.id)
      {
        assert !Fault(steps, UnknownNext(i, steps[i].next.id));
      }
    }
  }
}
