/** A pure interpreter for process definitions: what `execute_workflow` means, without rows, commits or events.
    (services/platform-api/src/executions/executor.py, services/platform-api/src/executions/condition.py) */
module Interpreter {
  import opened Common
  import opened Tree
  import opened Workflow

  type Context = map<string, Json>

  datatype AgentOutcome = Returned(output: Json) | TimedOut | Errored(error: string)

  /** What the interpreter does not decide: searches, comparisons, the outcome of the agent call made in the
      k-th visit, and whether the k-th publication reaches the status stream. */
  datatype Env = Env(search: (string, Context) -> Outcome<Json>,
                     order: (string, Json, Json) -> Outcome<bool>,
                     equal: (Json, Json) -> bool,
                     contains: (Json, Json) -> Outcome<bool>,
                     agent: nat -> AgentOutcome,
                     publishes: nat -> bool)

  const OPERATORS := {">", ">=", "<", "<=", "==", "!=", "in", "not_in"}

  function Not(x: Outcome<bool>): Outcome<bool> {
    match x
    case Ok(b) => Ok(!b)
    case Raise(error) => Raise(error)
  }

  /** The operator table. */
  function Compare(operator: string, a: Json, b: Json, env: Env): Outcome<bool> {
    if operator == "==" then Ok(env.equal(a, b))
    else if operator == "!=" then Ok(!env.equal(a, b))
    else if operator == "in" then env.contains(b, a)
    else if operator == "not_in" then Not(env.contains(b, a))
    else env.order(operator, a, b)
  }

  /** `evaluate_condition`: a missing key, an unknown operator, the search and the comparison can raise. */
  function EvaluateCondition(c: Config, context: Context, env: Env): Outcome<Ref> {
    if c.expression.None? then Raise("'expression'")
    else
      match env.search(c.expression.value, context)
      case Raise(error) => Raise(error)
      case Ok(extracted) =>
        if c.operator.None? then Raise("'operator'")
        else if c.operator.value !in OPERATORS then Raise("'" + c.operator.value + "'")
        else if c.value.None? then Raise("'value'")
        else
          match Compare(c.operator.value, extracted, c.value.value, env)
          case Raise(error) => Raise(error)
          case Ok(holds) =>
            var key := if holds then "true" else "false";
            if c.branches.None? then Raise("'branches'")
            else if key !in c.branches.value then Raise("'" + key + "'")
            else Ok(c.branches.value[key])
  }

  ghost predicate HasBranch(c: Config, key: string, ref: Ref) {
    c.branches.Some? && key in c.branches.value && c.branches.value[key] == ref
  }

  /** The step map keeps the last step of each id. */
  function FindStep(steps: seq<Step>, id: string): Option<Step> {
    if steps == [] then None
    else if steps[|steps| - 1].id == id then Some(steps[|steps| - 1])
    else FindStep(steps[..|steps| - 1], id)
  }

  function Lookup(steps: seq<Step>, ref: Ref): Outcome<Step> {
    match ref
    case NoRef => Raise("Step 'None' not in definition")
    case Other(_, error) => Raise(error)
    case Name(id) =>
      if FindStep(steps, id).Some? then Ok(FindStep(steps, id).value)
      else Raise("Step '" + id + "' not in definition")
  }

  datatype Phase = Going | Finished | Crashed(error: string)

  /** `visited` lists the steps entered so far. */
  datatype Run = Run(ref: Ref, context: Context, visited: seq<string>, phase: Phase)

  function Begin(steps: seq<Step>, context: Context): Run {
    Run(if steps == [] then NoRef else Name(steps[0].id), context, [], Going)
  }

  /** The effect of a step that was entered: where to go on, and with which context. */
  function Perform(s: Step, context: Context, visit: nat, env: Env): Outcome<(Ref, Context)> {
    if s.kind == "condition" then
      match EvaluateCondition(s.config, context, env)
      case Ok(ref) => Ok((ref, context))
      case Raise(error) => Raise(error)
    else if s.kind == "transform" then
      match ApplyTransform(s.config.entries, context)
      case Ok(context') => Ok((s.next, context'))
      case Raise(error) => Raise(error)
    else if s.kind == "agent" then
      match env.agent(visit)
      case Returned(output) => Ok((s.next, context[s.id := output]))
      case TimedOut => Raise("Timeout on step '" + s.id + "'")
      case Errored(error) => Raise(error)
    else Ok((s.next, context))
  }

  function Visit(steps: seq<Step>, env: Env, r: Run): Run {
    if !r.phase.Going? then r
    else if !Truthy(r.ref) then r.(phase := Finished)
    else
      match Lookup(steps, r.ref)
      case Raise(error) => r.(phase := Crashed(error))
      case Ok(s) =>
        match Perform(s, r.context, |r.visited|, env)
        case Ok((ref, context)) => Run(ref, context, r.visited + [s.id], Going)
        case Raise(error) => Run(r.ref, r.context, r.visited + [s.id], Crashed(error))
  }

  /** The run after `n` turns of the loop. */
  function After(steps: seq<Step>, env: Env, context: Context, n: nat): Run {
    if n == 0 then Begin(steps, context) else Visit(steps, env, After(steps, env, context, n - 1))
  }

  /** The runs after 0 to `n` turns. */
  function Runs(steps: seq<Step>, env: Env, context: Context, n: nat): (runs: seq<Run>)
    ensures |runs| == n + 1 && forall k :: 0 <= k <= n ==> runs[k] == After(steps, env, context, k)
  {
    if n == 0 then [Begin(steps, context)]
    else
      var before := Runs(steps, env, context, n - 1);
      before + [Visit(steps, env, before[n - 1])]
  }

  ghost predicate Halted(steps: seq<Step>, env: Env, context: Context, n: nat) {
    !After(steps, env, context, n).phase.Going?
  }

  // ---- Elementary facts ----

  lemma {:induction false} FindStepFinds(steps: seq<Step>, id: string)
    ensures FindStep(steps, id).Some? ==> FindStep(steps, id).value in steps && FindStep(steps, id).value.id == id
    ensures FindStep(steps, id).None? ==> forall i :: 0 <= i < |steps| ==> steps[i].id != id
  {
    if steps != [] {
      FindStepFinds(steps[..|steps| - 1], id);
    }
  }

  lemma {:induction false} HaltedStays(steps: seq<Step>, env: Env, context: Context, n: nat, m: nat)
    requires n <= m && Halted(steps, env, context, n)
    ensures After(steps, env, context, m) == After(steps, env, context, n)
    decreases m
  {
    if n < m {
      HaltedStays(steps, env, context, n, m - 1);
    }
  }

  lemma {:induction false} StillGoing(steps: seq<Step>, env: Env, context: Context, n: nat, m: nat)
    requires n <= m && !Halted(steps, env, context, m)
    ensures !Halted(steps, env, context, n)
  {
    if Halted(steps, env, context, n) {
      HaltedStays(steps, env, context, n, m);
    }
  }

  /** As long as a run goes on, each turn enters one step, and earlier entries stay. */
  lemma {:induction false} OneVisitPerTurn(steps: seq<Step>, env: Env, context: Context, n: nat)
    ensures |After(steps, env, context, n).visited| <= n
    ensures !Halted(steps, env, context, n) ==> |After(steps, env, context, n).visited| == n
    ensures n > 0 ==> After(steps, env, context, n - 1).visited <= After(steps, env, context, n).visited
  {
    if n > 0 {
      OneVisitPerTurn(steps, env, context, n - 1);
    }
  }

  lemma {:induction false} VisitsStay(steps: seq<Step>, env: Env, context: Context, n: nat, m: nat)
    requires n <= m
    ensures After(steps, env, context, n).visited <= After(steps, env, context, m).visited
    decreases m
  {
    if n < m {
      VisitsStay(steps, env, context, n, m - 1);
      OneVisitPerTurn(steps, env, context, m);
    }
  }

  // ---- Halting ----

  ghost predicate Branch(s: Step, key: string, b: string) {
    HasBranch(s.config, key, Name(b))
  }

  /** A run can go from step `a` on to step `b`. */
  ghost predicate Edge(steps: seq<Step>, a: string, b: string) {
    && FindStep(steps, a).Some?
    && var s := FindStep(steps, a).value;
       if s.kind == "condition" then Branch(s, "true", b) || Branch(s, "false", b) else s.next == Name(b)
  }

  ghost predicate Walk(steps: seq<Step>, w: seq<string>) {
    forall i :: 0 <= i < |w| - 1 ==> Edge(steps, w[i], w[i + 1])
  }

  /** No walk along `next` edges and condition branches comes back to where it started. */
  ghost predicate Acyclic(steps: seq<Step>) {
    forall w :: |w| >= 2 && Walk(steps, w) ==> w[0] != w[|w| - 1]
  }

  lemma TurnFollowsEdge(steps: seq<Step>, env: Env, r: Run, s: Step)
    requires r.phase.Going? && Truthy(r.ref) && Lookup(steps, r.ref) == Ok(s)
    ensures FindStep(steps, s.id) == Some(s) && r.ref == Name(s.id)
    ensures var r' := Visit(steps, env, r);
            && r'.visited == r.visited + [s.id]
            && (r'.phase.Going? && r'.ref.Name? ==> Edge(steps, s.id, r'.ref.id))
  {
    FindStepFinds(steps, r.ref.id);
  }

  /** Every run follows the edges of the definition and enters only declared steps. */
  lemma {:induction false} RunsAreWalks(steps: seq<Step>, env: Env, context: Context, n: nat)
    ensures var r := After(steps, env, context, n);
            && Walk(steps, r.visited)
            && (forall i :: 0 <= i < |r.visited| ==> FindStep(steps, r.visited[i]).Some?)
            && (r.phase.Going? && r.ref.Name? && r.visited != [] ==> Edge(steps, r.visited[|r.visited| - 1], r.ref.id))
  {
    if n > 0 {
      RunsAreWalks(steps, env, context, n - 1);
      var r := After(steps, env, context, n - 1);
      if r.phase.Going? && Truthy(r.ref) && Lookup(steps, r.ref).Ok? {
        TurnFollowsEdge(steps, env, r, Lookup(steps, r.ref).value);
      }
    }
  }

  ghost predicate NoRepeat(w: seq<string>) {
    forall i, j :: 0 <= i < j < |w| ==> w[i] != w[j]
  }

  lemma {:induction false} NoRepeatIsShort(w: seq<string>, ids: set<string>)
    requires NoRepeat(w) && forall i :: 0 <= i < |w| ==> w[i] in ids
    ensures |w| <= |ids|
  {
    if w != [] {
      NoRepeatIsShort(w[1..], ids - {w[0]});
    }
  }

  function Ids(steps: seq<Step>): (ids: set<string>)
    ensures |ids| <= |steps|
    ensures forall i :: 0 <= i < |steps| ==> steps[i].id in ids
  {
    if steps == [] then {}
    else
      var rest := Ids(steps[..|steps| - 1]);
      assert forall i :: 0 <= i < |steps| - 1 ==> steps[i] == steps[..|steps| - 1][i];
      rest + {steps[|steps| - 1].id}
  }

  lemma VisitedAreDeclared(steps: seq<Step>, env: Env, context: Context, n: nat)
    ensures var w := After(steps, env, context, n).visited;
            (forall i :: 0 <= i < |w| ==> w[i] in Ids(steps)) && (NoRepeat(w) ==> |w| <= |steps|)
  {
    RunsAreWalks(steps, env, context, n);
    var w := After(steps, env, context, n).visited;
    forall i | 0 <= i < |w| ensures w[i] in Ids(steps) {
      FindStepFinds(steps, w[i]);
    }
    if NoRepeat(w) {
      NoRepeatIsShort(w, Ids(steps));
    }
  }

  lemma AcyclicWalksDoNotRepeat(steps: seq<Step>, w: seq<string>)
    requires Acyclic(steps) && Walk(steps, w)
    ensures NoRepeat(w)
  {
    forall i, j | 0 <= i < j < |w| ensures w[i] != w[j] {
      var part := w[i..j + 1];
      assert Walk(steps, part) && part[0] == w[i] && part[|part| - 1] == w[j];
    }
  }

  /** Termination: over an acyclic definition every run, for every context and every outcome of its agents,
      enters no step twice and is over after |steps| + 1 turns of the loop. */
  lemma AcyclicTerminates(steps: seq<Step>, env: Env, context: Context, n: nat)
    requires Acyclic(steps)
    ensures NoRepeat(After(steps, env, context, n).visited) && |After(steps, env, context, n).visited| <= |steps|
    ensures n > |steps| ==> Halted(steps, env, context, n)
  {
    RunsAreWalks(steps, env, context, n);
    AcyclicWalksDoNotRepeat(steps, After(steps, env, context, n).visited);
    VisitedAreDeclared(steps, env, context, n);
    OneVisitPerTurn(steps, env, context, n);
  }

  ghost predicate ConditionFree(steps: seq<Step>) {
    forall i :: 0 <= i < |steps| ==> steps[i].kind != "condition"
  }

  ghost predicate NeverCrashes(steps: seq<Step>, env: Env, context: Context) {
    forall n :: !After(steps, env, context, n).phase.Crashed?
  }

  function NextOf(steps: seq<Step>, id: string): Ref {
    if FindStep(steps, id).Some? then FindStep(steps, id).value.next else NoRef
  }

  /** Each visited step is the reference its predecessor declares, and so is the step to come. */
  ghost predicate IteratesNext(steps: seq<Step>, r: Run) {
    && (r.visited != [] ==> Name(r.visited[0]) == Begin(steps, map[]).ref)
    && (forall i :: 0 <= i < |r.visited| - 1 ==> NextOf(steps, r.visited[i]) == Name(r.visited[i + 1]))
    && (r.phase.Going? ==> r.ref == if r.visited == [] then Begin(steps, map[]).ref
          else NextOf(steps, r.visited[|r.visited| - 1]))
  }

  lemma TurnIteratesNext(steps: seq<Step>, env: Env, r: Run)
    requires ConditionFree(steps) && IteratesNext(steps, r)
    ensures IteratesNext(steps, Visit(steps, env, r))
  {
    if r.phase.Going? && r.ref.Name? {
      FindStepFinds(steps, r.ref.id);
    }
  }

  /** Without conditions the visits iterate the `next` map. */
  lemma {:induction false} VisitsIterateNext(steps: seq<Step>, env: Env, context: Context, n: nat)
    requires ConditionFree(steps)
    ensures IteratesNext(steps, After(steps, env, context, n))
  {
    if n > 0 {
      VisitsIterateNext(steps, env, context, n - 1);
      TurnIteratesNext(steps, env, After(steps, env, context, n - 1));
    }
  }

  ghost predicate Repeats(w: seq<string>, i: nat, j: nat) {
    i < j < |w| && w[i] == w[j]
  }

  /** The last of `n` visits was a visit to the same step as the one `d` visits before. */
  ghost predicate GoesRound(r: Run, n: nat, d: nat) {
    r.phase.Going? && |r.visited| == n && 0 < d < n && r.visited[n - 1] == r.visited[n - 1 - d]
  }

  lemma PrefixRepeats(w: seq<string>, r: Run, i: nat, j: nat)
    requires Repeats(w, i, j) && r.phase.Going? && |r.visited| == j + 1 && (w <= r.visited || r.visited <= w)
    ensures GoesRound(r, j + 1, j - i)
  {
  }

  lemma FirstRepeat(steps: seq<Step>, env: Env, context: Context, k: nat, i: nat, j: nat)
    requires NeverCrashes(steps, env, context) && Repeats(After(steps, env, context, k).visited, i, j)
    ensures GoesRound(After(steps, env, context, j + 1), j + 1, j - i)
  {
    FirstTurns(steps, env, context, k, j);
    if k < j + 1 {
      VisitsStay(steps, env, context, k, j + 1);
    } else {
      VisitsStay(steps, env, context, j + 1, k);
    }
    PrefixRepeats(After(steps, env, context, k).visited, After(steps, env, context, j + 1), i, j);
  }

  /** A run that enters a step for the second time goes round for ever. */
  lemma {:induction false} RepeatNeverHalts(steps: seq<Step>, env: Env, context: Context, k: nat, i: nat, j: nat,
      n: nat)
    requires ConditionFree(steps) && NeverCrashes(steps, env, context)
    requires Repeats(After(steps, env, context, k).visited, i, j) && n > j
    ensures GoesRound(After(steps, env, context, n), n, j - i)
    decreases n
  {
    if n == j + 1 {
      FirstRepeat(steps, env, context, k, i, j);
    } else {
      RepeatNeverHalts(steps, env, context, k, i, j, n - 1);
      TurnGoesRound(steps, env, context, n - 1, j - i);
    }
  }

  lemma TurnGoesRound(steps: seq<Step>, env: Env, context: Context, n: nat, d: nat)
    requires ConditionFree(steps) && NeverCrashes(steps, env, context)
    requires GoesRound(After(steps, env, context, n), n, d)
    ensures GoesRound(After(steps, env, context, n + 1), n + 1, d)
  {
    var r, r' := After(steps, env, context, n), After(steps, env, context, n + 1);
    var again := r.visited[n - d];
    VisitsIterateNext(steps, env, context, n);
    assert NextOf(steps, r.visited[n - 1 - d]) == Name(again);
    EnteredIsTruthy(steps, env, context, n, n - d);
    assert !r'.phase.Crashed?;
    FindStepFinds(steps, again);
    assert r'.visited == r.visited + [again];
  }

  lemma {:induction false} EnteredIsTruthy(steps: seq<Step>, env: Env, context: Context, n: nat, i: nat)
    requires i < |After(steps, env, context, n).visited|
    ensures After(steps, env, context, n).visited[i] != ""
  {
    if n > 0 {
      var r := After(steps, env, context, n - 1);
      if i < |r.visited| {
        EnteredIsTruthy(steps, env, context, n - 1, i);
      } else if r.phase.Going? && r.ref.Name? {
        FindStepFinds(steps, r.ref.id);
      }
    }
  }

  /** If a run without crashes ever enters more than `j` steps, it is still going after turn `j + 1`. */
  lemma FirstTurns(steps: seq<Step>, env: Env, context: Context, k: nat, j: nat)
    requires NeverCrashes(steps, env, context) && j < |After(steps, env, context, k).visited|
    ensures !Halted(steps, env, context, j + 1) && |After(steps, env, context, j + 1).visited| == j + 1
  {
    OneVisitPerTurn(steps, env, context, k);
    OneVisitPerTurn(steps, env, context, j + 1);
    if Halted(steps, env, context, j + 1) {
      HaltedStays(steps, env, context, j + 1, k);
      FinishingEntersNothing(steps, env, context, j + 1);
    }
  }

  lemma {:induction false} FinishingEntersNothing(steps: seq<Step>, env: Env, context: Context, n: nat)
    requires After(steps, env, context, n).phase.Finished?
    ensures |After(steps, env, context, n).visited| < n
  {
    if n > 0 {
      OneVisitPerTurn(steps, env, context, n - 1);
      if After(steps, env, context, n - 1).phase.Finished? {
        FinishingEntersNothing(steps, env, context, n - 1);
      }
    }
  }

  lemma RepeatMeansForever(steps: seq<Step>, env: Env, context: Context, k: nat, i: nat, j: nat, n: nat)
    requires ConditionFree(steps) && NeverCrashes(steps, env, context)
    requires Repeats(After(steps, env, context, k).visited, i, j)
    ensures !Halted(steps, env, context, n)
  {
    var m := if n <= j then j + 1 else n;
    RepeatNeverHalts(steps, env, context, k, i, j, m);
    StillGoing(steps, env, context, n, m);
  }

  /** Halting is decided by pigeonhole: a run without conditions and without crashes halts if and only if it
      does so within |steps| visits, and if and only if its first |steps| + 1 turns enter no step twice. */
  lemma HaltingIsDecidedEarly(steps: seq<Step>, env: Env, context: Context)
    requires ConditionFree(steps) && NeverCrashes(steps, env, context)
    ensures (exists n: nat :: Halted(steps, env, context, n)) <==> Halted(steps, env, context, |steps| + 1)
    ensures Halted(steps, env, context, |steps| + 1) <==> NoRepeat(After(steps, env, context, |steps| + 1).visited)
  {
    var last := |steps| + 1;
    var w := After(steps, env, context, last).visited;
    if NoRepeat(w) {
      VisitedAreDeclared(steps, env, context, last);
      OneVisitPerTurn(steps, env, context, last);
    } else {
      var i, j :| 0 <= i < j < |w| && w[i] == w[j];
      assert Repeats(w, i, j);
      forall n: nat ensures !Halted(steps, env, context, n) {
        RepeatMeansForever(steps, env, context, last, i, j, n);
      }
    }
  }

  // ---- Frame ----

  /** Keys that the step may write. */
  ghost predicate Writes(s: Step, key: string) {
    || (s.kind == "agent" && s.id == key)
    || (s.kind == "transform" && exists i :: 0 <= i < |s.config.entries| && Dest(s.config.entries, i)[0] == key)
  }

  ghost predicate SomeVisitWrites(steps: seq<Step>, w: seq<string>, key: string) {
    exists i :: 0 <= i < |w| && FindStep(steps, w[i]).Some? && Writes(FindStep(steps, w[i]).value, key)
  }

  ghost predicate SameAt(a: Context, b: Context, key: string) {
    (key in a <==> key in b) && (key in a ==> a[key] == b[key])
  }

  /** Over a whole run a top-level key changes only if a completed agent step has it as id or a completed
      transform as the first segment of a destination; a step that crashes the run changes nothing. */
  lemma {:induction false} RunFrame(steps: seq<Step>, env: Env, context: Context, n: nat, key: string)
    requires forall m :: 0 <= m <= n && !Halted(steps, env, context, m) ==>
              !SomeVisitWrites(steps, After(steps, env, context, m).visited, key)
    ensures SameAt(After(steps, env, context, n).context, context, key)
  {
    if n > 0 {
      var r, r' := After(steps, env, context, n - 1), After(steps, env, context, n);
      RunFrame(steps, env, context, n - 1, key);
      if r.phase.Going? && Truthy(r.ref) && Lookup(steps, r.ref).Ok? && r'.phase.Going? {
        var s := Lookup(steps, r.ref).value;
        TurnFollowsEdge(steps, env, r, s);
        assert !Halted(steps, env, context, n);
        assert r'.visited[|r.visited|] == s.id && !Writes(s, key);
        if s.kind == "transform" {
          TransformFrame(s.config.entries, r.context, r.context, key);
        }
      }
    }
  }

  // ---- References ----

  ghost predicate NextDeclared(steps: seq<Step>) {
    forall i :: 0 <= i < |steps| ==>
      steps[i].next == NoRef || (steps[i].next.Name? && exists k :: 0 <= k < |steps| && steps[k].id == steps[i].next.id)
  }

  /** If every `next` is null or a declared id, a lookup can fail only on what a condition branch named. */
  lemma {:induction false} OnlyBranchesDangle(steps: seq<Step>, env: Env, context: Context, n: nat)
    requires NextDeclared(steps)
    ensures var r := After(steps, env, context, n);
            r.phase.Going? && Truthy(r.ref) && Lookup(steps, r.ref).Raise? ==>
              && r.visited != []
              && FindStep(steps, r.visited[|r.visited| - 1]).Some?
              && FindStep(steps, r.visited[|r.visited| - 1]).value.kind == "condition"
  {
    if n == 0 {
      if steps != [] {
        FindStepFinds(steps, steps[0].id);
      }
    } else {
      var r := After(steps, env, context, n - 1);
      if r.phase.Going? && Truthy(r.ref) && Lookup(steps, r.ref).Ok? {
        var s := Lookup(steps, r.ref).value;
        TurnFollowsEdge(steps, env, r, s);
        FindStepFinds(steps, s.id);
        if s.kind != "condition" && s.next.Name? {
          FindStepFinds(steps, s.next.id);
        }
      }
    }
  }
}
