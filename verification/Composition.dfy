/** One execution of a definition inside the dispatch protocol: the interpreter of `execute_workflow` takes its agent
    outcomes from the protocol, whose other parties go on as they like
    (services/platform-api/src/executions/executor.py, lines 38-59 and 87-127). */
module Composition {
  import opened Common
  import opened Tree
  import opened Workflow
  import D = Dispatcher
  import P = Protocol
  import PP = ProtocolProofs
  import I = Interpreter

  /** What is executed, and as which execution; the environment's own agent outcomes are not used. */
  datatype Program = Program(exec: string, steps: seq<Step>, env: I.Env, context: I.Context)

  /** The protocol's state, and per turn of the program's loop so far what its agent call yielded (anything, for other
      steps) and in which visit of the protocol. */
  datatype Joint = Joint(protocol: P.State, outcomes: seq<I.AgentOutcome>, slots: seq<nat>)

  function EnvOf(env: I.Env, outcomes: seq<I.AgentOutcome>): I.Env {
    env.(agent := (k: nat) => if k < |outcomes| then outcomes[k] else I.Errored(""))
  }

  /** The program's run after `n` of its turns. */
  function RunAt(pr: Program, outcomes: seq<I.AgentOutcome>, n: nat): I.Run {
    I.After(pr.steps, EnvOf(pr.env, outcomes), pr.context, n)
  }

  function Now(pr: Program, j: Joint): I.Run {
    RunAt(pr, j.outcomes, |j.outcomes|)
  }

  /** The run is about to perform the agent step `id`. */
  predicate AtAgent(pr: Program, r: I.Run, id: string) {
    && r.phase.Going? && Truthy(r.ref) && I.Lookup(pr.steps, r.ref).Ok?
    && I.Lookup(pr.steps, r.ref).value.kind == "agent" && I.Lookup(pr.steps, r.ref).value.id == id
  }

  datatype Move =
    | Outside(a: P.Step)                  // anything but a step of this execution's own coroutine
    | Proceed(a: P.Step)                  // start, append the task, begin to wait: the run stands still
    | Local                               // a turn of the loop that calls no agent
    | Call(id: string)                    // register the Future of an agent step
    | Answer                              // the awaited Future has a value: the agent's turn is over
    | Fail(a: P.Step, o: I.AgentOutcome)  // timeout, rejection or exception during an agent's turn
    | Close(a: P.Step)                    // the loop is left

  predicate Own(a: P.Step, e: string) {
    match a
    case Start(x) => x == e
    case Register(x, _) => x == e
    case Append(x) => x == e
    case BeginWait(x) => x == e
    case Collect(x) => x == e
    case Timeout(x) => x == e
    case Abort(x) => x == e
    case Finish(x) => x == e
    case _ => false
  }

  predicate Between(e: string, p: P.State) {
    e in p.execs && p.execs[e].Between?
  }

  /** The execution is inside `dispatch_agent_step`. */
  predicate Calling(e: string, p: P.State) {
    e in p.execs && (p.execs[e].Registered? || p.execs[e].Appended? || p.execs[e].Waiting?)
  }

  function Visit(e: string, p: P.State): nat
    requires Calling(e, p)
  {
    p.execs[e].visit
  }

  predicate HasValue(e: string, p: P.State) {
    Calling(e, p) && Visit(e, p) < |p.table.futures| && p.table.futures[Visit(e, p)].HasResult?
  }

  predicate Rejected(e: string, p: P.State, error: string) {
    Calling(e, p) && Visit(e, p) < |p.table.futures| && p.table.futures[Visit(e, p)] == D.HasException(error)
  }

  /** The protocol's step that a move takes along, if any. */
  function Taken(e: string, move: Move): Option<P.Step> {
    match move
    case Outside(a) => Some(a)
    case Proceed(a) => Some(a)
    case Local => None
    case Call(id) => Some(P.Step.Register(e, id))
    case Answer => Some(P.Collect(e))
    case Fail(a, _) => Some(a)
    case Close(a) => Some(a)
  }

  ghost predicate Possible(pr: Program, j: Joint, move: Move) {
    && (Taken(pr.exec, move).Some? ==> P.Enabled(j.protocol, Taken(pr.exec, move).value))
    && match move
       case Outside(a) => !Own(a, pr.exec)
       case Proceed(a) => a in {P.Start(pr.exec), P.Step.Append(pr.exec), P.BeginWait(pr.exec)}
       case Local => Between(pr.exec, j.protocol) && forall id :: !AtAgent(pr, Now(pr, j), id)
       case Call(id) => AtAgent(pr, Now(pr, j), id)
       case Answer => HasValue(pr.exec, j.protocol)
       case Fail(a, o) =>
         && Calling(pr.exec, j.protocol)
         && ((a == P.Timeout(pr.exec) && o == I.TimedOut) || (a == P.Abort(pr.exec) && o.Errored?)
             || (a == P.Collect(pr.exec) && o.Errored? && Rejected(pr.exec, j.protocol, o.error)))
       case Close(a) =>
         a in {P.Abort(pr.exec), P.Finish(pr.exec)} && Between(pr.exec, j.protocol) && !Now(pr, j).phase.Going?
  }

  ghost function ProtocolAfter(pr: Program, j: Joint, move: Move): P.State
    requires Possible(pr, j, move)
  {
    if Taken(pr.exec, move).Some? then P.After(j.protocol, Taken(pr.exec, move).value) else j.protocol
  }

  ghost function After(pr: Program, j: Joint, move: Move): Joint
    requires Possible(pr, j, move)
  {
    var p := ProtocolAfter(pr, j, move);
    match move
    case Local => Joint(p, j.outcomes + [I.TimedOut], j.slots + [0])
    case Answer =>
      var k := Visit(pr.exec, j.protocol);
      Joint(p, j.outcomes + [I.Returned(j.protocol.table.futures[k].output)], j.slots + [k])
    case Fail(_, o) => Joint(p, j.outcomes + [o], j.slots + [Visit(pr.exec, j.protocol)])
    case _ => j.(protocol := p)
  }

  /** The execution has not started yet, in any state the protocol can be in. */
  ghost predicate Initial(pr: Program, j: Joint) {
    P.Reachable(j.protocol) && pr.exec !in j.protocol.execs && j.outcomes == [] && j.slots == []
  }

  ghost predicate Path(pr: Program, j: Joint, moves: seq<Move>)
    decreases |moves|
  {
    moves == [] || (Possible(pr, j, moves[0]) && Path(pr, After(pr, j, moves[0]), moves[1..]))
  }

  ghost function End(pr: Program, j: Joint, moves: seq<Move>): Joint
    requires Path(pr, j, moves)
    decreases |moves|
  {
    if moves == [] then j else End(pr, After(pr, j, moves[0]), moves[1..])
  }

  // ---- Later outcomes do not change earlier turns ----

  lemma {:induction false} EarlierTurns(pr: Program, outcomes: seq<I.AgentOutcome>, o: I.AgentOutcome, n: nat)
    requires n <= |outcomes|
    ensures RunAt(pr, outcomes + [o], n) == RunAt(pr, outcomes, n)
  {
    if n > 0 {
      EarlierTurns(pr, outcomes, o, n - 1);
      I.OneVisitPerTurn(pr.steps, EnvOf(pr.env, outcomes), pr.context, n - 1);
      SameOutcome(pr.steps, EnvOf(pr.env, outcomes), EnvOf(pr.env, outcomes + [o]), RunAt(pr, outcomes, n - 1));
    }
  }

  lemma SameOutcome(steps: seq<Step>, env: I.Env, env': I.Env, r: I.Run)
    requires env' == env.(agent := env'.agent) && env'.agent(|r.visited|) == env.agent(|r.visited|)
    ensures I.Visit(steps, env', r) == I.Visit(steps, env, r)
  {
  }

  // ---- The invariant ----

  /** Turn `n` was an agent's: it performed step `id`, which returned `v`. */
  predicate AnsweredAt(pr: Program, outcomes: seq<I.AgentOutcome>, n: nat, id: string, v: Json) {
    n < |outcomes| && outcomes[n] == I.Returned(v) && AtAgent(pr, RunAt(pr, outcomes, n), id)
  }

  /** Visit `k` of the protocol dispatched step `id` and stored `v`. */
  predicate StoredAt(e: string, visits: seq<P.Visit>, stored: map<nat, Json>, k: nat, id: string, v: Json) {
    k < |visits| && visits[k] == P.Visit(e, id) && k in stored && stored[k] == v
  }

  ghost predicate AnswersStored(pr: Program, j: Joint) {
    && |j.slots| == |j.outcomes|
    && forall n: nat, id, v :: AnsweredAt(pr, j.outcomes, n, id, v) ==>
         StoredAt(pr.exec, j.protocol.visits, j.protocol.stored, j.slots[n], id, v)
  }

  /** The run stands at the agent step that the execution is calling. */
  ghost predicate CallsOwnStep(pr: Program, j: Joint) {
    Calling(pr.exec, j.protocol) ==>
      var k := Visit(pr.exec, j.protocol);
      k < |j.protocol.visits| && AtAgent(pr, Now(pr, j), j.protocol.visits[k].step) &&
          j.protocol.visits[k].exec == pr.exec
  }

  /** No two answers come from the same visit: each call makes a later one. */
  ghost predicate SlotsGrow(e: string, p: P.State, outcomes: seq<I.AgentOutcome>, slots: seq<nat>) {
    && |slots| == |outcomes|
    && (forall n :: 0 <= n < |outcomes| && outcomes[n].Returned? ==>
          slots[n] < |p.visits| && (Calling(e, p) ==> slots[n] < Visit(e, p)))
    && (forall n, m :: 0 <= n < m < |outcomes| && outcomes[n].Returned? && outcomes[m].Returned? ==>
          slots[n] < slots[m])
  }

  ghost predicate Inv(pr: Program, j: Joint) {
    && P.Reachable(j.protocol) && AnswersStored(pr, j) && CallsOwnStep(pr, j)
    && SlotsGrow(pr.exec, j.protocol, j.outcomes, j.slots)
  }

  lemma ReachableAfter(s: P.State, a: P.Step)
    requires P.Reachable(s) && P.Enabled(s, a)
    ensures P.Reachable(P.After(s, a))
  {
    var steps :| P.Run(P.INITIAL, steps) == Some(s);
    PP.RunConcat(P.INITIAL, steps, [a]);
    assert P.Run(s, [a]) == P.Run(P.After(s, a), []);
    assert P.Run(P.INITIAL, steps + [a]) == Some(P.After(s, a));
  }

  /** What visits stored is never changed: a visit stores when it is collected, and each is collected once. */
  lemma StoredStays(s: P.State, a: P.Step, e: string, k: nat, id: string, v: Json)
    requires P.Reachable(s) && P.Enabled(s, a) && StoredAt(e, s.visits, s.stored, k, id, v)
    ensures var s' := P.After(s, a); StoredAt(e, s'.visits, s'.stored, k, id, v)
  {
    PP.ReachableInv(s);
    assert s.table.futures[k] == D.HasResult(v);
  }

  lemma StoredKept(pr: Program, j: Joint, a: P.Step)
    requires Inv(pr, j) && P.Enabled(j.protocol, a)
    ensures var p := P.After(j.protocol, a); P.Reachable(p) && AnswersStored(pr, j.(protocol := p))
  {
    ReachableAfter(j.protocol, a);
    forall n: nat, id, v | AnsweredAt(pr, j.outcomes, n, id, v)
      ensures var p := P.After(j.protocol, a); StoredAt(pr.exec, p.visits, p.stored, j.slots[n], id, v)
    {
      StoredStays(j.protocol, a, pr.exec, j.slots[n], id, v);
    }
  }

  /** Another turn is over; if it was an agent's that returned, its visit has stored what it returned. */
  lemma TurnKeeps(pr: Program, j: Joint, o: I.AgentOutcome, slot: nat)
    requires AnswersStored(pr, j)
    requires forall id, v :: AtAgent(pr, Now(pr, j), id) && o == I.Returned(v) ==>
               StoredAt(pr.exec, j.protocol.visits, j.protocol.stored, slot, id, v)
    ensures AnswersStored(pr, Joint(j.protocol, j.outcomes + [o], j.slots + [slot]))
  {
    var outcomes, slots := j.outcomes + [o], j.slots + [slot];
    forall n: nat, id, v | AnsweredAt(pr, outcomes, n, id, v)
      ensures StoredAt(pr.exec, j.protocol.visits, j.protocol.stored, slots[n], id, v)
    {
      EarlierTurns(pr, j.outcomes, o, n);
      if n < |j.outcomes| {
        assert AnsweredAt(pr, j.outcomes, n, id, v);
      }
    }
  }

  // ---- Every move keeps it ----

  /** Steps of others leave the execution where it is, and no visit is ever changed. */
  lemma OthersKeepOwn(s: P.State, a: P.Step, e: string)
    requires P.Enabled(s, a)
    ensures s.visits <= P.After(s, a).visits
    ensures !Own(a, e) ==> (e in P.After(s, a).execs <==> e in s.execs)
    ensures !Own(a, e) && e in s.execs ==> P.After(s, a).execs[e] == s.execs[e]
  {
  }

  lemma OutsideKeeps(pr: Program, j: Joint, a: P.Step)
    requires Inv(pr, j) && Possible(pr, j, Outside(a))
    ensures Inv(pr, After(pr, j, Outside(a)))
  {
    StoredKept(pr, j, a);
    OthersKeepOwn(j.protocol, a, pr.exec);
  }

  lemma ProceedKeeps(pr: Program, j: Joint, a: P.Step)
    requires Inv(pr, j) && Possible(pr, j, Proceed(a))
    ensures Inv(pr, After(pr, j, Proceed(a)))
  {
    StoredKept(pr, j, a);
  }

  lemma LocalKeeps(pr: Program, j: Joint)
    requires Inv(pr, j) && Possible(pr, j, Local)
    ensures Inv(pr, After(pr, j, Local))
  {
    TurnKeeps(pr, j, I.TimedOut, 0);
  }

  lemma CallKeeps(pr: Program, j: Joint, id: string)
    requires Inv(pr, j) && Possible(pr, j, Call(id))
    ensures Inv(pr, After(pr, j, Call(id)))
  {
    StoredKept(pr, j, P.Step.Register(pr.exec, id));
  }

  lemma AnswerKeeps(pr: Program, j: Joint)
    requires Inv(pr, j) && Possible(pr, j, Answer)
    ensures Inv(pr, After(pr, j, Answer))
  {
    var k := Visit(pr.exec, j.protocol);
    StoredKept(pr, j, P.Collect(pr.exec));
    var j' := j.(protocol := P.After(j.protocol, P.Collect(pr.exec)));
    TurnKeeps(pr, j', I.Returned(j.protocol.table.futures[k].output), k);
  }

  lemma FailKeeps(pr: Program, j: Joint, a: P.Step, o: I.AgentOutcome)
    requires Inv(pr, j) && Possible(pr, j, Fail(a, o))
    ensures Inv(pr, After(pr, j, Fail(a, o)))
  {
    StoredKept(pr, j, a);
    TurnKeeps(pr, j.(protocol := P.After(j.protocol, a)), o, Visit(pr.exec, j.protocol));
  }

  lemma CloseKeeps(pr: Program, j: Joint, a: P.Step)
    requires Inv(pr, j) && Possible(pr, j, Close(a))
    ensures Inv(pr, After(pr, j, Close(a)))
  {
    StoredKept(pr, j, a);
  }

  lemma MoveKeeps(pr: Program, j: Joint, move: Move)
    requires Inv(pr, j) && Possible(pr, j, move)
    ensures Inv(pr, After(pr, j, move))
  {
    match move
    case Outside(a) => OutsideKeeps(pr, j, a);
    case Proceed(a) => ProceedKeeps(pr, j, a);
    case Local => LocalKeeps(pr, j);
    case Call(id) => CallKeeps(pr, j, id);
    case Answer => AnswerKeeps(pr, j);
    case Fail(a, o) => FailKeeps(pr, j, a, o);
    case Close(a) => CloseKeeps(pr, j, a);
  }

  lemma {:induction false} PathKeeps(pr: Program, j: Joint, moves: seq<Move>)
    requires Inv(pr, j) && Path(pr, j, moves)
    ensures Inv(pr, End(pr, j, moves))
    decreases |moves|
  {
    if moves != [] {
      MoveKeeps(pr, j, moves[0]);
      PathKeeps(pr, After(pr, j, moves[0]), moves[1..]);
    }
  }

  // ---- What a context holds of its agents ----

  /** The key is not written by any step entered after turn `n`. */
  ghost predicate UnwrittenAfter(pr: Program, r: I.Run, n: nat, key: string) {
    forall i :: n < i < |r.visited| && I.FindStep(pr.steps, r.visited[i]).Some?
      ==> !I.Writes(I.FindStep(pr.steps, r.visited[i]).value, key)
  }

  lemma TurnFrame(steps: seq<Step>, env: I.Env, r: I.Run, key: string)
    requires var r' := I.Visit(steps, env, r);
             |r'.visited| > |r.visited| && I.FindStep(steps, r'.visited[|r.visited|]).Some? ==>
               !I.Writes(I.FindStep(steps, r'.visited[|r.visited|]).value, key)
    ensures I.SameAt(I.Visit(steps, env, r).context, r.context, key)
  {
    if r.phase.Going? && Truthy(r.ref) && I.Lookup(steps, r.ref).Ok? {
      var s := I.Lookup(steps, r.ref).value;
      I.TurnFollowsEdge(steps, env, r, s);
      if s.kind == "transform" && ApplyTransform(s.config.entries, r.context).Ok? {
        TransformFrame(s.config.entries, r.context, r.context, key);
      }
    }
  }

  lemma {:induction false} KeptSince(pr: Program, outcomes: seq<I.AgentOutcome>, n: nat, m: nat, key: string)
    requires n < m && |RunAt(pr, outcomes, n + 1).visited| == n + 1 &&
              UnwrittenAfter(pr, RunAt(pr, outcomes, m), n, key)
    ensures I.SameAt(RunAt(pr, outcomes, m).context, RunAt(pr, outcomes, n + 1).context, key)
    decreases m
  {
    if n + 1 < m {
      var env, w := EnvOf(pr.env, outcomes), RunAt(pr, outcomes, m).visited;
      var before := RunAt(pr, outcomes, m - 1).visited;
      I.OneVisitPerTurn(pr.steps, env, pr.context, m);
      I.VisitsStay(pr.steps, env, pr.context, n + 1, m - 1);
      assert forall i :: 0 <= i < |before| ==> before[i] == w[i];
      KeptSince(pr, outcomes, n, m - 1, key);
      TurnFrame(pr.steps, env, RunAt(pr, outcomes, m - 1), key);
    }
  }

  /** An agent's turn that returned leaves the value under the step's id. */
  lemma AnswerIsInContext(pr: Program, outcomes: seq<I.AgentOutcome>, n: nat, id: string, v: Json)
    requires AnsweredAt(pr, outcomes, n, id, v)
    ensures var r := RunAt(pr, outcomes, n + 1);
            |r.visited| == n + 1 && r.visited[n] == id && id in r.context && r.context[id] == v
  {
    I.OneVisitPerTurn(pr.steps, EnvOf(pr.env, outcomes), pr.context, n);
  }

  /** The stream's entry `i` is a task of the execution's for step `id`, and its one `completed` result carries `v`. */
  ghost predicate OneResult(p: P.State, e: string, id: string, v: Json, i: nat, j: nat) {
    && i < |p.tasks| && p.tasks[i].exec == e && p.tasks[i].step == id && PP.IsValue(p.results, j, p.tasks[i].taskId)
    && p.results[j].exec == e && p.results[j].status.output == v
    && forall j': nat :: PP.IsValue(p.results, j', p.tasks[i].taskId) ==> j' == j
  }

  /** Composition. However the execution, the workers, the consumer and all other executions interleave, the run is the
      interpreter's with the outcomes its calls had; and if the agent step `id` returned in turn `n` and nothing wrote
      its key since, the context holds under `id` the output of the one `completed` result of the task that this turn
      dispatched. */
  lemma ContextHoldsResults(pr: Program, start: Joint, moves: seq<Move>, n: nat, id: string, v: Json)
    returns (i: nat, result: nat)
    requires Initial(pr, start) && Path(pr, start, moves)
    requires var j := End(pr, start, moves);
             AnsweredAt(pr, j.outcomes, n, id, v) && UnwrittenAfter(pr, Now(pr, j), n, id)
    ensures var j := End(pr, start, moves);
            && id in Now(pr, j).context && Now(pr, j).context[id] == v
            && |j.slots| == |j.outcomes| && i < |j.protocol.tasks| && j.protocol.tasks[i].taskId == j.slots[n]
            && OneResult(j.protocol, pr.exec, id, v, i, result)
            && forall m :: 0 <= m < |j.outcomes| && m != n && j.outcomes[m].Returned? ==> j.slots[m] != j.slots[n]
  {
    PathKeeps(pr, start, moves);
    var j := End(pr, start, moves);
    AnswerIsInContext(pr, j.outcomes, n, id, v);
    KeptSince(pr, j.outcomes, n, |j.outcomes|, id);
    assert StoredAt(pr.exec, j.protocol.visits, j.protocol.stored, j.slots[n], id, v);
    result, i := PP.Correlation(j.protocol, j.slots[n]);
  }
}
