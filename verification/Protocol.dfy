/** The dispatch protocol between executors, agent workers and the result consumer, as a transition
    system. Every atomic step of any party may interleave with any other. */
module Protocol {
  import opened Common
  import opened Dispatcher

  /** One visit of an agent step; its index in `State.visits` is the task's fresh id. */
  datatype Visit = Visit(exec: string, step: string)

  datatype Task = Task(taskId: nat, exec: string, step: string)

  /** Where the coroutine of one execution stands. `Dead` is the end of every failure path. */
  datatype Phase =
    | Between
    | Registered(visit: nat)
    | Appended(visit: nat)
    | Waiting(visit: nat)
    | Ended
    | Dead

  /** A worker's progress on one delivered task. */
  datatype Job = Running | Published | Failing | Finished

  /** `jobs` runs parallel to the delivered prefix of `tasks`. Of `results`, the first `read` entries were
      delivered and the first `handled` of those are past; `applied` are those that reached the pending
      table, the others were abandoned by a raising acknowledgement. `stored` records the value each visit wrote
      under its step's id. */
  datatype State = State(
    table: Table,
    execs: map<string, Phase>,
    visits: seq<Visit>,
    tasks: seq<Task>,
    jobs: seq<Job>,
    results: seq<Result>,
    read: nat,
    handled: nat,
    applied: set<nat>,
    stored: map<nat, Json>)

  const INITIAL := State(Table(map[], []), map[], [], [], [], [], 0, 0, {}, map[])

  datatype Step =
    | Start(exec: string)
    | Register(exec: string, step: string)
    | Append(exec: string)
    | BeginWait(exec: string)
    | Collect(exec: string)
    | Timeout(exec: string)
    | Abort(exec: string)
    | Finish(exec: string)
    | Deliver
    | Publish(job: nat, status: Status)
    | RunRaises(job: nat)
    | AfterPublishRaises(job: nat)
    | LogWritten(job: nat)
    | PublishFailure(job: nat, sent: bool, error: string)
    | Read(upTo: nat)
    | HandleNext
    | AbandonBatch

  predicate In(s: State, e: string, p: Phase -> bool) {
    e in s.execs && p(s.execs[e])
  }

  predicate JobIs(s: State, i: nat, j: Job) {
    i < |s.jobs| <= |s.tasks| && s.jobs[i] == j
  }

  predicate Enabled(s: State, a: Step) {
    match a
    case Start(e) => e !in s.execs
    case Register(e, _) => In(s, e, (p: Phase) => p.Between?)
    case Append(e) => In(s, e, (p: Phase) => p.Registered?)
    case BeginWait(e) => In(s, e, (p: Phase) => p.Appended?)
    case Collect(e) => In(s, e, (p: Phase) => p.Waiting? && p.visit < |s.table.futures|
                                             && (s.table.futures[p.visit].HasResult? ||
                                                   s.table.futures[p.visit].HasException?))
    case Timeout(e) => In(s, e, (p: Phase) => p.Waiting? && p.visit < |s.table.futures|)
    case Abort(e) => In(s, e, (p: Phase) => p.Between? || p.Registered? || p.Appended?)
    case Finish(e) => In(s, e, (p: Phase) => p.Between?)
    case Deliver => |s.jobs| < |s.tasks|
    case Publish(i, _) => JobIs(s, i, Running)
    case RunRaises(i) => JobIs(s, i, Running)
    case AfterPublishRaises(i) => JobIs(s, i, Published)
    case LogWritten(i) => JobIs(s, i, Published)
    case PublishFailure(i, _, _) => JobIs(s, i, Failing)
    case Read(upTo) => s.handled == s.read < upTo <= |s.results|
    case HandleNext => s.handled < s.read <= |s.results|
    case AbandonBatch => s.handled < s.read
  }

  function Move(s: State, e: string, p: Phase): State {
    s.(execs := s.execs[e := p])
  }

  function ResultFor(t: Task, status: Status): Result {
    Result(t.taskId, t.exec, status)
  }

  function After(s: State, a: Step): State
    requires Enabled(s, a)
  {
    match a
    case Start(e) => Move(s, e, Between)
    case Register(e, step) =>
      Move(s, e, Registered(|s.visits|)).(visits := s.visits + [Visit(e, step)],
          table := Dispatcher.Register(s.table, e))
    case Append(e) =>
      var k := s.execs[e].visit;
      Move(s, e, Appended(k)).(tasks := s.tasks + [Task(k, e, if k < |s.visits| then s.visits[k].step else "")])
    case BeginWait(e) => Move(s, e, Waiting(s.execs[e].visit))
    case Collect(e) =>
      var k := s.execs[e].visit;
      var f := s.table.futures[k];
      if f.HasResult? then Move(s, e, Between).(stored := s.stored[k := f.output]) else Move(s, e, Dead)
    case Timeout(e) => Move(s, e, Dead).(table := GiveUp(s.table, s.execs[e].visit))
    case Abort(e) => Move(s, e, Dead)
    case Finish(e) => Move(s, e, Ended)
    case Deliver => s.(jobs := s.jobs + [Running])
    case Publish(i, status) =>
      s.(jobs := s.jobs[i := Published], results := s.results + [ResultFor(s.tasks[i], status)])
    case RunRaises(i) => s.(jobs := s.jobs[i := Failing])
    case AfterPublishRaises(i) => s.(jobs := s.jobs[i := Failing])
    case LogWritten(i) => s.(jobs := s.jobs[i := Finished])
    case PublishFailure(i, sent, error) =>
      s.(jobs := s.jobs[i := Finished],
         results := if sent then s.results + [ResultFor(s.tasks[i], NotCompleted(error))] else s.results)
    case Read(upTo) => s.(read := upTo)
    case HandleNext =>
      s.(table := Handle(s.table, Some(s.results[s.handled])), handled := s.handled + 1, applied := s.applied
          + {s.handled})
    case AbandonBatch => s.(handled := s.read)
  }

  /** The state a run leads to, if each of its steps is enabled when it is taken. */
  function Run(s: State, steps: seq<Step>): Option<State>
    decreases |steps|
  {
    if steps == [] then Some(s)
    else if Enabled(s, steps[0]) then Run(After(s, steps[0]), steps[1..])
    else None
  }

  ghost predicate Reachable(s: State) {
    exists steps :: Run(INITIAL, steps) == Some(s)
  }
}
