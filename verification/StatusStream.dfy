/** services/websocket-service/src/consumer/redis_consumer.py and main.py: one WebSocket process that turns the status
    stream into room emissions while clients come, join, leave and go. */
module StatusStream {
  import opened Common
  import W = Workflow
  import I = Interpreter
  import opened Executor
  import opened ExecutionEvents

  /** A stream entry: a status event, or data that does not decode. */
  datatype Entry = Event(execution: string, row: Row) | Malformed

  /** What `sio.emit` did: reach the whole room, or raise after reaching some of it. */
  datatype Emission = Delivered | Failed(reached: set<string>)

  /** A socket in the room of an execution. */
  datatype Member = Member(execution: string, sid: string)

  /** The stream, the group's progress (`next..end` is what is left of the batch being processed), the sockets, and
      what each of them has received, as positions in the stream. */
  datatype State = State(
    stream: seq<Entry>, next: nat, end: nat, acked: set<nat>, emitted: seq<nat>,
    live: set<string>, tenants: map<string, string>, members: set<Member>, inbox: map<string, seq<nat>>)

  datatype Step =
    | Append(entry: Entry)
    | Read
    | Process(emission: Emission, ackOk: bool)
    | Connect(sid: string, tenant: Option<string>)
    | Join(sid: string, execution: string)
    | Leave(sid: string, execution: string)
    | Disconnect(sid: string)

  /** `count=10` of `xreadgroup`. */
  const BATCH_SIZE: nat := 10

  /** `xgroup_create(..., id="$")`: only entries appended from now on are ever read. */
  ghost predicate Init(s: State) {
    s.next == s.end == |s.stream| && s.acked == {} && s.emitted == [] && s.live == {} && s.members == {}
    && s.tenants == map[] && s.inbox == map[]
  }

  predicate Enabled(s: State, step: Step) {
    match step
    case Append(_) => true
    case Read => s.next == s.end
    case Process(_, _) => s.next < s.end <= |s.stream|
    case Connect(sid, _) => sid !in s.tenants
    case Join(sid, _) => sid in s.live
    case Leave(sid, _) => sid in s.live
    case Disconnect(sid) => sid in s.live
  }

  function Room(members: set<Member>, execution: string): set<string> {
    set m | m in members && m.execution == execution :: m.sid
  }

  function Receive(inbox: map<string, seq<nat>>, sids: set<string>, p: nat): map<string, seq<nat>> {
    map sid | sid in inbox :: if sid in sids then inbox[sid] + [p] else inbox[sid]
  }

  function Recipients(s: State, e: string, emission: Emission): set<string> {
    if emission.Delivered? then Room(s.members, e) else Room(s.members, e) * emission.reached
  }

  /** The `try` block of `_process`. */
  function Emit(s: State, emission: Emission): State
    requires s.next < |s.stream|
  {
    match s.stream[s.next]
    case Malformed => s
    case Event(e, _) =>
      s.(inbox := Receive(s.inbox, Recipients(s, e, emission), s.next), emitted := s.emitted + [s.next])
  }

  /** The `finally` block; if the ack raises, the loop over the batch is left and its rest is never read again. */
  function Ack(s: State, ackOk: bool): State {
    if ackOk then s.(acked := s.acked + {s.next}, next := s.next + 1) else s.(next := s.end)
  }

  function After(s: State, step: Step, owner: map<string, string>): State
    requires Enabled(s, step)
  {
    match step
    case Append(entry) => s.(stream := s.stream + [entry])
    case Read => 
      s.(end := if s.next + BATCH_SIZE <= |s.stream| then s.next + BATCH_SIZE
                else if s.next <= |s.stream| then |s.stream| else s.next)
    case Process(emission, ackOk) => Ack(Emit(s, emission), ackOk)
    case Connect(sid, tenant) =>
      if tenant.None? then s
      else s.(live := s.live + {sid}, tenants := s.tenants[sid := tenant.value], inbox := s.inbox[sid := []])
    case Join(sid, e) =>
      if e in owner && sid in s.tenants && owner[e] == s.tenants[sid] then s.(members := s.members + {Member(e, sid)})
      else s
    case Leave(sid, e) => s.(members := s.members - {Member(e, sid)})
    case Disconnect(sid) => s.(live := s.live - {sid}, members := set m | m in s.members && m.sid != sid)
  }

  ghost predicate Possible(s: State, steps: seq<Step>, owner: map<string, string>)
    decreases |steps|
  {
    steps == [] || (Enabled(s, steps[0]) && Possible(After(s, steps[0], owner), steps[1..], owner))
  }

  ghost function Run(s: State, steps: seq<Step>, owner: map<string, string>): State
    requires Possible(s, steps, owner)
    decreases |steps|
  {
    if steps == [] then s else Run(After(s, steps[0], owner), steps[1..], owner)
  }

  // ---- What every step keeps ----

  /** Positions of decodable entries, in stream order, each at most once, all below `bound`. */
  ghost predicate Increasing(positions: seq<nat>, bound: nat, stream: seq<Entry>) {
    && (forall i :: 0 <= i < |positions| ==>
          positions[i] < bound && positions[i] < |stream| && stream[positions[i]].Event?)
    && (forall i, j :: 0 <= i < j < |positions| ==> positions[i] < positions[j])
  }

  /** Each entry a client received belongs to an execution of its tenant. */
  ghost predicate OwnTenant(positions: seq<nat>, stream: seq<Entry>, tenant: string, owner: map<string, string>) {
    forall i :: 0 <= i < |positions| && positions[i] < |stream| && stream[positions[i]].Event? ==>
      stream[positions[i]].execution in owner && owner[stream[positions[i]].execution] == tenant
  }

  ghost predicate MembersAreOwners(live: set<string>, tenants: map<string, string>, members: set<Member>,
      owner: map<string, string>) {
    forall m :: m in members ==>
      m.sid in live && m.sid in tenants && m.execution in owner && owner[m.execution] == tenants[m.sid]
  }

  ghost predicate InboxesFine(s: State, owner: map<string, string>) {
    forall sid :: sid in s.inbox ==>
      && sid in s.tenants && Increasing(s.inbox[sid], s.next, s.stream)
      && OwnTenant(s.inbox[sid], s.stream, s.tenants[sid], owner)
  }

  ghost predicate Inv(s: State, owner: map<string, string>) {
    && s.next <= s.end <= |s.stream|
    && s.tenants.Keys == s.inbox.Keys && s.live <= s.tenants.Keys
    && (forall p :: p in s.acked ==> p < s.next)
    && MembersAreOwners(s.live, s.tenants, s.members, owner)
    && Increasing(s.emitted, s.next, s.stream)
    && InboxesFine(s, owner)
  }

  lemma OneMore(positions: seq<nat>, p: nat, stream: seq<Entry>)
    requires Increasing(positions, p, stream) && p < |stream| && stream[p].Event?
    ensures Increasing(positions + [p], p + 1, stream)
  {
  }

  lemma OneMoreOwned(positions: seq<nat>, p: nat, stream: seq<Entry>, tenant: string, owner: map<string, string>)
    requires OwnTenant(positions, stream, tenant, owner) && p < |stream| && stream[p].Event?
    requires stream[p].execution in owner && owner[stream[p].execution] == tenant
    ensures OwnTenant(positions + [p], stream, tenant, owner)
  {
  }

  lemma ReceiveKeeps(s: State, emission: Emission, owner: map<string, string>, sid: string)
    requires Inv(s, owner) && s.next < s.end && s.stream[s.next].Event? && sid in s.inbox
    ensures var inbox := Receive(s.inbox, Recipients(s, s.stream[s.next].execution, emission), s.next);
            && sid in inbox && Increasing(inbox[sid], s.next + 1, s.stream)
            && OwnTenant(inbox[sid], s.stream, s.tenants[sid], owner)
  {
    var e := s.stream[s.next].execution;
    if sid in Recipients(s, e, emission) {
      assert Member(e, sid) in s.members;
      OneMore(s.inbox[sid], s.next, s.stream);
      OneMoreOwned(s.inbox[sid], s.next, s.stream, s.tenants[sid], owner);
    }
  }

  lemma IncreasingLater(positions: seq<nat>, bound: nat, stream: seq<Entry>, bound': nat, more: seq<Entry>)
    requires Increasing(positions, bound, stream) && bound <= bound'
    ensures Increasing(positions, bound', stream + more)
  {
  }

  lemma EmitKeeps(s: State, emission: Emission, owner: map<string, string>)
    requires Inv(s, owner) && s.next < s.end
    ensures var s' := Emit(s, emission);
            Increasing(s'.emitted, s.next + 1, s.stream) && InboxesFine(s'.(next := s.next + 1), owner)
  {
    if s.stream[s.next].Event? {
      OneMore(s.emitted, s.next, s.stream);
      forall sid | sid in s.inbox {
        ReceiveKeeps(s, emission, owner, sid);
      }
    }
  }

  lemma ProcessKeeps(s: State, emission: Emission, ackOk: bool, owner: map<string, string>)
    requires Inv(s, owner) && s.next < s.end
    ensures Inv(After(s, Process(emission, ackOk), owner), owner)
  {
    EmitKeeps(s, emission, owner);
  }

  lemma AppendKeeps(s: State, entry: Entry, owner: map<string, string>)
    requires Inv(s, owner)
    ensures Inv(After(s, Append(entry), owner), owner)
  {
    IncreasingLater(s.emitted, s.next, s.stream, s.next, [entry]);
    forall sid | sid in s.inbox
      ensures Increasing(s.inbox[sid], s.next, s.stream + [entry]) &&
                OwnTenant(s.inbox[sid], s.stream + [entry], s.tenants[sid], owner)
    {
      IncreasingLater(s.inbox[sid], s.next, s.stream, s.next, [entry]);
    }
  }

  lemma ClientsKeep(s: State, step: Step, owner: map<string, string>)
    requires Inv(s, owner) && Enabled(s, step) && !step.Process? && !step.Append?
    ensures Inv(After(s, step, owner), owner)
  {
  }

  lemma StepKeeps(s: State, step: Step, owner: map<string, string>)
    requires Inv(s, owner) && Enabled(s, step)
    ensures Inv(After(s, step, owner), owner)
  {
    match step
    case Process(emission, ackOk) => ProcessKeeps(s, emission, ackOk, owner);
    case Append(entry) => AppendKeeps(s, entry, owner);
    case _ => ClientsKeep(s, step, owner);
  }

  lemma {:induction false} RunKeeps(s: State, steps: seq<Step>, owner: map<string, string>)
    requires Inv(s, owner) && Possible(s, steps, owner)
    ensures Inv(Run(s, steps, owner), owner)
    decreases |steps|
  {
    if steps != [] {
      StepKeeps(s, steps[0], owner);
      RunKeeps(After(s, steps[0], owner), steps[1..], owner);
    }
  }

  // ---- Main results, over every run ----

  /** At most once, in stream order, to sockets of the owning tenant only: over every pattern of decode, emit and ack
      failures and of clients joining and leaving. */
  lemma OrderedAtMostOnce(s: State, steps: seq<Step>, owner: map<string, string>)
    requires Init(s) && Possible(s, steps, owner)
    ensures var s' := Run(s, steps, owner);
            && Increasing(s'.emitted, s'.next, s'.stream)
            && (forall sid :: sid in s'.inbox ==> sid in s'.tenants && Increasing(s'.inbox[sid], s'.next, s'.stream)
                                                   && OwnTenant(s'.inbox[sid], s'.stream, s'.tenants[sid], owner))
  {
    RunKeeps(s, steps, owner);
  }

  /** The rows of one execution among stream entries. */
  function RowsOf(stream: seq<Entry>, e: string): seq<Row> {
    if stream == [] then []
    else
      var last := stream[|stream| - 1];
      RowsOf(stream[..|stream| - 1], e) + (if last.Event? && last.execution == e then [last.row] else [])
  }

  function Received(positions: seq<nat>, stream: seq<Entry>): seq<Entry>
    requires forall i :: 0 <= i < |positions| ==> positions[i] < |stream|
  {
    seq(|positions|, i requires 0 <= i < |positions| => stream[positions[i]])
  }

  predicate About(entry: Entry, e: string) {
    entry.Event? && entry.execution == e
  }

  /** Of two entries about `e`, the earlier one is `running`. */
  ghost predicate Orderly(stream: seq<Entry>, e: string) {
    forall p, q :: 0 <= p < q < |stream| && About(stream[p], e) && About(stream[q], e) ==>
        stream[p].row.status == Running
  }

  lemma {:induction false} RowsOfRunning(stream: seq<Entry>, e: string)
    ensures (forall row :: row in RowsOf(stream, e) ==> row.status == Running)
       <==> (forall entry :: entry in stream && About(entry, e) ==> entry.row.status == Running)
    decreases |stream|
  {
    if stream != [] {
      RowsOfRunning(stream[..|stream| - 1], e);
      assert stream == stream[..|stream| - 1] + [stream[|stream| - 1]];
    }
  }

  lemma TerminalIsLastOfMore(rows: seq<Row>, row: Row)
    ensures TerminalIsLast(rows + [row]) <==> forall r :: r in rows ==> r.status == Running
  {
    if TerminalIsLast(rows + [row]) {
      forall i | 0 <= i < |rows| ensures rows[i].status == Running {
        assert (rows + [row])[i] == rows[i];
      }
    }
  }

  lemma OrderlyOfMore(front: seq<Entry>, last: Entry, e: string)
    ensures Orderly(front + [last], e)
       <==> && Orderly(front, e)
            && (About(last, e) ==> forall entry :: entry in front && About(entry, e) ==> entry.row.status == Running)
  {
    var stream := front + [last];
    if Orderly(stream, e) {
      assert forall p :: 0 <= p < |front| ==> front[p] == stream[p];
      assert stream[|front|] == last;
    }
  }

  lemma {:induction false} OrderlyIffTerminalIsLast(stream: seq<Entry>, e: string)
    ensures Orderly(stream, e) <==> TerminalIsLast(RowsOf(stream, e))
    decreases |stream|
  {
    if stream != [] {
      var front, last := stream[..|stream| - 1], stream[|stream| - 1];
      assert stream == front + [last];
      OrderlyIffTerminalIsLast(front, e);
      OrderlyOfMore(front, last, e);
      if About(last, e) {
        RowsOfRunning(front, e);
        TerminalIsLastOfMore(RowsOf(front, e), last.row);
      } else {
        assert RowsOf(stream, e) == RowsOf(front, e);
      }
    }
  }

  /** A subsequence of an orderly stream is orderly. */
  lemma OrderlyReceived(positions: seq<nat>, bound: nat, stream: seq<Entry>, e: string)
    requires Increasing(positions, bound, stream) && Orderly(stream, e)
    ensures Orderly(Received(positions, stream), e)
  {
  }

  /** End to end. If what the stream holds of an execution is what its run has published so far, no client ever sees
      anything of that execution, `running` in particular, after a terminal event. */
  lemma NothingSeenAfterTerminal(s: State, script: seq<Step>, owner: map<string, string>, sid: string,
                                 e: string, steps: seq<W.Step>, env: I.Env, context: I.Context, n: nat)
    requires Init(s) && Possible(s, script, owner) && sid in Run(s, script, owner).inbox
    requires RowsOf(Run(s, script, owner).stream, e)
              <= PublishedRows(Effects(steps, env, I.Runs(steps, env, context, n)))
    ensures var s' := Run(s, script, owner);
            && Increasing(s'.inbox[sid], s'.next, s'.stream)
            && TerminalIsLast(RowsOf(Received(s'.inbox[sid], s'.stream), e))
            && forall i, j :: 0 <= i < j < |s'.inbox[sid]|
                              && About(s'.stream[s'.inbox[sid][i]], e) && About(s'.stream[s'.inbox[sid][j]], e)
                 ==> s'.stream[s'.inbox[sid][i]].row.status == Running
  {
    var s' := Run(s, script, owner);
    OrderedAtMostOnce(s, script, owner);
    NothingAfterTerminal(steps, env, context, n);
    OrderlyIffTerminalIsLast(s'.stream, e);
    OrderlyReceived(s'.inbox[sid], s'.next, s'.stream, e);
    OrderlyIffTerminalIsLast(Received(s'.inbox[sid], s'.stream), e);
  }

  // ---- Nothing is missed without failures ----

  ghost predicate AcksHold(steps: seq<Step>) {
    forall i :: 0 <= i < |steps| && steps[i].Process? ==> steps[i].ackOk
  }

  /** Every decodable entry from `from` up to the group's position has been emitted, and every entry acknowledged. */
  ghost predicate Complete(s: State, from: nat) {
    && from <= s.next <= s.end <= |s.stream|
    && (forall p :: p in s.acked <==> from <= p < s.next)
    && (forall p :: from <= p < s.next && s.stream[p].Event? ==> p in s.emitted)
  }

  lemma CompleteKept(s: State, step: Step, owner: map<string, string>, from: nat)
    requires Complete(s, from) && Enabled(s, step) && (step.Process? ==> step.ackOk)
    ensures Complete(After(s, step, owner), from)
  {
  }

  /** While acks do not raise, whatever emits do, no entry appended since the start is skipped: each one read is
      acknowledged and, if it decodes, emitted. */
  lemma {:induction false} NoEntrySkipped(s: State, steps: seq<Step>, owner: map<string, string>, from: nat)
    requires Complete(s, from) && Possible(s, steps, owner) && AcksHold(steps)
    ensures Complete(Run(s, steps, owner), from)
    decreases |steps|
  {
    if steps != [] {
      CompleteKept(s, steps[0], owner, from);
      assert AcksHold(steps[1..]);
      NoEntrySkipped(After(s, steps[0], owner), steps[1..], owner, from);
    }
  }

  /** The step neither takes the socket out of the room nor fails to reach it or to acknowledge. */
  predicate Stays(step: Step, sid: string, e: string) {
    match step
    case Process(emission, ackOk) => ackOk && (emission.Delivered? || sid in emission.reached)
    case Leave(who, execution) => who != sid || execution != e
    case Disconnect(who) => who != sid
    case Connect(who, _) => who != sid
    case _ => true
  }

  /** The socket is in the room and has received all of the execution's events read since `from`. */
  ghost predicate Follows(s: State, sid: string, e: string, from: nat) {
    && Member(e, sid) in s.members && sid in s.inbox && s.next <= s.end <= |s.stream|
    && forall p :: from <= p < s.next && About(s.stream[p], e) ==> p in s.inbox[sid]
  }

  lemma FollowsKept(s: State, step: Step, owner: map<string, string>, sid: string, e: string, from: nat)
    requires Follows(s, sid, e, from) && Enabled(s, step) && Stays(step, sid, e)
    ensures Follows(After(s, step, owner), sid, e, from)
  {
    if step.Process? && About(s.stream[s.next], e) {
      assert sid in Recipients(s, e, step.emission);
    }
  }

  /** A socket that stays in the room receives every event of the execution read meanwhile. */
  lemma {:induction false} FollowerMissesNothing(s: State, steps: seq<Step>, owner: map<string, string>, sid: string,
      e: string, from: nat)
    requires Follows(s, sid, e, from) && Possible(s, steps, owner)
    requires forall i :: 0 <= i < |steps| ==> Stays(steps[i], sid, e)
    ensures Follows(Run(s, steps, owner), sid, e, from)
    decreases |steps|
  {
    if steps != [] {
      FollowsKept(s, steps[0], owner, sid, e, from);
      FollowerMissesNothing(After(s, steps[0], owner), steps[1..], owner, sid, e, from);
    }
  }

  // ---- Nobody else hears of an execution ----

  /** The client is connected and not in the execution's room. */
  ghost predicate Outside(s: State, sid: string, e: string) {
    Member(e, sid) !in s.members && sid in s.inbox && sid in s.tenants
  }

  /** From `s` to `s'` the client has received nothing of the execution. */
  ghost predicate HeardNothing(s: State, s': State, sid: string, e: string)
    requires sid in s.inbox
  {
    && s.stream <= s'.stream && sid in s'.inbox
    && forall p :: p in s'.inbox[sid] && p < |s'.stream| && About(s'.stream[p], e) ==> p in s.inbox[sid]
  }

  lemma OutsideKept(s: State, step: Step, owner: map<string, string>, sid: string, e: string)
    requires Inv(s, owner) && Outside(s, sid, e) && Enabled(s, step) && step != Join(sid, e)
    ensures Outside(After(s, step, owner), sid, e) && HeardNothing(s, After(s, step, owner), sid, e)
  {
  }

  /** A client outside the room of an execution, whether it never joined, left or disconnected, receives nothing of that
      execution until it joins. */
  lemma {:induction false} OutsiderHearsNothing(s: State, steps: seq<Step>, owner: map<string, string>, sid: string,
      e: string)
    requires Inv(s, owner) && Outside(s, sid, e) && Possible(s, steps, owner)
    requires forall i :: 0 <= i < |steps| ==> steps[i] != Join(sid, e)
    ensures Outside(Run(s, steps, owner), sid, e) && HeardNothing(s, Run(s, steps, owner), sid, e)
    decreases |steps|
  {
    if steps != [] {
      assert steps[0] != Join(sid, e);
      var s1 := After(s, steps[0], owner);
      OutsideKept(s, steps[0], owner, sid, e);
      StepKeeps(s, steps[0], owner);
      OutsiderHearsNothing(s1, steps[1..], owner, sid, e);
      HeardNothingYet(s, s1, Run(s1, steps[1..], owner), owner, sid, e);
    }
  }

  lemma HeardNothingYet(s: State, s1: State, s': State, owner: map<string, string>, sid: string, e: string)
    requires Inv(s1, owner) && sid in s.inbox && sid in s1.inbox
    requires HeardNothing(s, s1, sid, e) && HeardNothing(s1, s', sid, e)
    ensures HeardNothing(s, s', sid, e)
  {
    forall p | p in s'.inbox[sid] && p < |s'.stream| && About(s'.stream[p], e) ensures p in s.inbox[sid] {
      assert p in s1.inbox[sid] && p < |s1.stream| && s1.stream[p] == s'.stream[p];
    }
  }

  /** A new client, one that leaves and one that disconnects are outside; the rooms of others are as they were. */
  lemma GettingOutside(s: State, owner: map<string, string>, sid: string, e: string, tenant: string)
    requires Inv(s, owner)
    ensures sid !in s.tenants ==> Outside(After(s, Connect(sid, Some(tenant)), owner), sid, e)
    ensures sid in s.live ==>
              var left := After(s, Leave(sid, e), owner);
              Outside(left, sid, e) && forall m :: m in s.members && m != Member(e, sid) ==> m in left.members
    ensures sid in s.live ==>
              var gone := After(s, Disconnect(sid), owner);
              Outside(gone, sid, e) && forall m :: m in s.members && m.sid != sid ==> m in gone.members
  {
    if sid !in s.tenants {
      assert Member(e, sid) !in s.members;
    }
  }

  /** An acknowledgement that raises gives the rest of its batch up for good. */
  lemma {:induction false} GivenUpForGood(s: State, steps: seq<Step>, owner: map<string, string>, p: nat)
    requires Inv(s, owner) && Possible(s, steps, owner) && p < s.next && p !in s.emitted && p !in s.acked
    ensures var s' := Run(s, steps, owner); p < s'.next && p !in s'.emitted && p !in s'.acked
    decreases |steps|
  {
    if steps != [] {
      StepKeeps(s, steps[0], owner);
      GivenUpForGood(After(s, steps[0], owner), steps[1..], owner, p);
    }
  }

  lemma RaisingAckGivesUp(s: State, emission: Emission, steps: seq<Step>, owner: map<string, string>, p: nat)
    requires Inv(s, owner) && s.next < p < s.end && Possible(After(s, Process(emission, false), owner), steps, owner)
    ensures var s' := Run(After(s, Process(emission, false), owner), steps, owner); p !in s'.emitted && p !in s'.acked
  {
    StepKeeps(s, Process(emission, false), owner);
    GivenUpForGood(After(s, Process(emission, false), owner), steps, owner, p);
  }

  // ---- The imperative service ----

  lemma {:induction false} RunThen(s: State, steps: seq<Step>, step: Step, owner: map<string, string>)
    requires Possible(s, steps, owner) && Enabled(Run(s, steps, owner), step)
    ensures Possible(s, steps + [step], owner)
    ensures Run(s, steps + [step], owner) == After(Run(s, steps, owner), step, owner)
    decreases |steps|
  {
    if steps == [] {
      assert steps + [step] == [step];
    } else {
      assert (steps + [step])[1..] == steps[1..] + [step];
      RunThen(After(s, steps[0], owner), steps[1..], step, owner);
    }
  }

  /** The steps read a batch and process entries, and lead from `s` to `s'`. */
  ghost predicate IsRound(s: State, steps: seq<Step>, s': State, owner: map<string, string>) {
    && Possible(s, steps, owner) && Run(s, steps, owner) == s'
    && steps != [] && steps[0] == Read && forall i :: 0 < i < |steps| ==> steps[i].Process?
  }

  lemma FirstOfRound(s: State, owner: map<string, string>)
    requires Enabled(s, Read)
    ensures IsRound(s, [Read], After(s, Read, owner), owner)
  {
    assert [Read][1..] == [];
    assert Run(s, [Read], owner) == Run(After(s, Read, owner), [], owner);
  }

  lemma NextOfRound(s: State, steps: seq<Step>, s': State, a: Step, owner: map<string, string>)
    requires IsRound(s, steps, s', owner) && a.Process? && Enabled(s', a)
    ensures IsRound(s, steps + [a], After(s', a, owner), owner)
  {
    RunThen(s, steps, a, owner);
  }

  datatype Reply = Joined | BadRequest | Forbidden

  class Service {
    var stream: seq<Entry>
    var next: nat
    var end: nat
    var acked: set<nat>
    var emitted: seq<nat>
    var live: set<string>
    var tenants: map<string, string>
    var members: set<Member>
    var inbox: map<string, seq<nat>>

    function Now(): State
      reads this
    {
      State(stream, next, end, acked, emitted, live, tenants, members, inbox)
    }

    constructor (stream: seq<Entry>)
      ensures Init(Now()) && this.stream == stream
    {
      this.stream, next, end := stream, |stream|, |stream|;
      acked, emitted, live, tenants, members, inbox := {}, [], {}, map[], {}, map[];
    }

    /** `_process` for the next entry of the batch. */
    method ProcessEntry(emission: Emission, ackOk: bool, ghost owner: map<string, string>) returns (raised: bool)
      requires Enabled(Now(), Process(emission, ackOk))
      modifies this
      ensures Now() == After(old(Now()), Process(emission, ackOk), owner) && raised == !ackOk
    {
      var entry := stream[next];
      if entry.Event? {
        var room := Room(members, entry.execution);
        inbox := Receive(inbox, if emission.Delivered? then room else room * emission.reached, next);
        emitted := emitted + [next];
      }
      if ackOk {
        acked, next := acked + {next}, next + 1;
      } else {
        next := end;
      }
      raised := !ackOk;
    }

    /** The `xreadgroup` call of a round. */
    method ReadBatch(ghost owner: map<string, string>)
      requires next == end <= |stream|
      modifies this`end
      ensures Enabled(old(Now()), Read) && Now() == After(old(Now()), Read, owner) && next <= end <= |stream|
      ensures end - old(end) == if |stream| - old(end) < BATCH_SIZE then |stream| - old(end) else BATCH_SIZE
    {
      var size := |stream| - next;
      end := next + if BATCH_SIZE <= size then BATCH_SIZE else size;
    }

    /** One round of `start`: read a batch and process it entry by entry, unless an ack raises. */
    method Round(emissions: nat -> Emission, acks: nat -> bool, ghost owner: map<string, string>)
      returns (ghost steps: seq<Step>)
      requires next == end <= |stream|
      modifies this
      ensures IsRound(old(Now()), steps, Now(), owner) && next == end <= |stream|
      ensures end - old(end) == if |stream| - old(end) < BATCH_SIZE then |stream| - old(end) else BATCH_SIZE
    {
      ghost var s := Now();
      ReadBatch(owner);
      steps := [Read];
      FirstOfRound(s, owner);
      ghost var batchEnd := end;
      while next < end
        invariant IsRound(s, steps, Now(), owner)
        invariant next <= end == batchEnd <= |stream| && stream == s.stream
        decreases end - next
      {
        var emission, ackOk := emissions(next), acks(next);
        NextOfRound(s, steps, Now(), Process(emission, ackOk), owner);
        steps := steps + [Process(emission, ackOk)];
        var raised := ProcessEntry(emission, ackOk, owner);
        if raised {
          break;
        }
      }
    }

    /** `connect`; `tenant` is what the token says, if it is there and verifies. */
    method ConnectClient(sid: string, tenant: Option<string>, ghost owner: map<string, string>) returns (accepted: bool)
      requires Enabled(Now(), Connect(sid, tenant))
      modifies this
      ensures Now() == After(old(Now()), Connect(sid, tenant), owner) && accepted == tenant.Some?
    {
      if tenant.None? {
        return false;
      }
      live, tenants, inbox := live + {sid}, tenants[sid := tenant.value], inbox[sid := []];
      accepted := true;
    }

    /** `join_execution`: the room is entered exactly when the execution exists and belongs to the socket's tenant. */
    method JoinExecution(sid: string, execution: Option<string>, owner: map<string, string>) returns (reply: Reply)
      requires sid in live
      modifies this
      ensures reply == BadRequest <==> execution == None || execution == Some("")
      ensures reply == BadRequest ==> Now() == old(Now())
      ensures reply != BadRequest ==> Now() == After(old(Now()), Join(sid, execution.value), owner)
      ensures reply == Joined ==> Member(execution.value, sid) in members
      ensures reply == Forbidden ==> Now() == old(Now())
      ensures reply == Joined <==>
                && reply != BadRequest && execution.value in owner && sid in tenants
                && owner[execution.value] == tenants[sid]
    {
      if execution == None || execution == Some("") {
        return BadRequest;
      }
      var e := execution.value;
      if e !in owner || sid !in tenants || owner[e] != tenants[sid] {
        return Forbidden;
      }
      members := members + {Member(e, sid)};
      reply := Joined;
    }

    method LeaveExecution(sid: string, execution: Option<string>, ghost owner: map<string, string>)
      requires sid in live
      modifies this
      ensures Now() == if execution == None || execution == Some("") then old(Now())
                else After(old(Now()), Leave(sid, execution.value), owner)
    {
      if execution != None && execution != Some("") {
        members := members - {Member(execution.value, sid)};
      }
    }
  }
}
