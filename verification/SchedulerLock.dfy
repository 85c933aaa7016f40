/** The distributed lock of services/scheduler-service/src/dispatcher.py for one workflow, as a timed
    transition system with any number of dispatching instances. */
module SchedulerLock {
  import opened Common

  /** `attempts` tries of at most `attempt` seconds each; `slack` bounds every other delay of a live instance;
      the lock expires `ttl` seconds after it was set. */
  datatype Params = Params(attempts: nat, attempt: real, slack: real, ttl: real)

  ghost predicate ValidParams(p: Params) {
    p.attempts > 0 && p.attempt >= 0.0 && p.slack >= 0.0 && p.ttl > 0.0
  }

  datatype Phase = Entering | Attempt(k: nat) | Backoff(k: nat) | Leaving

  /** A `dispatch` call that acquired the lock and has not deleted it yet. */
  datatype Call = Call(phase: Phase, since: real, acquired: real)

  datatype Lock = Lock(owner: nat, expires: real)

  datatype State = State(now: real, lock: Option<Lock>, calls: map<nat, Call>)

  const INITIAL := State(0.0, None, map[])

  function Pow2(k: nat): nat {
    if k == 0 then 1 else 2 * Pow2(k - 1)
  }

  /** The sleep after attempt `k`. */
  function Wait(k: nat): real {
    Pow2(k + 1) as real
  }

  /** The longest a live instance stays in a phase. */
  function Limit(p: Params, phase: Phase): real {
    match phase
    case Entering => p.slack
    case Attempt(_) => p.attempt
    case Backoff(k) => Wait(k) + p.slack
    case Leaving => p.slack
  }

  datatype Step =
    | Acquire(i: nat)
    | Enter(i: nat)
    | Succeed(i: nat)
    | Fail(i: nat)
    | Wake(i: nat)
    | Interrupt(i: nat)
    | Release(i: nat)
    | Crash(i: nat)
    | Tick(d: real)

  predicate Free(s: State) {
    s.lock.None? || s.now >= s.lock.value.expires
  }

  ghost predicate Enabled(p: Params, s: State, a: Step) {
    match a
    case Acquire(i) => i !in s.calls && Free(s)
    case Enter(i) => i in s.calls && s.calls[i].phase.Entering?
    case Succeed(i) => i in s.calls && s.calls[i].phase.Attempt?
    case Fail(i) => i in s.calls && s.calls[i].phase.Attempt?
    case Wake(i) => i in s.calls && s.calls[i].phase.Backoff? && s.now >= s.calls[i].since + Wait(s.calls[i].phase.k)
    case Interrupt(i) => i in s.calls && !s.calls[i].phase.Leaving?
    case Release(i) => i in s.calls && s.calls[i].phase.Leaving?
    case Crash(i) => i in s.calls
    case Tick(d) => d >= 0.0 && forall i :: i in s.calls ==> s.now + d <= s.calls[i].since + Limit(p, s.calls[i].phase)
  }

  function Go(s: State, i: nat, phase: Phase): State
    requires i in s.calls
  {
    s.(calls := s.calls[i := s.calls[i].(phase := phase, since := s.now)])
  }

  function After(p: Params, s: State, a: Step): State
    requires Enabled(p, s, a)
  {
    match a
    case Acquire(i) => State(s.now, Some(Lock(i, s.now + p.ttl)), s.calls[i := Call(Entering, s.now, s.now)])
    case Enter(i) => Go(s, i, Attempt(0))
    case Succeed(i) => Go(s, i, Leaving)
    case Fail(i) => var k := s.calls[i].phase.k; Go(s, i, if k + 1 < p.attempts then Backoff(k) else Leaving)
    case Wake(i) => Go(s, i, Attempt(s.calls[i].phase.k + 1))
    case Interrupt(i) => Go(s, i, Leaving)
    case Release(i) => s.(lock := None, calls := s.calls - {i})
    case Crash(i) => s.(calls := s.calls - {i})
    case Tick(d) => s.(now := s.now + d)
  }

  ghost function Run(p: Params, s: State, steps: seq<Step>): Option<State>
    decreases |steps|
  {
    if steps == [] then Some(s)
    else if Enabled(p, s, steps[0]) then Run(p, After(p, s, steps[0]), steps[1..])
    else None
  }

  ghost predicate Reachable(p: Params, s: State) {
    exists steps :: Run(p, INITIAL, steps) == Some(s)
  }

  ghost predicate Exclusive(s: State) {
    forall i, j :: i in s.calls && j in s.calls ==> i == j
  }

  // ---- How long a call can hold on ----

  /** The latest moment after acquiring at which attempt `k` starts. */
  function LatestStart(p: Params, k: nat): real {
    if k == 0 then p.slack else LatestStart(p, k - 1) + p.attempt + Wait(k - 1) + p.slack
  }

  /** The longest possible time from acquiring to deleting the lock. */
  function Total(p: Params): real
    requires p.attempts > 0
  {
    LatestStart(p, p.attempts - 1) + p.attempt + p.slack
  }

  lemma {:induction false} TotalClosedForm(p: Params, k: nat)
    ensures LatestStart(p, k) == (k as real) * p.attempt + (Pow2(k + 1) as real - 2.0) + ((k + 1) as real) * p.slack
  {
    if k > 0 {
      TotalClosedForm(p, k - 1);
      assert (k as real) * p.attempt == ((k - 1) as real) * p.attempt + p.attempt;
      assert ((k + 1) as real) * p.slack == (k as real) * p.slack + p.slack;
    } else {
      assert Pow2(1) == 2;
    }
  }

  lemma {:induction false} LatestStartGrows(p: Params, k: nat, m: nat)
    requires ValidParams(p) && k <= m
    ensures LatestStart(p, k) <= LatestStart(p, m)
    ensures k < m ==> LatestStart(p, k) + p.attempt + Wait(k) + p.slack <= LatestStart(p, m)
    decreases m
  {
    if k < m {
      LatestStartGrows(p, k, m - 1);
    }
  }

  /** The latest moment after acquiring at which a phase begins. */
  ghost function Spent(p: Params, phase: Phase): real
    requires p.attempts > 0
  {
    match phase
    case Entering => 0.0
    case Attempt(k) => LatestStart(p, k)
    case Backoff(k) => LatestStart(p, k) + p.attempt
    case Leaving => LatestStart(p, p.attempts - 1) + p.attempt
  }

  ghost predicate CallOk(p: Params, s: State, i: nat)
    requires ValidParams(p) && i in s.calls
  {
    var c := s.calls[i];
    && s.lock == Some(Lock(i, c.acquired + p.ttl))
    && c.acquired <= c.since <= s.now <= c.since + Limit(p, c.phase)
    && c.since - c.acquired <= Spent(p, c.phase)
    && (c.phase.Attempt? ==> c.phase.k < p.attempts)
    && (c.phase.Backoff? ==> c.phase.k + 1 < p.attempts)
  }

  ghost predicate Inv(p: Params, s: State)
    requires ValidParams(p)
  {
    forall i :: i in s.calls ==> CallOk(p, s, i)
  }

  /** A call never stays longer than `Total`. */
  lemma HoldIsShort(p: Params, s: State, i: nat)
    requires ValidParams(p) && Inv(p, s) && i in s.calls
    ensures s.now - s.calls[i].acquired <= Total(p)
  {
    assert CallOk(p, s, i);
    var c := s.calls[i];
    LatestStartGrows(p, 0, p.attempts - 1);
    match c.phase
    case Entering =>
    case Attempt(k) => LatestStartGrows(p, k, p.attempts - 1);
    case Backoff(k) => LatestStartGrows(p, k, p.attempts - 1);
    case Leaving =>
  }

  lemma AtMostOne(p: Params, s: State)
    requires ValidParams(p) && Inv(p, s)
    ensures Exclusive(s)
  {
    forall i, j | i in s.calls && j in s.calls ensures i == j {
      assert CallOk(p, s, i) && CallOk(p, s, j);
    }
  }

  /** A call that goes on still holds the lock. */
  lemma CallKept(p: Params, s: State, a: Step, i: nat)
    requires ValidParams(p) && Total(p) < p.ttl && Inv(p, s) && Enabled(p, s, a)
    requires i in s.calls && i in After(p, s, a).calls
    ensures CallOk(p, After(p, s, a), i)
  {
    assert CallOk(p, s, i);
    HoldIsShort(p, s, i);
    AtMostOne(p, s);
    LatestStartGrows(p, 0, p.attempts - 1);
    if s.calls[i].phase.Attempt? || s.calls[i].phase.Backoff? {
      LatestStartGrows(p, s.calls[i].phase.k, p.attempts - 1);
    }
  }

  lemma StepKeeps(p: Params, s: State, a: Step)
    requires ValidParams(p) && Total(p) < p.ttl && Inv(p, s) && Enabled(p, s, a)
    ensures Inv(p, After(p, s, a))
  {
    var s' := After(p, s, a);
    forall i | i in s'.calls ensures CallOk(p, s', i) {
      if i in s.calls {
        CallKept(p, s, a, i);
      }
    }
  }

  lemma {:induction false} RunKeeps(p: Params, s: State, steps: seq<Step>)
    requires ValidParams(p) && Total(p) < p.ttl && Inv(p, s) && Run(p, s, steps).Some?
    ensures Inv(p, Run(p, s, steps).value)
    decreases |steps|
  {
    if steps != [] {
      StepKeeps(p, s, steps[0]);
      RunKeeps(p, After(p, s, steps[0]), steps[1..]);
    }
  }

  /** Within the time budget the unconditional delete only ever removes the deleter's own, unexpired lock. */
  lemma DeletesOwnLock(p: Params, s: State, i: nat)
    requires ValidParams(p) && Total(p) < p.ttl && Reachable(p, s) && Enabled(p, s, Release(i))
    ensures s.lock.Some? && s.lock.value.owner == i && s.now < s.lock.value.expires
  {
    var steps :| Run(p, INITIAL, steps) == Some(s);
    RunKeeps(p, INITIAL, steps);
    assert CallOk(p, s, i);
    HoldIsShort(p, s, i);
  }

  // ---- Beyond the budget ----

  /** Instance 0 is as late as it may be and its lock runs out at `ttl`. */
  function LateState(p: Params, phase: Phase, since: real, now: real): State {
    State(now, Some(Lock(0, p.ttl)), map[0 := Call(phase, since, 0.0)])
  }

  /** Calls `i` and `j` are both under way, and the lock is `j`'s, unexpired. */
  ghost predicate Overtaken(s: State, i: nat, j: nat) {
    && i != j && i in s.calls && j in s.calls
    && s.lock.Some? && s.lock.value.owner == j && s.now < s.lock.value.expires
  }

  ghost predicate SomeOvertaken(s: State) {
    exists i, j :: Overtaken(s, i, j)
  }

  ghost predicate Overruns(p: Params, s: State) {
    exists steps :: Run(p, s, steps).Some? && SomeOvertaken(Run(p, s, steps).value)
  }

  lemma OverrunsBefore(p: Params, s: State, a: Step)
    requires Enabled(p, s, a) && Overruns(p, After(p, s, a))
    ensures Overruns(p, s)
  {
    var steps :| Run(p, After(p, s, a), steps).Some? && SomeOvertaken(Run(p, After(p, s, a), steps).value);
    assert ([a] + steps)[1..] == steps;
    assert Run(p, s, [a] + steps) == Run(p, After(p, s, a), steps);
  }

  /** If the phase may last until the lock runs out, a second instance acquires it then. */
  lemma SecondAcquires(p: Params, phase: Phase, since: real)
    requires ValidParams(p) && since <= p.ttl <= since + Limit(p, phase)
    ensures Overruns(p, LateState(p, phase, since, since))
  {
    var s := LateState(p, phase, since, p.ttl);
    var s' := After(p, s, Acquire(1));
    assert Overtaken(s', 0, 1);
    assert Run(p, s', []) == Some(s');
    assert Overruns(p, s');
    OverrunsBefore(p, s, Acquire(1));
    OverrunsBefore(p, LateState(p, phase, since, since), Tick(p.ttl - since));
  }

  function NextPhase(p: Params, k: nat): Phase {
    if k + 1 < p.attempts then Backoff(k) else Leaving
  }

  /** The attempt takes all its time and fails. */
  lemma AttemptFailsLate(p: Params, k: nat, start: real)
    requires ValidParams(p) && Overruns(p, LateState(p, NextPhase(p, k), start + p.attempt, start + p.attempt))
    ensures Overruns(p, LateState(p, Attempt(k), start, start))
  {
    var end := start + p.attempt;
    assert After(p, LateState(p, Attempt(k), start, end), Fail(0)) == LateState(p, NextPhase(p, k), end, end);
    OverrunsBefore(p, LateState(p, Attempt(k), start, end), Fail(0));
    OverrunsBefore(p, LateState(p, Attempt(k), start, start), Tick(p.attempt));
  }

  /** The sleep takes all its time. */
  lemma WakesLate(p: Params, k: nat, end: real)
    requires ValidParams(p) && (var woken := end + Wait(k) + p.slack;
              Overruns(p, LateState(p, Attempt(k + 1), woken, woken)))
    ensures Overruns(p, LateState(p, Backoff(k), end, end))
  {
    var woken := end + Wait(k) + p.slack;
    assert After(p, LateState(p, Backoff(k), end, woken), Wake(0)) == LateState(p, Attempt(k + 1), woken, woken);
    OverrunsBefore(p, LateState(p, Backoff(k), end, woken), Wake(0));
    OverrunsBefore(p, LateState(p, Backoff(k), end, end), Tick(woken - end));
  }

  lemma {:induction false} LateAttemptOverruns(p: Params, k: nat)
    requires ValidParams(p) && k < p.attempts && LatestStart(p, k) <= p.ttl <= Total(p)
    ensures Overruns(p, LateState(p, Attempt(k), LatestStart(p, k), LatestStart(p, k)))
    decreases p.attempts - k
  {
    var start := LatestStart(p, k);
    var end := start + p.attempt;
    if p.ttl <= end {
      SecondAcquires(p, Attempt(k), start);
    } else {
      if p.ttl <= end + Limit(p, NextPhase(p, k)) {
        SecondAcquires(p, NextPhase(p, k), end);
      } else {
        LateAttemptOverruns(p, k + 1);
        WakesLate(p, k, end);
      }
      AttemptFailsLate(p, k, start);
    }
  }

  lemma LongHoldOverruns(p: Params)
    requires ValidParams(p) && p.ttl <= Total(p)
    ensures Overruns(p, INITIAL)
  {
    if p.ttl <= p.slack {
      SecondAcquires(p, Entering, 0.0);
    } else {
      LateAttemptOverruns(p, 0);
      assert After(p, LateState(p, Entering, 0.0, p.slack), Enter(0)) == LateState(p, Attempt(0), p.slack, p.slack);
      OverrunsBefore(p, LateState(p, Entering, 0.0, p.slack), Enter(0));
      OverrunsBefore(p, LateState(p, Entering, 0.0, 0.0), Tick(p.slack));
    }
    OverrunsBefore(p, INITIAL, Acquire(0));
  }

  /** Timed mutual exclusion, exactly: over every run of any number of instances, with failures, interruptions
      and crashes, at most one is between acquiring and deleting, if and only if the longest hold is shorter than
      the time to live. */
  lemma ExclusiveIffBudget(p: Params)
    requires ValidParams(p)
    ensures (forall s :: Reachable(p, s) ==> Exclusive(s)) <==> Total(p) < p.ttl
  {
    if Total(p) < p.ttl {
      forall s | Reachable(p, s) ensures Exclusive(s) {
        var steps :| Run(p, INITIAL, steps) == Some(s);
        RunKeeps(p, INITIAL, steps);
        AtMostOne(p, s);
      }
    } else {
      LongHoldOverruns(p);
      var steps :| Run(p, INITIAL, steps).Some? && SomeOvertaken(Run(p, INITIAL, steps).value);
      assert Reachable(p, Run(p, INITIAL, steps).value);
    }
  }

  /** Call `i` can take its last step while the lock is `j`'s, and then there is no lock, although `j` is under way. */
  ghost predicate DeletesForeign(p: Params, s: State, i: nat, j: nat) {
    && Reachable(p, s) && Overtaken(s, i, j) && Enabled(p, s, Release(i))
    && Free(After(p, s, Release(i))) && j in After(p, s, Release(i)).calls
  }

  ghost predicate CanDeleteForeign(p: Params) {
    exists s, i, j :: DeletesForeign(p, s, i, j)
  }

  lemma ReachableAfter(p: Params, s: State, a: Step)
    requires Reachable(p, s) && Enabled(p, s, a)
    ensures Reachable(p, After(p, s, a))
  {
    var steps :| Run(p, INITIAL, steps) == Some(s);
    RunThen(p, INITIAL, steps, a);
  }

  lemma {:induction false} RunThen(p: Params, s: State, steps: seq<Step>, a: Step)
    requires Run(p, s, steps).Some? && Enabled(p, Run(p, s, steps).value, a)
    ensures Run(p, s, steps + [a]) == Some(After(p, Run(p, s, steps).value, a))
    decreases |steps|
  {
    if steps == [] {
      assert steps + [a] == [a];
      assert Run(p, After(p, s, a), []) == Some(After(p, s, a));
    } else {
      assert (steps + [a])[1..] == steps[1..] + [a];
      RunThen(p, After(p, s, steps[0]), steps[1..], a);
    }
  }

  lemma OvertakenDeletes(p: Params, s: State, i: nat, j: nat)
    requires Reachable(p, s) && Overtaken(s, i, j)
    ensures CanDeleteForeign(p)
  {
    if s.calls[i].phase.Leaving? {
      assert DeletesForeign(p, s, i, j);
    } else {
      ReachableAfter(p, s, Interrupt(i));
      assert DeletesForeign(p, After(p, s, Interrupt(i)), i, j);
    }
  }

  /** The delete is safe exactly within the time budget: beyond it, some run comes to a call that deletes the live lock
      of another one that is under way. */
  lemma DeletesForeignIffOverBudget(p: Params)
    requires ValidParams(p)
    ensures CanDeleteForeign(p) <==> Total(p) >= p.ttl
  {
    if Total(p) < p.ttl {
      forall s, i, j ensures !DeletesForeign(p, s, i, j) {
        if DeletesForeign(p, s, i, j) {
          DeletesOwnLock(p, s, i);
        }
      }
    } else {
      LongHoldOverruns(p);
      var steps :| Run(p, INITIAL, steps).Some? && SomeOvertaken(Run(p, INITIAL, steps).value);
      var s := Run(p, INITIAL, steps).value;
      var i, j :| Overtaken(s, i, j);
      OvertakenDeletes(p, s, i, j);
    }
  }

  /** After such a deletion any further instance acquires the lock at once, while the other is still dispatching. */
  lemma ThirdEnters(p: Params, s: State, i: nat, j: nat, k: nat)
    requires DeletesForeign(p, s, i, j) && k !in s.calls
    ensures var s1 := After(p, s, Release(i));
            && Enabled(p, s1, Acquire(k))
            && var s2 := After(p, s1, Acquire(k));
               Reachable(p, s2) && j in s2.calls && k in s2.calls && j != k
  {
    ReachableAfter(p, s, Release(i));
    ReachableAfter(p, After(p, s, Release(i)), Acquire(k));
  }

  /** A call that crashes leaves its lock behind: nobody acquires it before it runs out. */
  lemma CrashLeavesLock(p: Params, s: State, i: nat, steps: seq<Step>, s': State)
    requires ValidParams(p) && Total(p) < p.ttl && Reachable(p, s) && Enabled(p, s, Crash(i))
    requires Run(p, After(p, s, Crash(i)), steps) == Some(s') && s'.now < s.calls[i].acquired + p.ttl
    ensures s'.lock == Some(Lock(i, s.calls[i].acquired + p.ttl)) && s'.calls == map[]
  {
    var before :| Run(p, INITIAL, before) == Some(s);
    RunKeeps(p, INITIAL, before);
    AtMostOne(p, s);
    assert CallOk(p, s, i);
    assert After(p, s, Crash(i)).calls == map[];
    LockOutlasts(p, After(p, s, Crash(i)), steps, s', s.calls[i].acquired + p.ttl);
  }

  lemma {:induction false} LockOutlasts(p: Params, s: State, steps: seq<Step>, s': State, expires: real)
    requires Run(p, s, steps) == Some(s') && s.calls == map[] && s'.now < expires
    requires s.lock.Some? && s.lock.value.expires == expires
    ensures s'.lock == s.lock && s'.calls == map[] && s.now <= s'.now
    decreases |steps|
  {
    if steps != [] {
      TimeGoesOn(p, After(p, s, steps[0]), steps[1..], s');
      LockOutlasts(p, After(p, s, steps[0]), steps[1..], s', expires);
    }
  }

  lemma {:induction false} TimeGoesOn(p: Params, s: State, steps: seq<Step>, s': State)
    requires Run(p, s, steps) == Some(s')
    ensures s.now <= s'.now
    decreases |steps|
  {
    if steps != [] {
      TimeGoesOn(p, After(p, s, steps[0]), steps[1..], s');
    }
  }

  const LOCK_TTL := 55.0
  const MAX_RETRIES := 3

  /** The deployed constants: three attempts of at most `attempt` seconds fit if and only if
      3 * attempt + 6, with the remaining delays, stays below 55 seconds. */
  lemma DeployedBudget(attempt: real, slack: real)
    requires attempt >= 0.0 && slack >= 0.0
    ensures var p := Params(MAX_RETRIES, attempt, slack, LOCK_TTL);
            (forall s :: Reachable(p, s) ==> Exclusive(s)) <==> 3.0 * attempt + 6.0 + 4.0 * slack < 55.0
  {
    var p := Params(MAX_RETRIES, attempt, slack, LOCK_TTL);
    ExclusiveIffBudget(p);
    TotalClosedForm(p, 2);
    assert Pow2(1) == 2 && Pow2(2) == 4 && Pow2(3) == 8;
    assert LatestStart(p, 2) == 2.0 * attempt + 6.0 + 3.0 * slack;
    assert p.attempts - 1 == 2;
    assert Total(p) == LatestStart(p, 2) + attempt + slack;
  }

  /** Exclusion is not once per tick: whatever the budget, two instances can dispatch one after the other at the same
      moment, because the first deletes the lock when it is done. */
  lemma NotOncePerTick(p: Params)
    ensures Run(p, INITIAL, [Acquire(0), Enter(0), Succeed(0), Release(0), Acquire(1), Enter(1)])
         == Some(State(0.0, Some(Lock(1, p.ttl)), map[1 := Call(Attempt(0), 0.0, 0.0)]))
  {
    var s1 := After(p, After(p, INITIAL, Acquire(0)), Enter(0));
    var s2 := After(p, After(p, s1, Succeed(0)), Release(0));
    assert s2 == State(0.0, None, map[]);
    var last, middle := [Acquire(1), Enter(1)], [Succeed(0), Release(0)];
    TwoSteps(p, INITIAL, Acquire(0), Enter(0), middle + last);
    TwoSteps(p, s1, Succeed(0), Release(0), last);
    TwoSteps(p, s2, Acquire(1), Enter(1), []);
    assert last + [] == last;
    var s3 := After(p, After(p, s2, Acquire(1)), Enter(1));
    assert s3 == State(0.0, Some(Lock(1, p.ttl)), map[1 := Call(Attempt(0), 0.0, 0.0)]);
    assert Run(p, s3, []) == Some(s3);
    assert [Acquire(0), Enter(0), Succeed(0), Release(0), Acquire(1), Enter(1)]
        == [Acquire(0), Enter(0)] + (middle + last);
  }

  lemma TwoSteps(p: Params, s: State, a: Step, b: Step, rest: seq<Step>)
    requires Enabled(p, s, a) && Enabled(p, After(p, s, a), b)
    ensures Run(p, s, [a, b] + rest) == Run(p, After(p, After(p, s, a), b), rest)
  {
    assert ([a, b] + rest)[1..] == [b] + rest && ([b] + rest)[1..] == rest;
  }
}
