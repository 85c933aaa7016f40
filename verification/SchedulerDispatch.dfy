/** One scheduled dispatch: services/scheduler-service/src/dispatcher.py. */
module SchedulerDispatch {
  import opened Common
  import opened SchedulerLock

  function Sum(waits: seq<nat>): nat {
    if waits == [] then 0 else Sum(waits[..|waits| - 1]) + waits[|waits| - 1]
  }

  /** What `attempts` tries amount to: they end with the first that succeeds, or there were no more. */
  ghost predicate Outcome(retries: nat, post: nat -> bool, attempts: nat, delivered: bool) {
    && attempts <= retries && (delivered ==> attempts > 0 && post(attempts - 1)) && (!delivered ==> attempts == retries)
    && forall k: nat :: k < attempts && post(k) ==> delivered && k == attempts - 1
  }

  /** `_dispatch_with_retry`, where `post(k)` says whether attempt `k` succeeds. It stops at the first success;
      the sleeps between `n` attempts add up to 2^n - 2 seconds. */
  method DispatchWithRetry(retries: nat, post: nat -> bool) returns (attempts: nat, waits: seq<nat>, delivered: bool)
    ensures Outcome(retries, post, attempts, delivered)
    ensures delivered <==> exists k: nat :: k < retries && post(k)
    ensures attempts > 0 ==> |waits| == attempts - 1 && Sum(waits) == Pow2(attempts) - 2
    ensures forall k :: 0 <= k < |waits| ==> waits[k] == Pow2(k + 1)
  {
    attempts, waits, delivered := 0, [], false;
    while attempts < retries
      invariant attempts <= retries && !delivered
      invariant forall k: nat :: k < attempts ==> !post(k)
      invariant |waits| == if attempts < retries then attempts else if attempts > 0 then attempts - 1 else 0
      invariant forall k :: 0 <= k < |waits| ==> waits[k] == Pow2(k + 1)
      invariant |waits| == attempts ==> Sum(waits) == Pow2(attempts + 1) - 2
      invariant |waits| != attempts ==> Sum(waits) == Pow2(attempts) - 2
    {
      if post(attempts) {
        return attempts + 1, waits, true;
      }
      if attempts < retries - 1 {
        var wait := Pow2(attempts + 1);
        assert (waits + [wait])[..|waits|] == waits;
        waits := waits + [wait];
      }
      attempts := attempts + 1;
    }
  }

  /** The keys of the shared Redis, with the time at which each expires. */
  class Redis {
    var keys: map<string, real>

    constructor ()
      ensures keys == map[]
    {
      keys := map[];
    }

    predicate Held(key: string, now: real)
      reads this
    {
      key in keys && now < keys[key]
    }

    /** `SET key 1 NX EX ttl`. */
    method SetIfAbsent(key: string, now: real, ttl: real) returns (acquired: bool)
      modifies this
      ensures acquired <==> !old(Held(key, now))
      ensures keys == if acquired then old(keys)[key := now + ttl] else old(keys)
    {
      acquired := !Held(key, now);
      if acquired {
        keys := keys[key := now + ttl];
      }
    }

    method Delete(key: string)
      modifies this
      ensures keys == old(keys) - {key}
    {
      keys := keys - {key};
    }
  }

  function LockKey(workflowId: string): string {
    "scheduler:lock:" + workflowId
  }

  /** Each workflow has its own key, in the lock's own name space. */
  lemma LockKeysDiffer(a: string, b: string)
    ensures "scheduler:lock:" <= LockKey(a) && (LockKey(a) == LockKey(b) ==> a == b)
  {
    assert LockKey(a)[|"scheduler:lock:"|..] == a && LockKey(b)[|"scheduler:lock:"|..] == b;
  }

  /** `dispatch`: without the lock nothing is attempted and nothing changes; with it the key is gone afterwards,
      whether the attempts succeeded or not, and no other key is touched. */
  method Dispatch(workflowId: string, redis: Redis, now: real, post: nat -> bool)
      returns (attempts: nat, delivered: bool)
    modifies redis
    ensures old(redis.Held(LockKey(workflowId), now)) ==> attempts == 0 && !delivered && redis.keys == old(redis.keys)
    ensures !old(redis.Held(LockKey(workflowId), now)) ==>
              && redis.keys == old(redis.keys) - {LockKey(workflowId)}
              && attempts > 0 && Outcome(MAX_RETRIES, post, attempts, delivered)
              && (delivered <==> exists k: nat :: k < MAX_RETRIES && post(k))
  {
    attempts, delivered := 0, false;
    var acquired := redis.SetIfAbsent(LockKey(workflowId), now, LOCK_TTL);
    if !acquired {
      return;
    }
    var waits;
    attempts, waits, delivered := DispatchWithRetry(MAX_RETRIES, post);
    redis.Delete(LockKey(workflowId));
  }

  // ---- The call in the timed machine ----

  /** An attempt of `d` seconds. */
  function AttemptSteps(i: nat, d: real, success: bool): seq<Step> {
    [Tick(d), if success then Succeed(i) else Fail(i)]
  }

  function SleepSteps(i: nat, k: nat): seq<Step> {
    [Tick(Wait(k)), Wake(i)]
  }

  /** The steps from attempt `k` on, when attempt `j` takes `took(j)` seconds. */
  function RetrySteps(i: nat, k: nat, attempts: nat, delivered: bool, took: nat -> real): seq<Step>
    requires k < attempts
    decreases attempts - k
  {
    if k + 1 < attempts then
      AttemptSteps(i, took(k), false) + SleepSteps(i, k) + RetrySteps(i, k + 1, attempts, delivered, took)
    else AttemptSteps(i, took(k), delivered)
  }

  function EnterSteps(i: nat): seq<Step> {
    [Acquire(i), Enter(i)]
  }

  function LeaveSteps(i: nat): seq<Step> {
    [Release(i)]
  }

  function DispatchSteps(i: nat, attempts: nat, delivered: bool, took: nat -> real): seq<Step>
    requires attempts > 0
  {
    EnterSteps(i) + RetrySteps(i, 0, attempts, delivered, took) + LeaveSteps(i)
  }

  /** The time from the start of attempt `k` to the end of the last one. */
  function Elapsed(k: nat, attempts: nat, took: nat -> real): real
    requires k < attempts
    decreases attempts - k
  {
    if k + 1 < attempts then took(k) + Wait(k) + Elapsed(k + 1, attempts, took) else took(k)
  }

  function Alone(p: Params, i: nat, phase: Phase, now: real, acquired: real): State {
    State(now, Some(Lock(i, acquired + p.ttl)), map[i := Call(phase, now, acquired)])
  }

  lemma {:induction false} RunJoin(p: Params, s: State, first: seq<Step>, s': State, second: seq<Step>)
    requires Run(p, s, first) == Some(s')
    ensures Run(p, s, first + second) == Run(p, s', second)
    decreases |first|
  {
    if first == [] {
      assert first + second == second;
    } else {
      assert (first + second)[1..] == first[1..] + second;
      RunJoin(p, After(p, s, first[0]), first[1..], s', second);
    }
  }

  lemma Joined(p: Params, s: State, a: seq<Step>, s1: State, b: seq<Step>, s2: State, c: seq<Step>, s3: State)
    requires Run(p, s, a) == Some(s1) && Run(p, s1, b) == Some(s2) && Run(p, s2, c) == Some(s3)
    ensures Run(p, s, a + b + c) == Some(s3)
  {
    RunJoin(p, s, a, s1, b);
    RunJoin(p, s, a + b, s2, c);
  }

  lemma RunTwo(p: Params, s: State, a: Step, b: Step)
    requires Enabled(p, s, a) && Enabled(p, After(p, s, a), b)
    ensures Run(p, s, [a, b]) == Some(After(p, After(p, s, a), b))
  {
    TwoSteps(p, s, a, b, []);
    assert [a, b] + [] == [a, b];
  }

  lemma AttemptEnds(p: Params, i: nat, k: nat, now: real, acquired: real, d: real, success: bool)
    requires 0.0 <= d <= p.attempt
    ensures var next := if !success && k + 1 < p.attempts then Backoff(k) else Leaving;
            Run(p, Alone(p, i, Attempt(k), now, acquired), AttemptSteps(i, d, success))
            == Some(Alone(p, i, next, now + d, acquired))
  {
    var s := Alone(p, i, Attempt(k), now, acquired);
    var a := if success then Succeed(i) else Fail(i);
    var next := if !success && k + 1 < p.attempts then Backoff(k) else Leaving;
    assert After(p, After(p, s, Tick(d)), a) == Alone(p, i, next, now + d, acquired);
    RunTwo(p, s, Tick(d), a);
  }

  lemma SleepEnds(p: Params, i: nat, k: nat, now: real, acquired: real)
    requires ValidParams(p)
    ensures Run(p, Alone(p, i, Backoff(k), now, acquired), SleepSteps(i, k))
         == Some(Alone(p, i, Attempt(k + 1), now + Wait(k), acquired))
  {
    var s := Alone(p, i, Backoff(k), now, acquired);
    assert After(p, After(p, s, Tick(Wait(k))), Wake(i)) == Alone(p, i, Attempt(k + 1), now + Wait(k), acquired);
    RunTwo(p, s, Tick(Wait(k)), Wake(i));
  }

  /** A failed attempt with its sleep, and then what follows. */
  lemma RetryOnce(p: Params, i: nat, k: nat, now: real, acquired: real, d: real, later: seq<Step>, s': State)
    requires ValidParams(p) && 0.0 <= d <= p.attempt && k + 1 < p.attempts
    requires Run(p, Alone(p, i, Attempt(k + 1), now + d + Wait(k), acquired), later) == Some(s')
    ensures Run(p, Alone(p, i, Attempt(k), now, acquired), AttemptSteps(i, d, false) + SleepSteps(i, k) + later)
         == Some(s')
  {
    AttemptEnds(p, i, k, now, acquired, d, false);
    SleepEnds(p, i, k, now + d, acquired);
    var asleep := Alone(p, i, Backoff(k), now + d, acquired);
    var awake := Alone(p, i, Attempt(k + 1), now + d + Wait(k), acquired);
    var s := Alone(p, i, Attempt(k), now, acquired);
    Joined(p, s, AttemptSteps(i, d, false), asleep, SleepSteps(i, k), awake, later, s');
  }

  ghost predicate InTime(p: Params, took: nat -> real) {
    forall k :: 0.0 <= took(k) <= p.attempt
  }

  lemma {:induction false} RetryIsRun(p: Params, i: nat, k: nat, attempts: nat, delivered: bool, took: nat -> real,
                                      now: real, acquired: real, end: real)
    requires ValidParams(p) && k < attempts <= p.attempts && (!delivered ==> attempts == p.attempts) && InTime(p, took)
    requires end == now + Elapsed(k, attempts, took)
    ensures Run(p, Alone(p, i, Attempt(k), now, acquired), RetrySteps(i, k, attempts, delivered, took))
         == Some(Alone(p, i, Leaving, end, acquired))
    decreases attempts - k
  {
    if k + 1 < attempts {
      RetryIsRun(p, i, k + 1, attempts, delivered, took, now + took(k) + Wait(k), acquired, end);
      RetryOnce(p, i, k, now, acquired, took(k), RetrySteps(i, k + 1, attempts, delivered, took),
                Alone(p, i, Leaving, end, acquired));
    } else {
      AttemptEnds(p, i, k, now, acquired, took(k), delivered);
    }
  }

  lemma EntersAlone(p: Params, i: nat, s: State)
    requires Free(s) && s.calls == map[]
    ensures Run(p, s, EnterSteps(i)) == Some(Alone(p, i, Attempt(0), s.now, s.now))
  {
    assert After(p, After(p, s, Acquire(i)), Enter(i)) == Alone(p, i, Attempt(0), s.now, s.now);
    RunTwo(p, s, Acquire(i), Enter(i));
  }

  lemma LeavesNothing(p: Params, i: nat, now: real, acquired: real)
    ensures Run(p, Alone(p, i, Leaving, now, acquired), LeaveSteps(i)) == Some(State(now, None, map[]))
  {
    var left := After(p, Alone(p, i, Leaving, now, acquired), Release(i));
    assert left == State(now, None, map[]) && Run(p, left, []) == Some(left);
  }

  /** A call that gets the lock is a run of the lock's machine: with the outcome that `DispatchWithRetry` reports, and
      attempts that keep their time, it goes through the machine's phases and leaves the lock free. */
  lemma DispatchIsRun(p: Params, i: nat, s: State, post: nat -> bool, attempts: nat, delivered: bool, took: nat -> real)
    requires ValidParams(p) && Free(s) && s.calls == map[] && InTime(p, took)
    requires Outcome(p.attempts, post, attempts, delivered)
    ensures attempts > 0
    ensures Run(p, s, DispatchSteps(i, attempts, delivered, took))
         == Some(State(s.now + Elapsed(0, attempts, took), None, map[]))
  {
    var end := s.now + Elapsed(0, attempts, took);
    EntersAlone(p, i, s);
    RetryIsRun(p, i, 0, attempts, delivered, took, s.now, s.now, end);
    LeavesNothing(p, i, end, s.now);
    Joined(p, s, EnterSteps(i), Alone(p, i, Attempt(0), s.now, s.now), RetrySteps(i, 0, attempts, delivered, took),
           Alone(p, i, Leaving, end, s.now), LeaveSteps(i), State(end, None, map[]));
  }
}
