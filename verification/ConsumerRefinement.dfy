/** The result consumer's batch loop (services/platform-api/src/executions/redis_consumer.py) seen as steps of the
    dispatch protocol. The protocol's stream lists the entries that parse. */
module ConsumerRefinement {
  import opened Common
  import opened Dispatcher
  import opened Protocol
  import opened ProtocolProofs

  /** What parses of a batch; malformed entries are acknowledged and skipped. */
  function Parsed(entries: seq<Option<Result>>): seq<Result> {
    if entries == [] then []
    else
      var last := entries[|entries| - 1];
      Parsed(entries[..|entries| - 1]) + if last.Some? then [last.value] else []
  }

  lemma {:induction false} ParsedPrefix(entries: seq<Option<Result>>, n: nat)
    requires n <= |entries|
    ensures Parsed(entries[..n]) <= Parsed(entries)
    decreases |entries|
  {
    if n == |entries| {
      assert entries[..n] == entries;
    } else {
      ParsedPrefix(entries[..|entries| - 1], n);
      assert entries[..|entries| - 1][..n] == entries[..n];
    }
  }

  function HandleSteps(n: nat): seq<Step> {
    seq(n, k => HandleNext)
  }

  function Positions(from: nat, n: nat): set<nat> {
    if n == 0 then {} else Positions(from, n - 1) + {from + n - 1}
  }

  /** The batch is what the stream holds next. */
  ghost predicate IsNext(s: State, entries: seq<Option<Result>>) {
    && s.handled + |Parsed(entries)| <= s.read <= |s.results|
    && Parsed(entries) == s.results[s.handled..s.handled + |Parsed(entries)|]
  }

  /** The state once the consumer has handled the entries. */
  function Handled(s: State, entries: seq<Option<Result>>): State {
    var n := |Parsed(entries)|;
    s.(table := HandleAll(s.table, entries), handled := s.handled + n, applied := s.applied + Positions(s.handled, n))
  }

  lemma OneStep(s: State, steps: seq<Step>, s': State, a: Step)
    requires Run(s, steps) == Some(s') && Enabled(s', a)
    ensures Run(s, steps + [a]) == Some(After(s', a))
  {
    RunConcat(s, steps, [a]);
    assert Run(s', [a]) == Run(After(s', a), []);
  }

  lemma HandledNext(s: State, front: seq<Option<Result>>, r: Result, s': State)
    requires s' == Handled(s, front)
    ensures s'.(table := Handle(s'.table, Some(r)), handled := s'.handled + 1, applied := s'.applied + {s'.handled})
         == Handled(s, front + [Some(r)])
  {
    var n := |Parsed(front)|;
    assert (front + [Some(r)])[..|front|] == front;
    assert s.applied + Positions(s.handled, n + 1) == s.applied + Positions(s.handled, n) + {s.handled + n};
  }

  lemma OneMoreHandled(s: State, steps: seq<Step>, s': State)
    requires Run(s, steps) == Some(s') && s'.handled < s'.read <= |s'.results|
    ensures Run(s, steps + [HandleNext])
         == Some(s'.(table := Handle(s'.table, Some(s'.results[s'.handled])),
                     handled := s'.handled + 1, applied := s'.applied + {s'.handled}))
  {
    OneStep(s, steps, s', HandleNext);
  }

  lemma SkippedNext(s: State, front: seq<Option<Result>>)
    ensures Handled(s, front + [None]) == Handled(s, front) && Parsed(front + [None]) == Parsed(front)
  {
    assert (front + [None])[..|front|] == front;
  }

  lemma FrontIsNext(s: State, entries: seq<Option<Result>>)
    requires IsNext(s, entries) && entries != []
    ensures var front, last := entries[..|entries| - 1], entries[|entries| - 1];
            && entries == front + [last] && IsNext(s, front)
            && (last.Some? ==>
                  && s.handled + |Parsed(front)| < s.read && s.results[s.handled + |Parsed(front)|] == last.value
                  && HandleSteps(|Parsed(entries)|) == HandleSteps(|Parsed(front)|) + [HandleNext])
  {
    var front, last := entries[..|entries| - 1], entries[|entries| - 1];
    assert Parsed(front) == Parsed(entries)[..|Parsed(front)|];
    assert last.Some? ==> Parsed(entries)[|Parsed(front)|] == last.value;
  }

  /** Handling entries, malformed ones among them, is a run of one step per entry that parses. */
  lemma {:induction false} EntriesAreRun(s: State, entries: seq<Option<Result>>)
    requires IsNext(s, entries)
    ensures Run(s, HandleSteps(|Parsed(entries)|)) == Some(Handled(s, entries))
    decreases |entries|
  {
    if entries == [] {
      assert s.applied + {} == s.applied;
    } else {
      var front, last := entries[..|entries| - 1], entries[|entries| - 1];
      FrontIsNext(s, entries);
      EntriesAreRun(s, front);
      if last.Some? {
        OneMoreHandled(s, HandleSteps(|Parsed(front)|), Handled(s, front));
        HandledNext(s, front, last.value, Handled(s, front));
      } else {
        SkippedNext(s, front);
      }
    }
  }

  /** What `ConsumeBatch` does to the table of Futures is a run of the protocol, so everything proved of the
      protocol's runs holds of the table the loop works on. If an acknowledgement raises after `n` entries, the run
      gives up what the rest of the batch holds. */
  lemma BatchIsRun(s: State, entries: seq<Option<Result>>, n: nat)
    requires IsNext(s, entries) && s.read == s.handled + |Parsed(entries)| && n <= |entries|
    ensures var m := |Parsed(entries[..n])|;
            && m <= |Parsed(entries)|
            && Run(s, HandleSteps(m) + if m < |Parsed(entries)| then [AbandonBatch] else [])
               == Some(Handled(s, entries[..n]).(handled := s.read))
  {
    ParsedPrefix(entries, n);
    var m := |Parsed(entries[..n])|;
    assert Parsed(entries[..n]) == Parsed(entries)[..m];
    EntriesAreRun(s, entries[..n]);
    if m < |Parsed(entries)| {
      OneStep(s, HandleSteps(m), Handled(s, entries[..n]), AbandonBatch);
    } else {
      assert HandleSteps(m) + [] == HandleSteps(m);
    }
  }
}
