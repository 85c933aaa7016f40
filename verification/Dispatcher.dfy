/** The table of awaited agent results: services/platform-api/src/executions/dispatcher.py and the
    consumer loop of services/platform-api/src/executions/redis_consumer.py that settles it. */
module Dispatcher {
  import opened Common

  datatype Future = Unsettled | HasResult(output: Json) | HasException(error: string) | Cancelled

  /** `futures` lists every Future ever created; `pending` maps an execution to the index of its Future. */
  datatype Table = Table(pending: map<string, nat>, futures: seq<Future>)

  ghost predicate WellFormed(t: Table) {
    forall e :: e in t.pending ==> t.pending[e] < |t.futures|
  }

  function Register(t: Table, e: string): Table {
    Table(t.pending[e := |t.futures|], t.futures + [Unsettled])
  }

  predicate Awaited(t: Table, e: string) {
    e in t.pending && t.pending[e] < |t.futures| && t.futures[t.pending[e]].Unsettled?
  }

  function Settle(t: Table, e: string, to: Future): Table {
    Table(t.pending - {e}, if Awaited(t, e) then t.futures[t.pending[e] := to] else t.futures)
  }

  /** `wait_for` cancels the Future it awaits when it gives up; a Future already done stays as it is. */
  function GiveUp(t: Table, f: nat): Table
    requires f < |t.futures|
  {
    if t.futures[f].Unsettled? then t.(futures := t.futures[f := Cancelled]) else t
  }

  datatype Status = Completed(output: Json) | NotCompleted(error: string)

  datatype Result = Result(taskId: nat, exec: string, status: Status)

  function Verdict(status: Status): Future {
    match status
    case Completed(output) => HasResult(output)
    case NotCompleted(error) => HasException(error)
  }

  /** `AgentResult`, as it is parsed from an entry. */
  datatype Message = Message(taskId: nat, exec: string, status: string, output: Json, error: Option<string>)

  /** What the consumer makes of it: a value, or the text that it rejects with. */
  function Understand(m: Message): Result {
    var text := if m.error.Some? && m.error.value != "" then m.error.value else "Agent " + m.status;
    Result(m.taskId, m.exec, if m.status == "completed" then Completed(m.output) else NotCompleted(text))
  }

  function UnderstandAll(entries: seq<Option<Message>>): (r: seq<Option<Result>>)
    ensures |r| == |entries|
    ensures forall k :: 0 <= k < |r| ==> r[k] == if entries[k].Some? then Some(Understand(entries[k].value)) else None
  {
    seq(|entries|, k requires 0 <= k < |entries| =>
          if entries[k].Some? then Some(Understand(entries[k].value)) else None)
  }

  /** One entry of the result stream; `None` stands for one that does not parse. */
  function Handle(t: Table, entry: Option<Result>): Table {
    match entry
    case None => t
    case Some(r) => Settle(t, r.exec, Verdict(r.status))
  }

  function HandleAll(t: Table, entries: seq<Option<Result>>): Table {
    if entries == [] then t else Handle(HandleAll(t, entries[..|entries| - 1]), entries[|entries| - 1])
  }

  /** A message settles the awaited Future of its execution: `completed` with its output, anything else with its error,
      or with its status if it brings none. Other Futures stay as they are. */
  lemma MessageSettles(t: Table, m: Message)
    requires WellFormed(t) && Awaited(t, m.exec)
    ensures var after := Handle(t, Some(Understand(m)));
            && after.pending == t.pending - {m.exec} && |after.futures| == |t.futures|
            && after.futures[t.pending[m.exec]]
               == (if m.status == "completed" then HasResult(m.output)
                   else if m.error == None || m.error == Some("") then HasException("Agent " + m.status)
                   else HasException(m.error.value))
            && forall f :: 0 <= f < |t.futures| && f != t.pending[m.exec] ==> after.futures[f] == t.futures[f]
  {
  }

  ghost predicate Injective(t: Table) {
    forall e, e' :: e in t.pending && e' in t.pending && t.pending[e] == t.pending[e'] ==> e == e'
  }

  ghost predicate Names(entry: Option<Result>, e: string) {
    entry.Some? && entry.value.exec == e
  }

  /** The first entry of a batch that names an execution decides its Future; later ones cannot change it. */
  lemma {:induction false} FirstResultDecides(t: Table, entries: seq<Option<Result>>, e: string, k: nat)
    requires WellFormed(t) && Injective(t) && Awaited(t, e)
    requires k < |entries| && Names(entries[k], e) && forall j :: 0 <= j < k ==> !Names(entries[j], e)
    ensures var after := HandleAll(t, entries);
            && |after.futures| == |t.futures| && e !in after.pending
            && after.futures[t.pending[e]] == Verdict(entries[k].value.status)
  {
    var last := |entries| - 1;
    KeysOnlyLeave(t, entries[..last]);
    if k < last {
      assert entries[..last][k] == entries[k];
      FirstResultDecides(t, entries[..last], e, k);
    } else {
      OtherExecutionsKept(t, entries[..last], e);
    }
  }

  /** A batch that never names `e` leaves e's Future awaited. */
  lemma {:induction false} OtherExecutionsKept(t: Table, entries: seq<Option<Result>>, e: string)
    requires WellFormed(t) && Injective(t) && Awaited(t, e)
    requires forall j :: 0 <= j < |entries| ==> !Names(entries[j], e)
    ensures var after := HandleAll(t, entries);
            |after.futures| == |t.futures| && Awaited(after, e) && after.pending[e] == t.pending[e]
  {
    if entries != [] {
      var last := |entries| - 1;
      OtherExecutionsKept(t, entries[..last], e);
      KeysOnlyLeave(t, entries[..last]);
      assert !Names(entries[last], e);
    }
  }

  lemma {:induction false} KeysOnlyLeave(t: Table, entries: seq<Option<Result>>)
    ensures forall e :: e in HandleAll(t, entries).pending ==>
              e in t.pending && HandleAll(t, entries).pending[e] == t.pending[e]
  {
    if entries != [] {
      KeysOnlyLeave(t, entries[..|entries| - 1]);
    }
  }

  /** An asyncio.Future object. `id` is its rank in creation order. */
  class FutureCell {
    const id: nat
    var state: Future

    constructor (id: nat)
      ensures this.id == id && state == Unsettled
    {
      this.id, state := id, Unsettled;
    }
  }

  /** The module state `_pending`, and every Future that was ever handed out. */
  class PendingTable {
    var pending: map<string, FutureCell>
    ghost var created: seq<FutureCell>

    ghost predicate Valid()
      reads this, created
    {
      && (forall i :: 0 <= i < |created| ==> created[i].id == i)
      && (forall e :: e in pending ==> pending[e] in created)
    }

    ghost function View(): (t: Table)
      requires Valid()
      reads this, created
      ensures WellFormed(t)
    {
      Table(map e | e in pending :: pending[e].id,
          seq(|created|, i requires 0 <= i < |created| reads this, created => created[i].state))
    }

    constructor ()
      ensures Valid() && View() == Table(map[], [])
    {
      pending, created := map[], [];
    }

    method RegisterPending(e: string, id: nat) returns (future: FutureCell)
      requires Valid() && id == |created|
      modifies this
      ensures Valid() && fresh(future) && created == old(created) + [future]
      ensures pending == old(pending)[e := future] && future.state == Unsettled
      ensures View() == Register(old(View()), e)
    {
      future := new FutureCell(id);
      pending := pending[e := future];
      created := created + [future];
    }

    /** `resolve_pending` and `reject_pending` differ only in what they store. */
    method SettlePending(e: string, to: Future) returns (settled: bool)
      requires Valid() && !to.Unsettled?
      modifies this, if e in pending then {pending[e]} else {}
      ensures Valid() && created == old(created)
      ensures View() == Settle(old(View()), e, to)
      ensures settled <==> Awaited(old(View()), e)
      ensures pending == old(pending) - {e}
      ensures settled <==> e in old(pending) && old(pending[e].state).Unsettled?
      ensures settled ==> old(pending)[e].state == to
    {
      settled := false;
      if e in pending {
        var future := pending[e];
        pending := pending - {e};
        if future.state.Unsettled? {
          future.state := to;
          settled := true;
        }
      }
    }

    /** One delivered batch: each entry is settled and acknowledged in turn. `ackOk` says for which entries
        one of the two acknowledgements goes through; where neither does, the rest of the batch is abandoned. */
    method ConsumeBatch(entries: seq<Option<Message>>, ackOk: seq<bool>) returns (handled: nat)
      requires Valid() && |ackOk| == |entries|
      modifies this, created
      ensures Valid() && created == old(created)
      ensures handled <= |entries| && View() == HandleAll(old(View()), UnderstandAll(entries)[..handled])
      ensures forall k :: 0 <= k < handled - 1 ==> ackOk[k]
      ensures handled < |entries| ==> handled > 0 && !ackOk[handled - 1]
    {
      handled := 0;
      ghost var understood := UnderstandAll(entries);
      while handled < |entries|
        invariant handled <= |entries| && Valid() && created == old(created)
        invariant View() == HandleAll(old(View()), understood[..handled])
        invariant forall k :: 0 <= k < handled ==> ackOk[k]
      {
        if entries[handled].Some? {
          var m := entries[handled].value;
          if m.status == "completed" {
            var _ := SettlePending(m.exec, HasResult(m.output));
          } else if m.error.Some? && m.error.value != "" {
            var _ := SettlePending(m.exec, HasException(m.error.value));
          } else {
            var _ := SettlePending(m.exec, HasException("Agent " + m.status));
          }
        }
        assert understood[..handled + 1][..handled] == understood[..handled];
        handled := handled + 1;
        if !ackOk[handled - 1] {
          return;
        }
      }
    }
  }
}
