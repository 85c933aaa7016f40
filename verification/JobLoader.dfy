/** The reconcile loop of services/scheduler-service/src/job_loader.py. */
module JobLoader {
  import opened Common

  datatype Trigger = Cron(expression: string, timezone: string) | Interval(minutes: int)

  /** The keys of `trigger_config` that matter. */
  datatype TriggerConfig = TriggerConfig(cron: Option<string>, timezone: Option<string>,
      intervalMinutes: Option<string>)

  datatype Row = Row(id: string, config: TriggerConfig)

  /** The libraries' parsers: which cron expressions are accepted, and what `int()` makes of an interval. */
  datatype Parsers = Parsers(cronOk: (string, string) -> bool, minutes: string -> Option<int>)

  /** `_build_trigger`: a trigger, nothing (`Ok(None)`), or an exception. A cron entry hides an interval entry. */
  function BuildTrigger(c: TriggerConfig, parsers: Parsers): Outcome<Option<Trigger>> {
    if c.cron.Some? then
      var timezone := if c.timezone.Some? then c.timezone.value else "UTC";
      if parsers.cronOk(c.cron.value, timezone) then Ok(Some(Cron(c.cron.value, timezone))) else Ok(None)
    else if c.intervalMinutes.Some? then
      match parsers.minutes(c.intervalMinutes.value)
      case Some(n) => Ok(Some(Interval(n)))
      case None => Raise("invalid literal for int()")
    else Ok(None)
  }

  /** Case by case: a cron entry decides, in the given time zone or UTC, and is skipped if the library rejects it;
      otherwise an interval entry of so many minutes, which raises if it is no number; otherwise nothing. */
  lemma TriggerMeaning(c: TriggerConfig, parsers: Parsers)
    ensures forall cron :: c.cron == Some(cron) ==>
              && (forall zone :: c.timezone == Some(zone) ==>
                    BuildTrigger(c, parsers) == Ok(if parsers.cronOk(cron, zone) then Some(Cron(cron, zone)) else None))
              && (c.timezone == None ==>
                    BuildTrigger(c, parsers)
                    == Ok(if parsers.cronOk(cron, "UTC") then Some(Cron(cron, "UTC")) else None))
    ensures forall text :: c.cron == None && c.intervalMinutes == Some(text) ==>
              && (parsers.minutes(text) == None ==> BuildTrigger(c, parsers).Raise?)
              && (forall n :: parsers.minutes(text) == Some(n) ==> BuildTrigger(c, parsers) == Ok(Some(Interval(n))))
    ensures c.cron == None && c.intervalMinutes == None ==> BuildTrigger(c, parsers) == Ok(None)
  {
  }

  predicate Buildable(c: TriggerConfig, parsers: Parsers) {
    BuildTrigger(c, parsers).Ok? && BuildTrigger(c, parsers).value.Some?
  }

  /** Row ids are the table's primary key. */
  ghost predicate DistinctIds(rows: seq<Row>) {
    forall i, j :: 0 <= i < j < |rows| ==> rows[i].id != rows[j].id
  }

  ghost predicate HasRow(rows: seq<Row>, n: nat, id: string) {
    exists i :: 0 <= i < n && i < |rows| && rows[i].id == id
  }

  type Jobs = map<string, Trigger>

  /** The first `n` rows without a job before the reload have one now if it can be built, with its trigger. */
  ghost predicate AddedUpTo(existing: set<string>, rows: seq<Row>, n: nat, parsers: Parsers, after: Jobs) {
    forall i :: 0 <= i < n && i < |rows| && rows[i].id !in existing ==>
      (rows[i].id in after <==> Buildable(rows[i].config, parsers))
      && (rows[i].id in after ==> after[rows[i].id] == BuildTrigger(rows[i].config, parsers).value.value)
  }

  /** Jobs that stay in the table keep their trigger, the first `n` rows without a job get one if it can be built,
      and there is nothing else. */
  ghost predicate Reconciled(before: Jobs, rows: seq<Row>, n: nat, parsers: Parsers, after: Jobs) {
    && (forall id :: id in before && HasRow(rows, |rows|, id) ==> id in after && after[id] == before[id])
    && AddedUpTo(before.Keys, rows, n, parsers, after)
    && (forall id :: id in after ==> HasRow(rows, if id in before then |rows| else n, id))
  }

  predicate Raises(existing: set<string>, rows: seq<Row>, i: nat, parsers: Parsers) {
    i < |rows| && rows[i].id !in existing && BuildTrigger(rows[i].config, parsers).Raise?
  }

  /** The load gets through `n` rows: all of them, or those before the first new row that raises. */
  ghost predicate StopsAt(existing: set<string>, rows: seq<Row>, n: nat, parsers: Parsers) {
    && n <= |rows| && (n < |rows| ==> Raises(existing, rows, n, parsers))
    && forall i :: 0 <= i < n ==> !Raises(existing, rows, i, parsers)
  }

  /** One load, whether it raises or not. */
  ghost predicate Loads(before: Jobs, rows: seq<Row>, parsers: Parsers, n: nat, after: Jobs) {
    StopsAt(before.Keys, rows, n, parsers) && Reconciled(before, rows, n, parsers, after)
  }

  /** The jobs held by the APScheduler instance. */
  class Scheduler {
    var jobs: Jobs

    constructor ()
      ensures jobs == map[]
    {
      jobs := map[];
    }

    method RemoveMissing(dbIds: set<string>)
      modifies this
      ensures forall id :: id in jobs <==> id in old(jobs) && id in dbIds
      ensures forall id :: id in jobs ==> jobs[id] == old(jobs)[id]
    {
      var todo := jobs.Keys;
      while todo != {}
        invariant todo <= old(jobs).Keys
        invariant forall id :: id in jobs <==> id in old(jobs) && (id in todo || id in dbIds)
        invariant forall id :: id in jobs ==> jobs[id] == old(jobs)[id]
      {
        var id :| id in todo;
        if id !in dbIds {
          jobs := jobs - {id};
        }
        todo := todo - {id};
      }
    }

    /** The loop over the rows: those without a job before the reload get one if it can be built. */
    method AddNew(existing: set<string>, rows: seq<Row>, parsers: Parsers) returns (raised: bool, ghost n: nat)
      requires DistinctIds(rows) && jobs.Keys <= existing
      modifies this
      ensures StopsAt(existing, rows, n, parsers) && (raised <==> n < |rows|)
      ensures forall id :: id in old(jobs) ==> id in jobs && jobs[id] == old(jobs)[id]
      ensures forall id :: id in jobs && id !in old(jobs) ==> id !in existing && HasRow(rows, n, id)
      ensures AddedUpTo(existing, rows, n, parsers, jobs)
    {
      for i := 0 to |rows|
        invariant forall k :: 0 <= k < i ==> !Raises(existing, rows, k, parsers)
        invariant forall id :: id in old(jobs) ==> id in jobs && jobs[id] == old(jobs)[id]
        invariant forall id :: id in jobs && id !in old(jobs) ==> id !in existing && HasRow(rows, i, id)
        invariant AddedUpTo(existing, rows, i, parsers, jobs)
      {
        if rows[i].id !in existing {
          var built := BuildTrigger(rows[i].config, parsers);
          if built.Raise? {
            return true, i;
          }
          if built.value.Some? {
            jobs := jobs[rows[i].id := built.value.value];
          }
        }
      }
      raised, n := false, |rows|;
    }

    /** `load_jobs`, on the rows the query returned. It raises exactly when a new row's interval is malformed, and
        then it has dealt with the rows before that one; either way only jobs of rows just read are left. */
    method LoadJobs(rows: seq<Row>, parsers: Parsers) returns (raised: bool, ghost n: nat)
      requires DistinctIds(rows)
      modifies this
      ensures Loads(old(jobs), rows, parsers, n, jobs) && (raised <==> n < |rows|)
      ensures forall id :: id in jobs ==> HasRow(rows, |rows|, id)
    {
      var dbIds := {};
      for i := 0 to |rows|
        invariant forall id :: id in dbIds <==> HasRow(rows, i, id)
      {
        dbIds := dbIds + {rows[i].id};
      }
      var existing := jobs.Keys;
      RemoveMissing(dbIds);
      raised, n := AddNew(existing, rows, parsers);
    }
  }

  // ---- Over a history of reloads ----

  /** The rows each reload read and how many it got through, and the jobs after each; `jobs[0]` is the scheduler as
      it starts. */
  datatype History = History(rows: seq<seq<Row>>, stops: seq<nat>, jobs: seq<Jobs>)

  ghost predicate ValidHistory(h: History, parsers: Parsers) {
    && |h.jobs| == |h.rows| + 1 && |h.stops| == |h.rows| && h.jobs[0] == map[]
    && (forall k :: 0 <= k < |h.rows| ==>
          DistinctIds(h.rows[k]) && Loads(h.jobs[k], h.rows[k], parsers, h.stops[k], h.jobs[k + 1]))
  }

  /** Load `k` read a row from which it built the job's trigger. */
  ghost predicate AddedBy(h: History, parsers: Parsers, k: nat, id: string, trigger: Trigger) {
    && k < |h.rows| && k + 1 < |h.jobs| && id !in h.jobs[k]
    && exists i :: 0 <= i < |h.rows[k]| && h.rows[k][i].id == id &&
          BuildTrigger(h.rows[k][i].config, parsers) == Ok(Some(trigger))
  }

  /** Whatever the table went through and whichever loads raised, each job has the trigger built by the load that
      last added it, and the id was in every table read since. */
  lemma {:induction false} TriggerOfLastAddition(h: History, parsers: Parsers, n: nat, id: string) returns (k: nat)
    requires ValidHistory(h, parsers) && n <= |h.rows| && id in h.jobs[n]
    ensures k < n && AddedBy(h, parsers, k, id, h.jobs[n][id])
    ensures forall m :: k < m <= n ==> id in h.jobs[m] && h.jobs[m][id] == h.jobs[n][id]
    ensures forall m :: k <= m < n ==> HasRow(h.rows[m], |h.rows[m]|, id)
  {
    var last := n - 1;
    var rows := h.rows[last];
    assert Loads(h.jobs[last], rows, parsers, h.stops[last], h.jobs[last + 1]);
    assert HasRow(rows, |rows|, id);
    if id in h.jobs[last] {
      k := TriggerOfLastAddition(h, parsers, last, id);
    } else {
      k := last;
      assert HasRow(rows, h.stops[last], id);
      var i :| 0 <= i < h.stops[last] && rows[i].id == id;
      assert BuildTrigger(rows[i].config, parsers) == Ok(Some(h.jobs[n][id]));
    }
  }

  /** A load leaves exactly the old ids still in the table and, of the rows it got through, those with a trigger. */
  lemma IdsAfterReload(before: Jobs, rows: seq<Row>, n: nat, parsers: Parsers, after: Jobs, id: string)
    requires n <= |rows| && Reconciled(before, rows, n, parsers, after)
    ensures id in after <==>
              if id in before then HasRow(rows, |rows|, id)
              else exists i :: 0 <= i < n && rows[i].id == id && Buildable(rows[i].config, parsers)
  {
    if HasRow(rows, n, id) {
      var i :| 0 <= i < n && rows[i].id == id;
    }
  }

  lemma SameRowsRaise(before: Jobs, rows: seq<Row>, parsers: Parsers, n: nat, once: Jobs, i: nat)
    requires DistinctIds(rows) && Reconciled(before, rows, n, parsers, once) && n <= |rows|
    ensures Raises(once.Keys, rows, i, parsers) <==> Raises(before.Keys, rows, i, parsers)
  {
    if i < |rows| {
      assert HasRow(rows, |rows|, rows[i].id);
      IdsAfterReload(before, rows, n, parsers, once, rows[i].id);
    }
  }

  /** Loading the same rows again changes nothing. */
  lemma ReloadIsIdempotent(before: Jobs, rows: seq<Row>, parsers: Parsers, n: nat, once: Jobs, m: nat, twice: Jobs)
    requires DistinctIds(rows)
    requires Loads(before, rows, parsers, n, once) && Loads(once, rows, parsers, m, twice)
    ensures twice == once && m == n
  {
    SameRowsRaise(before, rows, parsers, n, once, m);
    SameRowsRaise(before, rows, parsers, n, once, n);
    forall id ensures id in once <==> id in twice {
      IdsAfterReload(before, rows, n, parsers, once, id);
      IdsAfterReload(once, rows, m, parsers, twice, id);
    }
  }
}
