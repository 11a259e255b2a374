/**
 The scheduler's tables and the transactions of one `tick`.

 `JobTables` holds the scheduled jobs and their runs, and updates them in place. Each
 method is proved against functions of a single run's row; the interleaving of many
 workers over such a row is the business of `SchedulerMachine`.
 */
module Scheduler {
  import opened Prelude
  import opened ExternalCalls

  type RunId = nat

  type JobId = nat

  /** A process's identity: a UUID drawn once, shared by all of its ticks. */
  type WorkerId = nat

  /** Milliseconds; every process reads its own clock. */
  type Time = int

  const MAX_BATCH_SIZE: nat := 20
  const MAX_ATTEMPTS: nat := 3

  datatype Status = Running | Succeeded | Failed | DeadLettered

  datatype JobRun = JobRun(status: Status, attempts: nat, maxAttempts: nat, nextRetryAt: Option<Time>,
                           leaseUntil: Option<Time>, claimedBy: Option<WorkerId>)

  datatype ScheduledJob = ScheduledJob(enabled: bool, nextRunAt: Option<Time>, schedule: string)

  /** What a worker remembers of a run it claimed. */
  datatype ClaimedRun = ClaimedRun(runId: RunId, attempts: nat, maxAttempts: nat)

  // ---------- One row ----------

  predicate LeaseExpired(run: JobRun, now: Time) {
    run.status == Running && run.leaseUntil.Some? && run.leaseUntil.value <= now
  }

  predicate Exhausted(run: JobRun, now: Time) {
    LeaseExpired(run, now) && run.attempts >= run.maxAttempts
  }

  function SweepRun(run: JobRun, now: Time): JobRun {
    if Exhausted(run, now)
    then run.(status := DeadLettered, nextRetryAt := None, leaseUntil := None, claimedBy := None)
    else run
  }

  predicate Eligible(run: JobRun, now: Time) {
    && ((run.status == Failed && run.nextRetryAt.Some? && run.nextRetryAt.value <= now) || LeaseExpired(run, now))
    && run.attempts < run.maxAttempts
  }

  function ClaimRun(run: JobRun, worker: WorkerId, now: Time): JobRun {
    run.(status := Running, attempts := run.attempts + 1, nextRetryAt := None,
         leaseUntil := Some(now + LEASE_MS), claimedBy := Some(worker))
  }

  function NewRun(worker: WorkerId, now: Time): JobRun {
    JobRun(Running, 1, MAX_ATTEMPTS, None, Some(now + LEASE_MS), Some(worker))
  }

  function SucceedRun(run: JobRun): JobRun {
    run.(status := Succeeded, leaseUntil := None, claimedBy := None)
  }

  function Backoff(attempts: nat): nat {
    var delay := 1_000 * Power2(attempts);
    if delay <= 3_600_000 then delay else 3_600_000
  }

  /** The delay doubles from two seconds after the first attempt and reaches its cap of an hour at the twelfth. */
  lemma {:induction false} BackoffDoublesToItsCap(attempts: nat)
    ensures Backoff(attempts + 1) == if 2 * Backoff(attempts) <= 3_600_000 then 2 * Backoff(attempts) else 3_600_000
    ensures Backoff(attempts) == 3_600_000 <==> attempts >= 12
    ensures Backoff(1) == 2_000
  {
    assert Power2(1) == 2 && Power2(4) == 16 && Power2(8) == 256 && Power2(11) == 2_048;
    if attempts > 12 { PowerGrows(12, attempts); }
    if attempts < 11 { PowerGrows(attempts, 11); }
  }

  lemma {:induction false} PowerGrows(a: nat, b: nat)
    requires a <= b
    ensures Power2(a) <= Power2(b)
  {
    if a < b { PowerGrows(a, b - 1); }
  }

  /** The failure update; `attempts` and `maxAttempts` are the worker's memory, not the row's columns. */
  function FailRun(run: JobRun, attempts: nat, maxAttempts: nat, now: Time): JobRun {
    if attempts >= maxAttempts
    then run.(status := DeadLettered, nextRetryAt := None, leaseUntil := None, claimedBy := None)
    else run.(status := Failed, nextRetryAt := Some(now + Backoff(attempts)), leaseUntil := None, claimedBy := None)
  }

  /** The completion write: by whoever's identity is on the row, whatever its status. */
  function Completed(run: JobRun, worker: WorkerId, claim: ClaimedRun, ok: bool, now: Time): JobRun {
    if run.claimedBy != Some(worker) then run
    else if ok then SucceedRun(run)
    else FailRun(run, claim.attempts, claim.maxAttempts, now)
  }

  /**
   What executing a claimed run leaves in its row: the dispatch, the success write if it
   returned, and the failure write if either threw, with these fates.
   */
  function Executed(run: JobRun, worker: WorkerId, claim: ClaimedRun, dispatch: Answer, success: Answer,
      failure: Answer, now: Time): JobRun
  {
    var tried := if dispatch.Works? && success.Took() then Completed(run, worker, claim, true, now) else run;
    if dispatch.Works? && success.Works? then tried
    else if failure.Took() then Completed(tried, worker, claim, false, now)
    else tried
  }

  /**
   A recorded failure: the run is dead-lettered after its last permitted attempt; before
   that it may be claimed again exactly from its retry time on, two seconds after the first
   attempt, doubled with each further one, an hour at most.
   */
  ghost predicate FailedAfter(before: JobRun, after: JobRun, attempts: nat, maxAttempts: nat, now: Time) {
    && after.attempts == before.attempts && after.maxAttempts == before.maxAttempts
    && after.leaseUntil == None && after.claimedBy == None
    && (attempts >= maxAttempts ==> after.status == DeadLettered && after.nextRetryAt == None)
    && (attempts < maxAttempts ==>
          && after.status == Failed && after.nextRetryAt.Some?
          && after.nextRetryAt.value ==
               now + (if Power2(attempts) <= 3_600 then 1_000 * Power2(attempts) else 3_600_000))
  }

  /** The operator's retry, offered for failed and dead-lettered runs. */
  function ResetRun(run: JobRun, now: Time): JobRun {
    run.(status := Failed, attempts := 0, nextRetryAt := Some(now), leaseUntil := None, claimedBy := None)
  }

  function NextRunAt(schedule: string, from: Time): (next: Option<Time>)
    ensures RunsNext(schedule, from, next)
  {
    if schedule == "hourly" then Some(from + 3_600_000)
    else if schedule == "daily" then Some(from + 86_400_000)
    else if schedule == "weekly" then Some(from + 604_800_000)
    else if schedule == "monthly" then Some(from + 2_592_000_000)
    else None
  }

  // ---------- Selecting rows ----------

  predicate Distinct<T(==)>(s: seq<T>) {
    forall i, j :: 0 <= i < j < |s| ==> s[i] != s[j]
  }

  /** The first `limit` of `ids` that satisfy `keep`: a query with ORDER BY and LIMIT. */
  function Select(ids: seq<nat>, keep: nat -> bool, limit: nat): (picked: seq<nat>)
    ensures |picked| <= limit
    ensures forall x :: x in picked ==> x in ids && keep(x)
    ensures |picked| < limit ==> forall x :: x in ids && keep(x) ==> x in picked
    ensures Distinct(ids) ==> Distinct(picked)
  {
    if ids == [] || limit == 0 then []
    else if keep(ids[0]) then [ids[0]] + Select(ids[1..], keep, limit - 1)
    else Select(ids[1..], keep, limit)
  }

  /** The ids that `keep` keeps, in order. */
  function Filter(ids: seq<nat>, keep: nat -> bool): seq<nat> {
    if ids == [] then []
    else
      var last := ids[|ids| - 1];
      Filter(ids[..|ids| - 1], keep) + (if keep(last) then [last] else [])
  }

  /** A query takes the first rows that satisfy it, in order, up to its limit. */
  lemma {:induction false} SelectsFirst(ids: seq<nat>, keep: nat -> bool, limit: nat) returns (n: nat)
    ensures n <= |ids| && Select(ids, keep, limit) == Filter(ids[..n], keep)
    ensures |Select(ids, keep, limit)| == limit || n == |ids|
    decreases |ids|
  {
    if ids == [] || limit == 0 {
      n := 0;
    } else {
      var rest := SelectsFirst(ids[1..], keep, if keep(ids[0]) then limit - 1 else limit);
      n := rest + 1;
      assert ids[..n] == [ids[0]] + ids[1..][..rest];
      FilterFront(ids[0], ids[1..][..rest], keep);
    }
  }

  lemma {:induction false} FilterFront(id: nat, ids: seq<nat>, keep: nat -> bool)
    ensures Filter([id] + ids, keep) == (if keep(id) then [id] else []) + Filter(ids, keep)
  {
    if ids == [] {
      assert [id] + ids == [id] && [id][..0] == [];
    } else {
      FilterFront(id, ids[..|ids| - 1], keep);
      assert ([id] + ids)[..|ids|] == [id] + ids[..|ids| - 1];
    }
  }

  predicate Due(job: ScheduledJob, now: Time) {
    job.enabled && (job.nextRunAt.None? || job.nextRunAt.value <= now)
  }

  /** Sweeping changes no row that a retry can claim. */
  lemma SweptRows(table: map<RunId, JobRun>, now: Time)
    ensures Swept(table, now).Keys == table.Keys
    ensures forall id :: id in table ==> Eligible(Swept(table, now)[id], now) == Eligible(table[id], now)
    ensures forall id :: id in table && Eligible(table[id], now) ==> Swept(table, now)[id] == table[id]
    ensures forall id :: id in table && Eligible(table[id], now) ==> table[id].attempts < table[id].maxAttempts
  {
  }

  /** The runs a pass claims again, oldest first. */
  function RetryRows(table: map<RunId, JobRun>, byAge: seq<RunId>, now: Time): (rows: seq<RunId>)
    ensures |rows| <= MAX_BATCH_SIZE
    ensures forall id :: id in rows ==> id in byAge && id in table && Eligible(table[id], now)
    ensures |rows| < MAX_BATCH_SIZE ==> forall id :: id in byAge && id in table && Eligible(table[id], now) ==>
      id in rows
    ensures Distinct(byAge) ==> Distinct(rows)
  {
    Select(byAge, id => id in table && Eligible(table[id], now), MAX_BATCH_SIZE)
  }

  /** The eligible ones among `ids`, in their order. */
  function EligibleAmong(table: map<RunId, JobRun>, ids: seq<RunId>, now: Time): seq<RunId> {
    Filter(ids, id => id in table && Eligible(table[id], now))
  }

  /** The enabled jobs among `ids` that never ran or whose time has come, in their order. */
  function DueAmong(jobs: map<JobId, ScheduledJob>, ids: seq<JobId>, now: Time): seq<JobId> {
    Filter(ids, id =>
      && id in jobs && jobs[id].enabled
      && (jobs[id].nextRunAt == None || (jobs[id].nextRunAt.Some? && jobs[id].nextRunAt.value <= now)))
  }

  lemma {:induction false} FilterSame(ids: seq<nat>, keep: nat -> bool, also: nat -> bool)
    requires forall id :: id in ids ==> keep(id) == also(id)
    ensures Filter(ids, keep) == Filter(ids, also)
  {
    if ids != [] { FilterSame(ids[..|ids| - 1], keep, also); }
  }

  /** A pass takes the oldest eligible runs, up to twenty. */
  lemma RetriesAreOldest(before: map<RunId, JobRun>, byAge: seq<RunId>, now: Time) returns (n: nat)
    ensures n <= |byAge| && RetryRows(Swept(before, now), byAge, now) == EligibleAmong(before, byAge[..n], now)
    ensures |RetryRows(Swept(before, now), byAge, now)| == 20 || n == |byAge|
  {
    hide Select, Filter, Eligible, Swept;
    var swept := Swept(before, now);
    SweptRows(before, now);
    n := SelectsFirst(byAge, id => id in swept && Eligible(swept[id], now), MAX_BATCH_SIZE);
    FilterSame(byAge[..n], id => id in swept && Eligible(swept[id], now),
               id => id in before && Eligible(before[id], now));
  }

  /** And the due jobs that come first, up to its limit. */
  lemma DueAreFirst(jobs: map<JobId, ScheduledJob>, byDueTime: seq<JobId>, limit: nat, now: Time) returns (n: nat)
    ensures n <= |byDueTime| && DueRows(jobs, byDueTime, limit, now) == DueAmong(jobs, byDueTime[..n], now)
    ensures |DueRows(jobs, byDueTime, limit, now)| == limit || n == |byDueTime|
  {
    hide Select, Filter;
    n := SelectsFirst(byDueTime, id => id in jobs && Due(jobs[id], now), limit);
    FilterSame(byDueTime[..n], id => id in jobs && Due(jobs[id], now), id =>
      && id in jobs && jobs[id].enabled
      && (jobs[id].nextRunAt == None || (jobs[id].nextRunAt.Some? && jobs[id].nextRunAt.value <= now)));
  }

  /** When a job runs next: an hour, a day, a week or thirty days on; no other schedule is known. */
  ghost predicate RunsNext(schedule: string, from: Time, next: Option<Time>) {
    && (schedule == "hourly" ==> next == Some(from + 3_600_000))
    && (schedule == "daily" ==> next == Some(from + 24 * 3_600_000))
    && (schedule == "weekly" ==> next == Some(from + 7 * 24 * 3_600_000))
    && (schedule == "monthly" ==> next == Some(from + 30 * 24 * 3_600_000))
    && (schedule !in {"hourly", "daily", "weekly", "monthly"} ==> next == None)
  }

  /** The due jobs a pass picks, soonest first. */
  function DueRows(jobs: map<JobId, ScheduledJob>, byDueTime: seq<JobId>, limit: nat, now: Time): (rows: seq<JobId>)
    ensures |rows| <= limit
    ensures forall id :: id in rows ==> id in byDueTime && id in jobs && Due(jobs[id], now)
    ensures Distinct(byDueTime) ==> Distinct(rows)
  {
    Select(byDueTime, id => id in jobs && Due(jobs[id], now), limit)
  }

  /** Whether every picked job has a schedule `NextRunAt` knows; a cron expression is not one. */
  predicate Schedulable(jobs: map<JobId, ScheduledJob>, rows: seq<JobId>, now: Time) {
    forall id :: id in rows && id in jobs ==> NextRunAt(jobs[id].schedule, now).Some?
  }

  function Swept(table: map<RunId, JobRun>, now: Time): map<RunId, JobRun> {
    map id | id in table :: SweepRun(table[id], now)
  }

  /** `table` with each of `ids` claimed. */
  function Claimed(table: map<RunId, JobRun>, ids: seq<RunId>, worker: WorkerId, now: Time): map<RunId, JobRun> {
    map id | id in table :: if id in ids then ClaimRun(table[id], worker, now) else table[id]
  }

  lemma ClaimedSnoc(table: map<RunId, JobRun>, ids: seq<RunId>, id: RunId, worker: WorkerId, now: Time)
    requires id in table && id !in ids
    ensures id in Claimed(table, ids, worker, now) && Claimed(table, ids, worker, now)[id] == table[id]
    ensures Claimed(table, ids + [id], worker, now) ==
      Claimed(table, ids, worker, now)[id := ClaimRun(table[id], worker, now)]
  {
  }

  lemma ClaimedNone(table: map<RunId, JobRun>, worker: WorkerId, now: Time)
    ensures Claimed(table, [], worker, now) == table
  {
  }

  /** `table` with a new run under each of `ids`. */
  function Started(table: map<RunId, JobRun>, ids: seq<RunId>, worker: WorkerId, now: Time): map<RunId, JobRun> {
    table + map id | id in ids :: NewRun(worker, now)
  }

  /** `jobs` with each of `rows` moved to its next time. */
  function Moved(jobs: map<JobId, ScheduledJob>, rows: seq<JobId>, now: Time): map<JobId, ScheduledJob> {
    map id | id in jobs :: if id in rows then jobs[id].(nextRunAt := NextRunAt(jobs[id].schedule, now)) else jobs[id]
  }

  lemma StartedSnoc(table: map<RunId, JobRun>, ids: seq<RunId>, id: RunId, worker: WorkerId, now: Time)
    ensures Started(table, ids + [id], worker, now) == Started(table, ids, worker, now)[id := NewRun(worker, now)]
  {
  }

  lemma MovedSnoc(jobs: map<JobId, ScheduledJob>, rows: seq<JobId>, id: JobId, now: Time)
    requires id in jobs && id !in rows
    ensures id in Moved(jobs, rows, now) && Moved(jobs, rows, now)[id] == jobs[id]
    ensures Moved(jobs, rows + [id], now) ==
      Moved(jobs, rows, now)[id := jobs[id].(nextRunAt := NextRunAt(jobs[id].schedule, now))]
  {
  }

  /** A job that a pass picked is not due again within the hour, so it is started once per interval. */
  lemma PickedJobsAreNotDue(jobs: map<JobId, ScheduledJob>, rows: seq<JobId>, now: Time, later: Time, id: JobId)
    requires Schedulable(jobs, rows, now) && id in rows && id in jobs && later < now + 3_600_000
    ensures !Due(Moved(jobs, rows, now)[id], later)
  {
    assert NextRunAt(jobs[id].schedule, now).Some?;
  }

  lemma StartsEmpty(table: map<RunId, JobRun>, jobs: map<JobId, ScheduledJob>, worker: WorkerId, now: Time)
    ensures Started(table, [], worker, now) == table && Moved(jobs, [], now) == jobs
  {
  }

  lemma NotRepeated(rows: seq<nat>, i: nat)
    requires Distinct(rows) && i < |rows|
    ensures rows[i] !in rows[..i]
  {
  }

  function Ids(claimed: seq<ClaimedRun>): (ids: seq<RunId>)
    ensures |ids| == |claimed|
    ensures forall i :: 0 <= i < |ids| ==> ids[i] == claimed[i].runId
  {
    seq(|claimed|, i requires 0 <= i < |claimed| => claimed[i].runId)
  }

  /** The worker has every run of `claimed` from position `from` on. */
  predicate Held(table: map<RunId, JobRun>, claimed: seq<ClaimedRun>, from: nat, worker: WorkerId) {
    forall k :: from <= k < |claimed| ==> claimed[k].runId in table && table[claimed[k].runId].claimedBy == Some(worker)
  }

  predicate LetGo(table: map<RunId, JobRun>, claimed: seq<ClaimedRun>) {
    forall k :: 0 <= k < |claimed| ==>
      && claimed[k].runId in table
      && table[claimed[k].runId].claimedBy.None? && table[claimed[k].runId].status in {Succeeded, Failed, DeadLettered}
  }

  predicate SameElsewhere(table: map<RunId, JobRun>, other: map<RunId, JobRun>, ids: seq<RunId>) {
    table.Keys == other.Keys && forall id :: id in table && id !in ids ==> table[id] == other[id]
  }

  /** What a pass has claimed, its retries and then its new runs, belongs to it and to nobody twice. */
  lemma ClaimsAreHeld(before: map<RunId, JobRun>, retries: seq<ClaimedRun>, due: seq<ClaimedRun>, newIds: seq<RunId>,
                      worker: WorkerId, now: Time)
    requires Distinct(Ids(retries)) && forall k :: 0 <= k < |retries| ==> retries[k].runId in before
    requires Distinct(newIds) && forall id :: id in newIds ==> id !in before
    requires |due| <= |newIds| && forall k :: 0 <= k < |due| ==> due[k] == ClaimedRun(newIds[k], 1, MAX_ATTEMPTS)
    ensures
      var table := Started(Claimed(Swept(before, now), Ids(retries), worker, now), newIds[..|due|], worker, now);
      && Held(table, retries + due, 0, worker) && Distinct(Ids(retries + due))
      && forall id :: id in before && id !in Ids(retries) ==>
           id in table && table[id] == SweepRun(before[id], now) && id !in Ids(retries + due)
  {
  }

  lemma SameKeys(before: map<RunId, JobRun>, ids: seq<RunId>, worker: WorkerId, now: Time)
    ensures Claimed(Swept(before, now), ids, worker, now).Keys == before.Keys
  {
  }

  lemma ExecutedOne(before: map<RunId, JobRun>, after: map<RunId, JobRun>, claimed: seq<ClaimedRun>, i: nat,
      worker: WorkerId)
    requires Distinct(Ids(claimed)) && i < |claimed|
    requires LetGo(before, claimed[..i]) && Held(before, claimed, i, worker)
    requires before.Keys == after.Keys && forall id :: id in after && id != claimed[i].runId ==> after[id] == before[id]
    requires after[claimed[i].runId].claimedBy.None?
      && after[claimed[i].runId].status in {Succeeded, Failed, DeadLettered}
    ensures LetGo(after, claimed[..i + 1]) && Held(after, claimed, i + 1, worker)
  {
  }

  lemma ClaimedRows(before: map<RunId, JobRun>, rows: seq<RunId>, worker: WorkerId, now: Time)
    requires forall id :: id in rows ==> id in before && Eligible(before[id], now)
    ensures
      var after := Claimed(Swept(before, now), rows, worker, now);
      forall id :: id in rows ==>
        && id in after
        && after[id] == JobRun(Running, before[id].attempts + 1, before[id].maxAttempts, None, Some(now + 300_000),
                               Some(worker))
  {
  }

  lemma MovedRows(jobs: map<JobId, ScheduledJob>, rows: seq<JobId>, now: Time)
    requires forall id :: id in rows ==> id in jobs
    ensures
      var after := Moved(jobs, rows, now);
      && (forall id :: id in rows ==> id in after && after[id] == jobs[id].(nextRunAt := after[id].nextRunAt))
      && (forall id :: id in rows ==> RunsNext(after[id].schedule, now, after[id].nextRunAt))
      && (forall id :: id in after && id !in rows ==> id in jobs && after[id] == jobs[id])
  {
    hide RunsNext;
  }

  lemma StartedRows(before: map<RunId, JobRun>, ids: seq<RunId>, worker: WorkerId, now: Time)
    ensures forall id :: id in ids ==>
      && id in Started(before, ids, worker, now)
      && Started(before, ids, worker, now)[id] == JobRun(Running, 1, 3, None, Some(now + 300_000), Some(worker))
  {
  }

  class JobTables {
    var runs: map<RunId, JobRun>
    var jobs: map<JobId, ScheduledJob>
    const workerId: WorkerId

    constructor (workerId: WorkerId, jobs: map<JobId, ScheduledJob>)
      ensures this.workerId == workerId && this.jobs == jobs && runs == map[]
    {
      this.workerId, this.jobs, runs := workerId, jobs, map[];
    }

    /**
     Buries the runs whose last permitted attempt lost its lease, then claims up to
     twenty waiting or abandoned runs, oldest first. `byAge` lists the rows no other
     transaction has locked.
     */
    method ClaimRetries(byAge: seq<RunId>, now: Time) returns (claimed: seq<ClaimedRun>)
      requires Distinct(byAge) && forall id :: id in byAge ==> id in runs
      modifies this`runs
      ensures |claimed| <= MAX_BATCH_SIZE && Distinct(Ids(claimed))
      ensures runs == Claimed(Swept(old(runs), now), Ids(claimed), workerId, now)
      ensures forall k :: 0 <= k < |claimed| ==>
        var c := claimed[k];
        && c.runId in old(runs) && Eligible(old(runs)[c.runId], now)
        && c.attempts == old(runs)[c.runId].attempts + 1 <= c.maxAttempts == old(runs)[c.runId].maxAttempts
      ensures |claimed| < MAX_BATCH_SIZE ==> forall id :: id in byAge && Eligible(old(runs)[id], now) ==>
        id in Ids(claimed)
      ensures exists n ::
        && 0 <= n <= |byAge| && Ids(claimed) == EligibleAmong(old(runs), byAge[..n], now)
        && (|claimed| == 20 || n == |byAge|)
      ensures forall id :: id in Ids(claimed) ==>
        && id in old(runs) && id in runs
        && runs[id] == JobRun(Running, old(runs)[id].attempts + 1, old(runs)[id].maxAttempts, None,
                              Some(now + 300_000), Some(workerId))
    {
      hide Claimed, Distinct, Swept, Select, Eligible, EligibleAmong;
      runs := Swept(runs, now);
      ghost var swept := runs;
      SweptRows(old(runs), now);
      var rows := RetryRows(runs, byAge, now);
      claimed := [];
      ClaimedNone(swept, workerId, now);
      assert Ids(claimed) == rows[..0];
      for i := 0 to |rows|
        invariant Ids(claimed) == rows[..i]
        invariant runs == Claimed(swept, rows[..i], workerId, now)
        invariant forall k :: 0 <= k < i ==>
          claimed[k] == ClaimedRun(rows[k], swept[rows[k]].attempts + 1, swept[rows[k]].maxAttempts)
      {
        var id := rows[i];
        assert rows[..i + 1] == rows[..i] + [id];
        NotRepeated(rows, i);
        ClaimedSnoc(swept, rows[..i], id, workerId, now);
        runs := runs[id := ClaimRun(runs[id], workerId, now)];
        claimed := claimed + [ClaimedRun(id, runs[id].attempts, runs[id].maxAttempts)];
        assert Ids(claimed) == rows[..i + 1];
      }
      assert rows[..|rows|] == rows;
      var n := RetriesAreOldest(old(runs), byAge, now);
      ClaimedRows(old(runs), rows, workerId, now);
    }

    /**
     Starts a run for each due job and moves the job to its next time, in one transaction.
     It throws, and changes nothing, exactly when some picked job cannot be scheduled.
     `newIds` are the new rows' ids.
     */
    method ClaimDue(limit: nat, byDueTime: seq<JobId>, newIds: seq<RunId>, now: Time)
      returns (claimed: Option<seq<ClaimedRun>>)
      requires Distinct(byDueTime) && Distinct(newIds) && limit <= |newIds|
      requires forall id :: id in newIds ==> id !in runs
      modifies this`runs, this`jobs
      ensures claimed.Some? <==> Schedulable(old(jobs), DueRows(old(jobs), byDueTime, limit, now), now)
      ensures claimed.None? ==> runs == old(runs) && jobs == old(jobs)
      ensures claimed.Some? ==>
        var rows := DueRows(old(jobs), byDueTime, limit, now);
        && |claimed.value| == |rows|
        && (forall k :: 0 <= k < |rows| ==> claimed.value[k] == ClaimedRun(newIds[k], 1, MAX_ATTEMPTS))
        && runs == Started(old(runs), newIds[..|rows|], workerId, now)
        && jobs == Moved(old(jobs), rows, now)
      ensures claimed.Some? ==> exists n, rows: seq<JobId> ::
        && 0 <= n <= |byDueTime| && rows == DueAmong(old(jobs), byDueTime[..n], now)
        && |claimed.value| == |rows| && (|rows| == limit || n == |byDueTime|)
        && (forall id :: id in rows ==>
              id in jobs && id in old(jobs) && jobs[id] == old(jobs)[id].(nextRunAt := jobs[id].nextRunAt))
        && (forall id :: id in rows ==> RunsNext(jobs[id].schedule, now, jobs[id].nextRunAt))
        && (forall id :: id in jobs && id !in rows ==> id in old(jobs) && jobs[id] == old(jobs)[id])
      ensures claimed.Some? ==> forall k :: 0 <= k < |claimed.value| ==>
        && claimed.value[k] == ClaimedRun(newIds[k], 1, 3) && newIds[k] in runs
        && runs[newIds[k]] == JobRun(Running, 1, 3, None, Some(now + 300_000), Some(workerId))
    {
      hide Started, Moved, DueRows, NextRunAt, Distinct;
      var runsBefore, jobsBefore := runs, jobs;
      var rows := DueRows(jobs, byDueTime, limit, now);
      var started := [];
      StartsEmpty(runs, jobs, workerId, now);
      assert rows[..0] == [] && newIds[..0] == [];
      for i := 0 to |rows|
        invariant runs == Started(runsBefore, newIds[..i], workerId, now)
        invariant jobs == Moved(jobsBefore, rows[..i], now)
        invariant forall k :: 0 <= k < i ==> NextRunAt(jobsBefore[rows[k]].schedule, now).Some?
        invariant |started| == i && forall k :: 0 <= k < i ==> started[k] == ClaimedRun(newIds[k], 1, MAX_ATTEMPTS)
      {
        var id := rows[i];
        assert rows[..i + 1] == rows[..i] + [id] && newIds[..i + 1] == newIds[..i] + [newIds[i]];
        NotRepeated(rows, i);
        StartedSnoc(runsBefore, newIds[..i], newIds[i], workerId, now);
        MovedSnoc(jobsBefore, rows[..i], id, now);
        runs := runs[newIds[i] := NewRun(workerId, now)];
        var next := NextRunAt(jobs[id].schedule, now);
        if next.None? {
          runs, jobs := runsBefore, jobsBefore;
          return None;
        }
        jobs := jobs[id := jobs[id].(nextRunAt := next)];
        started := started + [ClaimedRun(newIds[i], runs[newIds[i]].attempts, runs[newIds[i]].maxAttempts)];
      }
      assert rows[..|rows|] == rows;
      var n := DueAreFirst(jobsBefore, byDueTime, limit, now);
      MovedRows(jobsBefore, rows, now);
      StartedRows(runsBefore, newIds[..|rows|], workerId, now);
      return Some(started);
    }

    /**
     Dispatches a claimed run and records how it ended, if this process still has the
     run. The calls' fates decide all of it; `completed` is false when even recording the
     failure threw.
     */
    method Execute(run: ClaimedRun, now: Time, outside: Outside) returns (dispatched: bool, completed: bool)
      modifies this`runs, outside
      ensures runs.Keys == old(runs).Keys && forall id :: id in runs && id != run.runId ==> runs[id] == old(runs)[id]
      ensures
        var dispatch := outside.fate(old(outside.made));
        var success := outside.fate(old(outside.made) + 1);
        var failure := outside.fate(old(outside.made) + (if dispatch.Works? then 2 else 1));
        && dispatched == dispatch.Works?
        && completed == ((dispatch.Works? && success.Works?) || failure.Works?)
        && outside.made == old(outside.made) + (if dispatch.Works? && success.Throws? then 3 else 2)
        && (run.runId in runs ==>
              runs[run.runId] == Executed(old(runs)[run.runId], workerId, run, dispatch, success, failure, now))
      ensures
        var dispatch := outside.fate(old(outside.made));
        var success := outside.fate(old(outside.made) + 1);
        var failure := outside.fate(old(outside.made) + (if dispatch.Works? then 2 else 1));
        run.runId in runs ==>
          var before, after := old(runs)[run.runId], runs[run.runId];
          if before.claimedBy != Some(workerId) then after == before
          else if dispatch.Works? && success.Took() then
            after == before.(status := Succeeded, leaseUntil := None, claimedBy := None)
          else if (dispatch.Works? ==> success.Throws?) && failure.Took() then
            FailedAfter(before, after, run.attempts, run.maxAttempts, now)
          else after == before
    {
      var a := outside.Next();
      dispatched := a.Works?;
      if dispatched {
        a := outside.Next();
        if a.Took() && run.runId in runs && runs[run.runId].claimedBy == Some(workerId) {
          runs := runs[run.runId := SucceedRun(runs[run.runId])];
        }
        if a.Works? { return dispatched, true; }
      }
      a := outside.Next();
      if a.Took() && run.runId in runs && runs[run.runId].claimedBy == Some(workerId) {
        runs := runs[run.runId := FailRun(runs[run.runId], run.attempts, run.maxAttempts, now)];
      }
      completed := a.Works?;
    }

    /** Executes the claimed runs in order and stops at the first whose outcome cannot be recorded. */
    method ExecuteAll(claimed: seq<ClaimedRun>, now: Time, outside: Outside)
      returns (dispatched: seq<ClaimedRun>, completed: bool)
      requires Held(runs, claimed, 0, workerId) && Distinct(Ids(claimed))
      modifies this`runs, outside
      ensures dispatched <= claimed && SameElsewhere(runs, old(runs), Ids(claimed))
      ensures completed ==> dispatched == claimed && LetGo(runs, claimed)
      ensures outside.made >= old(outside.made) && (claimed == [] <==> outside.made == old(outside.made))
      ensures completed <==> (outside.made > old(outside.made) ==> outside.fate(outside.made - 1).Works?)
    {
      hide Distinct, Backoff;
      dispatched := [];
      assert claimed[..0] == [];
      for i := 0 to |claimed|
        invariant dispatched == claimed[..i]
        invariant LetGo(runs, claimed[..i]) && Held(runs, claimed, i, workerId)
        invariant SameElsewhere(runs, old(runs), Ids(claimed))
        invariant outside.made >= old(outside.made) + i && (i == 0 ==> outside.made == old(outside.made))
        invariant i > 0 ==> outside.fate(outside.made - 1).Works?
      {
        ghost var before := runs;
        var _, completed := Execute(claimed[i], now, outside);
        assert claimed[i].runId == Ids(claimed)[i];
        dispatched := dispatched + [claimed[i]];
        assert claimed[..i + 1] == claimed[..i] + [claimed[i]];
        if !completed { return dispatched, false; }
        ExecutedOne(before, runs, claimed, i, workerId);
      }
      assert claimed[..|claimed|] == claimed;
      completed := true;
    }

    /**
     One pass. When it returns, every run it claimed has been dispatched and let go;
     when a due job cannot be scheduled, the retries claimed just before are left
     `running` with an attempt spent and nothing dispatched.
     */
    method Tick(byAge: seq<RunId>, byDueTime: seq<JobId>, newIds: seq<RunId>, now: Time, outside: Outside)
      returns (retries: seq<ClaimedRun>, dispatched: seq<ClaimedRun>, processed: Option<nat>)
      requires Distinct(byAge) && forall id :: id in byAge ==> id in runs
      requires Distinct(byDueTime) && Distinct(newIds) && MAX_BATCH_SIZE <= |newIds|
      requires forall id :: id in newIds ==> id !in runs
      modifies this`runs, this`jobs, outside
      ensures |retries| <= 20 && |dispatched| <= 20 && outside.made >= old(outside.made)
      ensures processed.Some? ==> processed.value == |dispatched| && retries <= dispatched && LetGo(runs, dispatched)
      ensures forall id :: id in old(runs) && id !in Ids(retries) ==>
        id in runs && runs[id] == SweepRun(old(runs)[id], now)
      ensures |retries| < MAX_BATCH_SIZE ==>
        !Schedulable(old(jobs), DueRows(old(jobs), byDueTime, MAX_BATCH_SIZE - |retries|, now), now) ==>
          processed.None? && dispatched == [] && jobs == old(jobs) && Held(runs, retries, 0, workerId)
      ensures processed.Some? <==>
        && (|retries| < MAX_BATCH_SIZE ==>
              Schedulable(old(jobs), DueRows(old(jobs), byDueTime, MAX_BATCH_SIZE - |retries|, now), now))
        && (outside.made > old(outside.made) ==> outside.fate(outside.made - 1).Works?)
    {
      hide Claimed, Swept, Started, Moved, Schedulable, DueRows, Distinct, EligibleAmong, DueAmong, RunsNext, NextRunAt;
      hide SweepRun, Eligible, NewRun, ClaimRun;
      retries := ClaimRetries(byAge, now);
      ClaimsAreHeld(old(runs), retries, [], newIds, workerId, now);
      StartsEmpty(runs, jobs, workerId, now);
      assert newIds[..0] == [] && retries + [] == retries;
      SameKeys(old(runs), Ids(retries), workerId, now);
      var remaining := MAX_BATCH_SIZE - |retries|;
      var all := retries;
      if remaining > 0 {
        var due := ClaimDue(remaining, byDueTime, newIds, now);
        if due.None? { return retries, [], None; }
        ClaimsAreHeld(old(runs), retries, due.value, newIds, workerId, now);
        all := retries + due.value;
      }
      var completed;
      dispatched, completed := ExecuteAll(all, now, outside);
      if !completed { return retries, dispatched, None; }
      processed := Some(|all|);
    }

    method Retry(id: RunId, now: Time) returns (found: bool)
      modifies this`runs
      ensures found <==> id in old(runs) && old(runs)[id].status in {Failed, DeadLettered}
      ensures runs == if found then old(runs)[id := ResetRun(old(runs)[id], now)] else old(runs)
      ensures found ==> runs[id] == JobRun(Failed, 0, old(runs)[id].maxAttempts, Some(now), None, None)
    {
      found := id in runs && runs[id].status in {Failed, DeadLettered};
      if found { runs := runs[id := ResetRun(runs[id], now)]; }
    }
  }
}
