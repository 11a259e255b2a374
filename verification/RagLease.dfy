/**
 The row of one RAG ingestion job and the updates the worker makes to it.

 A worker owns the job while the row is `Running` and carries its claim token. Every
 update but the claim is guarded by that, and `JobRow` shows each guarded method against
 the function that specifies it.
 */
module RagLease {
  import opened Prelude

  /** A claim token; the source draws a fresh UUID for every claim. */
  type Token = nat

  /** Milliseconds on the database clock. */
  type Time = int

  datatype Status = Queued | Running | Succeeded | Failed | DeadLettered

  datatype Job = Job(status: Status, attempts: nat, maxAttempts: nat, nextRetryAt: Option<Time>,
                     leaseUntil: Option<Time>, claimedBy: Option<Token>)

  /** The guard `status = 'running' and claimed_by = token`. */
  predicate Owns(job: Job, token: Token) {
    job.status == Running && job.claimedBy == Some(token)
  }

  /** The claim query's WHERE clause; a NULL lease never compares as expired. */
  predicate Claimable(job: Job, now: Time) {
    && job.status in {Queued, Failed, Running}
    && job.attempts < job.maxAttempts
    && (job.nextRetryAt.None? || job.nextRetryAt.value <= now)
    && (job.status == Running ==> job.leaseUntil.Some? && job.leaseUntil.value < now)
  }

  function ClaimJob(job: Job, token: Token, now: Time): Job {
    job.(status := Running, attempts := job.attempts + 1, claimedBy := Some(token), leaseUntil := Some(now + LEASE_MS))
  }

  function RenewJob(job: Job, now: Time): Job {
    job.(leaseUntil := Some(now + LEASE_MS))
  }

  function SucceedJob(job: Job): Job {
    job.(status := Succeeded, leaseUntil := None, claimedBy := None)
  }

  /** The failure update; `attempts` and `maxAttempts` are the worker's snapshot from the claim. */
  function FailJob(job: Job, attempts: nat, maxAttempts: nat, now: Time): Job
    requires attempts > 0
  {
    if attempts >= maxAttempts then
      job.(status := DeadLettered, nextRetryAt := None, leaseUntil := None, claimedBy := None)
    else
      job.(status := Failed, nextRetryAt := Some(now + 5_000 * Power2(attempts - 1)), leaseUntil := None,
          claimedBy := None)
  }

  /** The rebuild tool's upsert of an existing job. */
  function ResetJob(job: Job): Job {
    job.(status := Queued, attempts := 0, nextRetryAt := None, leaseUntil := None, claimedBy := None)
  }

  datatype ClaimedJob = ClaimedJob(attempts: nat, maxAttempts: nat, claimToken: Token)

  /** The job's row in the database. */
  class JobRow {
    var status: Status
    var attempts: nat
    var maxAttempts: nat
    var nextRetryAt: Option<Time>
    var leaseUntil: Option<Time>
    var claimedBy: Option<Token>

    function View(): Job
      reads this
    {
      Job(status, attempts, maxAttempts, nextRetryAt, leaseUntil, claimedBy)
    }

    constructor (job: Job)
      ensures View() == job
    {
      status, attempts, maxAttempts := job.status, job.attempts, job.maxAttempts;
      nextRetryAt, leaseUntil, claimedBy := job.nextRetryAt, job.leaseUntil, job.claimedBy;
    }

    method Claim(token: Token, now: Time) returns (claimed: Option<ClaimedJob>)
      modifies this
      ensures claimed.Some? <==> old(Claimable(View(), now))
      ensures claimed.Some? ==>
        View() == ClaimJob(old(View()), token, now) && claimed.value == ClaimedJob(attempts, maxAttempts, token)
      ensures claimed.None? ==> View() == old(View())
      ensures claimed.Some? <==>
        && (old(status) == Queued || old(status) == Failed || old(status) == Running) && old(attempts < maxAttempts)
        && (old(nextRetryAt).Some? ==> old(nextRetryAt.value) <= now)
        && (old(status) == Running ==> old(leaseUntil).Some? && old(leaseUntil.value) < now)
      ensures claimed.Some? ==>
        && status == Running && attempts == old(attempts) + 1 && maxAttempts == old(maxAttempts)
        && claimedBy == Some(token) && leaseUntil == Some(now + 300_000) && nextRetryAt == old(nextRetryAt)
        && claimed.value == ClaimedJob(attempts, maxAttempts, token)
    {
      if Claimable(View(), now) {
        status, attempts, claimedBy, leaseUntil := Running, attempts + 1, Some(token), Some(now + LEASE_MS);
        return Some(ClaimedJob(attempts, maxAttempts, token));
      }
      return None;
    }

    /** One heartbeat or assertion. A false result is the source's `RagLeaseLostError`. */
    method Renew(token: Token, now: Time) returns (owned: bool)
      modifies this
      ensures owned == old(Owns(View(), token))
      ensures View() == if owned then RenewJob(old(View()), now) else old(View())
      ensures owned <==> old(status) == Running && old(claimedBy) == Some(token)
      ensures leaseUntil == (if owned then Some(now + 300_000) else old(leaseUntil))
      ensures View() == old(View()).(leaseUntil := leaseUntil)
    {
      owned := status == Running && claimedBy == Some(token);
      if owned { leaseUntil := Some(now + LEASE_MS); }
    }

    method Succeed(job: ClaimedJob) returns (owned: bool)
      modifies this
      ensures owned == old(Owns(View(), job.claimToken))
      ensures View() == if owned then SucceedJob(old(View())) else old(View())
      ensures owned <==> old(status) == Running && old(claimedBy) == Some(job.claimToken)
      ensures owned ==> View() == old(View()).(status := Succeeded, leaseUntil := None, claimedBy := None)
    {
      owned := status == Running && claimedBy == Some(job.claimToken);
      if owned { status, leaseUntil, claimedBy := Succeeded, None, None; }
    }

    method Fail(job: ClaimedJob, now: Time) returns (owned: bool)
      requires job.attempts > 0
      modifies this
      ensures owned == old(Owns(View(), job.claimToken))
      ensures View() == if owned then FailJob(old(View()), job.attempts, job.maxAttempts, now) else old(View())
      ensures attempts == old(attempts) && maxAttempts == old(maxAttempts)
      ensures owned <==> old(status) == Running && old(claimedBy) == Some(job.claimToken)
      ensures owned ==> leaseUntil == None && claimedBy == None
      ensures owned && job.attempts >= job.maxAttempts ==> status == DeadLettered && nextRetryAt == None
      ensures owned && job.attempts < job.maxAttempts ==>
        status == Failed && nextRetryAt == Some(now + 5_000 * Power2(job.attempts - 1))
    {
      owned := status == Running && claimedBy == Some(job.claimToken);
      if owned {
        var exhausted := job.attempts >= job.maxAttempts;
        status := if exhausted then DeadLettered else Failed;
        nextRetryAt := if exhausted then None else Some(now + 5_000 * Power2(job.attempts - 1));
        leaseUntil, claimedBy := None, None;
      }
    }
  }
}
