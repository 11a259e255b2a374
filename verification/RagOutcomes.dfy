/**
 How the attempts of a job end: what a failed, a dead-lettered and a succeeded row mean in
 every run, exactly when a failed job is tried again, and that a lost attempt has one write left.
 */
module RagOutcomes {
  import opened Prelude
  import opened RagLease
  import opened RagTables
  import opened RagMachine

  /** The owner remembers the row's own counts, and a row that is not running says why. */
  ghost predicate Settled(s: State) {
    && (s.job.claimedBy.Some? && s.job.claimedBy.value in s.workers ==>
          var w := s.workers[s.job.claimedBy.value];
          w.attempts == s.job.attempts && w.maxAttempts == s.job.maxAttempts)
    && (s.job.status == Running ==> 0 < s.job.attempts <= s.job.maxAttempts && s.job.leaseUntil.Some?)
    && (s.job.status != Running ==> s.job.leaseUntil.None? && s.job.claimedBy.None?)
    && (s.job.status == Failed ==> 0 < s.job.attempts < s.job.maxAttempts && s.job.nextRetryAt.Some?)
    && (s.job.status == DeadLettered ==> s.job.attempts == s.job.maxAttempts && s.job.nextRetryAt.None?)
    && (s.job.status == RagLease.Status.Succeeded ==> 0 < s.job.attempts <= s.job.maxAttempts)
  }

  lemma StepSettled(c: Config, s: State, e: Event)
    requires Inv(s) && Settled(s) && Enabled(c, s, e)
    ensures Settled(Step(c, s, e))
  {
    hide Inv, Settled, Step, Enabled;
    if IsWrite(e) {
      WriteSettled(c, s, e);
    } else if e.Fail? || e.Succeed? || e.Claim? || e.Reset? {
      RowSettled(c, s, e);
    } else {
      OtherSettled(c, s, e);
    }
  }

  lemma WriteSettled(c: Config, s: State, e: Event)
    requires Inv(s) && Settled(s) && Enabled(c, s, e) && IsWrite(e)
    ensures Settled(Step(c, s, e))
  {
    hide Without, Keyed, StoreEffect, AfterStore;
  }

  lemma RowSettled(c: Config, s: State, e: Event)
    requires Inv(s) && Settled(s) && Enabled(c, s, e) && (e.Fail? || e.Succeed? || e.Claim? || e.Reset?)
    ensures Settled(Step(c, s, e))
  {
    hide Power2, CommitStep, LandStep;
  }

  lemma OtherSettled(c: Config, s: State, e: Event)
    requires Inv(s) && Settled(s) && Enabled(c, s, e)
    requires !IsWrite(e) && !(e.Fail? || e.Succeed? || e.Claim? || e.Reset?)
    ensures Settled(Step(c, s, e))
  {
    hide Claimable, FailJob, CommitStep, LandStep, ValidPlan;
  }

  lemma {:induction false} RunSettled(c: Config, s: State, es: seq<Event>)
    requires Inv(s) && Settled(s) && Possible(c, s, es)
    ensures Settled(Run(c, s, es))
    decreases |es|
  {
    hide Inv, Settled, Step;
    if es != [] {
      StepInv(c, s, es[0]);
      StepSettled(c, s, es[0]);
      RunSettled(c, Step(c, s, es[0]), es[1..]);
    }
  }

  /**
   In every run from a new job: a failed row has attempts left and a retry time, a
   dead-lettered one has used up exactly its permitted attempts, and no row but a running
   one has an owner or a lease.
   */
  lemma RowsMean(c: Config, s: State, es: seq<Event>)
    requires Init(s) && Possible(c, s, es)
    ensures
      var job := Run(c, s, es).job;
      && (job.status == Failed ==> 0 < job.attempts < job.maxAttempts && job.nextRetryAt.Some?)
      && (job.status == DeadLettered ==> job.attempts == job.maxAttempts && job.nextRetryAt.None?)
      && (job.status == Running <==> job.claimedBy.Some?) && (job.status == Running <==> job.leaseUntil.Some?)
      && (job.status == Running ==> 0 < job.attempts <= job.maxAttempts)
  {
    hide Step;
    RunInv(c, s, es);
    RunSettled(c, s, es);
  }

  /**
   A new job with a permitted attempt can be claimed at once, or from its start time on;
   what was succeeded or dead-lettered never can, in any run.
   */
  lemma NewJobsAreClaimable(c: Config, s: State, es: seq<Event>, now: Time)
    requires Init(s) && Possible(c, s, es)
    ensures Claimable(s.job, now) <==>
      s.job.maxAttempts > 0 && (s.job.nextRetryAt.None? || s.job.nextRetryAt.value <= now)
    ensures
      var job := Run(c, s, es).job;
      job.status == RagLease.Status.Succeeded || job.status == DeadLettered ==> !Claimable(job, now)
  {
  }

  /** A claim protects the job for five minutes, and no longer. */
  lemma ClaimProtects(c: Config, s0: State, es: seq<Event>, t: Token)
    requires Init(s0) && Possible(c, s0, es) && Enabled(c, Run(c, s0, es), Claim(t))
    ensures
      var s := Run(c, s0, es);
      var job := Step(c, s, Claim(t)).job;
      && job.status == Running && job.claimedBy == Some(t) && job.attempts == s.job.attempts + 1
      && forall now :: now >= s.now ==>
           (Claimable(job, now) <==> s.now + 300_000 < now && job.attempts < job.maxAttempts)
  {
  }

  /** The rebuild tool may reset a reindex job at any time, unless the document is deleted, and makes it new again. */
  lemma ResetReopens(c: Config, s: State)
    requires s.lock == None && s.job.maxAttempts > 0
    ensures Enabled(c, s, Reset) <==> c.operation == Reindex && s.document != DocumentDeleted
    ensures Enabled(c, s, Reset) ==>
      var after := Step(c, s, Reset);
      && after.job.attempts == 0 && after.job.claimedBy.None? && after.version == Pending
      && after.document == DocumentPending && forall now :: Claimable(after.job, now)
  {
  }

  /**
   A worker's heartbeat, at any time but during a transaction: an owner's keeps the job for
   another five minutes and changes nothing else. One that is refused, or that throws,
   changes nothing but that the worker's next assertion is refused, even if the token owns the job.
   */
  lemma HeartbeatMeans(c: Config, s: State, t: Token)
    requires Alive(s, t) && s.lock == None
    ensures Enabled(c, s, Heartbeat(t)) && Enabled(c, s, HeartbeatError(t))
    ensures Owns(s.job, t) ==> Step(c, s, Heartbeat(t)) == s.(job := s.job.(leaseUntil := Some(s.now + 300_000)))
    ensures !Owns(s.job, t) ==> Step(c, s, Heartbeat(t)) == Step(c, s, HeartbeatError(t))
    ensures
      var after := Step(c, s, HeartbeatError(t));
      && after == s.(workers := after.workers) && Alive(after, t)
      && (Enabled(c, after, Assert(t)) ==>
            Step(c, after, Assert(t)).job == s.job && !Alive(Step(c, after, Assert(t)), t))
  {
  }

  /**
   What an owner's failure leads to, in every run: after the last permitted attempt the job
   is dead-lettered and no claim ever takes it; before that it fails and can be claimed
   again exactly from five seconds on, doubled for every earlier attempt.
   */
  lemma FailureLeadsTo(c: Config, s0: State, es: seq<Event>, t: Token)
    requires Init(s0) && Possible(c, s0, es) && var s := Run(c, s0, es); Enabled(c, s, Fail(t)) && Owns(s.job, t)
    ensures
      var s := Run(c, s0, es);
      var job := Step(c, s, Fail(t)).job;
      && job.attempts == s.job.attempts > 0 && job.maxAttempts == s.job.maxAttempts
      && (s.job.attempts == s.job.maxAttempts ==>
            job.status == DeadLettered && forall now :: !Claimable(job, now))
      && (s.job.attempts < s.job.maxAttempts ==>
            && job.status == Failed
            && forall now :: Claimable(job, now) <==> s.now + 5_000 * Power2(s.job.attempts - 1) <= now)
  {
    hide Power2;
    RunInv(c, s0, es);
    RunSettled(c, s0, es);
  }

  /**
   A call of a worker can throw at any time, and its open transaction can fail to commit:
   no table and no row changes, the lock is free, and the worker goes on to record its failure.
   */
  lemma ThrownMeans(c: Config, s: State, t: Token)
    requires Inv(s) && Alive(s, t)
    ensures
      var e := if s.lock == Some(t) then Rollback(t) else Error(t);
      && Enabled(c, s, e)
      && var after := Step(c, s, e);
      && after == s.(lock := after.lock, workers := after.workers) && after.lock != Some(t)
      && Alive(after, t) && after.workers[t].stage == Failing
      && (s.lock == None ==> Enabled(c, after, Fail(t)))
  {
  }

  // ---------- The last write of an attempt ----------

  /** The attempt noticed its loss, its process died, or its token no longer owns the job. */
  ghost predicate Spent(s: State, t: Token) {
    t in s.workers && (s.workers[t].lost || !s.workers[t].alive || !Owns(s.job, t))
  }

  function Writes(es: seq<Event>, t: Token): nat {
    if es == [] then 0 else (if IsWrite(es[0]) && es[0].token == t then 1 else 0) + Writes(es[1..], t)
  }

  function Bit(b: bool): nat { if b then 1 else 0 }

  /** The writes that token `t`'s attempt can still make without another assertion. */
  function Unspent(s: State, t: Token): nat
    requires t in s.workers
  {
    Bit(s.workers[t].asserted.Some?) + Bit(s.workers[t].inFlight.Some?) + Bit(s.lock == Some(t))
  }

  /** An attempt past its writes holds no assertion. */
  ghost predicate Disarmed(s: State, t: Token) {
    t in s.workers && (s.workers[t].stage.Failing? || s.workers[t].stage.Finished?) ==> s.workers[t].asserted.None?
  }

  lemma StepDisarmed(c: Config, s: State, e: Event, t: Token)
    requires Inv(s) && Disarmed(s, t) && Enabled(c, s, e)
    ensures Disarmed(Step(c, s, e), t)
  {
    hide Inv, Disarmed, Step, Enabled;
    if IsWrite(e) { WriteDisarmed(c, s, e, t); } else { OtherDisarmed(c, s, e, t); }
  }

  lemma WriteDisarmed(c: Config, s: State, e: Event, t: Token)
    requires Inv(s) && Disarmed(s, t) && Enabled(c, s, e) && IsWrite(e)
    ensures Disarmed(Step(c, s, e), t)
  {
    hide Without, Keyed, StoreEffect;
  }

  lemma OtherDisarmed(c: Config, s: State, e: Event, t: Token)
    requires Inv(s) && Disarmed(s, t) && Enabled(c, s, e) && !IsWrite(e)
    ensures Disarmed(Step(c, s, e), t)
  {
    hide FailJob, Claimable, CommitStep, LandStep, ValidPlan;
  }

  lemma {:induction false} RunDisarmed(c: Config, s: State, es: seq<Event>, t: Token)
    requires Inv(s) && Disarmed(s, t) && Possible(c, s, es)
    ensures Disarmed(Run(c, s, es), t)
    decreases |es|
  {
    hide Inv, Disarmed, Step;
    if es != [] {
      StepInv(c, s, es[0]);
      StepDisarmed(c, s, es[0], t);
      RunDisarmed(c, Step(c, s, es[0]), es[1..], t);
    }
  }

  lemma SpentStep(c: Config, s: State, e: Event, t: Token)
    requires Inv(s) && Disarmed(s, t) && Spent(s, t) && Enabled(c, s, e)
    ensures var s' := Step(c, s, e);
      Spent(s', t) && Bit(IsWrite(e) && e.token == t) + Unspent(s', t) <= Unspent(s, t)
  {
    hide Inv, Disarmed, Step, Enabled, Unspent;
    if e.Commit? {
      SpentCommit(c, s, e, t);
    } else if IsWrite(e) {
      SpentLanding(c, s, e, t);
    } else {
      SpentStatement(c, s, e, t);
    }
  }

  lemma SpentCommit(c: Config, s: State, e: Event, t: Token)
    requires Inv(s) && Spent(s, t) && Enabled(c, s, e) && e.Commit?
    ensures var s' := Step(c, s, e);
      Spent(s', t) && Bit(e.token == t) + Unspent(s', t) <= Unspent(s, t)
  {
    hide Without, Keyed;
  }

  lemma SpentLanding(c: Config, s: State, e: Event, t: Token)
    requires Inv(s) && Disarmed(s, t) && Spent(s, t) && Enabled(c, s, e) && (e.Land? || e.LateLand?)
    ensures var s' := Step(c, s, e);
      Spent(s', t) && Bit(e.token == t) + Unspent(s', t) <= Unspent(s, t)
  {
    hide Without, Keyed, StoreEffect, AfterStore;
  }

  lemma SpentStatement(c: Config, s: State, e: Event, t: Token)
    requires Inv(s) && Disarmed(s, t) && Spent(s, t) && Enabled(c, s, e) && !IsWrite(e)
    ensures Spent(Step(c, s, e), t) && Unspent(Step(c, s, e), t) <= Unspent(s, t)
  {
    hide Without, Keyed, Power2, CommitStep, LandStep, ValidPlan, Claimable;
  }

  lemma {:induction false} SpentRun(c: Config, s: State, es: seq<Event>, t: Token)
    requires Inv(s) && Disarmed(s, t) && Spent(s, t) && Possible(c, s, es)
    ensures Writes(es, t) <= Unspent(s, t)
    decreases |es|
  {
    hide Inv, Disarmed, Spent, Unspent, Step;
    if es != [] {
      StepInv(c, s, es[0]);
      StepDisarmed(c, s, es[0], t);
      SpentStep(c, s, es[0], t);
      SpentRun(c, Step(c, s, es[0]), es[1..], t);
    }
  }

  /**
   Once an attempt noticed its loss, died, or was superseded, at most one more of its
   writes takes effect, whatever happens in between: the one its last assertion admitted.
   */
  lemma AtMostOneMoreWrite(c: Config, s: State, es: seq<Event>, more: seq<Event>, t: Token)
    requires Init(s) && Possible(c, s, es) && Spent(Run(c, s, es), t) && Possible(c, Run(c, s, es), more)
    ensures Writes(more, t) <= 1
  {
    hide Step, Possible;
    RunInv(c, s, es);
    RunDisarmed(c, s, es, t);
    SpentRun(c, Run(c, s, es), more, t);
  }

  /** A refused assertion or lock is the attempt's end: it never writes again. So is a success recorded by its owner. */
  lemma NoWriteAfterTheEnd(c: Config, s: State, es: seq<Event>, e: Event, more: seq<Event>, t: Token)
    requires Init(s) && Possible(c, s, es)
    requires var s' := Run(c, s, es);
      && Enabled(c, s', e) && Possible(c, Step(c, s', e), more)
      && ((e == Assert(t) && (s'.workers[t].lost || !Owns(s'.job, t))) || (e == Lock(t) && !Owns(s'.job, t))
          || e == Succeed(t))
    ensures Writes(more, t) == 0
  {
    hide Possible;
    RunInv(c, s, es);
    RunDisarmed(c, s, es, t);
    var s' := Run(c, s, es);
    StepInv(c, s', e);
    StepDisarmed(c, s', e, t);
    SpentRun(c, Step(c, s', e), more, t);
  }
}
