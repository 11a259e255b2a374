/**
 What the lease does not provide, with runs that show it: store writes outside the fence,
 and jobs whose last attempt died.
 */
module RagHazards {
  import opened Prelude
  import opened RagLease
  import opened RagTables
  import opened RagMachine
  import opened RagProgress

  // ---------- Attempts of a run ----------

  lemma {:induction false} FreshToken(issued: set<Token>) returns (t: Token)
    ensures forall u :: u in issued ==> u < t
    decreases |issued|
  {
    if issued == {} { return 0; }
    var u := PickMember(issued);
    var rest := FreshToken(issued - {u});
    t := if u < rest then rest else u + 1;
    assert forall v :: v in issued ==> v == u || v in issued - {u};
  }

  /** Some fresh token can claim a claimable job. */
  lemma ClaimedAnew(c: Config, s0: State, s: State) returns (after: State, t: Token)
    requires Reaches(c, s0, s) && s.lock.None? && Claimable(s.job, s.now)
    ensures t !in s.workers && Reaches(c, s0, after) && Ready(after, t, Preparing)
    ensures after == s.(job := ClaimJob(s.job, t, s.now), workers := after.workers)
    ensures after.workers.Keys == s.workers.Keys + {t}
    ensures forall u :: u in s.workers ==> after.workers[u] == s.workers[u]
  {
    hide Reaches;
    t := FreshToken(s.workers.Keys);
    ReachesStep(c, s0, s, Claim(t));
    after := Step(c, s, Claim(t));
  }

  // ---------- Store writes outside the fence ----------

  /** A store write changes the points, whoever makes it, unless they are already what it would leave. */
  lemma StoreWritesAreNotFenced(c: Config, points: map<ChunkId, Vector>, stage: Stage)
    requires stage.ClearPoints? || (stage.WritePoints? && stage.written <= |stage.plan.vectors|)
    ensures stage.ClearPoints? ==> (StoreEffect(c, points, stage) == points <==> Of(points, c.version) == map[])
    ensures stage.WritePoints? ==>
      (StoreEffect(c, points, stage) == points <==>
       forall i :: stage.written <= i < Min(stage.written + c.batchSize, |stage.plan.vectors|) ==>
         ChunkId(c.version, i) in points && points[ChunkId(c.version, i)] == stage.plan.vectors[i])
  {
    if stage.ClearPoints? {
      ClearChanges(c, points);
    } else {
      WriteChanges(c, points, stage.plan.vectors, stage.written,
          Min(stage.written + c.batchSize, |stage.plan.vectors|));
    }
  }

  lemma ClearChanges(c: Config, points: map<ChunkId, Vector>)
    ensures Without(points, {c.version}) == points <==> Of(points, c.version) == map[]
  {
    var cleared := Without(points, {c.version});
    if id :| id in Of(points, c.version) {
      assert id in points && id !in cleared;
    }
    if Of(points, c.version) == map[] {
      assert forall id :: id in points ==> id !in Of(points, c.version);
      assert cleared == points;
    }
  }

  lemma WriteChanges(c: Config, points: map<ChunkId, Vector>, vectors: seq<Vector>, n: nat, k: nat)
    requires n <= k <= |vectors|
    ensures points + Keyed(c.version, vectors, n, k) == points <==>
      forall i :: n <= i < k ==> ChunkId(c.version, i) in points && points[ChunkId(c.version, i)] == vectors[i]
  {
    hide Keyed;
    KeyedOf(c.version, vectors, n, k);
    var batch := Keyed(c.version, vectors, n, k);
    var after := points + batch;
    if after == points {
      forall i | n <= i < k
        ensures ChunkId(c.version, i) in points && points[ChunkId(c.version, i)] == vectors[i]
      {
        assert ChunkId(c.version, i) in batch && after[ChunkId(c.version, i)] == vectors[i];
      }
    }
    if forall i :: n <= i < k ==> ChunkId(c.version, i) in points && points[ChunkId(c.version, i)] == vectors[i] {
      forall id | id in batch
        ensures id in points && points[id] == batch[id]
      {
        assert id == ChunkId(c.version, id.sequence);
      }
      assert after == points;
    }
  }

  /**
   The attempt's store call at `stage` throws and stays in flight; the worker fails the
   job, and its retry comes due.
   */
  lemma ThrowsAndFails(c: Config, s0: State, s: State, t: Token, stage: Stage) returns (after: State)
    requires Reaches(c, s0, s) && Ready(s, t, stage) && InStoreStage(stage)
    requires s.job.attempts == 1 && s.job.maxAttempts >= 2
    ensures Reaches(c, s0, after) && after.now == s.now + 5_000
    ensures after.lock.None? && Claimable(after.job, after.now) && after.workers.Keys == s.workers.Keys
    ensures after.workers[t].inFlight == Some(Write(stage, s.now))
  {
    hide Reaches, StoreEffect, Claimable, FailJob;
    after := Throws(c, s0, s, t, stage);
    ReachesStep(c, s0, after, Fail(t));
    FirstFailure(after.job, after.now);
    after := Step(c, after, Fail(t));
    ReachesStep(c, s0, after, Tick(s.now + 5_000));
    after := Step(c, after, Tick(s.now + 5_000));
  }

  lemma Throws(c: Config, s0: State, s: State, t: Token, stage: Stage) returns (after: State)
    requires Reaches(c, s0, s) && Ready(s, t, stage) && InStoreStage(stage)
    ensures Reaches(c, s0, after) && Ready(after, t, Failing) && OnlyMoved(s, after, t)
    ensures after.workers[t].inFlight == Some(Write(stage, s.now))
  {
    hide Reaches, StoreEffect;
    ReachesStep(c, s0, s, Assert(t));
    after := Step(c, s, Assert(t));
    ReachesStep(c, s0, after, Event.Error(t));
    after := Step(c, after, Event.Error(t));
  }

  /** A first failure with attempts left is due again after five seconds. */
  lemma FirstFailure(job: Job, now: Time)
    requires job.attempts == 1 && job.maxAttempts >= 2
    ensures Claimable(FailJob(job, 1, job.maxAttempts, now), now + 5_000)
  {
    assert Power2(0) == 1;
  }

  /** A first attempt that stops so at its clearing or at its first write. */
  lemma FirstAttempt(c: Config, s: State, plan: Plan, writing: bool) returns (after: State, t: Token)
    requires c.Valid() && c.documentExists && !c.operation.Delete? && ValidPlan(plan)
    requires Init(s) && s.job.maxAttempts >= 2 && (s.job.nextRetryAt.None? || s.job.nextRetryAt.value <= s.now)
    ensures Reaches(c, s, after) && after.now == s.now + 5_000 && after.lock.None? && Claimable(after.job, after.now)
    ensures t in after.workers
    ensures after.workers[t].inFlight == Some(Write(if writing then WritePoints(plan, 0) else ClearPoints(plan), s.now))
  {
    hide Reaches, ClaimJob;
    ReachesItself(c, s);
    after, t := ClaimedAnew(c, s, s);
    assert after.job.attempts == 1 && after.job.maxAttempts == s.job.maxAttempts by { ClaimCounts(s.job, t, s.now); }
    after := Prepares(c, s, after, t, plan);
    after := OneStage(c, s, after, t, StoreRows(plan));
    if writing { after := OneStage(c, s, after, t, ClearPoints(plan)); }
    after := ThrowsAndFails(c, s, after, t, if writing then WritePoints(plan, 0) else ClearPoints(plan));
  }

  lemma ClaimCounts(job: Job, t: Token, now: Time)
    ensures ClaimJob(job, t, now).attempts == job.attempts + 1 && ClaimJob(job, t, now).maxAttempts == job.maxAttempts
  {
  }

  /**
   The timed exclusion cannot do without its condition. From every new job with a retry
   left there is a run in which the first attempt's store call throws and the worker fails
   the job, a second attempt publishes its own plan, and then the first call lands, five
   seconds after its assertion: a late write puts its old vector over a published point,
   and a late clearing removes all of them, for any two plans.
   */
  lemma LateWriteAfterFail(c: Config, s: State, late: Plan, published: Plan, writing: bool)
    returns (done: State, t: Token)
    requires c.Valid() && c.documentExists && !c.operation.Delete? && ValidPlan(late) && ValidPlan(published)
    requires Init(s) && s.job.maxAttempts >= 2 && (s.job.nextRetryAt.None? || s.job.nextRetryAt.value <= s.now)
    ensures Reaches(c, s, done) && done.job.status == Succeeded && Converged(c, done)
    ensures Enabled(c, done, LateLand(t)) && InTime(done, LateLand(t)) && !Owns(done.job, t)
    ensures
      var points := Of(Step(c, done, LateLand(t)).points, c.version);
      if writing then
        ChunkId(c.version, 0) in points && points[ChunkId(c.version, 0)] == late.vectors[0]
      else points == map[]
    ensures done.completedBy.Some? && done.completedBy.value in done.workers
    ensures done.workers[done.completedBy.value].stage == Finished(Some(published))
    ensures writing ==> late.vectors[0] != published.vectors[0] ==> !Converged(c, Step(c, done, LateLand(t)))
    ensures !writing ==> !Converged(c, Step(c, done, LateLand(t)))
  {
    hide Reaches, Converging, Inv;
    var failed;
    failed, t := FirstAttempt(c, s, late, writing);
    var claimed, u := ClaimedAnew(c, s, failed);
    done := UndisturbedAttemptSucceeds(c, claimed, u, published);
    ReachesOn(c, s, claimed, done);
    InitKeeps(c, s);
    ReachedKeeps(c, s, done);
    DoneConverged(c, done);
    assert done.workers[t].inFlight == failed.workers[t].inFlight;
    LateEffect(c, done, t, late, published, writing);
  }

  lemma ReachesOn(c: Config, s: State, t: State, u: State)
    requires Reaches(c, s, t) && Reaches(c, t, u)
    ensures Reaches(c, s, u)
  {
    hide Connects;
    var es :| Connects(c, s, es, t);
    var more :| Connects(c, t, more, u);
    RunOn(c, s, es, t, more, u);
  }

  lemma InitKeeps(c: Config, s: State)
    requires Init(s)
    ensures Inv(s) && Converging(c, s)
  {
  }

  lemma DoneConverged(c: Config, s: State)
    requires Inv(s) && Converging(c, s) && s.job.status == Succeeded
    ensures Converged(c, s)
  {
    hide Keyed, Without, Of;
    var stage := s.workers[s.completedBy.value].stage;
    if stage.result.Some? {
      KeyedOf(c.version, stage.result.value.chunks, 0, |stage.result.value.chunks|);
      KeyedOf(c.version, stage.result.value.vectors, 0, |stage.result.value.vectors|);
    }
  }

  lemma LateEffect(c: Config, s: State, t: Token, late: Plan, published: Plan, writing: bool)
    requires c.Valid() && ValidPlan(late) && ValidPlan(published) && t in s.workers
    requires Converged(c, s) && s.workers[s.completedBy.value].stage == Finished(Some(published))
    requires s.workers[t].inFlight.Some?
    requires s.workers[t].inFlight.value.stage == if writing then WritePoints(late, 0) else ClearPoints(late)
    ensures
      var points := Of(Step(c, s, LateLand(t)).points, c.version);
      if writing then
        ChunkId(c.version, 0) in points && points[ChunkId(c.version, 0)] == late.vectors[0]
      else points == map[]
    ensures writing ==> late.vectors[0] != published.vectors[0] ==> !Converged(c, Step(c, s, LateLand(t)))
    ensures !writing ==> !Converged(c, Step(c, s, LateLand(t)))
  {
    hide Keyed, Without;
    var after := Step(c, s, LateLand(t));
    assert after.workers[s.completedBy.value].stage == Finished(Some(published));
    KeyedOf(c.version, published.vectors, 0, |published.vectors|);
    assert ChunkId(c.version, 0) in Keyed(c.version, published.vectors, 0, |published.vectors|);
    if writing {
      KeyedOf(c.version, late.vectors, 0, Min(c.batchSize, |late.vectors|));
      assert ChunkId(c.version, 0) in Keyed(c.version, late.vectors, 0, Min(c.batchSize, |late.vectors|));
    } else {
      ClearVersion(s.points, c.version);
    }
  }

  // ---------- Jobs whose worker died ----------

  /** A running job has a lease, and no retry time still to come. */
  predicate Leased(s: State) {
    s.job.status == Running ==>
      s.job.leaseUntil.Some? && (s.job.nextRetryAt.None? || s.job.nextRetryAt.value <= s.now)
  }

  lemma StepLeased(c: Config, s: State, e: Event)
    requires Leased(s) && Enabled(c, s, e)
    ensures Leased(Step(c, s, e))
  {
    hide Without, Keyed, StoreEffect, Power2;
  }

  lemma {:induction false} RunLeased(c: Config, s: State, es: seq<Event>)
    requires Leased(s) && Possible(c, s, es)
    ensures Leased(Run(c, s, es))
    decreases |es|
  {
    hide Step, Leased;
    if es != [] {
      StepLeased(c, s, es[0]);
      RunLeased(c, Step(c, s, es[0]), es[1..]);
    }
  }

  /** The job is running and its owner's worker is gone. */
  ghost predicate OwnerDead(s: State) {
    && s.job.status == Running
    && s.job.claimedBy.Some? && s.job.claimedBy.value in s.workers && !s.workers[s.job.claimedBy.value].alive
  }

  /** Its last permitted attempt was running. */
  ghost predicate Stranded(s: State) {
    OwnerDead(s) && s.job.attempts >= s.job.maxAttempts && s.lock.None?
  }

  /** Some run without a reset changes the job's row. */
  ghost predicate CanMoveOn(c: Config, s: State) {
    exists es :: Possible(c, s, es) && NoReset(es) && Run(c, s, es).job != s.job
  }

  /**
   A job whose worker dies on the last permitted attempt stays `running` for ever: no
   event but a reset by the rebuild tool changes its row, however far the lease has expired.
   */
  lemma {:induction false} StrandedForever(c: Config, s: State, es: seq<Event>)
    requires Inv(s) && Stranded(s) && Possible(c, s, es) && NoReset(es)
    ensures Stranded(Run(c, s, es)) && Run(c, s, es).job == s.job
    decreases |es|
  {
    if es != [] {
      StepInv(c, s, es[0]);
      StrandedStep(c, s, es[0]);
      hide Step, Stranded, Inv;
      StrandedForever(c, Step(c, s, es[0]), es[1..]);
    }
  }

  lemma StrandedStep(c: Config, s: State, e: Event)
    requires Inv(s) && Stranded(s) && Enabled(c, s, e) && !e.Reset?
    ensures Stranded(Step(c, s, e)) && Step(c, s, e).job == s.job
  {
    hide Without, Keyed, StoreEffect;
  }

  /** A dead owner's job with an attempt left is claimed once its lease has expired. */
  lemma ReclaimedLater(c: Config, s: State)
    requires Inv(s) && Leased(s) && OwnerDead(s) && s.job.attempts < s.job.maxAttempts
    ensures CanMoveOn(c, s)
  {
    hide Inv;
    assert s.lock.None? by { DeadHoldsNoLock(s); }
    var later := if s.job.leaseUntil.value < s.now then s.now else s.job.leaseUntil.value + 1;
    ReachesItself(c, s);
    ReachesStep(c, s, s, Tick(later));
    var waited := Step(c, s, Tick(later));
    var after, t := ClaimedAnew(c, s, waited);
    var es :| Connects(c, s, es, after);
  }

  lemma DeadHoldsNoLock(s: State)
    requires Inv(s) && OwnerDead(s)
    ensures s.lock.None?
  {
  }

  /**
   Exactly which dead jobs move on: in every reachable state whose owner is gone, some run
   without a reset changes the job's row if and only if an attempt is left.
   */
  lemma DeadJobsMoveOn(c: Config, s0: State, es: seq<Event>)
    requires Init(s0) && Possible(c, s0, es) && OwnerDead(Run(c, s0, es))
    ensures var s := Run(c, s0, es); CanMoveOn(c, s) <==> s.job.attempts < s.job.maxAttempts
  {
    hide Step;
    var s := Run(c, s0, es);
    RunInv(c, s0, es);
    RunLeased(c, s0, es);
    if s.job.attempts < s.job.maxAttempts {
      ReclaimedLater(c, s);
    } else {
      DeadHoldsNoLock(s);
      if more :| Possible(c, s, more) && NoReset(more) && Run(c, s, more).job != s.job {
        StrandedForever(c, s, more);
      }
    }
  }

  /** Such a job comes about from every new one: each permitted attempt is claimed and dies. */
  lemma EveryJobCanStrand(c: Config, s: State) returns (after: State)
    requires Init(s) && s.job.maxAttempts >= 1 && (s.job.nextRetryAt.None? || s.job.nextRetryAt.value <= s.now)
    ensures Reaches(c, s, after) && Stranded(after)
  {
    hide Reaches;
    ReachesItself(c, s);
    after := DiesUntilStranded(c, s, s);
  }

  lemma {:induction false} DiesUntilStranded(c: Config, s0: State, s: State) returns (after: State)
    requires Reaches(c, s0, s) && s.lock.None? && Claimable(s.job, s.now)
    ensures Reaches(c, s0, after) && Stranded(after)
    decreases s.job.maxAttempts - s.job.attempts
  {
    hide Reaches;
    var claimed, t := ClaimedAnew(c, s0, s);
    ReachesStep(c, s0, claimed, Crash(t));
    after := Step(c, claimed, Crash(t));
    if after.job.attempts < after.job.maxAttempts {
      var later := after.job.leaseUntil.value + 1;
      ReachesStep(c, s0, after, Tick(later));
      after := DiesUntilStranded(c, s0, Step(c, after, Tick(later)));
    }
  }
}
