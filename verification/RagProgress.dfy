/**
 The machine of `RagMachine` is not empty: an owner that nobody disturbs finishes its job,
 so what holds after success holds of runs that exist, for every batch size.
 */
module RagProgress {
  import opened Prelude
  import opened RagLease
  import opened RagTables
  import opened RagMachine

  /** Token `t` owns the job, its worker is well, at `stage`, and knows the attempt's number; no transaction is open. */
  ghost predicate Ready(s: State, t: Token, stage: Stage) {
    && Alive(s, t) && s.workers[t].stage == stage && !s.workers[t].lost
    && s.workers[t].attempts == s.job.attempts > 0 && s.workers[t].maxAttempts == s.job.maxAttempts
    && s.lock.None? && Owns(s.job, t)
  }

  /** The stage after a store call or a transaction took effect. */
  function NextStage(c: Config, stage: Stage): Stage
    requires InStoreStage(stage) || InTransactionStage(stage)
  {
    match stage
    case StoreRows(plan) => ClearPoints(plan)
    case Publish(plan) => Finished(Some(plan))
    case PurgeRows => Finished(None)
    case _ => AfterStore(c, stage)
  }

  /** `t` can follow `s` without a reset, every store write landing while its token owns the job. */
  ghost predicate Reaches(c: Config, s: State, t: State) {
    exists es :: Connects(c, s, es, t)
  }

  ghost predicate Connects(c: Config, s: State, es: seq<Event>, t: State) {
    Possible(c, s, es) && Run(c, s, es) == t && NoReset(es) && OwnedLandings(c, s, es)
  }

  lemma {:induction false} RunOn(c: Config, s: State, es: seq<Event>, t: State, more: seq<Event>, u: State)
    requires Connects(c, s, es, t) && Connects(c, t, more, u)
    ensures Connects(c, s, es + more, u)
    decreases |es|
  {
    hide Step, Enabled, OwnedLanding;
    if es == [] {
      assert es + more == more;
    } else {
      RunOn(c, Step(c, s, es[0]), es[1..], t, more, u);
      assert (es + more)[0] == es[0] && (es + more)[1..] == es[1..] + more;
    }
  }

  lemma ReachesItself(c: Config, s: State)
    ensures Reaches(c, s, s)
  {
    assert Connects(c, s, [], s);
  }

  lemma ReachesStep(c: Config, s: State, t: State, e: Event)
    requires Reaches(c, s, t) && Enabled(c, t, e) && !e.Reset? && OwnedLanding(t, e)
    ensures Reaches(c, s, Step(c, t, e))
  {
    hide Step, Enabled, OwnedLanding;
    var es :| Connects(c, s, es, t);
    assert [e][1..] == [] && Connects(c, Step(c, t, e), [], Step(c, t, e));
    assert Connects(c, t, [e], Step(c, t, e));
    RunOn(c, s, es, t, [e], Step(c, t, e));
  }

  /** What every run keeps holds of whatever is reached. */
  lemma ReachedKeeps(c: Config, s: State, t: State)
    requires c.Valid() && Reaches(c, s, t) && Inv(s)
    ensures Inv(t)
    ensures Converging(c, s) ==> Converging(c, t)
  {
    hide Inv, Converging, Step, Enabled;
    var es :| Connects(c, s, es, t);
    RunInv(c, s, es);
    if Converging(c, s) { RunConverges(c, s, es); }
  }

  /** Only token `t`'s worker moved, and no time passed. */
  ghost predicate OnlyMoved(s: State, after: State, t: Token) {
    && after.now == s.now && after.job.attempts == s.job.attempts && after.job.maxAttempts == s.job.maxAttempts
    && after.workers.Keys == s.workers.Keys
    && forall u :: u in s.workers && u != t ==> after.workers[u] == s.workers[u]
  }

  /** An assertion and the store call or transaction it guards move the owner one stage on. */
  lemma OneStage(c: Config, s0: State, s: State, t: Token, stage: Stage) returns (after: State)
    requires Reaches(c, s0, s) && Ready(s, t, stage) && (InStoreStage(stage) || InTransactionStage(stage))
    ensures Reaches(c, s0, after) && Ready(after, t, NextStage(c, stage)) && OnlyMoved(s, after, t)
  {
    hide Reaches, Without, Keyed, StoreEffect;
    ReachesStep(c, s0, s, Assert(t));
    var asserted := Step(c, s, Assert(t));
    assert asserted.job == RenewJob(s.job, s.now) && Owns(asserted.job, t);
    if InStoreStage(stage) {
      ReachesStep(c, s0, asserted, Land(t));
      after := Step(c, asserted, Land(t));
    } else {
      ReachesStep(c, s0, asserted, Lock(t));
      var locked := Step(c, asserted, Lock(t));
      ReachesStep(c, s0, locked, Commit(t));
      after := Step(c, locked, Commit(t));
    }
  }

  /** The batched writes end, whatever the batch size. */
  lemma {:induction false} AllBatches(c: Config, s0: State, s: State, t: Token, stage: Stage) returns (after: State)
    requires c.Valid() && Reaches(c, s0, s) && Ready(s, t, stage)
    requires stage.WritePoints? && stage.written < |stage.plan.vectors|
    ensures Reaches(c, s0, after) && Ready(after, t, Publish(stage.plan)) && OnlyMoved(s, after, t)
    decreases |stage.plan.vectors| - stage.written
  {
    hide Reaches, Ready;
    after := OneStage(c, s0, s, t, stage);
    var next := NextStage(c, stage);
    if next.WritePoints? { after := AllBatches(c, s0, after, t, next); }
  }

  lemma Prepares(c: Config, s0: State, s: State, t: Token, plan: Plan) returns (after: State)
    requires Reaches(c, s0, s) && Ready(s, t, Preparing) && ValidPlan(plan) && CanPrepare(c)
    ensures Reaches(c, s0, after) && after == s.(workers := after.workers) && OnlyMoved(s, after, t)
    ensures Ready(after, t,
      if !c.operation.Delete? then StoreRows(plan) else if c.documentExists then PurgePoints else Finished(None))
  {
    hide Reaches;
    ReachesStep(c, s0, s, Prepare(t, plan));
    after := Step(c, s, Prepare(t, plan));
  }

  lemma Finish(c: Config, s0: State, s: State, t: Token, result: Option<Plan>) returns (after: State)
    requires Reaches(c, s0, s) && Ready(s, t, Finished(result))
    ensures Reaches(c, s0, after) && after.job.status == Succeeded && after.completedBy == Some(t)
    ensures OnlyMoved(s, after, t) && t in after.workers && after.workers[t].stage == Finished(result)
  {
    hide Reaches;
    ReachesStep(c, s0, s, Succeed(t));
    after := Step(c, s, Succeed(t));
  }

  /** From its claim on, an undisturbed ingest or purge can run to success, for any chunks and any batch size. */
  lemma UndisturbedAttemptSucceeds(c: Config, s: State, t: Token, plan: Plan) returns (after: State)
    requires c.Valid() && CanPrepare(c) && Ready(s, t, Preparing) && ValidPlan(plan)
    ensures Reaches(c, s, after) && after.job.status == Succeeded && after.completedBy == Some(t)
    ensures OnlyMoved(s, after, t) && t in after.workers
    ensures after.workers[t].stage == Finished(if c.operation.Delete? then None else Some(plan))
  {
    hide Reaches, Ready;
    ReachesItself(c, s);
    after := Prepares(c, s, s, t, plan);
    if c.operation.Delete? {
      if c.documentExists {
        after := OneStage(c, s, after, t, PurgePoints);
        after := OneStage(c, s, after, t, PurgeRows);
      }
      after := Finish(c, s, after, t, None);
    } else {
      after := OneStage(c, s, after, t, StoreRows(plan));
      after := OneStage(c, s, after, t, ClearPoints(plan));
      after := AllBatches(c, s, after, t, WritePoints(plan, 0));
      after := OneStage(c, s, after, t, Publish(plan));
      after := Finish(c, s, after, t, Some(plan));
    }
  }
}
