/**
 All workers of one RAG job, interleaved.

 Each event is one database statement, one transaction boundary, one store call landing,
 one crash, or the passing of time. Workers that lost their lease keep running until an
 assertion or a guarded update tells them so. A store call may land after its worker
 crashed, and also after it threw: the client gives up on a request, the server need not.
 A transaction that locks the job row is two events, `Lock` and `Commit`, with
 everything else free to happen in between.
 */
module RagMachine {
  import opened Prelude
  import opened Chunking
  import opened RagLease
  import opened RagTables

  datatype Operation = Ingest | Reindex | Delete

  /** What does not change: the job's operation, its version, the document and its versions, the write batch size. */
  datatype Config = Config(
    operation: Operation, version: Version, documentExists: bool, documentVersions: set<Version>, batchSize: nat,
    /** pgvector's foreign key deletes the points of deleted chunk rows; other stores do not. */
    cascade: bool)
  {
    ghost predicate Valid() {
      version in documentVersions && batchSize > 0
    }
  }

  /** What one attempt computed before it touched the tables: numbered chunks and their embeddings. */
  datatype Plan = Plan(chunks: seq<Chunk>, vectors: seq<Vector>)

  predicate ValidPlan(p: Plan) {
    |p.chunks| == |p.vectors| > 0
  }

  /** Where a worker is in `ingest`, `purge` or `tick`. */
  datatype Stage =
    | Preparing
    | StoreRows(plan: Plan)
    | ClearPoints(plan: Plan)
    | WritePoints(plan: Plan, written: nat)
    | Publish(plan: Plan)
    | PurgePoints
    | PurgeRows
    | Finished(result: Option<Plan>)
    | Failing

  /** A store call that threw and may still take effect: the stage it was made at, and when its lease was asserted. */
  datatype Write = Write(stage: Stage, asserted: Time)

  /**
   A claim token's worker. `asserted` is the time of the last successful `lease.assert`
   not yet used up by the step it guards. `gaveUp` records that the worker wrote its own
   end of the job, by `fail` or `succeed`.
   */
  datatype Worker = Worker(
    stage: Stage, attempts: nat, maxAttempts: nat, asserted: Option<Time>, inFlight: Option<Write>, lost: bool,
    alive: bool, gaveUp: bool)

  datatype State = State(
    job: Job, now: Time, lock: Option<Token>, workers: map<Token, Worker>,
    rows: map<ChunkId, Chunk>, points: map<ChunkId, Vector>,
    version: Indexing, document: DocumentStatus,
    /** History: the token whose `succeed` was accepted. */
    completedBy: Option<Token>)

  datatype Event =
    | Claim(token: Token)
    | Assert(token: Token)
    | Heartbeat(token: Token)
    | HeartbeatError(token: Token)
    | Prepare(token: Token, plan: Plan)
    | Lock(token: Token)
    | Commit(token: Token)
    | Rollback(token: Token)
    | Land(token: Token)
    | LateLand(token: Token)
    | Error(token: Token)
    | Fail(token: Token)
    | Succeed(token: Token)
    | Crash(token: Token)
    | Reset
    | Tick(to: Time)

  /** An ingest of a document that is gone throws; a purge of one does not. */
  predicate CanPrepare(c: Config) {
    c.documentExists || c.operation.Delete?
  }

  /** Events that change the tables. */
  predicate IsWrite(e: Event) {
    e.Commit? || e.Land? || e.LateLand?
  }

  predicate Alive(s: State, t: Token) {
    t in s.workers && s.workers[t].alive
  }

  predicate InTransactionStage(stage: Stage) {
    stage.StoreRows? || stage.Publish? || stage.PurgeRows?
  }

  predicate InStoreStage(stage: Stage) {
    stage.ClearPoints? || stage.WritePoints? || stage.PurgePoints?
  }

  /**
   When an event can happen. Statements that update the job row wait for its lock;
   the claim skips a locked row, which comes to the same.
   */
  predicate Enabled(c: Config, s: State, e: Event) {
    match e
    case Claim(t) => t !in s.workers && s.lock.None? && Claimable(s.job, s.now)
    case Assert(t) => Alive(s, t) && s.lock.None? && !s.workers[t].stage.Failing? && !s.workers[t].stage.Finished?
    case Heartbeat(t) => Alive(s, t) && s.lock.None?
    case HeartbeatError(t) => Alive(s, t)
    case Prepare(t, plan) =>
      Alive(s, t) && s.workers[t].stage.Preparing? && ValidPlan(plan) && CanPrepare(c)
    case Lock(t) => Alive(s, t) && s.lock.None? && InTransactionStage(s.workers[t].stage) && s.workers[t].asserted.Some?
    case Commit(t) => s.lock == Some(t) && t in s.workers
    case Rollback(t) => s.lock == Some(t) && t in s.workers
    case Land(t) => t in s.workers && InStoreStage(s.workers[t].stage) && s.workers[t].asserted.Some?
    case LateLand(t) => t in s.workers && s.workers[t].inFlight.Some?
    case Error(t) => Alive(s, t) && s.lock != Some(t)
    case Fail(t) => Alive(s, t) && s.lock.None? && s.workers[t].stage.Failing? && s.workers[t].attempts > 0
    case Succeed(t) => Alive(s, t) && s.lock.None? && s.workers[t].stage.Finished?
    case Crash(t) => Alive(s, t)
    case Reset => c.operation.Reindex? && s.lock.None? && !s.document.DocumentDeleted?
    case Tick(to) => s.now <= to
  }

  /** A worker that stops: no longer asserted, no longer running. */
  function Stopped(w: Worker): Worker {
    w.(asserted := None, alive := false)
  }

  /** A worker whose current call threw: a store call stays in flight. */
  function Thrown(w: Worker): Worker {
    var inFlight :=
      if InStoreStage(w.stage) && w.asserted.Some? then Some(Write(w.stage, w.asserted.value)) else w.inFlight;
    w.(stage := Failing, asserted := None, inFlight := inFlight)
  }

  function CommitStep(c: Config, s: State, t: Token): State
    requires t in s.workers
  {
    var w := s.workers[t];
    var s := s.(lock := None);
    match w.stage
    case StoreRows(plan) =>
      s.(rows := Without(s.rows, {c.version}) + Keyed(c.version, plan.chunks, 0, |plan.chunks|),
         points := if c.cascade then Without(s.points, {c.version}) else s.points,
         workers := s.workers[t := w.(stage := ClearPoints(plan))])
    case Publish(plan) =>
      s.(version := Indexed(|plan.chunks|), document := DocumentIndexed,
         workers := s.workers[t := w.(stage := Finished(Some(plan)))])
    case PurgeRows =>
      s.(rows := Without(s.rows, c.documentVersions),
         points := if c.cascade then Without(s.points, c.documentVersions) else s.points,
         version := Superseded, document := DocumentDeleted,
         workers := s.workers[t := w.(stage := Finished(None))])
    case _ => s
  }

  function Min(a: nat, b: nat): nat { if a <= b then a else b }

  /** What the store call of a stage makes of the points. */
  function StoreEffect(c: Config, points: map<ChunkId, Vector>, stage: Stage): map<ChunkId, Vector> {
    match stage
    case ClearPoints(_) => Without(points, {c.version})
    case WritePoints(plan, n) =>
      if n <= |plan.vectors| then
        points + Keyed(c.version, plan.vectors, n, Min(n + c.batchSize, |plan.vectors|))
      else points
    case PurgePoints => Without(points, c.documentVersions)
    case _ => points
  }

  /** The stage after that call answered. */
  function AfterStore(c: Config, stage: Stage): Stage {
    match stage
    case ClearPoints(plan) => WritePoints(plan, 0)
    case WritePoints(plan, n) =>
      if n + c.batchSize < |plan.vectors| then WritePoints(plan, n + c.batchSize) else Publish(plan)
    case PurgePoints => PurgeRows
    case _ => stage
  }

  function LandStep(c: Config, s: State, t: Token): State
    requires t in s.workers
  {
    var w := s.workers[t];
    s.(points := StoreEffect(c, s.points, w.stage),
       workers := s.workers[t := w.(asserted := None, stage := AfterStore(c, w.stage))])
  }

  function Step(c: Config, s: State, e: Event): State
    requires Enabled(c, s, e)
  {
    match e
    case Claim(t) =>
      var job := ClaimJob(s.job, t, s.now);
      s.(job := job,
         workers := s.workers[t := Worker(Preparing, job.attempts, job.maxAttempts, None, None, false, true, false)])
    case Assert(t) =>
      var w := s.workers[t];
      if !w.lost && Owns(s.job, t)
      then s.(job := RenewJob(s.job, s.now), workers := s.workers[t := w.(asserted := Some(s.now))])
      else s.(workers := s.workers[t := Stopped(w)])
    case Heartbeat(t) =>
      if Owns(s.job, t) then s.(job := RenewJob(s.job, s.now))
      else s.(workers := s.workers[t := s.workers[t].(lost := true)])
    case HeartbeatError(t) => s.(workers := s.workers[t := s.workers[t].(lost := true)])
    case Prepare(t, plan) =>
      // A purge of a document that is gone already returns at once.
      var stage :=
        if !c.operation.Delete? then StoreRows(plan) else if c.documentExists then PurgePoints else Finished(None);
      s.(workers := s.workers[t := s.workers[t].(stage := stage, asserted := None)])
    case Lock(t) =>
      if Owns(s.job, t)
      then s.(lock := Some(t), workers := s.workers[t := s.workers[t].(asserted := None)])
      else s.(workers := s.workers[t := Stopped(s.workers[t])])
    case Commit(t) => CommitStep(c, s, t)
    case Rollback(t) => s.(lock := None, workers := s.workers[t := s.workers[t].(stage := Failing)])
    case Land(t) => LandStep(c, s, t)
    case LateLand(t) =>
      var w := s.workers[t];
      s.(points := StoreEffect(c, s.points, w.inFlight.value.stage), workers := s.workers[t := w.(inFlight := None)])
    case Error(t) => s.(workers := s.workers[t := Thrown(s.workers[t])])
    case Fail(t) =>
      var w := s.workers[t];
      var s := s.(workers := s.workers[t := Stopped(w).(gaveUp := true)]);
      if Owns(s.job, t)
      then s.(job := FailJob(s.job, w.attempts, w.maxAttempts, s.now),
              version := if c.operation.Delete? then s.version else IndexingFailed,
              document := if s.document.DocumentDeleted? then s.document else DocumentFailed)
      else s
    case Succeed(t) =>
      var s := s.(workers := s.workers[t := Stopped(s.workers[t]).(gaveUp := true)]);
      if Owns(s.job, t) then s.(job := SucceedJob(s.job), completedBy := Some(t)) else s
    case Crash(t) =>
      s.(lock := if s.lock == Some(t) then None else s.lock, workers := s.workers[t := s.workers[t].(alive := false)])
    case Reset => s.(job := ResetJob(s.job), version := Pending, document := DocumentPending)
    case Tick(to) => s.(now := to)
  }

  // ---------- Runs ----------

  predicate Possible(c: Config, s: State, es: seq<Event>)
    decreases |es|
  {
    es == [] || (Enabled(c, s, es[0]) && Possible(c, Step(c, s, es[0]), es[1..]))
  }

  function Run(c: Config, s: State, es: seq<Event>): State
    requires Possible(c, s, es)
    decreases |es|
  {
    if es == [] then s else Run(c, Step(c, s, es[0]), es[1..])
  }

  /** The job as `create` inserts it, and arbitrary tables left by whatever came before. */
  ghost predicate Init(s: State) {
    && s.job.status == Queued && s.job.attempts == 0 && s.job.claimedBy.None? && s.job.leaseUntil.None?
    && s.lock.None? && s.workers == map[] && s.completedBy.None?
  }

  // ---------- The invariant of every run ----------

  ghost predicate Inv(s: State) {
    && (s.job.claimedBy.Some? <==> s.job.status == Running)
    && (s.job.claimedBy.Some? ==> s.job.claimedBy.value in s.workers)
    && (s.lock.Some? ==>
          var t := s.lock.value;
          Owns(s.job, t) && Alive(s, t) && InTransactionStage(s.workers[t].stage) && s.workers[t].asserted.None?)
    && (forall t :: t in s.workers ==>
          s.workers[t].attempts > 0 && (s.workers[t].inFlight.Some? ==> s.workers[t].stage.Failing?))
  }

  lemma StepInv(c: Config, s: State, e: Event)
    requires Inv(s) && Enabled(c, s, e)
    ensures Inv(Step(c, s, e))
  {
    hide Inv, Step, Enabled;
    if IsWrite(e) || e.Tick? || e.Reset? || e.Rollback? || e.Crash? {
      StepInvWrite(c, s, e);
    } else {
      StepInvStatement(c, s, e);
    }
  }

  lemma StepInvWrite(c: Config, s: State, e: Event)
    requires Inv(s) && Enabled(c, s, e)
    requires IsWrite(e) || e.Tick? || e.Reset? || e.Rollback? || e.Crash?
    ensures Inv(Step(c, s, e))
  {
    hide Without, Keyed, Power2, Min, ValidPlan, Inv;
    if IsWrite(e) { WriteInv(c, s, e); } else { OtherWriteInv(c, s, e); }
  }

  lemma WriteInv(c: Config, s: State, e: Event)
    requires Inv(s) && Enabled(c, s, e) && IsWrite(e)
    ensures Inv(Step(c, s, e))
  {
    hide StoreEffect, AfterStore, Inv, CommitStep;
    if e.Commit? { CommitInv(c, s, e.token); } else { LandInv(c, s, e); }
  }

  lemma CommitInv(c: Config, s: State, t: Token)
    requires Inv(s) && s.lock == Some(t) && t in s.workers
    ensures Inv(CommitStep(c, s, t))
  {
    hide Without, Keyed;
  }

  lemma LandInv(c: Config, s: State, e: Event)
    requires Inv(s) && Enabled(c, s, e) && (e.Land? || e.LateLand?)
    ensures Inv(Step(c, s, e))
  {
    hide Without, Keyed, StoreEffect, AfterStore;
  }

  lemma OtherWriteInv(c: Config, s: State, e: Event)
    requires Inv(s) && Enabled(c, s, e) && (e.Tick? || e.Reset? || e.Rollback? || e.Crash?)
    ensures Inv(Step(c, s, e))
  {
    hide Without, Keyed, Power2, Min, ValidPlan, StoreEffect, AfterStore;
  }

  lemma StepInvStatement(c: Config, s: State, e: Event)
    requires Inv(s) && Enabled(c, s, e)
    requires !(IsWrite(e) || e.Tick? || e.Reset? || e.Rollback? || e.Crash?)
    ensures Inv(Step(c, s, e))
  {
    hide Inv, Step, Enabled;
    if IsLeaseEvent(e) { LeaseEventInv(c, s, e); } else { WorkEventInv(c, s, e); }
  }

  /** Statements about the lease and the row lock. */
  predicate IsLeaseEvent(e: Event) {
    e.Claim? || e.Assert? || e.Heartbeat? || e.HeartbeatError? || e.Lock?
  }

  lemma LeaseEventInv(c: Config, s: State, e: Event)
    requires Inv(s) && Enabled(c, s, e) && IsLeaseEvent(e)
    ensures Inv(Step(c, s, e))
  {
    hide Without, Keyed, Power2, Min, ValidPlan, StoreEffect, AfterStore;
  }

  lemma WorkEventInv(c: Config, s: State, e: Event)
    requires Inv(s) && Enabled(c, s, e) && (e.Prepare? || e.Error? || e.Fail? || e.Succeed?)
    ensures Inv(Step(c, s, e))
  {
    hide Without, Keyed, Power2, Min, ValidPlan, StoreEffect, AfterStore;
  }

  lemma {:induction false} RunInv(c: Config, s: State, es: seq<Event>)
    requires Inv(s) && Possible(c, s, es)
    ensures Inv(Run(c, s, es))
    decreases |es|
  {
    hide Inv, Step;
    if es != [] {
      StepInv(c, s, es[0]);
      RunInv(c, Step(c, s, es[0]), es[1..]);
    }
  }

  // ---------- Fencing ----------

  /** Everything a claim token guards. */
  datatype Guarded = Guarded(job: Job, rows: map<ChunkId, Chunk>, version: Indexing, document: DocumentStatus)

  function GuardedPart(s: State): Guarded {
    Guarded(s.job, s.rows, s.version, s.document)
  }

  function TokenOf(e: Event): Option<Token> {
    match e
    case Reset => None
    case Tick(_) => None
    case _ => Some(e.token)
  }

  /** A token that was issued and does not own the job. */
  ghost predicate Ousted(s: State, t: Token) {
    t in s.workers && !Owns(s.job, t)
  }

  /** A claim, or a reset by the rebuild tool, supersedes every token issued before it. */
  lemma TakeoverOusts(c: Config, s: State, e: Event, t: Token)
    requires Enabled(c, s, e) && (e.Claim? || e.Reset?) && t in s.workers
    ensures Ousted(Step(c, s, e), t)
  {
  }

  lemma OustedStep(c: Config, s: State, e: Event, t: Token)
    requires Enabled(c, s, e) && Ousted(s, t)
    ensures Ousted(Step(c, s, e), t)
  {
  }

  /** A superseded token's own events change nothing it does not own. */
  lemma OustedHarmless(c: Config, s: State, e: Event, t: Token)
    requires Inv(s) && Enabled(c, s, e) && Ousted(s, t) && !e.Reset? && !e.Tick? && e.token == t
    ensures GuardedPart(Step(c, s, e)) == GuardedPart(s)
  {
  }

  lemma {:induction false} OustedForever(c: Config, s: State, es: seq<Event>, t: Token)
    requires Possible(c, s, es) && Ousted(s, t)
    ensures Ousted(Run(c, s, es), t)
    decreases |es|
  {
    hide Ousted, Step;
    if es != [] {
      OustedStep(c, s, es[0], t);
      OustedForever(c, Step(c, s, es[0]), es[1..], t);
    }
  }

  /**
   Fencing: once a newer token is claimed, or the rebuild tool resets the job, no older
   token ever changes the job row, the chunk rows, or a status again, whatever happens
   in between.
   */
  lemma Fencing(c: Config, s: State, takeover: Event, es: seq<Event>, e: Event, t: Token)
    requires Inv(s) && t in s.workers
    requires Enabled(c, s, takeover) && (takeover.Claim? || takeover.Reset?)
    requires Possible(c, Step(c, s, takeover), es)
    requires var s' := Run(c, Step(c, s, takeover), es); Enabled(c, s', e) && !e.Reset? && !e.Tick? && e.token == t
    ensures
      var s' := Run(c, Step(c, s, takeover), es);
      GuardedPart(Step(c, s', e)) == GuardedPart(s')
  {
    hide Inv, Step, Ousted, GuardedPart;
    var s0 := Step(c, s, takeover);
    TakeoverOusts(c, s, takeover, t);
    StepInv(c, s, takeover);
    RunInv(c, s0, es);
    OustedForever(c, s0, es, t);
    OustedHarmless(c, Run(c, s0, es), e, t);
  }

  /** Between the lock and the end of its transaction nothing changes the job row or the lock. */
  lemma LockKeepsOwner(c: Config, s: State, e: Event, t: Token)
    requires Inv(s) && Enabled(c, s, e) && s.lock == Some(t)
    requires e !in {Commit(t), Rollback(t), Crash(t)}
    ensures Step(c, s, e).job == s.job && Step(c, s, e).lock == Some(t)
    ensures Owns(s.job, t) && !e.Claim? && !e.Reset?
  {
  }

  // ---------- Timed exclusion ----------

  /** The token owns the job, with a lease that reaches five minutes past `asserted`. */
  predicate Secured(s: State, t: Token, asserted: Time) {
    Owns(s.job, t) && s.job.leaseUntil.Some? && asserted + LEASE_MS <= s.job.leaseUntil.value
  }

  /**
   As long as its assertion is less than a lease old, the token owns the job; so does the
   token of a call in flight, unless its worker gave the job up.
   */
  ghost predicate FreshWorker(s: State, t: Token) {
    t in s.workers ==>
      var w := s.workers[t];
      && (w.asserted.Some? ==> w.asserted.value <= s.now && !w.gaveUp)
      && (w.asserted.Some? && s.now <= w.asserted.value + LEASE_MS ==> Secured(s, t, w.asserted.value))
      && (w.inFlight.Some? ==> w.inFlight.value.asserted <= s.now)
      && (w.inFlight.Some? && !w.gaveUp && s.now <= w.inFlight.value.asserted + LEASE_MS ==>
            Secured(s, t, w.inFlight.value.asserted))
      && (w.stage.Failing? || w.stage.Finished? ==> w.asserted.None?)
      && (w.gaveUp ==> !w.alive && !Owns(s.job, t))
  }

  ghost predicate Fresh(s: State) {
    forall t :: FreshWorker(s, t)
  }

  lemma OtherTokensEvent(c: Config, s: State, e: Event, t: Token)
    requires Inv(s) && FreshWorker(s, t) && Enabled(c, s, e) && !e.Reset? && TokenOf(e) != Some(t)
    ensures FreshWorker(Step(c, s, e), t)
  {
    hide Without, Keyed, Power2, Min, ValidPlan, FreshWorker, Inv, Step, Enabled;
    if IsWrite(e) || e.Tick? || e.Rollback? || e.Crash? {
      OtherTokensWrite(c, s, e, t);
    } else {
      OtherTokensStatement(c, s, e, t);
    }
  }

  lemma OtherTokensWrite(c: Config, s: State, e: Event, t: Token)
    requires Inv(s) && FreshWorker(s, t) && Enabled(c, s, e) && TokenOf(e) != Some(t)
    requires IsWrite(e) || e.Tick? || e.Rollback? || e.Crash?
    ensures FreshWorker(Step(c, s, e), t)
  {
    hide FreshWorker, Inv, Step, Enabled;
    if IsWrite(e) { OthersWrite(c, s, e, t); } else { OthersStop(c, s, e, t); }
  }

  lemma OthersWrite(c: Config, s: State, e: Event, t: Token)
    requires Inv(s) && FreshWorker(s, t) && Enabled(c, s, e) && TokenOf(e) != Some(t) && IsWrite(e)
    ensures FreshWorker(Step(c, s, e), t)
  {
    hide Without, Keyed, Power2, Min, ValidPlan, StoreEffect, AfterStore;
  }

  lemma OthersStop(c: Config, s: State, e: Event, t: Token)
    requires Inv(s) && FreshWorker(s, t) && Enabled(c, s, e) && TokenOf(e) != Some(t)
    requires e.Tick? || e.Rollback? || e.Crash?
    ensures FreshWorker(Step(c, s, e), t)
  {
    hide Without, Keyed, Power2, Min, ValidPlan, StoreEffect, AfterStore;
  }

  lemma OtherTokensStatement(c: Config, s: State, e: Event, t: Token)
    requires Inv(s) && FreshWorker(s, t) && Enabled(c, s, e) && !e.Reset? && TokenOf(e) != Some(t)
    requires !(IsWrite(e) || e.Tick? || e.Rollback? || e.Crash?)
    ensures FreshWorker(Step(c, s, e), t)
  {
    hide Without, Keyed, Power2, Min, ValidPlan, StoreEffect, AfterStore;
  }

  lemma OwnStatement(c: Config, s: State, e: Event, t: Token)
    requires Inv(s) && FreshWorker(s, t) && Enabled(c, s, e) && TokenOf(e) == Some(t)
    requires !IsWrite(e)
    ensures FreshWorker(Step(c, s, e), t)
  {
    hide Without, Keyed, Power2, Min, ValidPlan, StoreEffect, AfterStore;
  }

  lemma OwnWrite(c: Config, s: State, e: Event, t: Token)
    requires Inv(s) && FreshWorker(s, t) && Enabled(c, s, e) && e in {Commit(t), Land(t), LateLand(t)}
    ensures FreshWorker(Step(c, s, e), t)
  {
    hide Without, Keyed, Power2, Min, ValidPlan, StoreEffect, AfterStore;
  }

  lemma StepFreshWorker(c: Config, s: State, e: Event, t: Token)
    requires Inv(s) && FreshWorker(s, t) && Enabled(c, s, e) && !e.Reset?
    ensures FreshWorker(Step(c, s, e), t)
  {
    hide Inv, FreshWorker, Step, Enabled;
    if TokenOf(e) != Some(t) {
      OtherTokensEvent(c, s, e, t);
    } else if IsWrite(e) {
      OwnWrite(c, s, e, t);
    } else {
      OwnStatement(c, s, e, t);
    }
  }

  lemma StepFresh(c: Config, s: State, e: Event)
    requires Inv(s) && Fresh(s) && Enabled(c, s, e) && !e.Reset?
    ensures Fresh(Step(c, s, e))
  {
    hide Inv, FreshWorker, Step;
    forall t
      ensures FreshWorker(Step(c, s, e), t)
    {
      StepFreshWorker(c, s, e, t);
    }
  }

  ghost predicate NoReset(es: seq<Event>) {
    forall i :: 0 <= i < |es| ==> !es[i].Reset?
  }

  lemma {:induction false} RunFresh(c: Config, s: State, es: seq<Event>)
    requires Inv(s) && Fresh(s) && Possible(c, s, es) && NoReset(es)
    ensures Fresh(Run(c, s, es))
    decreases |es|
  {
    hide Inv, Fresh, Step;
    if es != [] {
      StepInv(c, s, es[0]);
      StepFresh(c, s, es[0]);
      RunFresh(c, Step(c, s, es[0]), es[1..]);
    }
  }

  /** When the lease was asserted for the store write that `e` lands, if it lands one. */
  function LandsAfter(s: State, e: Event): Option<Time> {
    match e
    case Land(t) => if t in s.workers then s.workers[t].asserted else None
    case LateLand(t) =>
      if t in s.workers && s.workers[t].inFlight.Some? then Some(s.workers[t].inFlight.value.asserted) else None
    case _ => None
  }

  /** The store write that `e` lands, if any, was asserted at most five minutes ago. */
  predicate InTime(s: State, e: Event) {
    LandsAfter(s, e).Some? ==> s.now <= LandsAfter(s, e).value + 300_000
  }

  /** The worker wrote its own end of the job somewhere in the run. */
  predicate WritesEnd(es: seq<Event>, t: Token) {
    Fail(t) in es || Succeed(t) in es
  }

  lemma {:induction false} GaveUpIsRecorded(c: Config, s: State, es: seq<Event>, t: Token)
    requires Possible(c, s, es) && t in Run(c, s, es).workers
    ensures Run(c, s, es).workers[t].gaveUp <==> WritesEnd(es, t) || (t in s.workers && s.workers[t].gaveUp)
    decreases |es|
  {
    hide Step;
    if es != [] {
      var s' := Step(c, s, es[0]);
      GaveUpStep(c, s, es[0], t);
      GaveUpIsRecorded(c, s', es[1..], t);
      assert es == [es[0]] + es[1..];
    }
  }

  lemma GaveUpStep(c: Config, s: State, e: Event, t: Token)
    requires Enabled(c, s, e)
    ensures t in s.workers ==> t in Step(c, s, e).workers
    ensures t in Step(c, s, e).workers ==>
      (Step(c, s, e).workers[t].gaveUp <==> e in {Fail(t), Succeed(t)} || (t in s.workers && s.workers[t].gaveUp))
    ensures t !in Step(c, s, e).workers ==> e !in {Fail(t), Succeed(t)}
  {
    hide Without, Keyed, StoreEffect, FailJob, Step;
    if IsWrite(e) { WriteGivesNothingUp(c, s, e, t); } else { OtherGivesUp(c, s, e, t); }
  }

  lemma WriteGivesNothingUp(c: Config, s: State, e: Event, t: Token)
    requires Enabled(c, s, e) && IsWrite(e)
    ensures t in s.workers <==> t in Step(c, s, e).workers
    ensures t in s.workers ==> Step(c, s, e).workers[t].gaveUp == s.workers[t].gaveUp
  {
    hide Without, Keyed, StoreEffect, AfterStore;
  }

  lemma OtherGivesUp(c: Config, s: State, e: Event, t: Token)
    requires Enabled(c, s, e) && !IsWrite(e)
    ensures t in s.workers ==> t in Step(c, s, e).workers
    ensures t in Step(c, s, e).workers ==>
      (Step(c, s, e).workers[t].gaveUp <==> e in {Fail(t), Succeed(t)} || (t in s.workers && s.workers[t].gaveUp))
    ensures t !in Step(c, s, e).workers ==> e !in {Fail(t), Succeed(t)}
  {
    hide Without, Keyed, StoreEffect, FailJob, CommitStep, LandStep;
  }

  /**
   Timed exclusion, exactly: in any run without a reset, a store write that lands at most
   five minutes after the assertion before it, even one whose call had already thrown,
   lands while its token owns the job if and only if that worker has not written its own
   end of the job.
   */
  lemma TimedExclusion(c: Config, s: State, es: seq<Event>, e: Event)
    requires Init(s) && Possible(c, s, es) && NoReset(es)
    requires var s' := Run(c, s, es); Enabled(c, s', e) && LandsAfter(s', e).Some? && InTime(s', e)
    ensures Owns(Run(c, s, es).job, e.token) <==> !WritesEnd(es, e.token)
  {
    hide Step;
    RunFresh(c, s, es);
    assert FreshWorker(Run(c, s, es), e.token);
    GaveUpIsRecorded(c, s, es, e.token);
  }

  // ---------- Crash convergence ----------

  ghost predicate RowsBuilt(c: Config, s: State, plan: Plan) {
    Of(s.rows, c.version) == Keyed(c.version, plan.chunks, 0, |plan.chunks|)
  }

  ghost predicate PointsBuilt(c: Config, s: State, plan: Plan, n: nat)
    requires n <= |plan.vectors|
  {
    Of(s.points, c.version) == Keyed(c.version, plan.vectors, 0, n)
  }

  /** What the owner's stage promises about the tables, whatever earlier attempts left in them. */
  ghost predicate Built(c: Config, s: State, stage: Stage) {
    match stage
    case Preparing | Failing => true
    case StoreRows(plan) => !c.operation.Delete? && ValidPlan(plan)
    case ClearPoints(plan) => !c.operation.Delete? && ValidPlan(plan) && RowsBuilt(c, s, plan)
    case WritePoints(plan, n) =>
      !c.operation.Delete? && ValidPlan(plan) && RowsBuilt(c, s, plan) && n <= |plan.vectors|
        && PointsBuilt(c, s, plan, n)
    case Publish(plan) =>
      !c.operation.Delete? && ValidPlan(plan) && RowsBuilt(c, s, plan) && PointsBuilt(c, s, plan, |plan.vectors|)
    case Finished(Some(plan)) =>
      && !c.operation.Delete? && ValidPlan(plan) && RowsBuilt(c, s, plan) && PointsBuilt(c, s, plan, |plan.vectors|)
      && s.version == Indexed(|plan.chunks|) && s.document == DocumentIndexed
    case PurgePoints => c.operation.Delete?
    case PurgeRows => c.operation.Delete? && Without(s.points, c.documentVersions) == s.points
    case Finished(None) =>
      && c.operation.Delete?
      && (c.documentExists ==>
            && Without(s.points, c.documentVersions) == s.points && Without(s.rows, c.documentVersions) == s.rows
            && s.version == Indexing.Superseded && s.document == DocumentDeleted)
  }

  ghost predicate Converging(c: Config, s: State) {
    && (s.job.status == Running && s.job.claimedBy.Some? && s.job.claimedBy.value in s.workers ==>
          Built(c, s, s.workers[s.job.claimedBy.value].stage))
    && (s.job.status == Succeeded ==>
          && s.completedBy.Some? && s.completedBy.value in s.workers
          && !s.workers[s.completedBy.value].alive
          && s.workers[s.completedBy.value].stage.Finished?
          && Built(c, s, s.workers[s.completedBy.value].stage))
  }

  /** The hypothesis of convergence: a store write that lands does so while its token owns the job. */
  predicate OwnedLanding(s: State, e: Event) {
    e.Land? || e.LateLand? ==> Owns(s.job, e.token)
  }

  ghost predicate OwnedLandings(c: Config, s: State, es: seq<Event>)
    requires Possible(c, s, es)
    decreases |es|
  {
    es == [] || (OwnedLanding(s, es[0]) && OwnedLandings(c, Step(c, s, es[0]), es[1..]))
  }

  lemma CommitConverges(c: Config, s: State, t: Token)
    requires c.Valid() && Inv(s) && Converging(c, s) && Enabled(c, s, Commit(t))
    ensures Converging(c, Step(c, s, Commit(t)))
  {
    hide Keyed, Without, Of;
    match s.workers[t].stage
    case StoreRows(plan) => ReplaceVersion(s.rows, c.version, plan.chunks);
    case PurgeRows => WithoutTwice(s.rows, c.documentVersions); WithoutTwice(s.points, c.documentVersions);
    case _ =>
  }

  lemma LandConverges(c: Config, s: State, t: Token)
    requires c.Valid() && Inv(s) && Converging(c, s) && Enabled(c, s, Land(t)) && Owns(s.job, t)
    ensures Converging(c, Step(c, s, Land(t)))
  {
    hide Keyed, Without, Of;
    match s.workers[t].stage
    case ClearPoints(plan) =>
      ClearVersion(s.points, c.version);
      KeyedNone(c.version, plan.vectors);
    case WritePoints(plan, n) =>
      PutBatch(s.points, c.version, plan.vectors, n, Min(n + c.batchSize, |plan.vectors|));
    case PurgePoints => WithoutTwice(s.points, c.documentVersions);
    case _ =>
  }

  lemma KeyedNone<V>(version: Version, items: seq<V>)
    ensures Keyed(version, items, 0, 0) == map[]
  {
  }

  /** A late write that its own, failing, worker still owns. */
  lemma LateLandConverges(c: Config, s: State, t: Token)
    requires Inv(s) && Converging(c, s) && Enabled(c, s, LateLand(t)) && Owns(s.job, t) && s.workers[t].stage.Failing?
    ensures Converging(c, Step(c, s, LateLand(t)))
  {
    hide Keyed, Without, Of, StoreEffect;
  }

  lemma StatementConverges(c: Config, s: State, e: Event)
    requires Inv(s) && Converging(c, s) && Enabled(c, s, e) && !e.Reset? && !IsWrite(e)
    ensures Converging(c, Step(c, s, e))
  {
    hide Keyed, Without, Of, Power2, RowsBuilt, PointsBuilt;
    if e.Fail? || e.Succeed? || e.Claim? {
      HandOverConverges(c, s, e);
    } else {
      StatementFrames(c, s, e);
      UnpublishedConverges(c, s, e);
    }
  }

  lemma HandOverConverges(c: Config, s: State, e: Event)
    requires Inv(s) && Converging(c, s) && Enabled(c, s, e) && (e.Fail? || e.Succeed? || e.Claim?)
    ensures Converging(c, Step(c, s, e))
  {
    hide Keyed, Without, Of, Power2;
  }

  lemma UnpublishedConverges(c: Config, s: State, e: Event)
    requires Inv(s) && Converging(c, s) && Enabled(c, s, e) && !e.Reset? && !IsWrite(e)
    requires !(e.Fail? || e.Succeed? || e.Claim?)
    ensures Converging(c, Step(c, s, e))
  {
    hide Converging, Step, Enabled, Inv;
    if e.Prepare? || e.Rollback? || e.Error? { StageConverges(c, s, e); } else { LeaseConverges(c, s, e); }
  }

  /** Events that move a worker to another stage. */
  lemma StageConverges(c: Config, s: State, e: Event)
    requires Inv(s) && Converging(c, s) && Enabled(c, s, e) && (e.Prepare? || e.Rollback? || e.Error?)
    ensures Converging(c, Step(c, s, e))
  {
    hide Keyed, Without, Of, Power2;
  }

  /** Events about the lease and the lock, crashes, and time. */
  lemma LeaseConverges(c: Config, s: State, e: Event)
    requires Inv(s) && Converging(c, s) && Enabled(c, s, e)
    requires e.Assert? || e.Heartbeat? || e.HeartbeatError? || e.Lock? || e.Crash? || e.Tick?
    ensures Converging(c, Step(c, s, e))
  {
    hide Keyed, Without, Of, Power2, ValidPlan, Built;
    var t := Step(c, s, e);
    if s.job.claimedBy.Some? { BuiltFrame(c, s, t, s.workers[s.job.claimedBy.value].stage); }
    if s.completedBy.Some? && s.completedBy.value in s.workers {
      BuiltFrame(c, s, t, s.workers[s.completedBy.value].stage);
    }
  }

  /** What a stage promises depends on the tables and the published status only. */
  lemma BuiltFrame(c: Config, s: State, t: State, stage: Stage)
    requires t.rows == s.rows && t.points == s.points && t.version == s.version && t.document == s.document
    ensures Built(c, t, stage) == Built(c, s, stage)
  {
    hide Keyed, Without, Of;
  }

  /** The rebuild tool's reset leaves a job that promises nothing until it is claimed again. */
  lemma ResetConverges(c: Config, s: State)
    requires Enabled(c, s, Reset)
    ensures Converging(c, Step(c, s, Reset))
  {
  }

  lemma StepConverges(c: Config, s: State, e: Event)
    requires c.Valid() && Inv(s) && Converging(c, s) && Enabled(c, s, e) && OwnedLanding(s, e)
    ensures Converging(c, Step(c, s, e))
  {
    hide Step, Converging, Inv;
    if e.Commit? {
      CommitConverges(c, s, e.token);
    } else if e.Land? {
      LandConverges(c, s, e.token);
    } else if e.LateLand? {
      InFlightFails(s, e.token);
      LateLandConverges(c, s, e.token);
    } else if e.Reset? {
      ResetConverges(c, s);
    } else {
      StatementConverges(c, s, e);
    }
  }

  lemma InFlightFails(s: State, t: Token)
    requires Inv(s) && t in s.workers && s.workers[t].inFlight.Some?
    ensures s.workers[t].stage.Failing?
  {
  }

  lemma {:induction false} RunConverges(c: Config, s: State, es: seq<Event>)
    requires c.Valid() && Inv(s) && Converging(c, s)
    requires Possible(c, s, es) && OwnedLandings(c, s, es)
    ensures Converging(c, Run(c, s, es))
    decreases |es|
  {
    hide Step, Converging, Inv;
    if es != [] {
      StepInv(c, s, es[0]);
      StepConverges(c, s, es[0]);
      RunConverges(c, Step(c, s, es[0]), es[1..]);
    }
  }

  /** What a job that succeeded has left, as `CrashConvergence` and its timed form state it. */
  ghost predicate Converged(c: Config, s: State) {
    && s.completedBy.Some? && s.completedBy.value in s.workers
    && var stage := s.workers[s.completedBy.value].stage;
    && stage.Finished? && (stage.result.None? <==> c.operation.Delete?)
    && (stage.result.Some? ==>
          var plan := stage.result.value;
          && ValidPlan(plan)
          && Of(s.rows, c.version) == Keyed(c.version, plan.chunks, 0, |plan.chunks|)
          && Of(s.points, c.version) == Keyed(c.version, plan.vectors, 0, |plan.chunks|)
          && Of(s.points, c.version).Keys == Of(s.rows, c.version).Keys
          && s.version == Indexed(|plan.chunks|) && s.document == DocumentIndexed)
    && (stage.result.None? && c.documentExists ==>
          && Without(s.rows, c.documentVersions) == s.rows
          && Without(s.points, c.documentVersions) == s.points
          && s.document == DocumentDeleted)
  }

  /**
   Crash convergence: after any interleaving of attempts, crashes, reclaims, resets and
   late writes, as long as every store write landed while its token owned the job, a job
   that succeeded has left exactly what the attempt that completed it computed: the chunk
   rows, one point per row with that chunk's embedding, and the published status; or, for
   a delete job, nothing.
   */
  lemma CrashConvergence(c: Config, s: State, es: seq<Event>)
    requires c.Valid() && Init(s) && Possible(c, s, es) && OwnedLandings(c, s, es)
    requires Run(c, s, es).job.status == Succeeded
    ensures Converged(c, Run(c, s, es))
  {
    hide Step, Run, Possible;
    RunConverges(c, s, es);
    var s' := Run(c, s, es);
    var stage := s'.workers[s'.completedBy.value].stage;
    if stage.result.Some? {
      var plan := stage.result.value;
      KeyedOf(c.version, plan.chunks, 0, |plan.chunks|);
      KeyedOf(c.version, plan.vectors, 0, |plan.vectors|);
    }
  }

  /** No reset, and no store write lands later than its lease or after its worker gave up. */
  ghost predicate TimelyRun(c: Config, s: State, es: seq<Event>)
    requires Possible(c, s, es)
    decreases |es|
  {
    es == [] ||
      (&& !es[0].Reset? && InTime(s, es[0])
       && (es[0].Land? || es[0].LateLand? ==> es[0].token in s.workers && !s.workers[es[0].token].gaveUp)
       && TimelyRun(c, Step(c, s, es[0]), es[1..]))
  }

  lemma {:induction false} TimelyMeansOwned(c: Config, s: State, es: seq<Event>)
    requires Inv(s) && Fresh(s) && Possible(c, s, es) && TimelyRun(c, s, es)
    ensures OwnedLandings(c, s, es)
    decreases |es|
  {
    hide Step, Inv, Fresh;
    if es != [] {
      StepInv(c, s, es[0]);
      StepFresh(c, s, es[0]);
      TimelyMeansOwned(c, Step(c, s, es[0]), es[1..]);
      if es[0].Land? || es[0].LateLand? { FreshLanding(c, s, es[0]); }
    }
  }

  lemma FreshLanding(c: Config, s: State, e: Event)
    requires Fresh(s) && Enabled(c, s, e) && (e.Land? || e.LateLand?) && InTime(s, e) && !s.workers[e.token].gaveUp
    ensures Owns(s.job, e.token)
  {
    assert FreshWorker(s, e.token);
  }

  /** The same from times alone: convergence when no write outlives its lease or its worker's own `fail`. */
  lemma TimedConvergence(c: Config, s: State, es: seq<Event>)
    requires c.Valid() && Init(s) && Possible(c, s, es) && TimelyRun(c, s, es)
    requires Run(c, s, es).job.status == Succeeded
    ensures Converged(c, Run(c, s, es))
  {
    hide Step, Converged;
    TimelyMeansOwned(c, s, es);
    CrashConvergence(c, s, es);
  }

  // ---------- Documents that are not the job's ----------

  lemma WithoutFewer<V>(m: map<ChunkId, V>, fewer: set<Version>, more: set<Version>)
    requires fewer <= more
    ensures Without(Without(m, fewer), more) == Without(m, more)
  {
  }

  lemma WithoutAdded<V>(m: map<ChunkId, V>, added: map<ChunkId, V>, versions: set<Version>)
    requires forall id :: id in added ==> id.version in versions
    ensures Without(m + added, versions) == Without(m, versions)
  {
  }

  lemma StoreEffectFrames(c: Config, points: map<ChunkId, Vector>, stage: Stage)
    requires c.Valid()
    ensures Without(StoreEffect(c, points, stage), c.documentVersions) == Without(points, c.documentVersions)
  {
    hide Without, Keyed;
    match stage
    case ClearPoints(_) => WithoutFewer(points, {c.version}, c.documentVersions);
    case WritePoints(plan, n) =>
      if n <= |plan.vectors| {
        var k := Min(n + c.batchSize, |plan.vectors|);
        KeyedOf(c.version, plan.vectors, n, k);
        WithoutAdded(points, Keyed(c.version, plan.vectors, n, k), c.documentVersions);
      }
    case PurgePoints => WithoutTwice(points, c.documentVersions);
    case _ =>
  }

  lemma StepFrames(c: Config, s: State, e: Event)
    requires c.Valid() && Enabled(c, s, e)
    ensures Without(Step(c, s, e).rows, c.documentVersions) == Without(s.rows, c.documentVersions)
    ensures Without(Step(c, s, e).points, c.documentVersions) == Without(s.points, c.documentVersions)
  {
    hide Without, Keyed;
    if e.Land? {
      StoreEffectFrames(c, s.points, s.workers[e.token].stage);
    } else if e.LateLand? {
      StoreEffectFrames(c, s.points, s.workers[e.token].inFlight.value.stage);
    } else if e.Commit? {
      WithoutFewer(s.rows, {c.version}, c.documentVersions);
      WithoutFewer(s.points, {c.version}, c.documentVersions);
      WithoutTwice(s.rows, c.documentVersions);
      WithoutTwice(s.points, c.documentVersions);
      match s.workers[e.token].stage
      case StoreRows(plan) =>
        KeyedOf(c.version, plan.chunks, 0, |plan.chunks|);
        WithoutAdded(Without(s.rows, {c.version}), Keyed(c.version, plan.chunks, 0, |plan.chunks|), c.documentVersions);
      case _ =>
    } else {
      StatementFrames(c, s, e);
    }
  }

  lemma StatementFrames(c: Config, s: State, e: Event)
    requires Enabled(c, s, e) && !IsWrite(e)
    ensures Step(c, s, e).rows == s.rows && Step(c, s, e).points == s.points
  {
  }

  /** No event of the job ever touches a chunk or a point of another document. */
  lemma {:induction false} OtherDocumentsUntouched(c: Config, s: State, es: seq<Event>)
    requires c.Valid() && Possible(c, s, es)
    ensures Without(Run(c, s, es).rows, c.documentVersions) == Without(s.rows, c.documentVersions)
    ensures Without(Run(c, s, es).points, c.documentVersions) == Without(s.points, c.documentVersions)
    decreases |es|
  {
    hide Step, Without;
    if es != [] {
      StepFrames(c, s, es[0]);
      OtherDocumentsUntouched(c, Step(c, s, es[0]), es[1..]);
    }
  }
}
