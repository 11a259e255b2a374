/**
 All workers of one scheduled run, interleaved.

 An `Attempt` is a claim of the run by some worker and what became of it; attempts are
 never forgotten, so stale ones keep acting after another worker took the run over. Every
 event is one transaction, one dispatch boundary, or the death of an attempt, and carries
 the acting process's own clock, so nothing below assumes synchronized clocks.

 The completion write is guarded by the worker's identity alone, and one that threw may
 still land later. That the guard suffices rests on `Enabled`'s last clause: a worker
 claims only when all its earlier attempts, and their writes, are over.
 */
module SchedulerMachine {
  import opened Prelude
  import opened ExternalCalls
  import opened Scheduler

  datatype Phase = Waiting | Dispatching | Returned(ok: bool) | Over

  /**
   One claim. `epoch` counts the operator's retries before it, and `number` is the
   attempt count the worker remembers; `started` and `result` record its dispatch. `late`
   holds the outcomes whose completion write threw and may still take effect.
   */
  datatype Attempt = Attempt(worker: WorkerId, epoch: nat, number: nat, maxAttempts: nat, phase: Phase,
                             started: bool, result: Option<bool>, late: set<bool>)

  datatype State = State(row: JobRun, epoch: nat, attempts: seq<Attempt>)

  datatype Event =
    | Sweep(now: Time)
    | Claim(worker: WorkerId, now: Time)
    | Start(i: nat)
    | Return(i: nat, ok: bool)
    | Record(i: nat, now: Time)
    | RecordError(i: nat, applied: bool, now: Time)
    | Settle(i: nat, ok: bool, landed: bool, now: Time)
    | Abandon(i: nat)
    | Reset(now: Time)

  /** The attempt does nothing any more, and none of its writes is under way. */
  predicate Done(a: Attempt) {
    a.phase == Over && a.late == {}
  }

  predicate AllOver(attempts: seq<Attempt>, worker: WorkerId) {
    forall i :: 0 <= i < |attempts| && attempts[i].worker == worker ==> Done(attempts[i])
  }

  /** What the database and the run loop permit. */
  predicate Feasible(s: State, e: Event) {
    match e
    case Sweep(now) => Exhausted(s.row, now)
    case Claim(_, now) => Eligible(s.row, now)
    case Start(i) => i < |s.attempts| && s.attempts[i].phase == Waiting
    case Return(i, _) => i < |s.attempts| && s.attempts[i].phase == Dispatching
    case Record(i, _) => i < |s.attempts| && s.attempts[i].phase.Returned?
    case RecordError(i, _, _) => i < |s.attempts| && s.attempts[i].phase.Returned?
    case Settle(i, ok, _, _) => i < |s.attempts| && ok in s.attempts[i].late
    case Abandon(i) => i < |s.attempts| && s.attempts[i].phase != Over
    case Reset(_) => s.row.status in {Failed, DeadLettered}
  }

  /** Feasible, with one tick at a time per worker, and none while an earlier write of it is under way. */
  predicate Enabled(s: State, e: Event) {
    Feasible(s, e) && (e.Claim? ==> AllOver(s.attempts, e.worker))
  }

  /** The completion write of an attempt; the machine follows one run, so its id does not matter. */
  function Recorded(row: JobRun, a: Attempt, ok: bool, now: Time): JobRun {
    Completed(row, a.worker, ClaimedRun(0, a.number, a.maxAttempts), ok, now)
  }

  function Step(s: State, e: Event): State
    requires Feasible(s, e)
  {
    match e
    case Sweep(now) => s.(row := SweepRun(s.row, now))
    case Claim(w, now) =>
      var row := ClaimRun(s.row, w, now);
      s.(row := row,
         attempts := s.attempts + [Attempt(w, s.epoch, row.attempts, row.maxAttempts, Waiting, false, None, {})])
    case Start(i) => s.(attempts := s.attempts[i := s.attempts[i].(phase := Dispatching, started := true)])
    case Return(i, ok) => s.(attempts := s.attempts[i := s.attempts[i].(phase := Returned(ok), result := Some(ok))])
    case Record(i, now) =>
      s.(row := Recorded(s.row, s.attempts[i], s.attempts[i].phase.ok, now),
         attempts := s.attempts[i := s.attempts[i].(phase := Over)])
    // A success that cannot be recorded is recorded as a failure; a failure that cannot be recorded ends the pass.
    case RecordError(i, applied, now) =>
      var ok := s.attempts[i].phase.ok;
      s.(row := if applied then Recorded(s.row, s.attempts[i], ok, now) else s.row,
         attempts := s.attempts[i := s.attempts[i].(phase := if ok then Returned(false) else Over,
                                                    late := if applied then s.attempts[i].late
                                                            else s.attempts[i].late + {ok})])
    // A write that threw lands after all, with the retry time it was sent with, or is dropped.
    case Settle(i, ok, landed, now) =>
      s.(row := if landed then Recorded(s.row, s.attempts[i], ok, now) else s.row,
         attempts := s.attempts[i := s.attempts[i].(late := s.attempts[i].late - {ok})])
    case Abandon(i) => s.(attempts := s.attempts[i := s.attempts[i].(phase := Over)])
    case Reset(now) => s.(row := ResetRun(s.row, now), epoch := s.epoch + 1)
  }

  predicate Possible(s: State, es: seq<Event>)
    decreases |es|
  {
    es == [] || (Enabled(s, es[0]) && Possible(Step(s, es[0]), es[1..]))
  }

  function Run(s: State, es: seq<Event>): State
    requires Possible(s, es)
    decreases |es|
  {
    if es == [] then s else Run(Step(s, es[0]), es[1..])
  }

  /** The run as `claimDue` inserts it, claimed by its creator. */
  function Inserted(worker: WorkerId, now: Time): State {
    State(NewRun(worker, now), 0, [Attempt(worker, 0, 1, MAX_ATTEMPTS, Waiting, false, None, {})])
  }

  // ---------- The invariant of every run ----------

  predicate RowInv(row: JobRun) {
    && (row.status == Running <==> row.claimedBy.Some?) && (row.status == Running <==> row.leaseUntil.Some?)
    && (row.status == Running ==> row.attempts >= 1)
    && (row.status == Failed ==> row.attempts < row.maxAttempts && row.nextRetryAt.Some?)
    && (row.status == DeadLettered ==> row.attempts == row.maxAttempts && row.nextRetryAt.None?)
    && (row.status == Succeeded ==> row.attempts >= 1)
    && row.attempts <= row.maxAttempts && row.maxAttempts >= 1
  }

  /** Since the last operator retry the attempts are numbered 1, 2, ..., up to the row's count. */
  ghost predicate Numbered(s: State) {
    && s.row.attempts <= |s.attempts|
    && (forall i :: 0 <= i < |s.attempts| - s.row.attempts ==> s.attempts[i].epoch < s.epoch)
    && (forall i :: |s.attempts| - s.row.attempts <= i < |s.attempts| ==>
          s.attempts[i].epoch == s.epoch && s.attempts[i].number == i - (|s.attempts| - s.row.attempts) + 1)
    && (forall i :: 0 <= i < |s.attempts| ==> s.attempts[i].maxAttempts == s.row.maxAttempts)
  }

  /** Of one worker's attempts only the latest can still act. */
  ghost predicate OneAtATime(attempts: seq<Attempt>) {
    forall i, j :: 0 <= i < j < |attempts| && attempts[i].worker == attempts[j].worker ==> Done(attempts[i])
  }

  predicate Coherent(a: Attempt) {
    && (a.phase == Waiting ==> !a.started && a.result.None?)
    && (a.phase == Dispatching ==> a.started && a.result.None?)
    && (a.phase.Returned? ==> a.started && a.result.Some?)
    && (a.phase == Returned(true) ==> a.result == Some(true))
    && (a.result.Some? ==> a.started)
    && (true in a.late ==> a.result == Some(true))
  }

  ghost predicate Inv(s: State) {
    && RowInv(s.row)
    && Numbered(s)
    && OneAtATime(s.attempts)
    && (forall i :: 0 <= i < |s.attempts| ==> Coherent(s.attempts[i]))
    && (s.row.status == Running ==> s.attempts[|s.attempts| - 1].worker == s.row.claimedBy.value)
    && (s.row.status == Succeeded ==> s.row.attempts >= 1 && s.attempts[|s.attempts| - 1].result == Some(true))
  }

  lemma InsertedInv(worker: WorkerId, now: Time)
    ensures Inv(Inserted(worker, now))
  {
  }

  /** Whoever can still pass the completion write's guard is the run's latest attempt, and remembers its count. */
  lemma GuardMeansOwner(s: State, i: nat)
    requires Inv(s) && i < |s.attempts|
    requires !Done(s.attempts[i]) && s.row.claimedBy == Some(s.attempts[i].worker)
    ensures i == |s.attempts| - 1 && s.row.status == Running
    ensures s.attempts[i].epoch == s.epoch && s.attempts[i].number == s.row.attempts
    ensures s.attempts[i].maxAttempts == s.row.maxAttempts
  {
  }

  /** A completion write, on time or late. */
  predicate IsWrite(e: Event) {
    e.Record? || e.RecordError? || e.Settle?
  }

  lemma StepInv(s: State, e: Event)
    requires Inv(s) && Enabled(s, e)
    ensures Inv(Step(s, e))
  {
    hide Inv, Enabled, Step;
    if IsWrite(e) {
      WriteInv(s, e);
    } else if e.Sweep? || e.Claim? || e.Reset? {
      RowEventInv(s, e);
    } else {
      AttemptEventInv(s, e);
    }
  }

  lemma RowEventInv(s: State, e: Event)
    requires Inv(s) && Enabled(s, e) && (e.Sweep? || e.Claim? || e.Reset?)
    ensures Inv(Step(s, e))
  {
  }

  lemma AttemptEventInv(s: State, e: Event)
    requires Inv(s) && Enabled(s, e) && (e.Start? || e.Return? || e.Abandon?)
    ensures Inv(Step(s, e))
  {
    hide RowInv, Coherent;
    CoherentStep(s, e);
    var t := Step(s, e);
    forall i | 0 <= i < |t.attempts|
      ensures Coherent(t.attempts[i])
    {
      if i != e.i { assert t.attempts[i] == s.attempts[i]; }
    }
  }

  lemma CoherentStep(s: State, e: Event)
    requires Enabled(s, e) && (e.Start? || e.Return? || e.Abandon?) && Coherent(s.attempts[e.i])
    ensures Coherent(Step(s, e).attempts[e.i])
    ensures s.attempts[e.i].result == Some(true) ==> Step(s, e).attempts[e.i].result == Some(true)
  {
  }

  lemma WriteInv(s: State, e: Event)
    requires Inv(s) && Enabled(s, e) && IsWrite(e)
    ensures Inv(Step(s, e))
  {
    hide Inv, Enabled, Step;
    if e.Record? { RecordInv(s, e); } else if e.RecordError? { ErrorInv(s, e); } else { SettleInv(s, e); }
  }

  lemma RecordInv(s: State, e: Event)
    requires Inv(s) && Enabled(s, e) && e.Record?
    ensures Inv(Step(s, e))
  {
    hide Backoff, Power2;
    assert Coherent(s.attempts[e.i]);
    assert Coherent(Step(s, e).attempts[e.i]);
    if s.row.claimedBy == Some(s.attempts[e.i].worker) { GuardMeansOwner(s, e.i); }
  }

  lemma ErrorInv(s: State, e: Event)
    requires Inv(s) && Enabled(s, e) && e.RecordError?
    ensures Inv(Step(s, e))
  {
    hide Backoff, Power2;
    assert Coherent(s.attempts[e.i]);
    assert Coherent(Step(s, e).attempts[e.i]);
    if s.row.claimedBy == Some(s.attempts[e.i].worker) { GuardMeansOwner(s, e.i); }
  }

  lemma SettleInv(s: State, e: Event)
    requires Inv(s) && Enabled(s, e) && e.Settle?
    ensures Inv(Step(s, e))
  {
    hide Backoff, Power2;
    assert Coherent(s.attempts[e.i]);
    assert Coherent(Step(s, e).attempts[e.i]);
    if s.row.claimedBy == Some(s.attempts[e.i].worker) { GuardMeansOwner(s, e.i); }
  }

  lemma {:induction false} RunInv(s: State, es: seq<Event>)
    requires Inv(s) && Possible(s, es)
    ensures Inv(Run(s, es))
    decreases |es|
  {
    hide Inv, Step, Feasible;
    if es != [] {
      StepInv(s, es[0]);
      RunInv(Step(s, es[0]), es[1..]);
    }
  }

  // ---------- Ownership ----------

  predicate Owns(s: State, i: nat) {
    && i < |s.attempts| && i == |s.attempts| - 1
    && s.row.status == Running && s.row.claimedBy == Some(s.attempts[i].worker)
  }

  function AttemptOf(e: Event): Option<nat> {
    match e
    case Sweep(_) => None
    case Claim(_, _) => None
    case Reset(_) => None
    case _ => Some(e.i)
  }

  /** Losing a run is final: no later event gives it back to the same attempt. */
  lemma LossIsFinal(s: State, e: Event, i: nat)
    requires Inv(s) && Enabled(s, e) && i < |s.attempts| && !Owns(s, i)
    ensures i < |Step(s, e).attempts| && !Owns(Step(s, e), i)
  {
  }

  lemma StaleHarmless(s: State, e: Event, i: nat)
    requires Inv(s) && Enabled(s, e) && AttemptOf(e) == Some(i) && !Owns(s, i)
    ensures Step(s, e).row == s.row
  {
  }

  lemma {:induction false} LostForever(s: State, es: seq<Event>, i: nat)
    requires Inv(s) && Possible(s, es) && i < |s.attempts| && !Owns(s, i)
    ensures i < |Run(s, es).attempts| && !Owns(Run(s, es), i)
    decreases |es|
  {
    hide Inv, Step, Feasible, Owns;
    if es != [] {
      StepInv(s, es[0]);
      LossIsFinal(s, es[0], i);
      LostForever(Step(s, es[0]), es[1..], i);
    }
  }

  /** A worker that lost its claim never alters the row again, though its completion write checks no status. */
  lemma Fencing(s: State, es: seq<Event>, e: Event, i: nat)
    requires Inv(s) && Possible(s, es) && i < |s.attempts| && !Owns(s, i)
    requires Enabled(Run(s, es), e) && AttemptOf(e) == Some(i)
    ensures Step(Run(s, es), e).row == Run(s, es).row
  {
    hide Inv, Step, Owns;
    RunInv(s, es);
    LostForever(s, es, i);
    StaleHarmless(Run(s, es), e, i);
  }

  // ---------- Bounded dispatch ----------

  function Claims(es: seq<Event>): nat {
    if es == [] then 0 else (if es[0].Claim? then 1 else 0) + Claims(es[1..])
  }

  function Dispatches(es: seq<Event>): nat {
    if es == [] then 0 else (if es[0].Start? then 1 else 0) + Dispatches(es[1..])
  }

  predicate NoReset(es: seq<Event>) {
    forall i :: 0 <= i < |es| ==> !es[i].Reset?
  }

  function Unstarted(attempts: seq<Attempt>): nat {
    if attempts == [] then 0
    else Unstarted(attempts[..|attempts| - 1]) + (if attempts[|attempts| - 1].started then 0 else 1)
  }

  lemma {:induction false} UnstartedUpdate(attempts: seq<Attempt>, i: nat, a: Attempt)
    requires i < |attempts|
    ensures Unstarted(attempts[i := a]) + (if a.started then 1 else 0)
         == Unstarted(attempts) + (if attempts[i].started then 1 else 0)
  {
    var n := |attempts| - 1;
    if i == n {
      assert attempts[i := a][..n] == attempts[..n];
    } else {
      assert attempts[i := a][..n] == attempts[..n][i := a];
      UnstartedUpdate(attempts[..n], i, a);
    }
  }

  lemma StepUnstarted(s: State, e: Event)
    requires Inv(s) && Enabled(s, e)
    ensures Unstarted(Step(s, e).attempts) + Dispatches([e]) == Unstarted(s.attempts) + Claims([e])
  {
    if e.Claim? {
      assert Step(s, e).attempts[..|s.attempts|] == s.attempts;
    } else if AttemptOf(e).Some? {
      assert Coherent(s.attempts[e.i]);
      UnstartedUpdate(s.attempts, e.i, Step(s, e).attempts[e.i]);
    }
  }

  /** Each claim is dispatched at most once: what is dispatched was claimed and not dispatched before. */
  lemma {:induction false} DispatchesAreClaims(s: State, es: seq<Event>)
    requires Inv(s) && Possible(s, es)
    ensures Unstarted(Run(s, es).attempts) + Dispatches(es) == Unstarted(s.attempts) + Claims(es)
    decreases |es|
  {
    hide Inv, Step, Feasible, Unstarted;
    if es != [] {
      StepInv(s, es[0]);
      StepUnstarted(s, es[0]);
      DispatchesAreClaims(Step(s, es[0]), es[1..]);
    }
  }

  /** Between two operator retries a run is claimed no more often than it has attempts left. */
  lemma {:induction false} ClaimsAreBounded(s: State, es: seq<Event>)
    requires Inv(s) && Possible(s, es) && NoReset(es)
    ensures Run(s, es).row.attempts == s.row.attempts + Claims(es) <= s.row.maxAttempts == Run(s, es).row.maxAttempts
    decreases |es|
  {
    hide Inv, Numbered, OneAtATime, Feasible;
    if es == [] {
      assert RowInv(s.row) by { InvRow(s); }
    } else {
      StepInv(s, es[0]);
      ClaimsAreBounded(Step(s, es[0]), es[1..]);
      StepAttempts(s, es[0]);
    }
  }

  /** A new run is dispatched at most three times before an operator intervenes, by all workers together. */
  lemma DispatchBound(worker: WorkerId, now: Time, es: seq<Event>)
    requires Possible(Inserted(worker, now), es) && NoReset(es)
    ensures Dispatches(es) <= 1 + Claims(es) <= MAX_ATTEMPTS
  {
    hide Step, Feasible;
    var s := Inserted(worker, now);
    InsertedInv(worker, now);
    DispatchesAreClaims(s, es);
    ClaimsAreBounded(s, es);
    assert s.attempts[..0] == [] && Unstarted([]) == 0;
  }

  lemma InvRow(s: State)
    requires Inv(s)
    ensures RowInv(s.row)
  {
  }

  lemma StepAttempts(s: State, e: Event)
    requires Enabled(s, e) && !e.Reset?
    ensures Step(s, e).row.attempts == s.row.attempts + (if e.Claim? then 1 else 0)
    ensures Step(s, e).row.maxAttempts == s.row.maxAttempts
  {
  }

  // ---------- No stuck runs ----------

  predicate Terminal(row: JobRun) {
    row.status == Succeeded || row.status == DeadLettered
  }

  /** How many more times the row can change without an operator. */
  function Measure(row: JobRun): nat
    requires RowInv(row)
  {
    if Terminal(row) then 0 else 2 * (row.maxAttempts - row.attempts) + (if row.status == Running then 1 else 0)
  }

  /** A failed run has its retry time, an expired one is reclaimed or buried; whichever pass comes late enough acts. */
  lemma NotStuck(s: State, now: Time)
    requires Inv(s) && !Terminal(s.row)
    requires s.row.status == Failed ==> s.row.nextRetryAt.Some? ==> s.row.nextRetryAt.value <= now
    requires s.row.status == Running ==> s.row.leaseUntil.Some? ==> s.row.leaseUntil.value <= now
    ensures Eligible(s.row, now) != Exhausted(s.row, now)
    ensures Exhausted(s.row, now) ==> Step(s, Sweep(now)).row.status == DeadLettered
    ensures Eligible(s.row, now) ==> forall w :: Step(s, Claim(w, now)).row.status == Running
  {
  }

  lemma MeasureDecreases(s: State, e: Event)
    requires Inv(s) && Enabled(s, e) && !e.Reset? && Step(s, e).row != s.row
    ensures RowInv(s.row) && RowInv(Step(s, e).row)
    ensures !Terminal(s.row) && Measure(Step(s, e).row) < Measure(s.row)
  {
  }

  function Changes(s: State, es: seq<Event>): nat
    requires Possible(s, es)
    decreases |es|
  {
    if es == [] then 0 else (if Step(s, es[0]).row != s.row then 1 else 0) + Changes(Step(s, es[0]), es[1..])
  }

  /** Without the operator a row changes at most 2·max times, and then it is at rest. */
  lemma {:induction false} ChangesAreBounded(s: State, es: seq<Event>)
    requires Inv(s) && Possible(s, es) && NoReset(es)
    ensures RowInv(s.row) && RowInv(Run(s, es).row)
    ensures Changes(s, es) + Measure(Run(s, es).row) <= Measure(s.row) <= 2 * s.row.maxAttempts
    decreases |es|
  {
    hide Inv, Step, Feasible, RowInv, Measure;
    InvRow(s);
    if es == [] {
      MeasureBound(s.row);
    } else {
      StepInv(s, es[0]);
      if Step(s, es[0]).row != s.row { MeasureDecreases(s, es[0]); }
      MeasureBound(s.row);
      ChangesAreBounded(Step(s, es[0]), es[1..]);
    }
  }

  lemma MeasureBound(row: JobRun)
    requires RowInv(row)
    ensures Measure(row) <= 2 * row.maxAttempts
  {
  }

  lemma RestAfterAllChanges(s: State, es: seq<Event>)
    requires Inv(s) && Possible(s, es) && NoReset(es) && Changes(s, es) >= 2 * s.row.maxAttempts
    ensures Terminal(Run(s, es).row)
  {
    hide Inv, Step, Feasible, RowInv;
    ChangesAreBounded(s, es);
    InvRow(Run(s, es)) by { RunInv(s, es); }
    assert Measure(Run(s, es).row) == 0;
    RestingMeasure(Run(s, es).row);
  }

  lemma RestingMeasure(row: JobRun)
    requires RowInv(row) && Measure(row) == 0
    ensures Terminal(row)
  {
  }

  /** A terminal row changes only by the operator's retry, and a succeeded one never. */
  lemma TerminalStep(s: State, e: Event)
    requires Inv(s) && Enabled(s, e) && Terminal(s.row)
    ensures Step(s, e).row == s.row || (e.Reset? && s.row.status == DeadLettered)
  {
  }

  lemma {:induction false} SucceededForever(s: State, es: seq<Event>)
    requires Inv(s) && Possible(s, es) && s.row.status == Succeeded
    ensures Run(s, es).row == s.row
    decreases |es|
  {
    hide Inv, Step, Feasible;
    if es != [] {
      TerminalStep(s, es[0]);
      StepInv(s, es[0]);
      SucceededForever(Step(s, es[0]), es[1..]);
    }
  }

  /** A run is recorded as succeeded only after its latest attempt's dispatch returned. */
  lemma SucceededWasDispatched(worker: WorkerId, now: Time, es: seq<Event>)
    requires Possible(Inserted(worker, now), es) && Run(Inserted(worker, now), es).row.status == Succeeded
    ensures
      var attempts := Run(Inserted(worker, now), es).attempts;
      attempts != [] && attempts[|attempts| - 1].started && attempts[|attempts| - 1].result == Some(true)
  {
    hide Step, Feasible;
    InsertedInv(worker, now);
    RunInv(Inserted(worker, now), es);
    var attempts := Run(Inserted(worker, now), es).attempts;
    assert Coherent(attempts[|attempts| - 1]);
  }

  // ---------- What a claim protects ----------

  /**
   A claim makes the row its worker's for five minutes: until then no pass takes it, and
   from then on exactly one of the two ways of taking it is open, by the attempts used.
   */
  lemma ClaimProtects(s: State, worker: WorkerId, now: Time)
    requires Inv(s) && Enabled(s, Claim(worker, now))
    ensures
      var row := Step(s, Claim(worker, now)).row;
      && row.status == Running && row.claimedBy == Some(worker) && row.attempts == s.row.attempts + 1
      && (forall at :: Eligible(row, at) <==> now + 300_000 <= at && row.attempts < row.maxAttempts)
      && (forall at :: Exhausted(row, at) <==> now + 300_000 <= at && row.attempts >= row.maxAttempts)
  {
  }

  /**
   A process may die at any point of an attempt. Its row stays as it was, so its lease
   decides when another pass takes it.
   */
  lemma DeathKeepsTheRow(s: State, i: nat)
    requires i < |s.attempts|
    ensures s.attempts[i].phase.Waiting? || s.attempts[i].phase.Dispatching? || s.attempts[i].phase.Returned? ==>
      Enabled(s, Abandon(i)) && Step(s, Abandon(i)).row == s.row && Step(s, Abandon(i)).attempts[i].phase == Over
  {
  }

  /** The operator may retry exactly the failed and the dead-lettered runs. */
  lemma RetryOffered(s: State, now: Time)
    ensures Enabled(s, Reset(now)) <==> s.row.status == Failed || s.row.status == DeadLettered
  {
  }

  /** The operator's retry opens the row at once, with all attempts to come. */
  lemma ResetReopens(s: State, now: Time)
    requires Inv(s) && Enabled(s, Reset(now))
    ensures
      var row := Step(s, Reset(now)).row;
      row.attempts == 0 && row.claimedBy.None? && forall at :: Eligible(row, at) <==> now <= at
  {
  }

  // ---------- What a failure leads to ----------

  /**
   In every run a failed row has attempts left and a retry time, and a dead-lettered one
   has used up exactly its permitted attempts.
   */
  lemma RowsMean(worker: WorkerId, now: Time, es: seq<Event>)
    requires Possible(Inserted(worker, now), es)
    ensures
      var row := Run(Inserted(worker, now), es).row;
      && (row.status == Failed ==> row.attempts < 3 && row.nextRetryAt.Some?)
      && (row.status == DeadLettered ==> row.attempts == row.maxAttempts == 3)
      && (row.status == Running <==> row.claimedBy.Some?)
  {
    hide Step, Feasible;
    InsertedInv(worker, now);
    RunInv(Inserted(worker, now), es);
    MaxStays(Inserted(worker, now), es);
  }

  lemma {:induction false} MaxStays(s: State, es: seq<Event>)
    requires Possible(s, es)
    ensures Run(s, es).row.maxAttempts == s.row.maxAttempts
    decreases |es|
  {
    if es != [] { MaxStays(Step(s, es[0]), es[1..]); }
  }

  /**
   What recording the owner's failure leads to, in every state of every run: after the
   third attempt the run is dead-lettered, and no pass ever takes it; before that it fails,
   and a pass can claim it again exactly from 2, 4, 8, ... seconds on, an hour at most.
   */
  lemma FailureLeadsTo(s: State, i: nat, now: Time)
    requires Inv(s) && Owns(s, i) && s.attempts[i].phase == Returned(false)
    ensures
      var row := Step(s, Record(i, now)).row;
      var n := s.row.attempts;
      && row.attempts == n && row.maxAttempts == s.row.maxAttempts && row.claimedBy.None?
      && (n == s.row.maxAttempts ==>
            row.status == DeadLettered && forall at :: !Eligible(row, at) && !Exhausted(row, at))
      && (n < s.row.maxAttempts ==>
            && row.status == Failed
            && forall at :: Eligible(row, at) <==>
                 now + (if Power2(n) <= 3_600 then 1_000 * Power2(n) else 3_600_000) <= at)
  {
    hide Power2;
    GuardMeansOwner(s, i);
  }

  // ---------- The table's transactions are events ----------

  lemma RunNone(s: State)
    ensures Possible(s, []) && Run(s, []) == s
  {
  }

  lemma RunCons(s: State, e: Event, rest: seq<Event>)
    requires Enabled(s, e) && Possible(Step(s, e), rest)
    ensures Possible(s, [e] + rest) && Run(s, [e] + rest) == Run(Step(s, e), rest)
  {
    assert ([e] + rest)[1..] == rest;
  }

  /**
   What `ClaimRetries` does to a run, claimed or passed over, a run of events does: the
   row, and the one attempt that a claim adds.
   */
  lemma PassRefines(s: State, claimed: bool, worker: WorkerId, now: Time)
    requires claimed ==> Eligible(s.row, now) && AllOver(s.attempts, worker)
    ensures exists es ::
      && Possible(s, es)
      && Run(s, es).row == (if claimed then ClaimRun(s.row, worker, now) else SweepRun(s.row, now))
      && Run(s, es).attempts == s.attempts +
           (if claimed
            then [Attempt(worker, s.epoch, s.row.attempts + 1, s.row.maxAttempts, Waiting, false, None, {})]
            else [])
  {
    hide Possible, Run;
    RunNone(s);
    assert s.attempts + [] == s.attempts;
    if claimed {
      RunNone(Step(s, Claim(worker, now)));
      RunCons(s, Claim(worker, now), []);
    } else if Exhausted(s.row, now) {
      RunNone(Step(s, Sweep(now)));
      RunCons(s, Sweep(now), []);
    }
  }

  /** The event that writes an attempt's outcome, given the write's fate. */
  function Writing(i: nat, write: Answer, now: Time): Event {
    if write.Works? then Record(i, now) else RecordError(i, write.applied, now)
  }

  /**
   `JobTables.Execute` is a run of events, fate by fate: the same dispatch result, the
   same writes with the same fates, the same row. So the theorems about all runs of events
   hold of the code.
   */
  lemma ExecuteRefines(s: State, i: nat, run: ClaimedRun, dispatch: Answer, success: Answer, failure: Answer, now: Time)
    requires i < |s.attempts| && s.attempts[i].phase == Waiting
    requires run.attempts == s.attempts[i].number && run.maxAttempts == s.attempts[i].maxAttempts
    ensures exists es ::
      && Possible(s, es)
      && Run(s, es).row == Executed(s.row, s.attempts[i].worker, run, dispatch, success, failure, now)
      && |Run(s, es).attempts| == |s.attempts|
      && Run(s, es).attempts[i].phase == Over && Run(s, es).attempts[i].result == Some(dispatch.Works?)
  {
    hide Possible, Run, FailRun, SucceedRun;
    var s1 := Step(s, Start(i));
    var s2 := Step(s1, Return(i, dispatch.Works?));
    if dispatch.Works? {
      var e := Writing(i, success, now);
      var s3 := Step(s2, e);
      if success.Works? {
        RunNone(s3);
        RunCons(s2, e, []);
        RunCons(s1, Return(i, true), [e] + []);
        RunCons(s, Start(i), [Return(i, true)] + ([e] + []));
      } else {
        var f := Writing(i, failure, now);
        RunNone(Step(s3, f));
        RunCons(s3, f, []);
        RunCons(s2, e, [f] + []);
        RunCons(s1, Return(i, true), [e] + ([f] + []));
        RunCons(s, Start(i), [Return(i, true)] + ([e] + ([f] + [])));
      }
    } else {
      var f := Writing(i, failure, now);
      RunNone(Step(s2, f));
      RunCons(s2, f, []);
      RunCons(s1, Return(i, false), [f] + []);
      RunCons(s, Start(i), [Return(i, false)] + ([f] + []));
    }
  }

  // ---------- What breaks without one tick at a time ----------

  /** From `s`, some run leads to an event of one of the first `n` attempts that changes the row. */
  ghost predicate StaleWriteFollows(s: State, n: nat) {
    exists es, e ::
      && Possible(s, es) && Enabled(Run(s, es), e)
      && AttemptOf(e).Some? && AttemptOf(e).value < n
      && Step(Run(s, es), e).row != Run(s, es).row
  }

  /** A worker's identity passes the guard for its old attempt as well as for its new one. */
  lemma OldAttemptWrites(s: State, i: nat, now: Time)
    requires i < |s.attempts| && !Done(s.attempts[i])
    requires s.row.status == Running && s.row.claimedBy == Some(s.attempts[i].worker)
    ensures StaleWriteFollows(s, i + 1)
  {
    if s.attempts[i].phase != Over { OldAttemptActs(s, i, now); } else { OldWriteLands(s, i, now); }
  }

  lemma OldWriteLands(s: State, i: nat, now: Time)
    requires i < |s.attempts| && s.attempts[i].late != {}
    requires s.row.status == Running && s.row.claimedBy == Some(s.attempts[i].worker)
    ensures StaleWriteFollows(s, i + 1)
  {
    var ok := PickMember(s.attempts[i].late);
    RunNone(s);
    assert Step(s, Settle(i, ok, true, now)).row.status != Running;
    assert Enabled(Run(s, []), Settle(i, ok, true, now)) && AttemptOf(Settle(i, ok, true, now)) == Some(i);
  }

  lemma OldAttemptActs(s: State, i: nat, now: Time)
    requires i < |s.attempts| && s.attempts[i].phase != Over
    requires s.row.status == Running && s.row.claimedBy == Some(s.attempts[i].worker)
    ensures StaleWriteFollows(s, i + 1)
  {
    hide Possible, Run;
    var phase := s.attempts[i].phase;
    var returned :=
      if phase.Waiting? then Step(Step(s, Start(i)), Return(i, true))
      else if phase.Dispatching? then Step(s, Return(i, true))
      else s;
    var es :=
      if phase.Waiting? then [Start(i)] + ([Return(i, true)] + [])
      else if phase.Dispatching? then [Return(i, true)] + [] else [];
    RunNone(returned);
    if phase.Waiting? {
      RunCons(Step(s, Start(i)), Return(i, true), []);
      RunCons(s, Start(i), [Return(i, true)] + []);
    } else if phase.Dispatching? {
      RunCons(s, Return(i, true), []);
    }
    assert Possible(s, es) && Run(s, es) == returned;
    assert Step(returned, Record(i, now)).row.status != Running;
    assert Enabled(returned, Record(i, now)) && AttemptOf(Record(i, now)) == Some(i);
  }

  lemma StaleWriteOfMore(s: State, m: nat, n: nat)
    requires StaleWriteFollows(s, m) && m <= n
    ensures StaleWriteFollows(s, n)
  {
    hide Possible, Run, Step, Enabled;
  }

  /**
   Exactly when a claim keeps the fence: in every state of every run, a worker may claim
   without one of the earlier attempts ever changing the row again if and only if all its
   own earlier attempts are over, and so are their completion writes. Overlapping passes of
   one process, which share its identity, break that, and so does a write that lands late.
   */
  lemma ClaimKeepsFenceExactly(s: State, worker: WorkerId, now: Time)
    requires Inv(s) && Feasible(s, Claim(worker, now))
    ensures StaleWriteFollows(Step(s, Claim(worker, now)), |s.attempts|) <==> !AllOver(s.attempts, worker)
  {
    var after := Step(s, Claim(worker, now));
    if AllOver(s.attempts, worker) {
      StepInv(s, Claim(worker, now));
      forall es, e | Possible(after, es) && Enabled(Run(after, es), e) && AttemptOf(e).Some?
        && AttemptOf(e).value < |s.attempts|
        ensures Step(Run(after, es), e).row == Run(after, es).row
      {
        Fencing(after, es, e, AttemptOf(e).value);
      }
    } else {
      var i :| 0 <= i < |s.attempts| && s.attempts[i].worker == worker && !Done(s.attempts[i]);
      OldAttemptWrites(after, i, now);
      StaleWriteOfMore(after, i + 1, |s.attempts|);
    }
  }

  /**
   Two overlapping passes of one process share its identity. Here the first attempt's
   success is written onto a row the second attempt owns and is still dispatching.
   */
  lemma OverlapBreaksTheFence(w: WorkerId)
    ensures
      var s0 := Inserted(w, 0);
      var s1 := Step(Step(s0, Start(0)), Claim(w, LEASE_MS));
      && Feasible(s0, Start(0)) && Feasible(Step(s0, Start(0)), Claim(w, LEASE_MS)) && Feasible(s1, Start(1))
      && var s2 := Step(s1, Start(1));
      && Feasible(s2, Return(0, true))
      && var s3 := Step(s2, Return(0, true));
      && !Owns(s3, 0) && Feasible(s3, Record(0, LEASE_MS))
      && var s4 := Step(s3, Record(0, LEASE_MS));
      && s4.row.status == Succeeded && s4.attempts[1].phase == Dispatching && s4.attempts[1].result.None?
  {
  }

  /**
   One pass at a time, and a late write: recording the first attempt's success throws, its
   failure is recorded instead, the same process claims the retry, and then the first write
   lands on it.
   */
  lemma LateWriteBreaksTheFence(w: WorkerId)
    ensures
      var s0 := Inserted(w, 0);
      && Feasible(s0, Start(0)) && Feasible(Step(s0, Start(0)), Return(0, true))
      && var s1 := Step(Step(s0, Start(0)), Return(0, true));
      && Feasible(s1, RecordError(0, false, 0)) && Feasible(Step(s1, RecordError(0, false, 0)), Record(0, 0))
      && var s2 := Step(Step(s1, RecordError(0, false, 0)), Record(0, 0));
      && s2.row.status == Failed && s2.attempts[0].phase == Over && Feasible(s2, Claim(w, 3_600_000))
      && var s3 := Step(s2, Claim(w, 3_600_000));
      && !Owns(s3, 0) && Feasible(s3, Settle(0, true, true, 0))
      && var s4 := Step(s3, Settle(0, true, true, 0));
      && s4.row.status == Succeeded && s4.attempts[1].phase == Waiting
  {
  }
}
