/**
 A scheduled run that executes an automation action.

 The scheduler dispatches at least once and may dispatch twice at the same time; the
 action sends at most one POST. Here one run's machine drives calls on the action while
 any other calls, from other runs of the hourly job, go on beside it.
 */
module ScheduledAutomation {
  import opened Prelude
  import opened ExternalCalls
  import S = SchedulerMachine
  import A = Automation

  /** `calls` names the action call that each dispatched attempt made. */
  datatype State = State(run: S.State, action: A.State, calls: map<nat, nat>)

  datatype Event =
    | Schedule(e: S.Event)
    | Act(a: A.Event)
    | Dispatch(i: nat, answer: Answer)
    | Answered(i: nat)

  predicate Enabled(s: State, e: Event) {
    match e
    case Schedule(e) => !e.Start? && !e.Return? && S.Enabled(s.run, e)
    case Act(a) => A.Enabled(s.action, a)
    case Dispatch(i, answer) => S.Enabled(s.run, S.Start(i))
    case Answered(i) =>
      && i in s.calls && s.calls[i] < |s.action.calls| && s.action.calls[s.calls[i]].phase.Ended?
      && S.Enabled(s.run, S.Return(i, s.action.calls[s.calls[i]].phase.ok))
  }

  function Step(s: State, e: Event): State
    requires Enabled(s, e)
  {
    match e
    case Schedule(e) => s.(run := S.Step(s.run, e))
    case Act(a) => s.(action := A.Step(s.action, a))
    case Dispatch(i, answer) =>
      s.(run := S.Step(s.run, S.Start(i)), action := A.Step(s.action, A.Begin(answer)),
         calls := s.calls[i := |s.action.calls|])
    case Answered(i) => s.(run := S.Step(s.run, S.Return(i, s.action.calls[s.calls[i]].phase.ok)))
  }

  predicate Possible(s: State, es: seq<Event>)
    decreases |es|
  {
    es == [] || (Enabled(s, es[0]) && Possible(Step(s, es[0]), es[1..]))
  }

  function Run(s: State, es: seq<Event>): State
    requires Possible(s, es)
    decreases |es|
  {
    if es == [] then s else Run(Step(s, es[0]), es[1..])
  }

  ghost predicate SomeOk(run: S.State) {
    exists i :: 0 <= i < |run.attempts| && run.attempts[i].result == Some(true)
  }

  ghost predicate Inv(s: State) {
    S.Inv(s.run) && A.Inv(s.action) && (SomeOk(s.run) ==> s.action.status == A.Succeeded)
  }

  /** A new run of the hourly job may meet the action in any state earlier runs left. */
  lemma StartInv(w: S.Scheduler.WorkerId, now: S.Scheduler.Time, action: A.State)
    requires A.Inv(action)
    ensures Inv(State(S.Inserted(w, now), action, map[]))
  {
    S.InsertedInv(w, now);
  }

  lemma NoNewOk(run: S.State, e: S.Event)
    requires S.Inv(run) && S.Enabled(run, e) && (e.Return? ==> !e.ok)
    ensures SomeOk(S.Step(run, e)) ==> SomeOk(run)
  {
  }

  lemma StepInv(s: State, e: Event)
    requires Inv(s) && Enabled(s, e)
    ensures Inv(Step(s, e))
  {
    hide S.Inv, A.Inv, S.Step, A.Step, S.Enabled, A.Enabled, SomeOk;
    match e
    case Schedule(e) => S.StepInv(s.run, e); NoNewOk(s.run, e);
    case Act(a) =>
      A.StepInv(s.action, a);
      if s.action.status == A.Succeeded { A.SucceededStays(s.action, a); }
    case Dispatch(i, answer) =>
      S.StepInv(s.run, S.Start(i));
      NoNewOk(s.run, S.Start(i));
      BeginEnabled(s.action, answer);
      A.StepInv(s.action, A.Begin(answer));
      if s.action.status == A.Succeeded { A.SucceededStays(s.action, A.Begin(answer)); }
    case Answered(i) =>
      var ok := s.action.calls[s.calls[i]].phase.ok;
      S.StepInv(s.run, S.Return(i, ok));
      A.InvBounds(s.action);
      if !ok { NoNewOk(s.run, S.Return(i, ok)); }
  }

  lemma BeginEnabled(action: A.State, answer: Answer)
    ensures A.Enabled(action, A.Begin(answer))
  {
  }

  lemma {:induction false} RunInv(s: State, es: seq<Event>)
    requires Inv(s) && Possible(s, es)
    ensures Inv(Run(s, es))
    decreases |es|
  {
    hide Inv, Step;
    if es != [] {
      StepInv(s, es[0]);
      RunInv(Step(s, es[0]), es[1..]);
    }
  }

  /**
   A run recorded as succeeded means the action succeeded with exactly one POST, even
   when stale attempts of the run were still dispatching it and other runs raced with it.
   */
  lemma SucceededRunPostedOnce(w: S.Scheduler.WorkerId, now: S.Scheduler.Time, action: A.State, es: seq<Event>)
    requires A.Inv(action)
    requires var s := State(S.Inserted(w, now), action, map[]); Possible(s, es) && Run(s, es).run.row.status.Succeeded?
    ensures
      var s := State(S.Inserted(w, now), action, map[]);
      Run(s, es).action.status == A.Succeeded && Run(s, es).action.posts == 1
  {
    hide Step, Inv;
    var s := State(S.Inserted(w, now), action, map[]);
    StartInv(w, now, action);
    RunInv(s, es);
    SucceededMeansOne(Run(s, es));
  }

  lemma SucceededMeansOne(s: State)
    requires Inv(s) && s.run.row.status.Succeeded?
    ensures s.action.status == A.Succeeded && s.action.posts == 1
  {
  }

  /** Two attempts of one run can be inside `executeApproved` at once: the lease is not renewed while it runs. */
  lemma DispatchesOverlap(w: S.Scheduler.WorkerId, other: S.Scheduler.WorkerId, action: A.State)
    requires w != other
    ensures
      var es := [Dispatch(0, Works), Schedule(S.Claim(other, LEASE_MS)), Dispatch(1, Works)];
      var s := State(S.Inserted(w, 0), action, map[]);
      && Possible(s, es) && |Run(s, es).run.attempts| == 2
      && Run(s, es).run.attempts[0].phase == S.Dispatching && Run(s, es).run.attempts[1].phase == S.Dispatching
  {
    var s := State(S.Inserted(w, 0), action, map[]);
    var e0, e1, e2 := Dispatch(0, Works), Schedule(S.Claim(other, LEASE_MS)), Dispatch(1, Works);
    var s1 := Step(s, e0);
    assert s1.run.attempts == [S.Inserted(w, 0).attempts[0].(phase := S.Dispatching, started := true)];
    var s2 := Step(s1, e1);
    var s3 := Step(s2, e2);
    var es := [e0, e1, e2];
    assert es[1..] == [e1, e2] && [e1, e2][1..] == [e2] && [e2][1..] == [];
    assert Possible(s3, []) && Run(s3, []) == s3;
    assert Possible(s2, [e2]) && Run(s2, [e2]) == s3;
    assert Possible(s1, [e1, e2]) && Run(s1, [e1, e2]) == s3;
  }
}
