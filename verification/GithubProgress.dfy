/**
 When a change request can still get its pull request: an undisturbed retry finishes it
 whatever earlier attempts wrote, and only a request that is stuck in `executing`, asks for
 a path that is not permitted, or has no changes, never gets there.
 */
module GithubProgress {
  import opened Prelude
  import opened ExternalCalls
  import opened GithubChange
  import opened GithubMachine

  ghost predicate Reaches(r: Request, s: State, t: State) {
    exists es :: Possible(r, s, es) && Run(r, s, es) == t
  }

  lemma {:induction false} RunOn(r: Request, s: State, es: seq<Event>, more: seq<Event>)
    requires Possible(r, s, es) && Possible(r, Run(r, s, es), more)
    ensures Possible(r, s, es + more) && Run(r, s, es + more) == Run(r, Run(r, s, es), more)
    decreases |es|
  {
    hide Step, Enabled;
    if es == [] {
      assert es + more == more;
    } else {
      RunOn(r, Step(r, s, es[0]), es[1..], more);
      assert (es + more)[0] == es[0] && (es + more)[1..] == es[1..] + more;
    }
  }

  lemma ReachesItself(r: Request, s: State)
    ensures Reaches(r, s, s)
  {
    assert Possible(r, s, []) && Run(r, s, []) == s;
  }

  lemma ReachesStep(r: Request, s: State, t: State, e: Event)
    requires Reaches(r, s, t) && Enabled(t, e)
    ensures Reaches(r, s, Step(r, t, e))
  {
    hide Step, Enabled;
    var es :| Possible(r, s, es) && Run(r, s, es) == t;
    assert Possible(r, Step(r, t, e), []) && [e][1..] == [];
    assert Possible(r, t, [e]) && Run(r, t, [e]) == Step(r, t, e);
    RunOn(r, s, es, [e]);
  }

  lemma ReachesInv(r: Request, s: State, t: State)
    requires Reaches(r, s, t) && Inv(r, s)
    ensures Inv(r, t)
  {
    hide Inv, Step, Enabled;
    var es :| Possible(r, s, es) && Run(r, s, es) == t;
    RunInv(r, s, es);
  }

  /** The latest call's next step, for the fate its call met. */
  lemma Moves(r: Request, s0: State, s: State, calls: seq<Phase>, phase: Phase, answer: Answer) returns (t: State)
    requires Reaches(r, s0, s) && s.calls == calls + [phase] && !phase.Ended?
    ensures Reaches(r, s0, t)
    ensures var (after, next) := Move(r, s, |calls|, answer); t == after.(calls := calls + [next])
  {
    hide Reaches, Move;
    ReachesStep(r, s0, s, Go(|calls|, answer));
    t := Step(r, s, Go(|calls|, answer));
    MoveKeepsCalls(r, s, |calls|, answer);
    assert s.calls[|calls| := Move(r, s, |calls|, answer).1] == calls + [Move(r, s, |calls|, answer).1];
  }

  // ---------- An undisturbed execution ----------

  predicate AllPermitted(r: Request) {
    forall i :: 0 <= i < |r.changes| ==> r.changes[i].permitted
  }

  /** The branch as the first write finds it, created if need be. */
  lemma FindsBranch(r: Request, s0: State, s: State, calls: seq<Phase>) returns (t: State, start: Tree)
    requires Reaches(r, s0, s) && s.calls == calls + [CheckingBranch]
    ensures Reaches(r, s0, t) && t.calls == calls + [NextFile(r, 0, start)]
    ensures t.remote.branch == Some(start) && t.status == s.status && t.remote.pulls == s.remote.pulls
  {
    hide Reaches;
    t := Moves(r, s0, s, calls, CheckingBranch, Works);
    if s.remote.branch.Some? { return t, s.remote.branch.value; }
    t := Moves(r, s0, t, calls, CheckingBase, Works);
    t := Moves(r, s0, t, calls, CreatingBranch, Works);
    start := r.base;
  }

  lemma {:induction false} WritesFiles(r: Request, s0: State, s: State, calls: seq<Phase>, k: nat, start: Tree)
    returns (t: State)
    requires AllPermitted(r) && k <= |r.changes| && s.remote.branch.Some?
    requires Reaches(r, s0, s) && s.calls == calls + [NextFile(r, k, start)]
    ensures Reaches(r, s0, t) && t.calls == calls + [Listing]
    ensures t.remote.branch.Some? && t.status == s.status && t.remote.pulls == s.remote.pulls
    decreases |r.changes| - k
  {
    hide Reaches;
    t := s;
    if k < |r.changes| {
      t := Moves(r, s0, s, calls, Looking(k, start), Works);
      t := Moves(r, s0, t, calls, Writing(k, start, r.changes[k].path in s.remote.branch.value), Works);
      t := WritesFiles(r, s0, t, calls, k + 1, start);
    }
  }

  lemma OpensPull(r: Request, s0: State, s: State, calls: seq<Phase>) returns (t: State)
    requires Reaches(r, s0, s) && s.calls == calls + [Listing] && s.remote.branch.Some? && r.changes != []
    ensures Reaches(r, s0, t) && t.calls == calls + [Ended(true)] && t.status == PullRequestOpened
  {
    hide Reaches;
    t := Moves(r, s0, s, calls, Listing, Works);
    if s.remote.pulls == 0 { t := Moves(r, s0, t, calls, Opening, Works); }
    t := Moves(r, s0, t, calls, Saving, Works);
    t := Moves(r, s0, t, calls, Disabling, Works);
  }

  /** Whatever earlier attempts wrote, an undisturbed retry of an approved request opens its pull request. */
  lemma RetrySucceeds(r: Request, s0: State, s: State) returns (t: State)
    requires Reaches(r, s0, s) && s.status == Approved && AllPermitted(r) && r.changes != []
    ensures Reaches(r, s0, t) && t.status == PullRequestOpened && t.calls == s.calls + [Ended(true)]
    ensures Inv(r, s0) ==> t.remote == Remote(Some(Overlay(r.base, r.changes)), 1) && !t.scheduled
  {
    hide Reaches, Inv, Overlay;
    ReachesStep(r, s0, s, Begin(Works));
    t := Step(r, s, Begin(Works));
    t := Moves(r, s0, t, s.calls, Preparing, Works);
    var start;
    t, start := FindsBranch(r, s0, t, s.calls);
    t := WritesFiles(r, s0, t, s.calls, 0, start);
    t := OpensPull(r, s0, t, s.calls);
    if Inv(r, s0) {
      ReachesInv(r, s0, t);
      InvConverged(r, t, |s.calls|);
    }
  }

  // ---------- A change that is not permitted ----------

  /** No execution is past change `b`, and no pull request was recorded. */
  ghost predicate Blocked(s: State, b: nat) {
    && s.status != PullRequestOpened
    && forall i :: 0 <= i < |s.calls| ==> ShortOf(s.calls[i], b)
  }

  predicate ShortOf(phase: Phase, b: nat) {
    match phase
    case Looking(k, _) => k <= b
    case Writing(k, _, _) => k < b
    case Listing | Opening | Saving | Disabling => false
    case _ => true
  }

  lemma StepBlocked(r: Request, s: State, e: Event, b: nat)
    requires b < |r.changes| && !r.changes[b].permitted && Blocked(s, b) && Enabled(s, e)
    ensures Blocked(Step(r, s, e), b)
  {
    if e.Go? { assert ShortOf(s.calls[e.i], b); }
  }

  lemma {:induction false} RunBlocked(r: Request, s: State, es: seq<Event>, b: nat)
    requires b < |r.changes| && !r.changes[b].permitted && Blocked(s, b) && Possible(r, s, es)
    ensures Blocked(Run(r, s, es), b)
    decreases |es|
  {
    hide Blocked, Step, Enabled;
    if es != [] {
      PossibleHead(r, s, es);
      StepBlocked(r, s, es[0], b);
      RunBlocked(r, Step(r, s, es[0]), es[1..], b);
    }
  }

  lemma PossibleHead(r: Request, s: State, es: seq<Event>)
    requires Possible(r, s, es) && es != []
    ensures Enabled(s, es[0]) && Possible(r, Step(r, s, es[0]), es[1..])
  {
  }

  // ---------- A request without changes ----------

  /** No pull request was opened or recorded, and no execution believes there is one. */
  ghost predicate Unopened(s: State) {
    && s.status != PullRequestOpened && s.remote.pulls == 0
    && forall i :: 0 <= i < |s.calls| ==> !s.calls[i].Saving? && !s.calls[i].Disabling?
  }

  lemma StepUnopened(r: Request, s: State, e: Event)
    requires r.changes == [] && Unopened(s) && Enabled(s, e)
    ensures Unopened(Step(r, s, e))
  {
    if e.Go? { assert !s.calls[e.i].Saving? && !s.calls[e.i].Disabling?; }
  }

  /** GitHub refuses a pull request without commits, so a request without changes never gets one. */
  lemma {:induction false} RunUnopened(r: Request, s: State, es: seq<Event>)
    requires r.changes == [] && Unopened(s) && Possible(r, s, es)
    ensures Unopened(Run(r, s, es))
    decreases |es|
  {
    hide Unopened, Step, Enabled;
    if es != [] {
      PossibleHead(r, s, es);
      StepUnopened(r, s, es[0]);
      RunUnopened(r, Step(r, s, es[0]), es[1..]);
    }
  }

  // ---------- Exactly which requests can still succeed ----------

  ghost predicate CanSucceed(r: Request, s: State) {
    exists t :: Reaches(r, s, t) && t.status == PullRequestOpened
  }

  /** An approval away from being executed, or there already. */
  lemma Approves(r: Request, s: State) returns (t: State)
    requires s.status == Draft || s.status == Approved
    ensures Reaches(r, s, t) && t.status == Approved
  {
    ReachesItself(r, s);
    t := s;
    if s.status == Draft {
      ReachesStep(r, s, s, Approve);
      t := Step(r, s, Approve);
    }
  }

  /**
   Exactly which requests can still succeed once nobody is executing them: those whose
   pull request is recorded already, and those that are not stuck in `executing`, ask for
   permitted paths only, and have changes at all. The retries cover every failure inside
   the `try`, and nothing else.
   */
  lemma CanSucceedExactly(r: Request, s: State)
    requires Inv(r, s) && Quiet(s)
    ensures CanSucceed(r, s) <==>
      s.status == PullRequestOpened || (s.status != Executing && AllPermitted(r) && r.changes != [])
  {
    hide Step, Enabled;
    if s.status == PullRequestOpened {
      ReachesItself(r, s);
    } else if s.status == Executing {
      forall t | Reaches(r, s, t)
        ensures t.status == Executing
      {
        var es :| Possible(r, s, es) && Run(r, s, es) == t;
        Stranded(r, s, es);
      }
    } else if r.changes == [] {
      forall t | Reaches(r, s, t)
        ensures t.status != PullRequestOpened
      {
        var es :| Possible(r, s, es) && Run(r, s, es) == t;
        assert Unopened(s);
        RunUnopened(r, s, es);
      }
    } else if AllPermitted(r) {
      var approved := Approves(r, s);
      var t := RetrySucceeds(r, s, approved);
    } else {
      var b :| 0 <= b < |r.changes| && !r.changes[b].permitted;
      forall t | Reaches(r, s, t)
        ensures t.status != PullRequestOpened
      {
        var es :| Possible(r, s, es) && Run(r, s, es) == t;
        assert Blocked(s, b);
        RunBlocked(r, s, es, b);
      }
    }
  }
}
