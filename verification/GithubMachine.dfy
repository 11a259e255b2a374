/**
 Any number of executors of one change request, interleaved call by call.

 The scheduler queues the request hourly and the queue retries failed jobs, so executions
 may start at any time, beside each other, and may crash between any two calls.
 */
module GithubMachine {
  import opened Prelude
  import opened ExternalCalls
  import opened GithubChange

  datatype Request = Request(base: Tree, changes: seq<Change>)

  /** Where an execution is; `start` is the branch's tree when its writes began. */
  datatype Phase =
    | Preparing
    | CheckingBranch
    | CheckingBase
    | CreatingBranch
    | Looking(k: nat, start: Tree)
    | Writing(k: nat, start: Tree, shaKnown: bool)
    | Listing
    | Opening
    | Saving
    | Disabling
    | Handling
    | Ended(ok: bool)

  datatype State = State(status: Status, scheduled: bool, remote: Remote, calls: seq<Phase>)

  datatype Event =
    | Approve
    | Begin(answer: Answer)
    | Go(i: nat, answer: Answer)
    | Crash(i: nat)

  predicate Enabled(s: State, e: Event) {
    match e
    case Approve => s.status == Draft
    case Begin(_) => true
    case Go(i, _) => i < |s.calls| && !s.calls[i].Ended?
    case Crash(i) => i < |s.calls| && !s.calls[i].Ended?
  }

  /** The phase after change `k` was written, or before the first. */
  function NextFile(r: Request, k: nat, start: Tree): Phase {
    if k < |r.changes| then Looking(k, start) else Listing
  }

  /** What one call of execution `i` does, given the call's fate. */
  function Move(r: Request, s: State, i: nat, answer: Answer): (State, Phase)
    requires i < |s.calls|
  {
    match s.calls[i]
    // `repository` and `token` are read before the `try`: their failure is not handled.
    case Preparing => (s, if answer.Works? then CheckingBranch else Ended(false))
    // Any error here reads as "no branch".
    case CheckingBranch =>
      (s, if answer.Works? && s.remote.branch.Some? then NextFile(r, 0, s.remote.branch.value) else CheckingBase)
    case CheckingBase => (s, if answer.Works? then CreatingBranch else Handling)
    case CreatingBranch =>
      (s.(remote := CreateBranch(s.remote, r.base, answer)),
       if CreateWorks(s.remote, answer) then NextFile(r, 0, r.base) else Handling)
    case Looking(k, start) =>
      (s, if k < |r.changes| && r.changes[k].permitted && s.remote.branch.Some?
          then Writing(k, start, answer.Works? && r.changes[k].path in s.remote.branch.value)
          else Handling)
    case Writing(k, start, shaKnown) =>
      if k < |r.changes| then
        (s.(remote := PutFile(s.remote, r.changes[k], shaKnown, answer)),
         if PutAccepted(s.remote, r.changes[k], shaKnown) && answer.Works? then NextFile(r, k + 1, start) else Handling)
      else (s, Handling)
    case Listing => (s, if answer.Throws? then Handling else if s.remote.pulls == 0 then Opening else Saving)
    case Opening =>
      (s.(remote := OpenPull(s.remote, r.changes, answer)),
       if PullAccepted(s.remote, r.changes) && answer.Works? then Saving else Handling)
    case Saving =>
      (s.(status := if answer.Took() then PullRequestOpened else s.status),
        if answer.Works? then Disabling else Handling)
    case Disabling =>
      (s.(scheduled := if answer.Took() then false else s.scheduled), if answer.Works? then Ended(true) else Handling)
    case Handling => (s.(status := if answer.Took() then Approved else s.status), Ended(false))
    case Ended(ok) => (s, Ended(ok))
  }

  function Step(r: Request, s: State, e: Event): State
    requires Enabled(s, e)
  {
    match e
    case Approve => s.(status := Approved, scheduled := true)
    case Begin(answer) =>
      var claimed := answer.Took() && s.status == Approved;
      s.(status := if claimed then Executing else s.status,
         calls := s.calls + [if claimed && answer.Works? then Preparing else Ended(false)])
    case Go(i, answer) =>
      var (after, phase) := Move(r, s, i, answer);
      after.(calls := s.calls[i := phase])
    case Crash(i) => s.(calls := s.calls[i := Ended(false)])
  }

  predicate Possible(r: Request, s: State, es: seq<Event>)
    decreases |es|
  {
    es == [] || (Enabled(s, es[0]) && Possible(r, Step(r, s, es[0]), es[1..]))
  }

  function Run(r: Request, s: State, es: seq<Event>): State
    requires Possible(r, s, es)
    decreases |es|
  {
    if es == [] then s else Run(r, Step(r, s, es[0]), es[1..])
  }

  const CREATED: State := State(Draft, false, Remote(None, 0), [])

  // ---------- The invariant of every run ----------

  /** The outcome every completed execution reaches. */
  function Final(r: Request): Tree {
    Overlay(r.base, r.changes)
  }

  /** What the executing call has achieved so far. */
  ghost predicate Progress(r: Request, s: State, phase: Phase) {
    match phase
    case Preparing | CheckingBranch | CheckingBase | CreatingBranch => s.status == Executing
    case Looking(k, start) => s.status == Executing && k < |r.changes| && Written(r, s.remote, k, start)
    case Writing(k, start, shaKnown) => s.status == Executing && k < |r.changes| && Written(r, s.remote, k, start)
    case Listing => s.status == Executing && s.remote.branch == Some(Final(r))
    case Opening => s.status == Executing && s.remote == Remote(Some(Final(r)), 0)
    case Saving => s.status == Executing && s.remote == Remote(Some(Final(r)), 1)
    case Disabling => s.status == PullRequestOpened && s.remote == Remote(Some(Final(r)), 1)
    case Ended(true) => s.status == PullRequestOpened && s.remote == Remote(Some(Final(r)), 1) && !s.scheduled
    case _ => true
  }

  ghost predicate Written(r: Request, remote: Remote, k: nat, start: Tree)
    requires k <= |r.changes|
  {
    AgreeOff(start, r.base, Paths(r.changes)) && remote.branch == Some(Overlay(start, r.changes[..k]))
  }

  ghost predicate HeldBy(r: Request, s: State, h: nat) {
    && h < |s.calls| && Progress(r, s, s.calls[h]) && s.status in {Executing, PullRequestOpened}
    && forall i :: 0 <= i < |s.calls| && i != h ==> s.calls[i] == Ended(false)
  }

  ghost predicate Inv(r: Request, s: State) {
    && Tidy(s.remote, r.base, r.changes)
    && if s.status == Draft || s.status == Approved
       then forall i :: 0 <= i < |s.calls| ==> s.calls[i] == Ended(false)
       else exists h :: HeldBy(r, s, h)
  }

  lemma FilesWritten(r: Request, remote: Remote, k: nat, start: Tree)
    requires k <= |r.changes| && Written(r, remote, k, start)
    ensures k == |r.changes| ==> remote.branch == Some(Final(r))
  {
    if k == |r.changes| {
      assert r.changes[..k] == r.changes;
      OverlayConverges(start, r.base, r.changes);
    }
  }

  /** The writes begin on a branch that differs from the base only where earlier attempts wrote. */
  lemma BeginWriting(r: Request, s: State, start: Tree)
    requires s.status == Executing && s.remote.branch == Some(start) && AgreeOff(start, r.base, Paths(r.changes))
    ensures Progress(r, s, NextFile(r, 0, start))
  {
    assert r.changes[..0] == [];
    FilesWritten(r, s.remote, 0, start);
  }

  lemma WriteOne(r: Request, s: State, k: nat, start: Tree, shaKnown: bool, answer: Answer)
    requires Progress(r, s, Writing(k, start, shaKnown)) && Tidy(s.remote, r.base, r.changes)
    ensures
      var after := s.(remote := PutFile(s.remote, r.changes[k], shaKnown, answer));
      && Tidy(after.remote, r.base, r.changes)
      && (PutAccepted(s.remote, r.changes[k], shaKnown) && answer.Works? ==>
        Progress(r, after, NextFile(r, k + 1, start)))
  {
    hide Overlay, AgreeOff, Paths;
    OverlaySnoc(start, r.changes, k);
    OverlayAgreesOff(start, r.base, r.changes, k + 1);
    var after := PutFile(s.remote, r.changes[k], shaKnown, answer);
    if PutAccepted(s.remote, r.changes[k], shaKnown) && answer.Works? {
      FilesWritten(r, after, k + 1, start);
    }
  }

  lemma MoveProgress(r: Request, s: State, h: nat, answer: Answer)
    requires Tidy(s.remote, r.base, r.changes) && HeldBy(r, s, h) && !s.calls[h].Ended?
    ensures
      var (after, phase) := Move(r, s, h, answer);
      && Tidy(after.remote, r.base, r.changes)
      && (after.status == Approved ==> phase == Ended(false))
      && (after.status != Approved ==> after.status in {Executing, PullRequestOpened} && Progress(r, after, phase))
  {
    hide Overlay, AgreeOff, Paths;
    match s.calls[h]
    case CheckingBranch =>
      if answer.Works? && s.remote.branch.Some? { BeginWriting(r, s, s.remote.branch.value); }
    case CreatingBranch =>
      AgreesWithItself(r.base, r.changes);
      if CreateWorks(s.remote, answer) {
        BeginWriting(r, s.(remote := CreateBranch(s.remote, r.base, answer)), r.base);
      }
    case Writing(k, start, shaKnown) => WriteOne(r, s, k, start, shaKnown, answer);
    case _ =>
  }

  lemma StepInv(r: Request, s: State, e: Event)
    requires Inv(r, s) && Enabled(s, e)
    ensures Inv(r, Step(r, s, e))
  {
    hide Move, Tidy, Progress;
    if s.status == Draft || s.status == Approved {
      if e.Begin? && Step(r, s, e).status == Executing {
        NewHolder(r, s, e);
      }
    } else {
      var h: nat :| HeldBy(r, s, h);
      match e
      case Approve =>
      case Begin(_) => assert HeldBy(r, Step(r, s, e), h) by { SameProgress(r, s, Step(r, s, e), s.calls[h]); }
      case Crash(i) => CrashHeld(r, s, i, h);
      case Go(i, answer) =>
        assert i == h;
        MoveProgress(r, s, h, answer);
        MoveKeepsCalls(r, s, h, answer);
        var (after, phase) := Move(r, s, h, answer);
        if after.status != Approved {
          SameProgress(r, after, Step(r, s, e), phase);
          assert HeldBy(r, Step(r, s, e), h);
        }
    }
  }

  lemma NewHolder(r: Request, s: State, e: Event)
    requires Inv(r, s) && s.status == Approved && e.Begin? && Step(r, s, e).status == Executing
    ensures HeldBy(r, Step(r, s, e), |s.calls|)
  {
  }

  lemma SameProgress(r: Request, s: State, t: State, phase: Phase)
    requires Progress(r, s, phase) && t == s.(calls := t.calls)
    ensures Progress(r, t, phase)
  {
  }

  lemma MoveKeepsCalls(r: Request, s: State, h: nat, answer: Answer)
    requires h < |s.calls|
    ensures Move(r, s, h, answer).0.calls == s.calls
  {
  }

  lemma CrashHeld(r: Request, s: State, i: nat, h: nat)
    requires HeldBy(r, s, h) && Enabled(s, Crash(i))
    ensures HeldBy(r, Step(r, s, Crash(i)), h)
  {
  }

  lemma {:induction false} RunInv(r: Request, s: State, es: seq<Event>)
    requires Inv(r, s) && Possible(r, s, es)
    ensures Inv(r, Run(r, s, es))
    decreases |es|
  {
    hide Inv, Step;
    if es != [] {
      StepInv(r, s, es[0]);
      RunInv(r, Step(r, s, es[0]), es[1..]);
    }
  }

  lemma CreatedInv(r: Request)
    ensures Inv(r, CREATED)
  {
  }

  // ---------- Exclusion and convergence ----------

  predicate Active(s: State, i: nat) {
    i < |s.calls| && !s.calls[i].Ended?
  }

  lemma InvExcludes(r: Request, s: State, i: nat, j: nat)
    requires Inv(r, s) && Active(s, i) && Active(s, j)
    ensures i == j && s.status in {Executing, PullRequestOpened}
  {
  }

  lemma InvConverged(r: Request, s: State, i: nat)
    requires Inv(r, s) && i < |s.calls| && s.calls[i] == Ended(true)
    ensures s.status == PullRequestOpened && !s.scheduled && s.remote == Remote(Some(Final(r)), 1)
    ensures forall j :: !Active(s, j)
  {
  }

  /** At most one execution is ever between its claim and its release. */
  lemma Exclusion(r: Request, es: seq<Event>, i: nat, j: nat)
    requires Possible(r, CREATED, es) && Active(Run(r, CREATED, es), i) && Active(Run(r, CREATED, es), j)
    ensures i == j
  {
    hide Inv, Step, Active;
    CreatedInv(r);
    RunInv(r, CREATED, es);
    InvExcludes(r, Run(r, CREATED, es), i, j);
  }

  /**
   However many executions failed part-way before it, and whatever came after it, once
   one has succeeded the branch is the base overlaid with the changes in order, exactly
   one pull request is open, and nothing is left scheduled or running.
   */
  lemma Convergence(r: Request, es: seq<Event>, i: nat)
    requires Possible(r, CREATED, es) && var s := Run(r, CREATED, es); i < |s.calls| && s.calls[i] == Ended(true)
    ensures
      var s := Run(r, CREATED, es);
      && s.status == PullRequestOpened && !s.scheduled && s.remote == Remote(Some(Overlay(r.base, r.changes)), 1)
      && forall j :: !Active(s, j)
  {
    hide Inv, Step, Active;
    CreatedInv(r);
    RunInv(r, CREATED, es);
    InvConverged(r, Run(r, CREATED, es), i);
  }

  /**
   Failed attempts included, only the request's own paths ever differ from the base, and
   one pull request at most is open.
   */
  lemma NothingElseTouched(r: Request, es: seq<Event>)
    requires Possible(r, CREATED, es)
    ensures
      var remote := Run(r, CREATED, es).remote;
      remote.pulls <= 1 && (remote.branch.Some? ==> AgreeOff(remote.branch.value, r.base, Paths(r.changes)))
  {
    hide Step, AgreeOff, Paths, HeldBy;
    CreatedInv(r);
    RunInv(r, CREATED, es);
  }

  // ---------- What the retries do not cover ----------

  predicate Quiet(s: State) {
    forall i :: 0 <= i < |s.calls| ==> s.calls[i].Ended?
  }

  lemma QuietStep(r: Request, s: State, e: Event)
    requires s.status == Executing && Quiet(s) && Enabled(s, e)
    ensures Quiet(Step(r, s, e)) && Step(r, s, e).status == Executing && Step(r, s, e).remote == s.remote
  {
  }

  /**
   A request whose execution crashed, or failed before its `try`, stays `executing`:
   no later execution ever touches it, although the error handler's comment counts on retries.
   */
  lemma {:induction false} Stranded(r: Request, s: State, es: seq<Event>)
    requires s.status == Executing && Quiet(s) && Possible(r, s, es)
    ensures Run(r, s, es).status == Executing && Run(r, s, es).remote == s.remote
    decreases |es|
  {
    hide Step, Quiet;
    if es != [] {
      QuietStep(r, s, es[0]);
      Stranded(r, Step(r, s, es[0]), es[1..]);
    }
  }

  /** One failed token request is enough to strand a request. */
  lemma TokenFailureStrands(r: Request)
    ensures
      var es := [Approve, Begin(Works), Go(0, Throws(false))];
      && Possible(r, CREATED, es)
      && Run(r, CREATED, es).status == Executing && Quiet(Run(r, CREATED, es))
  {
  }
}
