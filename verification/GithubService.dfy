/**
 The executor of an approved change request, as the source writes it, run against calls
 that may fail before or after they took effect.

 Every execution is shown to be a run of `GithubMachine`'s events; what that machine's
 theorems say of all runs then holds of the code. The ghost `calls` are the executions
 before this one.
 */
module GithubService {
  import opened Prelude
  import opened ExternalCalls
  import opened GithubChange
  import opened GithubMachine
  import opened GithubProgress

  /** The claim: a new call that holds the request, or ends at once. */
  lemma Starts(r: Request, s: State, answer: Answer) returns (t: State)
    ensures Reaches(r, s, t) && t == Step(r, s, Begin(answer))
  {
    ReachesItself(r, s);
    ReachesStep(r, s, s, Begin(answer));
    t := Step(r, s, Begin(answer));
  }

  /**
   When a call that threw leaves the request approved, by the fates of its calls number
   `first` to `past - 1`: its claim had no effect, or the claim and the read before the
   `try` worked and the last call, the error handler's write, took effect.
   */
  predicate LeftApproved(fate: nat -> Answer, first: nat, past: nat) {
    || !fate(first).Took()
    || (fate(first).Works? && fate(first + 1).Works? && past > 0 && fate(past - 1).Took())
  }

  // ---------- Exactly which attempts succeed ----------

  /**
   Change `k` is written, its lookup being call `at + 2k` and its write the next: the path is
   permitted, the write works, and the lookup worked unless there was no file to be found.
   */
  predicate FileGoes(changes: seq<Change>, start: Tree, fate: nat -> Answer, at: nat, k: nat)
    requires k < |changes|
  {
    && changes[k].permitted && fate(at + 2 * k + 1).Works?
    && (fate(at + 2 * k).Works? || changes[k].path !in Overlay(start, changes[..k]))
  }

  ghost predicate FilesGo(changes: seq<Change>, start: Tree, fate: nat -> Answer, at: nat) {
    forall k :: 0 <= k < |changes| ==> FileGoes(changes, start, fate, at, k)
  }

  /** From call `at` on: the list of pull requests, opening one if there is none, and the two writes after it. */
  predicate PullGoes(changes: seq<Change>, pulls: nat, fate: nat -> Answer, at: nat) {
    && fate(at).Works? && (pulls == 0 ==> changes != [] && fate(at + 1).Works?)
    && var next := if pulls == 0 then at + 2 else at + 1;
    && fate(next).Works? && fate(next + 1).Works?
  }

  /** The branch is found by call `at`; or there is none, and the base is there and the branch is created. */
  predicate BranchGoes(remote: Remote, fate: nat -> Answer, at: nat) {
    if remote.branch.Some? then fate(at).Works? else fate(at + 1).Works? && fate(at + 2).Works?
  }

  /**
   An attempt from call `at` on succeeds. A failed check for an existing branch does not
   stop at the check, but the branch can then not be created.
   */
  ghost predicate AttemptGoes(r: Request, remote: Remote, fate: nat -> Answer, at: nat) {
    && BranchGoes(remote, fate, at)
    && var first := if remote.branch.Some? then at + 1 else at + 3;
    && FilesGo(r.changes, remote.branch.Or(r.base), fate, first)
    && PullGoes(r.changes, remote.pulls, fate, first + 2 * |r.changes|)
  }

  lemma NothingWritten(start: Tree, changes: seq<Change>)
    ensures Overlay(start, changes[..0]) == start
  {
    assert changes[..0] == [];
  }

  class ChangeService {
    var status: Status
    var scheduled: bool
    var remote: Remote
    const request: Request

    constructor (request: Request)
      ensures this.request == request && View([]) == CREATED
    {
      this.request := request;
      status, scheduled, remote := Draft, false, Remote(None, 0);
    }

    /** The machine's state, with the executions so far. */
    ghost function View(calls: seq<Phase>): State
      reads this
    {
      State(status, scheduled, remote, calls)
    }

    method ApproveAndExecute(ghost calls: seq<Phase>) returns (ok: bool)
      modifies this
      ensures ok <==> old(status) == Draft
      ensures View(calls) == if ok then Step(request, old(View(calls)), Approve) else old(View(calls))
      ensures ok ==> status == Approved && scheduled && remote == old(remote)
    {
      ok := status == Draft;
      if ok { status, scheduled := Approved, true; }
    }

    /**
     One execution. It is a run of the machine; so from any state the machine can be in,
     an execution that returns has left the branch equal to the base overlaid with the
     changes and one pull request open, and one that throws keeps the invariant. It leaves
     the request approved for a retry exactly as `LeftApproved` says, and returns exactly
     when `AttemptGoes` says.
     */
    method ExecuteApproved(outside: Outside, ghost calls: seq<Phase>) returns (ok: bool)
      modifies this, outside
      ensures Reaches(request, old(View(calls)), View(calls + [Ended(ok)]))
      ensures Inv(request, old(View(calls))) ==> Inv(request, View(calls + [Ended(ok)]))
      ensures Inv(request, old(View(calls))) && ok ==>
        status == PullRequestOpened && !scheduled && remote == Remote(Some(Overlay(request.base, request.changes)), 1)
      ensures old(status) != Approved ==>
        !ok && status == old(status) && remote == old(remote) && scheduled == old(scheduled)
      ensures
        var at := old(outside.made);
        ok <==> old(status) == Approved && outside.fate(at).Works? && outside.fate(at + 1).Works?
                && AttemptGoes(request, old(remote), outside.fate, at + 2)
      ensures !ok && old(status) == Approved ==>
        (status == Approved <==> LeftApproved(outside.fate, old(outside.made), outside.made))
    {
      hide Reaches, Inv, AttemptGoes;
      ghost var s0 := View(calls);
      var a := outside.Next();
      var claimed := a.Took() && status == Approved;
      if claimed { status := Executing; }
      ghost var s := Starts(request, s0, a);
      if !claimed || a.Throws? {
        ok := false;
      } else {
        a := outside.Next();
        s := Moves(request, s0, s, calls, Preparing, a);
        if a.Throws? {
          ok := false;
        } else {
          ok := Attempt(outside, s0, calls);
          if !ok {
            s := View(calls + [Handling]);
            a := outside.Next();
            if a.Took() { status := Approved; }
            s := Moves(request, s0, s, calls, Handling, a);
          }
        }
      }
      if Inv(request, s0) {
        ReachesInv(request, s0, View(calls + [Ended(ok)]));
        if ok { InvConverged(request, View(calls + [Ended(true)]), |calls|); }
      }
    }

    /** The body of the `try`; false when it throws. */
    method Attempt(outside: Outside, ghost s0: State, ghost calls: seq<Phase>) returns (ok: bool)
      requires Reaches(request, s0, View(calls + [CheckingBranch])) && status == Executing
      modifies this, outside
      ensures Reaches(request, s0, View(calls + [if ok then Ended(true) else Handling])) && status != Approved
      ensures ok <==> AttemptGoes(request, old(remote), outside.fate, old(outside.made))
    {
      hide Reaches, FilesGo, PullGoes;
      ghost var s := View(calls + [CheckingBranch]);
      var a := outside.Next();
      s := Moves(request, s0, s, calls, CheckingBranch, a);
      var branchExists := a.Works? && remote.branch.Some?;
      ghost var start := if branchExists then remote.branch.value else request.base;
      if !branchExists {
        a := outside.Next();
        s := Moves(request, s0, s, calls, CheckingBase, a);
        if a.Throws? { return false; }
        a := outside.Next();
        s := Moves(request, s0, s, calls, CreatingBranch, a);
        var works := CreateWorks(remote, a);
        remote := CreateBranch(remote, request.base, a);
        if !works { return false; }
      }
      var written := WriteFiles(outside, s0, calls, start);
      if !written { return false; }
      ok := OpenPullRequest(outside, s0, calls);
    }

    /** Writes the changes in order; an existing file needs its current sha, and a failed lookup counts as no file. */
    method WriteFiles(outside: Outside, ghost s0: State, ghost calls: seq<Phase>, ghost start: Tree) returns (ok: bool)
      requires Reaches(request, s0, View(calls + [NextFile(request, 0, start)])) && remote.branch == Some(start)
      modifies this`remote, outside
      ensures Reaches(request, s0, View(calls + [if ok then Listing else Handling]))
      ensures ok <==> FilesGo(request.changes, start, outside.fate, old(outside.made))
      ensures ok ==> outside.made == old(outside.made) + 2 * |request.changes|
      ensures remote.pulls == old(remote.pulls)
      ensures ok ==> remote.branch == Some(Overlay(start, request.changes))
    {
      hide Reaches, Overlay;
      NothingWritten(start, request.changes);
      for k := 0 to |request.changes|
        invariant Reaches(request, s0, View(calls + [NextFile(request, k, start)]))
        invariant remote == Remote(Some(Overlay(start, request.changes[..k])), old(remote.pulls))
        invariant outside.made == old(outside.made) + 2 * k
        invariant forall j :: 0 <= j < k ==> FileGoes(request.changes, start, outside.fate, old(outside.made), j)
      {
        var change := request.changes[k];
        OverlaySnoc(start, request.changes, k);
        ghost var s := View(calls + [Looking(k, start)]);
        if !change.permitted {
          s := Moves(request, s0, s, calls, Looking(k, start), Works);
          assert !FileGoes(request.changes, start, outside.fate, old(outside.made), k);
          return false;
        }
        var a := outside.Next();
        s := Moves(request, s0, s, calls, Looking(k, start), a);
        var shaKnown := a.Works? && change.path in remote.branch.value;
        a := outside.Next();
        s := Moves(request, s0, s, calls, Writing(k, start, shaKnown), a);
        var works := PutAccepted(remote, change, shaKnown) && a.Works?;
        remote := PutFile(remote, change, shaKnown, a);
        assert works == FileGoes(request.changes, start, outside.fate, old(outside.made), k);
        if !works { return false; }
      }
      assert request.changes[..|request.changes|] == request.changes;
      ok := true;
    }

    /** Finds or opens the pull request, records it, and stops the schedule. */
    method OpenPullRequest(outside: Outside, ghost s0: State, ghost calls: seq<Phase>) returns (ok: bool)
      requires Reaches(request, s0, View(calls + [Listing])) && status == Executing && remote.branch.Some?
      modifies this, outside
      ensures Reaches(request, s0, View(calls + [if ok then Ended(true) else Handling])) && status != Approved
      ensures ok <==> PullGoes(request.changes, old(remote.pulls), outside.fate, old(outside.made))
      ensures remote.branch == old(remote.branch)
      ensures
        var fate, at, opens := outside.fate, old(outside.made), old(remote.pulls) == 0;
        var found := fate(at).Works? && (opens ==> request.changes != [] && fate(at + 1).Works?);
        var next := at + (if opens then 2 else 1);
        && status == (if found && fate(next).Took() then PullRequestOpened else Executing)
        && scheduled == (old(scheduled) && !(found && fate(next).Works? && fate(next + 1).Took()))
    {
      hide Reaches;
      var found := FindOrOpen(outside, s0, calls);
      if !found { return false; }
      ghost var s := View(calls + [Saving]);
      var a := outside.Next();
      s := Moves(request, s0, s, calls, Saving, a);
      if a.Took() { status := PullRequestOpened; }
      if a.Throws? { return false; }
      a := outside.Next();
      s := Moves(request, s0, s, calls, Disabling, a);
      if a.Took() { scheduled := false; }
      return a.Works?;
    }

    method FindOrOpen(outside: Outside, ghost s0: State, ghost calls: seq<Phase>) returns (ok: bool)
      requires Reaches(request, s0, View(calls + [Listing])) && remote.branch.Some?
      modifies this`remote, outside
      ensures Reaches(request, s0, View(calls + [if ok then Saving else Handling]))
      ensures
        var at, opens := old(outside.made), old(remote.pulls) == 0;
        && (ok <==> outside.fate(at).Works? && (opens ==> request.changes != [] && outside.fate(at + 1).Works?))
        && (ok ==> outside.made == at + (if opens then 2 else 1))
      ensures remote.branch == old(remote.branch)
    {
      hide Reaches;
      ghost var s := View(calls + [Listing]);
      var a := outside.Next();
      s := Moves(request, s0, s, calls, Listing, a);
      if a.Throws? { return false; }
      ok := true;
      if remote.pulls == 0 {
        a := outside.Next();
        s := Moves(request, s0, s, calls, Opening, a);
        ok := PullAccepted(remote, request.changes) && a.Works?;
        remote := OpenPull(remote, request.changes, a);
      }
    }
  }
}
