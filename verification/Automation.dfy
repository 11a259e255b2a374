/**
 Approved automation actions: one provider mutation at most, under a scheduler that may
 dispatch the same action again and again, from several processes at once.

 The machine runs any number of calls of `executeApproved` interleaved, each step of a
 call being one statement or the one POST, with crashes between any two of them.
 `AutomationService` holds the code of a call.
 */
module Automation {
  import opened Prelude
  import opened ExternalCalls

  datatype Status = Draft | Approved | Executing | Succeeded | Failed

  /** How the POST ended for its caller; `Unclear` covers lost responses and every error kind but `invalid`. */
  datatype Reply = Accepted | Invalid | Unclear

  /** The status the error handler writes. */
  function AfterError(reply: Reply): Status {
    if reply.Invalid? then Failed else Executing
  }

  /**
   Where a call of `executeApproved` is. `Handling` is the error handler, about to write
   the status for the reply it caught.
   */
  datatype Phase =
    | Checking
    | Sending
    | Concluding
    | Handling(reply: Reply)
    | Ended(ok: bool)

  /** A call, and whether it sent the POST and what came of it. */
  datatype Call = Call(phase: Phase, sent: bool, reply: Option<Reply>)

  datatype State = State(status: Status, calls: seq<Call>, posts: nat)

  datatype Event =
    | Approve
    | Begin(answer: Answer)
    | Check(i: nat, ok: bool)
    | Post(i: nat, reply: Reply)
    | Conclude(i: nat, answer: Answer)
    | Handle(i: nat, answer: Answer)
    | Crash(i: nat)

  predicate At(s: State, i: nat, phase: Phase) {
    i < |s.calls| && s.calls[i].phase == phase
  }

  predicate Enabled(s: State, e: Event) {
    match e
    case Approve => s.status == Draft
    case Begin(_) => true
    case Check(i, _) => At(s, i, Checking)
    case Post(i, _) => At(s, i, Sending)
    case Conclude(i, _) => At(s, i, Concluding)
    case Handle(i, _) => i < |s.calls| && s.calls[i].phase.Handling?
    case Crash(i) => i < |s.calls| && !s.calls[i].phase.Ended?
  }

  function Step(s: State, e: Event): State
    requires Enabled(s, e)
  {
    match e
    case Approve => s.(status := Approved)
    // The guarded claim. A call whose claim failed, or whose answer was lost, ends at once.
    case Begin(answer) =>
      var claimed := answer.Took() && s.status == Approved;
      s.(status := if claimed then Executing else s.status,
         calls := s.calls + [Call(if claimed && answer.Works? then Checking else Ended(false), false, None)])
    case Check(i, ok) => s.(calls := s.calls[i := s.calls[i].(phase := if ok then Sending else Ended(false))])
    case Post(i, reply) =>
      s.(posts := s.posts + 1,
         calls := s.calls[i := Call(if reply.Accepted? then Concluding else Handling(reply), true, Some(reply))])
    // The success write carries no guard but the id.
    case Conclude(i, answer) =>
      s.(status := if answer.Took() then Succeeded else s.status,
         calls := s.calls[i := s.calls[i].(phase := if answer.Works? then Ended(true) else Handling(Accepted))])
    case Handle(i, answer) =>
      s.(status := if answer.Took() && s.status == Executing then AfterError(s.calls[i].phase.reply) else s.status,
         calls := s.calls[i := s.calls[i].(phase := Ended(false))])
    case Crash(i) => s.(calls := s.calls[i := s.calls[i].(phase := Ended(false))])
  }

  predicate Possible(s: State, es: seq<Event>)
    decreases |es|
  {
    es == [] || (Enabled(s, es[0]) && Possible(Step(s, es[0]), es[1..]))
  }

  function Run(s: State, es: seq<Event>): State
    requires Possible(s, es)
    decreases |es|
  {
    if es == [] then s else Run(Step(s, es[0]), es[1..])
  }

  const CREATED := State(Draft, [], 0)

  // ---------- The invariant of every run ----------

  predicate Idle(call: Call) {
    call.phase == Ended(false) && !call.sent && call.reply.None?
  }

  /** The one call that holds, or held, the claim. */
  predicate Claimant(status: Status, call: Call) {
    && (call.phase.Checking? || call.phase.Sending? ==> !call.sent)
    && (call.phase.Concluding? || call.phase.Handling? ==> call.sent)
    && (call.sent <==> call.reply.Some?)
    && (call.phase.Concluding? ==> call.reply == Some(Accepted))
    && (call.phase.Handling? ==> call.reply == Some(call.phase.reply))
    && (call.phase == Ended(true) ==> status == Succeeded)
    && (call.phase.Concluding? ==> status == Executing)
    && (status == Succeeded ==> call.reply == Some(Accepted))
    && (status == Failed ==> call.reply == Some(Invalid) && call.phase.Ended?)
  }

  /** Before the claim every call has failed; after it all but the claimant have, for good. */
  ghost predicate Inv(s: State) {
    if s.status == Draft || s.status == Approved then
      s.posts == 0 && forall i :: 0 <= i < |s.calls| ==> Idle(s.calls[i])
    else
      exists c :: ClaimedBy(s, c)
  }

  ghost predicate ClaimedBy(s: State, c: nat) {
    && c < |s.calls| && Claimant(s.status, s.calls[c])
    && (s.status in {Executing, Succeeded, Failed})
    && s.posts == (if s.calls[c].sent then 1 else 0)
    && forall i :: 0 <= i < |s.calls| && i != c ==> Idle(s.calls[i])
  }

  lemma StepClaimed(s: State, e: Event, c: nat)
    requires ClaimedBy(s, c) && Enabled(s, e)
    ensures ClaimedBy(Step(s, e), c)
  {
  }

  lemma StepInv(s: State, e: Event)
    requires Inv(s) && Enabled(s, e)
    ensures Inv(Step(s, e))
  {
    hide ClaimedBy;
    if s.status == Draft || s.status == Approved {
      StepUnclaimed(s, e);
    } else {
      var c :| ClaimedBy(s, c);
      StepClaimed(s, e, c);
      ClaimedStatus(Step(s, e), c);
    }
  }

  lemma ClaimedStatus(s: State, c: nat)
    requires ClaimedBy(s, c)
    ensures s.status != Draft && s.status != Approved
  {
  }

  lemma StepUnclaimed(s: State, e: Event)
    requires Inv(s) && Enabled(s, e) && (s.status == Draft || s.status == Approved)
    ensures Inv(Step(s, e))
  {
    if e.Begin? && Step(s, e).status == Executing {
      assert ClaimedBy(Step(s, e), |s.calls|);
    }
  }

  lemma {:induction false} RunInv(s: State, es: seq<Event>)
    requires Inv(s) && Possible(s, es)
    ensures Inv(Run(s, es))
    decreases |es|
  {
    hide Inv, Step;
    if es != [] {
      StepInv(s, es[0]);
      RunInv(Step(s, es[0]), es[1..]);
    }
  }

  lemma CreatedInv()
    ensures Inv(CREATED)
  {
  }

  // ---------- At most one mutation ----------

  function Sends(es: seq<Event>): nat {
    if es == [] then 0 else (if es[0].Post? then 1 else 0) + Sends(es[1..])
  }

  lemma {:induction false} SendsAreCounted(s: State, es: seq<Event>)
    requires Possible(s, es)
    ensures Run(s, es).posts == s.posts + Sends(es)
    decreases |es|
  {
    if es != [] { SendsAreCounted(Step(s, es[0]), es[1..]); }
  }

  ghost predicate SomeReply(s: State, reply: Reply) {
    exists i :: 0 <= i < |s.calls| && s.calls[i].reply == Some(reply)
  }

  lemma InvBounds(s: State)
    requires Inv(s)
    ensures s.posts <= 1
    ensures s.status in {Draft, Approved} ==> s.posts == 0
    ensures s.status == Succeeded ==> s.posts == 1 && SomeReply(s, Accepted)
    ensures s.status == Failed ==> s.posts == 1 && SomeReply(s, Invalid)
    ensures forall i :: 0 <= i < |s.calls| && s.calls[i].phase == Ended(true) ==> s.status == Succeeded
  {
  }

  /**
   However often the action is dispatched, and however the calls interleave and crash,
   the provider is sent at most one POST: none before the claim, exactly one when the
   action succeeded, and exactly one, answered `invalid`, when it failed.
   */
  lemma AtMostOnce(es: seq<Event>)
    requires Possible(CREATED, es)
    ensures
      var s := Run(CREATED, es);
      && Sends(es) <= 1
      && (s.status in {Draft, Approved} ==> Sends(es) == 0)
      && (s.status == Succeeded ==> Sends(es) == 1 && SomeReply(s, Accepted))
      && (s.status == Failed ==> Sends(es) == 1 && SomeReply(s, Invalid))
  {
    hide Inv, Step, SomeReply;
    CreatedInv();
    RunInv(CREATED, es);
    InvBounds(Run(CREATED, es));
    SendsAreCounted(CREATED, es);
  }

  /** Whether every call has ended, as after a crash that nobody survived. */
  predicate Quiet(s: State) {
    forall i :: 0 <= i < |s.calls| ==> s.calls[i].phase.Ended?
  }

  lemma QuietStep(s: State, e: Event)
    requires s.status !in {Draft, Approved} && Quiet(s) && Enabled(s, e)
    ensures Step(s, e).status == s.status && Step(s, e).posts == s.posts && Quiet(Step(s, e))
  {
  }

  /** An action whose outcome is unknown is never replayed: it stays `executing` until an operator steps in. */
  lemma {:induction false} NeverReplayed(s: State, es: seq<Event>)
    requires s.status !in {Draft, Approved} && Quiet(s) && Possible(s, es)
    ensures Run(s, es).status == s.status && Run(s, es).posts == s.posts
    decreases |es|
  {
    hide Step, Enabled, Quiet;
    if es != [] {
      PossibleHead(s, es);
      QuietStep(s, es[0]);
      NeverReplayed(Step(s, es[0]), es[1..]);
    }
  }

  lemma PossibleHead(s: State, es: seq<Event>)
    requires Possible(s, es) && es != []
    ensures Enabled(s, es[0]) && Possible(Step(s, es[0]), es[1..])
  {
  }

  lemma SucceededStays(s: State, e: Event)
    requires Inv(s) && Enabled(s, e) && s.status == Succeeded
    ensures Step(s, e).status == Succeeded
  {
  }
}
