/**
 `approve` and `executeApproved` as the source writes them. Every call is shown to be a run
 of `Automation`'s events, so that machine's theorems hold of the code. The ghost `calls`
 are the calls before this one.
 */
module AutomationService {
  import opened Prelude
  import opened ExternalCalls
  import opened Automation

  ghost predicate Reaches(s: State, t: State) {
    exists es :: Possible(s, es) && Run(s, es) == t
  }

  lemma {:induction false} RunOn(s: State, es: seq<Event>, more: seq<Event>)
    requires Possible(s, es) && Possible(Run(s, es), more)
    ensures Possible(s, es + more) && Run(s, es + more) == Run(Run(s, es), more)
    decreases |es|
  {
    hide Step, Enabled;
    if es == [] {
      assert es + more == more;
    } else {
      RunOn(Step(s, es[0]), es[1..], more);
      assert (es + more)[0] == es[0] && (es + more)[1..] == es[1..] + more;
    }
  }

  lemma ReachesStep(s: State, t: State, e: Event)
    requires Reaches(s, t) && Enabled(t, e)
    ensures Reaches(s, Step(t, e))
  {
    hide Step, Enabled;
    var es :| Possible(s, es) && Run(s, es) == t;
    assert Possible(Step(t, e), []) && [e][1..] == [];
    assert Possible(t, [e]) && Run(t, [e]) == Step(t, e);
    RunOn(s, es, [e]);
  }

  lemma ReachesInv(s: State, t: State)
    requires Reaches(s, t) && Inv(s)
    ensures Inv(t)
  {
    hide Inv, Step, Enabled;
    var es :| Possible(s, es) && Run(s, es) == t;
    RunInv(s, es);
  }

  lemma Starts(s: State, answer: Answer)
    ensures Reaches(s, Step(s, Begin(answer)))
  {
    assert Possible(s, []) && Run(s, []) == s;
    ReachesStep(s, s, Begin(answer));
  }

  /** A step of the latest call, number `i`, in a state that ends with it. */
  lemma Moves(s0: State, s: State, calls: seq<Call>, call: Call, e: Event)
    requires Reaches(s0, s) && s.calls == calls + [call] && Enabled(s, e)
    requires e in {Check(|calls|, true), Check(|calls|, false)} || (e.Post? && e.i == |calls|)
          || (e.Conclude? && e.i == |calls|) || (e.Handle? && e.i == |calls|)
    ensures Reaches(s0, Step(s, e)) && Step(s, e).calls == calls + [Step(s, e).calls[|calls|]]
  {
    hide Reaches;
    ReachesStep(s0, s, e);
  }

  class ActionService {
    var status: Status
    /** POSTs sent to the provider for this action. */
    var posts: nat

    constructor ()
      ensures View([]) == CREATED
    {
      status, posts := Draft, 0;
    }

    /** The machine's state, with the calls so far. */
    ghost function View(calls: seq<Call>): State
      reads this
    {
      State(status, calls, posts)
    }

    method Approve(ghost calls: seq<Call>) returns (ok: bool)
      modifies this
      ensures ok <==> old(status) == Draft
      ensures View(calls) == if ok then Step(old(View(calls)), Automation.Approve) else old(View(calls))
      ensures status == (if old(status) == Draft then Approved else old(status)) && posts == old(posts)
    {
      ok := status == Draft;
      if ok { status := Approved; }
    }

    /**
     One call; `checksPass` stands for the lookups, credentials and payload validation
     between the claim and the POST, `reply` for what the POST would come to. It is a run
     of the machine, so from any state the machine can be in the action is sent at most
     once, and a call that returns leaves it succeeded. The fates of the claim and of the
     write after the POST decide how it ends.
     */
    method ExecuteApproved(checksPass: bool, reply: Reply, outside: Outside, ghost calls: seq<Call>)
      returns (ok: bool, ghost call: Call)
      modifies this, outside
      ensures call.phase == Ended(ok) && Reaches(old(View(calls)), View(calls + [call]))
      ensures Inv(old(View(calls))) ==>
        Inv(View(calls + [call])) && posts <= 1 && (ok ==> status == Succeeded && posts == 1)
      ensures old(status) != Approved ==> !ok && status == old(status) && posts == old(posts)
      ensures call.sent ==> checksPass && call.reply == Some(reply) && posts == old(posts) + 1
      ensures !call.sent ==> posts == old(posts)
      ensures
        var claim, next := outside.fate(old(outside.made)), outside.fate(old(outside.made) + 1);
        var sends := old(status) == Approved && claim.Works? && checksPass;
        && (ok <==> sends && reply == Accepted && next.Works?)
        && posts == old(posts) + (if sends then 1 else 0) && (call.sent <==> sends)
        && status ==
             (if old(status) != Approved || !claim.Took() then old(status)
              else if sends && reply == Accepted && next.Took() then Succeeded
              else if sends && reply == Invalid && next.Took() then Failed
              else Executing)
    {
      ghost var s0 := View(calls);
      ok, call := Execute(checksPass, reply, outside, calls);
      hide Reaches, Inv;
      if Inv(s0) {
        ReachesInv(s0, View(calls + [call]));
        InvBounds(View(calls + [call]));
        assert (calls + [call])[|calls|] == call;
      }
    }

    method Execute(checksPass: bool, reply: Reply, outside: Outside, ghost calls: seq<Call>)
      returns (ok: bool, ghost call: Call)
      modifies this, outside
      ensures call.phase == Ended(ok) && Reaches(old(View(calls)), View(calls + [call]))
      ensures old(status) != Approved ==> !ok && status == old(status) && posts == old(posts)
      ensures call.sent ==> checksPass && call.reply == Some(reply) && posts == old(posts) + 1
      ensures !call.sent ==> posts == old(posts)
      ensures
        var claim, next := outside.fate(old(outside.made)), outside.fate(old(outside.made) + 1);
        var sends := old(status) == Approved && claim.Works? && checksPass;
        && (ok <==> sends && reply == Accepted && next.Works?)
        && posts == old(posts) + (if sends then 1 else 0) && (call.sent <==> sends)
        && status ==
             (if old(status) != Approved || !claim.Took() then old(status)
              else if sends && reply == Accepted && next.Took() then Succeeded
              else if sends && reply == Invalid && next.Took() then Failed
              else Executing)
    {
      hide Reaches;
      ghost var s0 := View(calls);
      var a := outside.Next();
      Starts(s0, a);
      var claimed := a.Took() && status == Approved;
      if claimed { status := Executing; }
      if !claimed || a.Throws? { return false, Call(Ended(false), false, None); }
      call := Call(Checking, false, None);
      Moves(s0, View(calls + [call]), calls, call, Check(|calls|, checksPass));
      if !checksPass { return false, Call(Ended(false), false, None); }
      call := Call(Sending, false, None);
      Moves(s0, View(calls + [call]), calls, call, Post(|calls|, reply));
      posts := posts + 1;
      if reply.Accepted? {
        call := Call(Concluding, true, Some(reply));
        ghost var s := View(calls + [call]);
        a := outside.Next();
        Moves(s0, s, calls, call, Conclude(|calls|, a));
        if a.Took() { status := Succeeded; }
        if a.Works? { return true, Call(Ended(true), true, Some(reply)); }
      }
      call := Call(Handling(reply), true, Some(reply));
      ghost var s := View(calls + [call]);
      a := outside.Next();
      Moves(s0, s, calls, call, Handle(|calls|, a));
      if a.Took() && status == Executing { status := AfterError(reply); }
      return false, Call(Ended(false), true, Some(reply));
    }
  }
}
