/**
 Budgets over routed calls: the rows `ModelRouter` says a call leaves, written one by one
 and interleaved with everybody else's, under the gate of `BudgetMachine`.
 */
module RoutedBudget {
  import opened ExternalCalls
  import opened BudgetPeriods
  import R = ModelRouter
  import B = BudgetMachine

  /** A ledger row with the moment the database wrote it. */
  datatype Dated = Dated(at: Time, row: R.Entry)

  /** A call past the gate: a completion, by its outcomes and its writes' fates, or a stream, by the rows it leaves. */
  datatype Work =
    | Complete(chain: seq<R.Model>, outcomes: seq<R.Outcome>, fate: nat -> Answer, at: nat)
    | Stream(rows: seq<R.Entry>)

  /** The rows the call leaves in the ledger, in order. */
  function Rows(w: Work): seq<R.Entry>
    requires w.Complete? ==> |w.chain| == |w.outcomes|
  {
    match w
    case Complete(chain, outcomes, fate, at) => R.NewRows(chain, outcomes, fate, at)
    case Stream(rows) => rows
  }

  /** No model charges more than `maxCost`, and no stream reports more usage. */
  predicate Affordable(w: Work, maxCost: nat) {
    match w
    case Complete(chain, outcomes, _, _) =>
      |chain| == |outcomes| && forall i :: 0 <= i < |outcomes| && outcomes[i].Served? ==> outcomes[i].cost <= maxCost
    case Stream(rows) => R.Spend(rows) <= maxCost
  }

  /** `rows` are still to be written; `left` is what they may cost. */
  datatype Phase = Gating(periodStart: int) | Routing(rows: seq<R.Entry>, left: nat) | Over

  datatype State = State(now: Time, ledger: seq<Dated>, calls: seq<Phase>)

  datatype Event = Begin(clock: Time) | Gate(i: nat, work: Work) | Write(i: nat) | Drop(i: nat) | Tick(to: Time)

  // ---------- As the budget machine sees it ----------

  function Costs(ledger: seq<Dated>): (entries: seq<B.Entry>)
    ensures |entries| == |ledger|
  {
    seq(|ledger|, i requires 0 <= i < |ledger| => B.Entry(ledger[i].at, ledger[i].row.cost))
  }

  function Seen(p: Phase): B.Phase {
    match p
    case Gating(periodStart) => B.Gating(periodStart)
    case Routing(_, left) => B.Calling(left)
    case Over => B.Over
  }

  function Calls(calls: seq<Phase>): (phases: seq<B.Phase>)
    ensures |phases| == |calls|
  {
    seq(|calls|, i requires 0 <= i < |calls| => Seen(calls[i]))
  }

  function View(s: State): B.State {
    B.State(s.now, Costs(s.ledger), Calls(s.calls))
  }

  function EventSeen(s: State, e: Event): B.Event
    requires e.Write? ==> e.i < |s.calls| && s.calls[e.i].Routing? && s.calls[e.i].rows != []
  {
    match e
    case Begin(clock) => B.Begin(clock)
    case Gate(i, _) => B.Gate(i)
    case Write(i) => B.Record(i, s.calls[i].rows[0].cost)
    case Drop(i) => B.Drop(i)
    case Tick(to) => B.Tick(to)
  }

  predicate Enabled(c: B.Config, s: State, e: Event) {
    match e
    case Begin(_) => true
    case Gate(i, work) =>
      && i < |s.calls| && s.calls[i].Gating? && Affordable(work, c.maxCost)
      && (!B.HardLimitReached(c, Costs(s.ledger), s.calls[i].periodStart) ==>
            B.InFlight(Calls(s.calls)) < c.maxCalls)
    case Write(i) => i < |s.calls| && s.calls[i].Routing? && s.calls[i].rows != []
    case Drop(i) => i < |s.calls|
    case Tick(to) => s.now <= to
  }

  function Step(c: B.Config, s: State, e: Event): State
    requires Enabled(c, s, e)
  {
    match e
    case Begin(clock) => s.(calls := s.calls + [Gating(StartOfPeriod(c.period, clock))])
    case Gate(i, work) =>
      s.(calls := s.calls[i :=
        if B.HardLimitReached(c, Costs(s.ledger), s.calls[i].periodStart) then Over
        else Routing(Rows(work), c.maxCost)])
    case Write(i) =>
      var call := s.calls[i];
      s.(ledger := s.ledger + [Dated(s.now, call.rows[0])],
         calls := s.calls[i := Routing(call.rows[1..], Less(call.left, call.rows[0].cost))])
    case Drop(i) => s.(calls := s.calls[i := Over])
    case Tick(to) => s.(now := to)
  }

  function Less(a: nat, b: nat): nat {
    if b <= a then a - b else 0
  }

  predicate Possible(c: B.Config, s: State, es: seq<Event>)
    decreases |es|
  {
    es == [] || (Enabled(c, s, es[0]) && Possible(c, Step(c, s, es[0]), es[1..]))
  }

  function Run(c: B.Config, s: State, es: seq<Event>): State
    requires Possible(c, s, es)
    decreases |es|
  {
    if es == [] then s else Run(c, Step(c, s, es[0]), es[1..])
  }

  /** No process's clock is in a period that has not begun for the database. */
  predicate NeverAhead(c: B.Config, s: State, es: seq<Event>)
    requires Possible(c, s, es)
    decreases |es|
  {
    es == [] ||
      (&& (es[0].Begin? ==> StartOfPeriod(c.period, es[0].clock) <= s.now)
       && NeverAhead(c, Step(c, s, es[0]), es[1..]))
  }

  // ---------- A routed call is a call of the budget machine ----------

  /** No call has rows left that cost more than it may still spend. */
  predicate Covered(s: State) {
    forall i :: 0 <= i < |s.calls| && s.calls[i].Routing? ==> R.Spend(s.calls[i].rows) <= s.calls[i].left
  }

  /** A completion costs what its serving model charged, or nothing. */
  lemma RowsCost(w: Work, maxCost: nat)
    requires Affordable(w, maxCost)
    ensures R.Spend(Rows(w)) <= maxCost
  {
    hide R.Spend, R.NewRows, R.Tried;
    if w.Complete? {
      R.CostIsRecordedExactly(w.chain, w.outcomes, w.fate, w.at, []);
      R.NothingSpent();
      assert [] + Rows(w) == Rows(w);
    }
  }

  lemma FirstRow(rows: seq<R.Entry>)
    requires rows != []
    ensures R.Spend(rows) == rows[0].cost + R.Spend(rows[1..])
  {
    assert rows == [rows[0]] + rows[1..];
    R.SpendConcat([rows[0]], rows[1..]);
    R.SpendSnoc([], rows[0]);
    R.NothingSpent();
    assert [] + [rows[0]] == [rows[0]];
  }

  lemma StepSeen(c: B.Config, s: State, e: Event)
    requires Covered(s) && Enabled(c, s, e)
    ensures Covered(Step(c, s, e))
    ensures B.Enabled(c, View(s), EventSeen(s, e))
    ensures View(Step(c, s, e)) == B.Step(c, View(s), EventSeen(s, e))
  {
    hide StartOfPeriod, R.Spend, Rows, Affordable, B.HardLimitReached, B.InFlight;
    match e
    case Gate(i, work) => RowsCost(work, c.maxCost); GateSeen(c, s, i, work);
    case Write(i) => FirstRow(s.calls[i].rows); WriteSeen(c, s, i);
    case _ =>
  }

  lemma GateSeen(c: B.Config, s: State, i: nat, work: Work)
    requires Enabled(c, s, Gate(i, work))
    ensures B.Enabled(c, View(s), B.Gate(i))
    ensures View(Step(c, s, Gate(i, work))) == B.Step(c, View(s), B.Gate(i))
  {
    hide StartOfPeriod, Rows, Affordable, B.HardLimitReached, B.InFlight;
  }

  lemma WriteSeen(c: B.Config, s: State, i: nat)
    requires Enabled(c, s, Write(i)) && s.calls[i].rows[0].cost <= s.calls[i].left
    ensures B.Enabled(c, View(s), B.Record(i, s.calls[i].rows[0].cost))
    ensures View(Step(c, s, Write(i))) == B.Step(c, View(s), B.Record(i, s.calls[i].rows[0].cost))
  {
    hide StartOfPeriod;
    assert Costs(s.ledger + [Dated(s.now, s.calls[i].rows[0])])
        == Costs(s.ledger) + [B.Entry(s.now, s.calls[i].rows[0].cost)];
  }

  /** Every run of routed calls is a run of the budget machine, row for row. */
  lemma {:induction false} RunSeen(c: B.Config, s: State, es: seq<Event>) returns (seen: seq<B.Event>)
    requires Covered(s) && Possible(c, s, es)
    ensures |seen| == |es| && B.Possible(c, View(s), seen) && B.Run(c, View(s), seen) == View(Run(c, s, es))
    ensures NeverAhead(c, s, es) ==> B.NeverAhead(c, View(s), seen)
    decreases |es|
  {
    hide Covered, Step, Affordable, B.Step, B.Enabled, B.HardLimitReached, B.InFlight, View, StartOfPeriod;
    if es == [] {
      seen := [];
    } else {
      StepSeen(c, s, es[0]);
      var rest := RunSeen(c, Step(c, s, es[0]), es[1..]);
      seen := [EventSeen(s, es[0])] + rest;
      assert seen[1..] == rest;
      assert View(s).now == s.now by { SameNow(s); }
    }
  }

  lemma SameNow(s: State)
    ensures View(s).now == s.now
  {
  }

  /**
   The composed bound: whatever models serve, refuse or fall back, whichever record writes
   take effect, and however the rows of different calls interleave across periods, no
   period's recorded cost reaches limit + k·c, with at most k calls past the gate at a time
   and no model or stream charging more than c.
   */
  lemma RoutedSpendIsBounded(c: B.Config, now: Time, es: seq<Event>, start: int)
    requires c.limit > 0 && Possible(c, State(now, [], []), es) && NeverAhead(c, State(now, [], []), es)
    ensures B.SpendIn(c.period, Costs(Run(c, State(now, [], []), es).ledger), start)
          < c.limit + c.maxCalls * c.maxCost
  {
    hide Step, Enabled, B.Step, B.Enabled, StartOfPeriod, B.SpendIn;
    var s := State(now, [], []);
    var seen := RunSeen(c, s, es);
    assert View(s) == B.State(now, [], []);
    B.SpendIsBounded(c, now, seen, start);
  }

  // ---------- Calls that nobody disturbs ----------

  function WrittenAt(now: Time, rows: seq<R.Entry>): seq<Dated> {
    if rows == [] then [] else [Dated(now, rows[0])] + WrittenAt(now, rows[1..])
  }

  lemma {:induction false} RowsAreWritten(c: B.Config, s: State, i: nat) returns (es: seq<Event>)
    requires i < |s.calls| && s.calls[i].Routing?
    ensures Possible(c, s, es) && Run(c, s, es).ledger == s.ledger + WrittenAt(s.now, s.calls[i].rows)
    decreases |s.calls[i].rows|
  {
    if s.calls[i].rows == [] {
      es := [];
      assert s.ledger + [] == s.ledger;
    } else {
      var written := Step(c, s, Write(i));
      var rest := RowsAreWritten(c, written, i);
      es := [Write(i)] + rest;
      RunCons(c, s, Write(i), rest);
      var row := Dated(s.now, s.calls[i].rows[0]);
      assert (s.ledger + [row]) + WrittenAt(s.now, s.calls[i].rows[1..])
          == s.ledger + ([row] + WrittenAt(s.now, s.calls[i].rows[1..]));
    }
  }

  /**
   The machine stops nobody too early: in any state a call begun while its period's
   recorded cost is below the limit, with room among the calls in flight, gets past the gate
   and can leave all rows its routing leaves; at or above the limit it leaves none.
   */
  lemma CallRunsThrough(c: B.Config, s: State, clock: Time, work: Work) returns (es: seq<Event>)
    requires Affordable(work, c.maxCost) && B.InFlight(Calls(s.calls)) < c.maxCalls
    ensures Possible(c, s, es)
    ensures
      var spent := B.SpendSince(Costs(s.ledger), StartOfPeriod(c.period, clock));
      Run(c, s, es).ledger ==
        if spent >= c.limit then s.ledger
        else s.ledger + WrittenAt(s.now,
          if work.Complete? then R.NewRows(work.chain, work.outcomes, work.fate, work.at) else work.rows)
  {
    hide StartOfPeriod, Affordable, R.NewRows, B.SpendSince, Possible, Run;
    var i := |s.calls|;
    var begun := Step(c, s, Begin(clock));
    BegunNotInFlight(s.calls, begun.calls[i]);
    var gated := Step(c, begun, Gate(i, work));
    var rest := [];
    RunNone(c, gated);
    if gated.calls[i].Routing? { rest := RowsAreWritten(c, gated, i); }
    RunCons(c, begun, Gate(i, work), rest);
    RunCons(c, s, Begin(clock), [Gate(i, work)] + rest);
    es := [Begin(clock)] + ([Gate(i, work)] + rest);
  }

  lemma RunNone(c: B.Config, s: State)
    ensures Possible(c, s, []) && Run(c, s, []) == s
  {
  }

  lemma RunCons(c: B.Config, s: State, e: Event, rest: seq<Event>)
    requires Enabled(c, s, e) && Possible(c, Step(c, s, e), rest)
    ensures Possible(c, s, [e] + rest) && Run(c, s, [e] + rest) == Run(c, Step(c, s, e), rest)
  {
    hide Step, Enabled;
    assert ([e] + rest)[1..] == rest;
  }

  lemma BegunNotInFlight(calls: seq<Phase>, call: Phase)
    requires call.Gating?
    ensures B.InFlight(Calls(calls + [call])) == B.InFlight(Calls(calls))
  {
    assert Calls(calls + [call])[..|calls|] == Calls(calls);
  }
}
