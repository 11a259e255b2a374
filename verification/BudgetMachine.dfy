/**
 Check-then-spend: calls that read the ledger, pass the gate, and write their cost later.

 Any number of calls interleave. The gate computes the start of the period first, by its
 own process's clock, and reads the ledger afterwards, whose rows carry the database's
 clock. So a new period may begin in between, or between gate and write, and the clocks
 may disagree; `now` is the database's.
 */
module BudgetMachine {
  import opened BudgetPeriods

  /** Micro-dollars, recorded at a moment. */
  datatype Entry = Entry(at: Time, cost: nat)

  /** An enforced budget, the most a call may cost, and the most calls allowed past the gate at once. */
  datatype Config = Config(period: Period, limit: nat, maxCost: nat, maxCalls: nat)

  /** A call past the gate may record several rows; `left` is what it may still cost. */
  datatype Phase = Gating(periodStart: int) | Calling(left: nat) | Over

  datatype State = State(now: Time, ledger: seq<Entry>, calls: seq<Phase>)

  datatype Event = Begin(clock: Time) | Gate(i: nat) | Record(i: nat, cost: nat) | Drop(i: nat) | Tick(to: Time)

  /** The ledger query: total cost recorded since a moment. */
  function SpendSince(ledger: seq<Entry>, since: int): nat {
    if ledger == [] then 0
    else
      var last := ledger[|ledger| - 1];
      SpendSince(ledger[..|ledger| - 1], since) + (if last.at >= since then last.cost else 0)
  }

  /** What a period cost: the entries whose own period starts at `start`. */
  function SpendIn(period: Period, ledger: seq<Entry>, start: int): nat {
    if ledger == [] then 0
    else
      var last := ledger[|ledger| - 1];
      SpendIn(period, ledger[..|ledger| - 1], start)
        + (if StartOfPeriod(period, last.at) == start then last.cost else 0)
  }

  /** Calls between the gate and their ledger write. */
  function InFlight(calls: seq<Phase>): nat {
    if calls == [] then 0
    else InFlight(calls[..|calls| - 1]) + (if calls[|calls| - 1].Calling? then 1 else 0)
  }

  /** What the calls in flight may still cost. */
  function Reserve(calls: seq<Phase>): nat {
    if calls == [] then 0
    else Reserve(calls[..|calls| - 1]) + Left(calls[|calls| - 1])
  }

  function Left(p: Phase): nat {
    if p.Calling? then p.left else 0
  }

  predicate HardLimitReached(c: Config, ledger: seq<Entry>, periodStart: int) {
    SpendSince(ledger, periodStart) >= c.limit
  }

  predicate Enabled(c: Config, s: State, e: Event) {
    match e
    case Begin(_) => true
    case Gate(i) =>
      && i < |s.calls| && s.calls[i].Gating?
      && (!HardLimitReached(c, s.ledger, s.calls[i].periodStart) ==> InFlight(s.calls) < c.maxCalls)
    case Record(i, cost) => i < |s.calls| && s.calls[i].Calling? && cost <= s.calls[i].left
    case Drop(i) => i < |s.calls|
    case Tick(to) => s.now <= to
  }

  function Step(c: Config, s: State, e: Event): State
    requires Enabled(c, s, e)
  {
    match e
    case Begin(clock) => s.(calls := s.calls + [Gating(StartOfPeriod(c.period, clock))])
    case Gate(i) =>
      s.(calls := s.calls[i :=
        if HardLimitReached(c, s.ledger, s.calls[i].periodStart) then Over else Calling(c.maxCost)])
    case Record(i, cost) =>
      s.(ledger := s.ledger + [Entry(s.now, cost)], calls := s.calls[i := Calling(s.calls[i].left - cost)])
    case Drop(i) => s.(calls := s.calls[i := Over])
    case Tick(to) => s.(now := to)
  }

  predicate Possible(c: Config, s: State, es: seq<Event>)
    decreases |es|
  {
    es == [] || (Enabled(c, s, es[0]) && Possible(c, Step(c, s, es[0]), es[1..]))
  }

  function Run(c: Config, s: State, es: seq<Event>): State
    requires Possible(c, s, es)
    decreases |es|
  {
    if es == [] then s else Run(c, Step(c, s, es[0]), es[1..])
  }

  /** No process reads the start of a period that has not begun by the database's clock. */
  predicate NotAhead(c: Config, s: State, e: Event) {
    e.Begin? ==> StartOfPeriod(c.period, e.clock) <= s.now
  }

  predicate NeverAhead(c: Config, s: State, es: seq<Event>)
    requires Possible(c, s, es)
    decreases |es|
  {
    es == [] || (NotAhead(c, s, es[0]) && NeverAhead(c, Step(c, s, es[0]), es[1..]))
  }

  function Max(a: nat, b: nat): nat { if a >= b then a else b }

  /** The bound on one period's spend: a limit of zero refuses every call. */
  function Bound(c: Config): nat {
    Max(c.limit, 1) + c.maxCalls * c.maxCost
  }

  // ---------- Facts about the ledger ----------

  lemma {:induction false} SpendInWithin(period: Period, ledger: seq<Entry>, now: Time, start: int)
    requires start <= StartOfPeriod(period, now)
    requires forall i :: 0 <= i < |ledger| ==> ledger[i].at <= now
    ensures SpendIn(period, ledger, StartOfPeriod(period, now)) <= SpendSince(ledger, start)
  {
    if ledger != [] {
      var last := ledger[|ledger| - 1];
      SpendInWithin(period, ledger[..|ledger| - 1], now, start);
      PeriodsPartition(period, last.at, last.at);
    }
  }

  lemma {:induction false} NothingYet(period: Period, ledger: seq<Entry>, before: Time, start: int)
    requires forall i :: 0 <= i < |ledger| ==> ledger[i].at <= before
    requires before < start
    ensures SpendIn(period, ledger, start) == 0
  {
    if ledger != [] {
      NothingYet(period, ledger[..|ledger| - 1], before, start);
      PeriodsPartition(period, ledger[|ledger| - 1].at, before);
    }
  }

  lemma {:induction false} InFlightUpdate(calls: seq<Phase>, i: nat, p: Phase)
    requires i < |calls|
    ensures InFlight(calls[i := p]) + (if calls[i].Calling? then 1 else 0) ==
      InFlight(calls) + (if p.Calling? then 1 else 0)
  {
    var n := |calls| - 1;
    if i == n {
      assert calls[i := p][..n] == calls[..n];
    } else {
      assert calls[i := p][..n] == calls[..n][i := p];
      InFlightUpdate(calls[..n], i, p);
    }
  }

  lemma {:induction false} ReserveUpdate(calls: seq<Phase>, i: nat, p: Phase)
    requires i < |calls|
    ensures Reserve(calls[i := p]) + Left(calls[i]) == Reserve(calls) + Left(p)
  {
    var n := |calls| - 1;
    if i == n {
      assert calls[i := p][..n] == calls[..n];
    } else {
      assert calls[i := p][..n] == calls[..n][i := p];
      ReserveUpdate(calls[..n], i, p);
    }
  }

  lemma {:induction false} ReserveBound(calls: seq<Phase>, maxCost: nat)
    requires forall i :: 0 <= i < |calls| ==> Left(calls[i]) <= maxCost
    ensures Reserve(calls) <= InFlight(calls) * maxCost
  {
    if calls != [] {
      var n := |calls| - 1;
      ReserveBound(calls[..n], maxCost);
      Products(InFlight(calls[..n]), InFlight(calls), maxCost);
    }
  }

  // ---------- The invariant ----------

  /**
   What is spent in the current period and what the calls in flight may still add stays
   below the bound, and no finished period exceeded it.
   */
  ghost predicate Inv(c: Config, s: State) {
    && (forall i :: 0 <= i < |s.ledger| ==> s.ledger[i].at <= s.now)
    && (forall i :: 0 <= i < |s.calls| && s.calls[i].Gating? ==>
      s.calls[i].periodStart <= StartOfPeriod(c.period, s.now))
    && InFlight(s.calls) <= c.maxCalls
    && (forall i :: 0 <= i < |s.calls| ==> Left(s.calls[i]) <= c.maxCost)
    && SpendIn(c.period, s.ledger, StartOfPeriod(c.period, s.now)) + Reserve(s.calls) < Bound(c)
    && (forall start: int :: SpendIn(c.period, s.ledger, start) < Bound(c))
  }

  lemma Products(a: nat, b: nat, c: nat)
    requires a <= b
    ensures a * c <= b * c && (a + 1) * c == a * c + c
  {
  }

  lemma GateInv(c: Config, s: State, i: nat)
    requires Inv(c, s) && Enabled(c, s, Gate(i))
    ensures Inv(c, Step(c, s, Gate(i)))
  {
    hide SpendSince, SpendIn, StartOfPeriod, Reserve, InFlight;
    var t := Step(c, s, Gate(i));
    InFlightUpdate(s.calls, i, t.calls[i]);
    ReserveUpdate(s.calls, i, t.calls[i]);
    if t.calls[i].Calling? {
      SpendInWithin(c.period, s.ledger, s.now, s.calls[i].periodStart);
      ReserveBound(t.calls, c.maxCost);
      Products(InFlight(t.calls), c.maxCalls, c.maxCost);
    }
  }

  lemma RecordInv(c: Config, s: State, i: nat, cost: nat)
    requires Inv(c, s) && Enabled(c, s, Record(i, cost))
    ensures Inv(c, Step(c, s, Record(i, cost)))
  {
    hide SpendSince, StartOfPeriod, Bound, InFlight, Reserve;
    var t := Step(c, s, Record(i, cost));
    InFlightUpdate(s.calls, i, t.calls[i]);
    ReserveUpdate(s.calls, i, t.calls[i]);
    var p := StartOfPeriod(c.period, s.now);
    forall start: int
      ensures SpendIn(c.period, t.ledger, start) ==
        SpendIn(c.period, s.ledger, start) + (if start == p then cost else 0)
    {
      assert t.ledger[..|s.ledger|] == s.ledger;
    }
  }

  lemma DropInv(c: Config, s: State, i: nat)
    requires Inv(c, s) && Enabled(c, s, Drop(i))
    ensures Inv(c, Step(c, s, Drop(i)))
  {
    hide SpendSince, SpendIn, StartOfPeriod, Bound, InFlight, Reserve;
    InFlightUpdate(s.calls, i, Over);
    ReserveUpdate(s.calls, i, Over);
  }

  lemma TickInv(c: Config, s: State, to: Time)
    requires Inv(c, s) && s.now <= to
    ensures Inv(c, Step(c, s, Tick(to)))
  {
    hide SpendSince, SpendIn, StartOfPeriod, InFlight, Reserve;
    PeriodsPartition(c.period, to, s.now);
    PeriodsPartition(c.period, s.now, s.now);
    var start := StartOfPeriod(c.period, to);
    if s.now < start {
      NothingYet(c.period, s.ledger, s.now, start);
      ReserveBound(s.calls, c.maxCost);
      Products(InFlight(s.calls), c.maxCalls, c.maxCost);
    }
  }

  /** A period that has begun started no later than the current one. */
  lemma StartsAscend(period: Period, clock: Time, now: Time)
    requires StartOfPeriod(period, clock) <= now
    ensures StartOfPeriod(period, clock) <= StartOfPeriod(period, now)
  {
    PeriodsPartition(period, clock, now);
    PeriodsPartition(period, now, clock);
  }

  lemma BeginInv(c: Config, s: State, clock: Time)
    requires Inv(c, s) && NotAhead(c, s, Begin(clock))
    ensures Inv(c, Step(c, s, Begin(clock)))
  {
    hide SpendSince, SpendIn, StartOfPeriod;
    StartsAscend(c.period, clock, s.now);
  }

  lemma {:induction false} RunInv(c: Config, s: State, es: seq<Event>)
    requires Inv(c, s) && Possible(c, s, es) && NeverAhead(c, s, es)
    ensures Inv(c, Run(c, s, es))
    decreases |es|
  {
    hide Inv, Step, NotAhead;
    if es != [] {
      match es[0] {
        case Begin(clock) => BeginInv(c, s, clock);
        case Gate(i) => GateInv(c, s, i);
        case Record(i, cost) => RecordInv(c, s, i, cost);
        case Drop(i) => DropInv(c, s, i);
        case Tick(to) => TickInv(c, s, to);
      }
      RunInv(c, Step(c, s, es[0]), es[1..]);
    }
  }

  /**
   With at most k calls past the gate at a time, each costing at most c, no period's
   recorded spend ever reaches limit + k·c, however calls, periods and failures interleave,
   and however far processes' clocks are behind the database's.
   */
  lemma SpendIsBounded(c: Config, now: Time, es: seq<Event>, start: int)
    requires c.limit > 0 && Possible(c, State(now, [], []), es) && NeverAhead(c, State(now, [], []), es)
    ensures SpendIn(c.period, Run(c, State(now, [], []), es).ledger, start) < c.limit + c.maxCalls * c.maxCost
  {
    hide Step, StartOfPeriod;
    var s := State(now, [], []);
    Products(0, c.maxCalls, c.maxCost);
    assert Inv(c, s);
    RunInv(c, s, es);
  }

  // ---------- Calls as runs ----------

  /** Every process's clock reads `clock` whenever a call begins. */
  predicate Reads(es: seq<Event>, clock: Time) {
    forall i :: 0 <= i < |es| && es[i].Begin? ==> es[i].clock == clock
  }

  ghost predicate Reaches(c: Config, s: State, clock: Time, t: State) {
    exists es :: Connects(c, s, es, clock, t)
  }

  ghost predicate Connects(c: Config, s: State, es: seq<Event>, clock: Time, t: State) {
    Possible(c, s, es) && Run(c, s, es) == t && Reads(es, clock)
  }

  lemma {:induction false} RunOn(c: Config, s: State, es: seq<Event>, more: seq<Event>)
    requires Possible(c, s, es) && Possible(c, Run(c, s, es), more)
    ensures Possible(c, s, es + more) && Run(c, s, es + more) == Run(c, Run(c, s, es), more)
    decreases |es|
  {
    hide Step, Enabled;
    if es == [] {
      assert es + more == more;
    } else {
      RunOn(c, Step(c, s, es[0]), es[1..], more);
      assert (es + more)[0] == es[0] && (es + more)[1..] == es[1..] + more;
    }
  }

  lemma ReachesStep(c: Config, s: State, clock: Time, t: State, e: Event)
    requires Reaches(c, s, clock, t) && Enabled(c, t, e) && (e.Begin? ==> e.clock == clock)
    ensures Reaches(c, s, clock, Step(c, t, e))
  {
    hide Step, Enabled;
    var es :| Connects(c, s, es, clock, t);
    assert Possible(c, Step(c, t, e), []) && [e][1..] == [];
    assert Possible(c, t, [e]) && Run(c, t, [e]) == Step(c, t, e);
    RunOn(c, s, es, [e]);
    assert Connects(c, s, es + [e], clock, Step(c, t, e));
  }

  function Total(rows: seq<Entry>): nat {
    if rows == [] then 0 else Total(rows[..|rows| - 1]) + rows[|rows| - 1].cost
  }

  /** The moment after rows were recorded at their times, from `now` on. */
  function Later(now: Time, rows: seq<Entry>): Time {
    if rows == [] then now else rows[|rows| - 1].at
  }

  predicate InOrder(now: Time, rows: seq<Entry>) {
    rows == [] || (InOrder(now, rows[..|rows| - 1]) && Later(now, rows[..|rows| - 1]) <= rows[|rows| - 1].at)
  }

  /**
   A call past the gate that records these rows, at whatever later times and in whatever
   periods, is a run of events, as long as they cost no more in all than one call may.
   `RoutedBudget` interleaves the rows of routed calls.
   */
  lemma {:induction false} RowsAreRecorded(c: Config, s0: State, clock: Time, s: State, i: nat, rows: seq<Entry>)
    requires Reaches(c, s0, clock, s) && i < |s.calls| && s.calls[i].Calling? && Total(rows) <= s.calls[i].left
    requires InOrder(s.now, rows)
    ensures Reaches(c, s0, clock, s.(now := Later(s.now, rows), ledger := s.ledger + rows,
                                     calls := s.calls[i := Calling(s.calls[i].left - Total(rows))]))
  {
    hide Reaches;
    if rows == [] {
      assert s.ledger + rows == s.ledger;
      assert s.calls[i := Calling(s.calls[i].left - 0)] == s.calls;
    } else {
      var front, last := rows[..|rows| - 1], rows[|rows| - 1];
      RowsAreRecorded(c, s0, clock, s, i, front);
      var before := s.(now := Later(s.now, front), ledger := s.ledger + front,
                       calls := s.calls[i := Calling(s.calls[i].left - Total(front))]);
      ReachesStep(c, s0, clock, before, Tick(last.at));
      var due := Step(c, before, Tick(last.at));
      ReachesStep(c, s0, clock, due, Record(i, last.cost));
      assert s.ledger + rows == before.ledger + [last];
      assert before.calls[i := Calling(before.calls[i].left - last.cost)] ==
        s.calls[i := Calling(s.calls[i].left - Total(rows))];
    }
  }

  // ---------- The bound is attained ----------

  function Repeat<T>(x: T, n: nat): (r: seq<T>)
    ensures |r| == n
  {
    if n == 0 then [] else Repeat(x, n - 1) + [x]
  }

  lemma {:induction false} RepeatFront<T>(x: T, n: nat)
    ensures Repeat(x, n + 1) == [x] + Repeat(x, n)
  {
    if n > 0 {
      RepeatFront(x, n - 1);
      assert Repeat(x, n) + [x] == [x] + (Repeat(x, n - 1) + [x]);
    }
  }

  /** `n` calls past the gate, after `over` that have ended. */
  function Waiting(c: Config, over: nat, n: nat): seq<Phase> {
    Repeat(Over, over) + Repeat(Calling(c.maxCost), n)
  }

  lemma InFlightSnoc(calls: seq<Phase>, p: Phase)
    ensures InFlight(calls + [p]) == InFlight(calls) + (if p.Calling? then 1 else 0)
  {
    assert (calls + [p])[..|calls|] == calls;
  }

  lemma {:induction false} WaitingInFlight(c: Config, over: nat, n: nat)
    ensures InFlight(Waiting(c, over, n)) == n
  {
    if n > 0 {
      WaitingInFlight(c, over, n - 1);
      InFlightSnoc(Waiting(c, over, n - 1), Calling(c.maxCost));
      assert Waiting(c, over, n) == Waiting(c, over, n - 1) + [Calling(c.maxCost)];
    } else if over > 0 {
      WaitingInFlight(c, over - 1, 0);
      InFlightSnoc(Waiting(c, over - 1, 0), Over);
      assert Waiting(c, over, 0) == Waiting(c, over - 1, 0) + [Over];
    }
  }

  /** One more call gets past the gate. */
  lemma OnePasses(c: Config, s: State, clock: Time, now: Time, ledger: seq<Entry>, over: nat, n: nat)
    requires Reaches(c, s, clock, State(now, ledger, Waiting(c, over, n)))
    requires n < c.maxCalls && !HardLimitReached(c, ledger, StartOfPeriod(c.period, clock))
    ensures Reaches(c, s, clock, State(now, ledger, Waiting(c, over, n + 1)))
  {
    hide Reaches, StartOfPeriod, SpendSince;
    var before := State(now, ledger, Waiting(c, over, n));
    var gating := Step(c, before, Begin(clock));
    ReachesStep(c, s, clock, before, Begin(clock));
    WaitingInFlight(c, over, n);
    InFlightSnoc(before.calls, Gating(StartOfPeriod(c.period, clock)));
    ReachesStep(c, s, clock, gating, Gate(over + n));
    assert Step(c, gating, Gate(over + n)).calls == Waiting(c, over, n + 1);
  }

  /** While the ledger is below the limit, any permitted number of calls gets past the gate. */
  lemma {:induction false} AllPass(c: Config, s: State, clock: Time, now: Time, ledger: seq<Entry>, over: nat, n: nat)
    requires Reaches(c, s, clock, State(now, ledger, Waiting(c, over, 0)))
    requires n <= c.maxCalls && !HardLimitReached(c, ledger, StartOfPeriod(c.period, clock))
    ensures Reaches(c, s, clock, State(now, ledger, Waiting(c, over, n)))
  {
    hide Reaches, StartOfPeriod, SpendSince;
    if n > 0 {
      AllPass(c, s, clock, now, ledger, over, n - 1);
      OnePasses(c, s, clock, now, ledger, over, n - 1);
    }
  }

  /** Then every one of them records its full cost. */
  lemma {:induction false} AllRecord(c: Config, s: State, clock: Time, now: Time, ledger: seq<Entry>, over: nat,
      left: nat, done: nat)
    requires Reaches(c, s, clock, State(now, ledger, Waiting(c, over, left) + Repeat(Over, done)))
    ensures exists t ::
      Reaches(c, s, clock, t) && t.now == now && t.ledger == ledger + Repeat(Entry(now, c.maxCost), left)
    decreases left
  {
    hide Reaches;
    var here := State(now, ledger, Waiting(c, over, left) + Repeat(Over, done));
    if left == 0 {
      assert here.ledger == ledger + Repeat(Entry(now, c.maxCost), 0);
    } else {
      var entry := Entry(now, c.maxCost);
      var i := over + left - 1;
      assert Waiting(c, over, left) == Waiting(c, over, left - 1) + [Calling(c.maxCost)];
      ReachesStep(c, s, clock, here, Record(i, c.maxCost));
      var recorded := Step(c, here, Record(i, c.maxCost));
      ReachesStep(c, s, clock, recorded, Drop(i));
      RepeatFront(Over, done);
      assert Step(c, recorded, Drop(i)).calls == Waiting(c, over, left - 1) + Repeat(Over, done + 1);
      AllRecord(c, s, clock, now, ledger + [entry], over, left - 1, done + 1);
      RepeatFront(entry, left - 1);
      assert ledger + [entry] + Repeat(entry, left - 1) == ledger + Repeat(entry, left);
    }
  }

  lemma SpendOneMore(period: Period, ledger: seq<Entry>, entry: Entry)
    ensures
      var start := StartOfPeriod(period, entry.at);
      && SpendIn(period, ledger + [entry], start) == SpendIn(period, ledger, start) + entry.cost
      && SpendSince(ledger + [entry], start) == SpendSince(ledger, start) + entry.cost
  {
    PeriodsPartition(period, entry.at, entry.at);
    assert (ledger + [entry])[..|ledger|] == ledger;
  }

  lemma {:induction false} SpendRepeated(period: Period, ledger: seq<Entry>, entry: Entry, n: nat)
    ensures
      var start := StartOfPeriod(period, entry.at);
      && SpendIn(period, ledger + Repeat(entry, n), start) == SpendIn(period, ledger, start) + n * entry.cost
      && SpendSince(ledger + Repeat(entry, n), start) == SpendSince(ledger, start) + n * entry.cost
  {
    hide StartOfPeriod, SpendIn, SpendSince;
    if n == 0 {
      assert ledger + Repeat(entry, 0) == ledger;
    } else {
      SpendRepeated(period, ledger, entry, n - 1);
      SpendOneMore(period, ledger + Repeat(entry, n - 1), entry);
      assert ledger + Repeat(entry, n) == ledger + Repeat(entry, n - 1) + [entry];
      Products(n - 1, n, entry.cost);
    }
  }

  /** One call passes, records one unit, and ends. */
  lemma OneUnit(c: Config, s: State, clock: Time, now: Time, ledger: seq<Entry>, over: nat)
    requires Reaches(c, s, clock, State(now, ledger, Waiting(c, over, 0)))
    requires !HardLimitReached(c, ledger, StartOfPeriod(c.period, clock)) && c.maxCost > 0 && c.maxCalls > 0
    ensures Reaches(c, s, clock, State(now, ledger + [Entry(now, 1)], Waiting(c, over + 1, 0)))
  {
    hide Reaches, StartOfPeriod, HardLimitReached;
    OnePasses(c, s, clock, now, ledger, over, 0);
    var passed := State(now, ledger, Waiting(c, over, 1));
    ReachesStep(c, s, clock, passed, Record(over, 1));
    var recorded := Step(c, passed, Record(over, 1));
    ReachesStep(c, s, clock, recorded, Drop(over));
    assert Step(c, recorded, Drop(over)).calls == Waiting(c, over + 1, 0);
  }

  /** The gate opens for a clock when fewer units than the limit count, or none do as its period has not begun. */
  lemma {:induction false} UnitsPass(c: Config, now: Time, clock: Time, x: nat)
    requires c.limit > 0 && (x < c.limit || StartOfPeriod(c.period, clock) > now)
    ensures !HardLimitReached(c, Repeat(Entry(now, 1), x), StartOfPeriod(c.period, clock))
  {
    hide StartOfPeriod;
    var start := StartOfPeriod(c.period, clock);
    if x > 0 && start <= now {
      AtMostUnits(now, x, start);
    } else if x > 0 {
      UnitsPass(c, now, clock, x - 1);
      assert Repeat(Entry(now, 1), x)[..x - 1] == Repeat(Entry(now, 1), x - 1);
    }
  }

  lemma {:induction false} AtMostUnits(now: Time, x: nat, start: int)
    ensures SpendSince(Repeat(Entry(now, 1), x), start) <= x
  {
    if x > 0 {
      AtMostUnits(now, x - 1, start);
      assert Repeat(Entry(now, 1), x)[..x - 1] == Repeat(Entry(now, 1), x - 1);
    }
  }

  /** Calls that cost one unit each fill the ledger as far as the gate lets them. */
  lemma {:induction false} FillsUp(c: Config, now: Time, clock: Time, x: nat)
    requires c.limit > 0 && c.maxCost > 0 && c.maxCalls > 0
    requires x < c.limit || StartOfPeriod(c.period, clock) > now
    ensures Reaches(c, State(now, [], []), clock, State(now, Repeat(Entry(now, 1), x), Waiting(c, x, 0)))
  {
    hide StartOfPeriod, HardLimitReached, Reaches;
    var s := State(now, [], []);
    if x == 0 {
      ReachesItself(c, s, clock);
      assert s == State(now, Repeat(Entry(now, 1), 0), Waiting(c, 0, 0));
    } else {
      FillsUp(c, now, clock, x - 1);
      UnitsPass(c, now, clock, x - 1);
      OneUnit(c, s, clock, now, Repeat(Entry(now, 1), x - 1), x - 1);
    }
  }

  lemma ReachesItself(c: Config, s: State, clock: Time)
    ensures Reaches(c, s, clock, s)
  {
    assert Connects(c, s, [], clock, s);
  }

  lemma NothingSpent(period: Period, now: Time)
    ensures SpendSince([], StartOfPeriod(period, now)) == 0 && SpendIn(period, [], StartOfPeriod(period, now)) == 0
  {
  }

  /**
   The bound cannot be improved: for every limit, every number of calls and every cost,
   some run spends exactly limit + k·c − 1 in one period, with the clocks in step.
   */
  lemma BoundIsAttained(c: Config, now: Time)
    requires c.limit > 0 && c.maxCost > 0 && c.maxCalls > 0
    ensures exists es ::
      && Possible(c, State(now, [], []), es) && Reads(es, now)
      && SpendIn(c.period, Run(c, State(now, [], []), es).ledger, StartOfPeriod(c.period, now))
           == c.limit + c.maxCalls * c.maxCost - 1
  {
    hide Reaches, StartOfPeriod, SpendIn, SpendSince, Connects, HardLimitReached;
    var s := State(now, [], []);
    var x := c.limit - 1;
    var ledger := Repeat(Entry(now, 1), x);
    FillsUp(c, now, now, x);
    UnitsPass(c, now, now, x);
    NothingSpent(c.period, now);
    SpendRepeated(c.period, [], Entry(now, 1), x);
    assert [] + ledger == ledger;
    AllPass(c, s, now, now, ledger, x, c.maxCalls);
    assert Waiting(c, x, c.maxCalls) + Repeat(Over, 0) == Waiting(c, x, c.maxCalls);
    AllRecord(c, s, now, now, ledger, x, c.maxCalls, 0);
    var t :| Reaches(c, s, now, t) && t.now == now && t.ledger == ledger + Repeat(Entry(now, c.maxCost), c.maxCalls);
    SpendRepeated(c.period, ledger, Entry(now, c.maxCost), c.maxCalls);
    ReachedBy(c, s, now, t);
  }

  lemma ReachedBy(c: Config, s: State, clock: Time, t: State)
    requires Reaches(c, s, clock, t)
    ensures exists es :: Possible(c, s, es) && Run(c, s, es) == t && Reads(es, clock)
  {
    var es :| Connects(c, s, es, clock, t);
  }

  // ---------- When the clocks disagree ----------

  /** A process in a period that has not begun for the database sees an empty ledger, and the old period fills up. */
  lemma AheadIsUnbounded(c: Config, now: Time, clock: Time, x: nat)
    requires c.limit > 0 && c.maxCost > 0 && c.maxCalls > 0 && StartOfPeriod(c.period, clock) > now
    ensures exists es ::
      && Possible(c, State(now, [], []), es) && Reads(es, clock)
      && SpendIn(c.period, Run(c, State(now, [], []), es).ledger, StartOfPeriod(c.period, now)) == x
  {
    hide Reaches, StartOfPeriod, SpendIn, SpendSince, Connects;
    var s, ledger := State(now, [], []), Repeat(Entry(now, 1), x);
    FillsUp(c, now, clock, x);
    NothingSpent(c.period, now);
    SpendRepeated(c.period, [], Entry(now, 1), x);
    assert [] + ledger == ledger;
    ReachedBy(c, s, clock, State(now, ledger, Waiting(c, x, 0)));
  }

  lemma {:induction false} ReadsNeverAhead(c: Config, s: State, es: seq<Event>, clock: Time)
    requires Possible(c, s, es) && Reads(es, clock) && StartOfPeriod(c.period, clock) <= s.now
    ensures NeverAhead(c, s, es)
    decreases |es|
  {
    hide StartOfPeriod, HardLimitReached;
    if es != [] {
      assert Reads(es[1..], clock);
      ReadsNeverAhead(c, Step(c, s, es[0]), es[1..], clock);
    }
  }

  ghost predicate BoundHolds(c: Config, now: Time, clock: Time) {
    forall es, start: int :: Possible(c, State(now, [], []), es) && Reads(es, clock) ==>
      SpendIn(c.period, Run(c, State(now, [], []), es).ledger, start) < c.limit + c.maxCalls * c.maxCost
  }

  /**
   Exactly how far the clocks may differ: for processes whose clocks read `clock` the bound
   holds from the database's `now` on if and only if the period of `clock` has begun by then.
   */
  lemma ClocksDecide(c: Config, now: Time, clock: Time)
    requires c.limit > 0 && c.maxCost > 0 && c.maxCalls > 0
    ensures BoundHolds(c, now, clock) <==> StartOfPeriod(c.period, clock) <= now
  {
    hide StartOfPeriod, SpendIn, Step;
    if StartOfPeriod(c.period, clock) <= now {
      forall es, start: int | Possible(c, State(now, [], []), es) && Reads(es, clock)
        ensures SpendIn(c.period, Run(c, State(now, [], []), es).ledger, start) < c.limit + c.maxCalls * c.maxCost
      {
        ReadsNeverAhead(c, State(now, [], []), es, clock);
        SpendIsBounded(c, now, es, start);
      }
    } else {
      AheadIsUnbounded(c, now, clock, c.limit + c.maxCalls * c.maxCost);
    }
  }
}
