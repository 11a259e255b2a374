/**
 Routed model calls: a chain of models is tried in order, and every attempt is ledgered.

 What the provider would answer at each position of the chain is given; the ledger write
 and the budget re-evaluation are calls that may fail before or after they took effect.
 */
module ModelRouter {
  import opened Prelude
  import opened ExternalCalls

  type Model = string

  /** What one model does with the request; `Refused(retryable)` is a provider error. */
  datatype Outcome = Served(cost: nat) | Refused(retryable: bool) | Broken

  /** A ledger row; a failed call is recorded with no cost. */
  datatype Entry = Entry(model: Model, fallbackIndex: nat, succeeded: bool, cost: nat)

  datatype Result = Completed(fallbackIndex: nat, cost: nat) | GateClosed | Unavailable

  predicate Retryable(o: Outcome) {
    o == Refused(true)
  }

  /** How many models a call reaches: it goes on only past retryable refusals. */
  function Tried(outcomes: seq<Outcome>): (n: nat)
    ensures n <= |outcomes|
    ensures forall i :: 0 <= i < n - 1 ==> outcomes[i] == Refused(true)
    ensures n < |outcomes| ==> n > 0 && outcomes[n - 1] != Refused(true)
    ensures outcomes != [] ==> n > 0
  {
    if outcomes == [] then 0
    else if Retryable(outcomes[0]) then 1 + Tried(outcomes[1..])
    else 1
  }

  /**
   The answer at position `i` comes back: every model before it refused retryably, it
   served, and neither its record nor the re-evaluation after it threw.
   */
  predicate ComesBack(outcomes: seq<Outcome>, fate: nat -> Answer, at: nat, i: nat) {
    && i < |outcomes| && outcomes[i].Served? && (forall j :: 0 <= j < i ==> outcomes[j] == Refused(true))
    && fate(at + i).Works? && fate(at + i + 1).Works?
  }

  function Spend(entries: seq<Entry>): nat {
    if entries == [] then 0 else Spend(entries[..|entries| - 1]) + entries[|entries| - 1].cost
  }

  /** The rows that cost anything. */
  function Billed(entries: seq<Entry>): nat {
    if entries == [] then 0
    else Billed(entries[..|entries| - 1]) + (if entries[|entries| - 1].cost > 0 then 1 else 0)
  }

  lemma SpendSnoc(entries: seq<Entry>, e: Entry)
    ensures Spend(entries + [e]) == Spend(entries) + e.cost
    ensures Billed(entries + [e]) == Billed(entries) + (if e.cost > 0 then 1 else 0)
  {
  }

  /** The row of the attempt on model `i`. */
  function RowFor(chain: seq<Model>, outcomes: seq<Outcome>, i: nat): (row: Entry)
    requires i < |chain| == |outcomes|
    ensures row.model == chain[i] && row.fallbackIndex == i
    ensures row.succeeded <==> outcomes[i].Served?
    ensures row.cost > 0 ==> outcomes[i] == Served(row.cost)
    ensures outcomes[i].Served? ==> row.cost == outcomes[i].cost
  {
    if outcomes[i].Served? then Entry(chain[i], i, true, outcomes[i].cost) else Entry(chain[i], i, false, 0)
  }

  /** The attempts' rows that reach the ledger: write `i` of a call whose writes start at `at` is attempt `i`'s. */
  function KeptRows(chain: seq<Model>, outcomes: seq<Outcome>, fate: nat -> Answer, at: nat, n: nat): seq<Entry>
    requires n <= |chain| == |outcomes|
  {
    if n == 0 then []
    else
      KeptRows(chain, outcomes, fate, at, n - 1)
        + (if fate(at + n - 1).Took() then [RowFor(chain, outcomes, n - 1)] else [])
  }

  predicate WriteTook(fate: nat -> Answer, at: nat, i: nat) {
    fate(at + i).Took()
  }

  predicate ServedAt(outcomes: seq<Outcome>, n: nat)
    requires n <= |outcomes|
  {
    n > 0 && outcomes[n - 1].Served?
  }

  /** Neither the serving attempt's record nor the re-evaluation after it threw. */
  predicate Undisturbed(fate: nat -> Answer, at: nat, n: nat) {
    n > 0 && fate(at + n - 1).Works? && fate(at + n).Works?
  }

  /** A served call that was disturbed is recorded as failed as well. */
  function ExtraRow(chain: seq<Model>, outcomes: seq<Outcome>, fate: nat -> Answer, at: nat, n: nat): seq<Entry>
    requires n <= |chain| == |outcomes|
  {
    if ServedAt(outcomes, n) && !Undisturbed(fate, at, n)
       && fate(if fate(at + n - 1).Works? then at + n + 1 else at + n).Took()
    then [Entry(chain[n - 1], n - 1, false, 0)]
    else []
  }

  /** All a call adds to the ledger, by the fates of its writes. */
  function NewRows(chain: seq<Model>, outcomes: seq<Outcome>, fate: nat -> Answer, at: nat): seq<Entry>
    requires |chain| == |outcomes|
  {
    KeptRows(chain, outcomes, fate, at, Tried(outcomes)) + ExtraRow(chain, outcomes, fate, at, Tried(outcomes))
  }

  /** One write: its row is added if it takes. */
  function Recorded(ledger: seq<Entry>, e: Entry, write: Answer): seq<Entry> {
    if write.Took() then ledger + [e] else ledger
  }

  /** A served call's writes, from number `at` on. */
  function ServedLedger(ledger: seq<Entry>, row: Entry, failure: Entry, fate: nat -> Answer, at: nat): seq<Entry> {
    var recorded := Recorded(ledger, row, fate(at));
    if fate(at).Works? && fate(at + 1).Works? then recorded
    else Recorded(recorded, failure, fate(if fate(at).Works? then at + 2 else at + 1))
  }

  /** The ledger after the first `n` attempts' writes. */
  function After(before: seq<Entry>, chain: seq<Model>, outcomes: seq<Outcome>, fate: nat -> Answer, at: nat,
      n: nat): seq<Entry>
    requires n <= |chain| == |outcomes|
  {
    before + KeptRows(chain, outcomes, fate, at, n)
  }

  // ---------- What the ledger is missing ----------

  lemma NothingSpent()
    ensures Spend([]) == 0 && Billed([]) == 0
  {
  }

  lemma {:induction false} KeptCost(chain: seq<Model>, outcomes: seq<Outcome>, fate: nat -> Answer, at: nat, n: nat)
    requires n <= |chain| == |outcomes| && forall i :: 0 <= i < n - 1 ==> Retryable(outcomes[i])
    ensures
      var rows := KeptRows(chain, outcomes, fate, at, n);
      && Spend(rows) == (if ServedAt(outcomes, n) && fate(at + n - 1).Took() then outcomes[n - 1].cost else 0)
      && Billed(rows) <= (if ServedAt(outcomes, n) then 1 else 0)
  {
    hide Spend, Billed;
    if n == 0 {
      NothingSpent();
    } else {
      KeptCost(chain, outcomes, fate, at, n - 1);
      var before := KeptRows(chain, outcomes, fate, at, n - 1);
      SpendSnoc(before, RowFor(chain, outcomes, n - 1));
      assert before + [] == before;
      if n > 1 { assert Retryable(outcomes[n - 2]); }
    }
  }

  lemma {:induction false} KeptExactly(chain: seq<Model>, outcomes: seq<Outcome>, fate: nat -> Answer, at: nat, n: nat)
    requires n <= |chain| == |outcomes|
    ensures
      var rows := KeptRows(chain, outcomes, fate, at, n);
      && (forall i :: 0 <= i < n ==> (RowFor(chain, outcomes, i) in rows <==> WriteTook(fate, at, i)))
      && (forall e :: e in rows ==> e.fallbackIndex < n)
  {
    if n > 0 {
      KeptExactly(chain, outcomes, fate, at, n - 1);
      var before := KeptRows(chain, outcomes, fate, at, n - 1);
      var row := RowFor(chain, outcomes, n - 1);
      assert forall e :: e in before + [row] <==> e in before || e == row;
    }
  }

  /**
   A call adds the serving model's cost to the ledger exactly when its record write took
   effect; no other row of the call costs anything.
   */
  lemma CostIsRecordedExactly(chain: seq<Model>, outcomes: seq<Outcome>, fate: nat -> Answer, at: nat,
      before: seq<Entry>)
    requires |chain| == |outcomes|
    ensures
      var n := Tried(outcomes);
      var ledger := before + NewRows(chain, outcomes, fate, at);
      && Spend(ledger) == Spend(before) +
           (if ServedAt(outcomes, n) && fate(at + n - 1).Took() then outcomes[n - 1].cost else 0)
      && Billed(ledger) <= Billed(before) + 1
  {
    hide Spend, Billed, KeptRows;
    var n := Tried(outcomes);
    var kept := KeptRows(chain, outcomes, fate, at, n);
    KeptCost(chain, outcomes, fate, at, n);
    assert kept + [] == kept;
    if ExtraRow(chain, outcomes, fate, at, n) != [] { SpendSnoc(kept, Entry(chain[n - 1], n - 1, false, 0)); }
    SpendConcat(before, NewRows(chain, outcomes, fate, at));
  }

  lemma {:induction false} SpendConcat(a: seq<Entry>, b: seq<Entry>)
    ensures Spend(a + b) == Spend(a) + Spend(b) && Billed(a + b) == Billed(a) + Billed(b)
  {
    if b == [] {
      assert a + b == a;
    } else {
      SpendConcat(a, b[..|b| - 1]);
      assert (a + b)[..|a + b| - 1] == a + b[..|b| - 1];
    }
  }

  /** Every attempt has its row exactly when every record write took effect. */
  lemma EveryAttemptHasItsRowExactly(chain: seq<Model>, outcomes: seq<Outcome>, fate: nat -> Answer, at: nat)
    requires |chain| == |outcomes|
    ensures
      var n := Tried(outcomes);
      var rows := NewRows(chain, outcomes, fate, at);
      && (forall i :: 0 <= i < n ==> (RowFor(chain, outcomes, i) in rows <==> WriteTook(fate, at, i)))
      && ((forall i :: 0 <= i < n ==> RowFor(chain, outcomes, i) in rows) <==>
        forall i :: 0 <= i < n ==> WriteTook(fate, at, i))
  {
    hide KeptRows;
    var n := Tried(outcomes);
    KeptExactly(chain, outcomes, fate, at, n);
    var extra := ExtraRow(chain, outcomes, fate, at, n);
    var rows := NewRows(chain, outcomes, fate, at);
    forall i | 0 <= i < n
      ensures RowFor(chain, outcomes, i) in rows <==> WriteTook(fate, at, i)
    {
      assert RowFor(chain, outcomes, i) !in extra;
    }
  }

  /**
   When a call adds a row beyond its attempts': exactly when its last model served, the
   record or the re-evaluation after it threw, and the record of that failure took effect.
   */
  lemma FailureAfterService(chain: seq<Model>, outcomes: seq<Outcome>, fate: nat -> Answer, at: nat)
    requires |chain| == |outcomes|
    ensures
      var n := Tried(outcomes);
      var rows, kept := NewRows(chain, outcomes, fate, at), KeptRows(chain, outcomes, fate, at, n);
      if n > 0 && outcomes[n - 1].Served?
         && ((fate(at + n - 1).Throws? && fate(at + n).Took())
             || (fate(at + n - 1).Works? && fate(at + n).Throws? && fate(at + n + 1).Took()))
      then rows == kept + [Entry(chain[n - 1], n - 1, false, 0)]
      else rows == kept
  {
    hide KeptRows, Tried;
    var kept := KeptRows(chain, outcomes, fate, at, Tried(outcomes));
    assert kept + [] == kept;
  }

  /** A call that loses a cost: the model served and charged, and no write reached the database. */
  lemma CostCanBeLost(model: Model, cost: nat)
    ensures NewRows([model], [Served(cost)], _ => Throws(false), 0) == []
      && ServedAt([Served(cost)], Tried([Served(cost)]))
  {
    var fate: nat -> Answer := _ => Throws(false);
    assert Tried([Served(cost)]) == 1;
    assert KeptRows([model], [Served(cost)], fate, 0, 0) == [];
  }

  // ---------- Streams ----------

  /** A chunk of a streamed answer; some carry the call's usage. */
  datatype Chunk = Chunk(delta: string, usage: Option<nat>)

  datatype Ending = Finishes | Fails(retryable: bool)

  /** What one model streams: its chunks, and whether the stream then ends or breaks. */
  datatype Feed = Feed(chunks: seq<Chunk>, ending: Ending)

  /** A feed that breaks retryably before its first chunk. */
  predicate FailsToConnect(f: Feed) {
    f == Feed([], Fails(true))
  }

  /** The cost the chunks report. */
  function Usage(chunks: seq<Chunk>): nat {
    if chunks == [] then 0 else Usage(chunks[..|chunks| - 1]) + chunks[|chunks| - 1].usage.Or(0)
  }

  /** How many of the chunks report usage. */
  function Reports(chunks: seq<Chunk>): nat {
    if chunks == [] then 0
    else Reports(chunks[..|chunks| - 1]) + (if chunks[|chunks| - 1].usage.Some? then 1 else 0)
  }

  /** The rows those reports make. */
  function UsageRows(model: Model, index: nat, chunks: seq<Chunk>): seq<Entry> {
    if chunks == [] then []
    else
      var last := chunks[|chunks| - 1];
      UsageRows(model, index, chunks[..|chunks| - 1])
        + (if last.usage.Some? then [Entry(model, index, true, last.usage.value)] else [])
  }

  /**
   How far a stream gets: every report costs two calls, a record and a re-evaluation, and
   the chunk whose report meets the first throw is not passed on, nor any after it.
   */
  predicate GetsTo(chunks: seq<Chunk>, fate: nat -> Answer, at: nat, m: nat) {
    && m <= |chunks| && AllWorked(fate, at, at + 2 * Reports(chunks[..m]))
    && (m < |chunks| ==>
          var next := at + 2 * Reports(chunks[..m]);
          chunks[m].usage.Some? && !(fate(next).Works? && fate(next + 1).Works?))
  }

  /** The failure rows of the first `n` models, each refused before its first chunk: one write each, from `at` on. */
  function FailureRows(chain: seq<Model>, fate: nat -> Answer, at: nat, n: nat): seq<Entry>
    requires n <= |chain|
  {
    if n == 0 then []
    else
      FailureRows(chain, fate, at, n - 1)
        + (if fate(at + n - 1).Took() then [Entry(chain[n - 1], n - 1, false, 0)] else [])
  }

  /** What the reports leave in the ledger when the stream got to chunk `m`: the last record may have taken effect. */
  function RelayedRows(model: Model, index: nat, chunks: seq<Chunk>, fate: nat -> Answer, at: nat, m: nat): seq<Entry>
    requires m <= |chunks|
  {
    UsageRows(model, index, chunks[..m])
      + (if m < |chunks| && fate(at + 2 * Reports(chunks[..m])).Took()
         then [Entry(model, index, true, chunks[m].usage.Or(0))] else [])
  }

  class Router {
    var ledger: seq<Entry>
    /** The models called, in order. */
    var called: seq<Model>

    constructor ()
      ensures ledger == [] && called == []
    {
      ledger, called := [], [];
    }

    /** `usage.record`: one row, if the write takes. */
    method Record(e: Entry, outside: Outside) returns (ok: bool)
      modifies this`ledger, outside
      ensures outside.made == old(outside.made) + 1
      ensures ok == outside.fate(old(outside.made)).Works?
      ensures ledger == Recorded(old(ledger), e, outside.fate(old(outside.made)))
    {
      var a := outside.Next();
      if a.Took() { ledger := ledger + [e]; }
      ok := a.Works?;
    }

    /** A served call's record and the re-evaluation; if either throws, the catch block's record of a failure. */
    method RecordServed(row: Entry, failure: Entry, outside: Outside) returns (ok: bool)
      modifies this`ledger, outside
      ensures
        var at := old(outside.made);
        && ok == (outside.fate(at).Works? && outside.fate(at + 1).Works?)
        && ledger == ServedLedger(old(ledger), row, failure, outside.fate, at)
    {
      var recorded := Record(row, outside);
      if recorded {
        var a := outside.Next();
        if a.Works? { return true; }
      }
      var _ := Record(failure, outside);
      ok := false;
    }

    /**
     One call. The models called are a prefix of the chain, every one but the last a
     retryable refusal. The fates of the ledger writes and of the re-evaluation, in the
     order they are made, decide what is recorded and whether the call returns.
     */
    method Complete(chain: seq<Model>, outcomes: seq<Outcome>, gateOpen: bool, outside: Outside) returns (r: Result)
      requires |chain| == |outcomes|
      modifies this, outside
      ensures !gateOpen ==> r == GateClosed && ledger == old(ledger) && called == old(called)
      ensures gateOpen ==> !r.GateClosed? && called == old(called) + chain[..Tried(outcomes)]
      ensures gateOpen ==> ledger == old(ledger) + NewRows(chain, outcomes, outside.fate, old(outside.made))
      ensures gateOpen ==>
        var n := Tried(outcomes);
        (r.Completed? <==> ServedAt(outcomes, n) && Undisturbed(outside.fate, old(outside.made), n))
      ensures r.Completed? ==>
        var n := Tried(outcomes);
        n > 0 && r.fallbackIndex == n - 1 && outcomes[n - 1] == Served(r.cost)
      ensures gateOpen ==>
        var k := |called| - |old(called)|;
        && 0 <= k <= |chain| && called == old(called) + chain[..k] && (chain != [] ==> k > 0)
        && (forall i :: 0 <= i < k - 1 ==> outcomes[i] == Refused(true))
        && (0 < k < |chain| ==> outcomes[k - 1] != Refused(true))
      ensures gateOpen ==>
        (r.Completed? <==> exists i :: 0 <= i < |outcomes| && ComesBack(outcomes, outside.fate, old(outside.made), i))
      ensures r.Completed? ==> ComesBack(outcomes, outside.fate, old(outside.made), r.fallbackIndex)
    {
      hide KeptRows, ExtraRow, NewRows, Tried, Undisturbed, After, Recorded, ServedLedger, ComesBack;
      if !gateOpen { return GateClosed; }
      ComesBackMeans(outcomes, outside.fate, outside.made);
      ghost var at := outside.made;
      NothingYet(chain, outcomes, outside.fate, at, ledger);
      var index := 0;
      while index < |chain|
        invariant 0 <= index <= |chain|
        invariant forall i :: 0 <= i < index ==> Retryable(outcomes[i])
        invariant called == old(called) + chain[..index]
        invariant outside.made == at + index
        invariant ledger == After(old(ledger), chain, outcomes, outside.fate, at, index)
      {
        var model := chain[index];
        ghost var n := index + 1;
        assert chain[..n] == chain[..index] + [model];
        called := called + [model];
        if outcomes[index].Served? {
          StopsAt(outcomes, n);
          var row, failure := Entry(model, index, true, outcomes[index].cost), Entry(model, index, false, 0);
          var ok := RecordServed(row, failure, outside);
          ServedRows(chain, outcomes, outside.fate, at, index, old(ledger));
          return if ok then Completed(index, outcomes[index].cost) else Unavailable;
        }
        var failure := Entry(model, index, false, 0);
        var _ := Record(failure, outside);
        RefusedRow(chain, outcomes, outside.fate, at, index, old(ledger));
        if !Retryable(outcomes[index]) {
          StopsAt(outcomes, n);
          OnlyKept(chain, outcomes, outside.fate, at, old(ledger));
          return Unavailable;
        }
        index := index + 1;
      }
      NeverStops(outcomes);
      OnlyKept(chain, outcomes, outside.fate, at, old(ledger));
      assert chain[..|chain|] == chain;
      r := Unavailable;
    }

    /** A chunk's usage: its record and the re-evaluation, if the record did not throw. */
    method Report(row: Entry, outside: Outside) returns (ok: bool)
      modifies this`ledger, outside
      ensures ok <==> outside.fate(old(outside.made)).Works? && outside.fate(old(outside.made) + 1).Works?
      ensures ok ==> outside.made == old(outside.made) + 2
      ensures ledger == old(ledger) + (if outside.fate(old(outside.made)).Took() then [row] else [])
      ensures Spend(old(ledger)) <= Spend(ledger) <= Spend(old(ledger)) + row.cost
      ensures ok ==> ledger == old(ledger) + [row] && Spend(ledger) == Spend(old(ledger)) + row.cost
    {
      hide Spend;
      SpendSnoc(ledger, row);
      assert ledger + [] == ledger;
      ok := Record(row, outside);
      if ok {
        var a := outside.Next();
        ok := a.Works?;
      }
    }

    /**
     One model's stream: what the client got of it, and whether it ended without an error.
     The fates of the records and re-evaluations decide how far it gets.
     */
    method Relay(model: Model, index: nat, feed: Feed, outside: Outside) returns (yielded: seq<Chunk>, ok: bool)
      modifies this`ledger, outside
      ensures yielded <= feed.chunks && GetsTo(feed.chunks, outside.fate, old(outside.made), |yielded|)
      ensures ok <==> |yielded| == |feed.chunks| && feed.ending.Finishes?
      ensures ledger == old(ledger) +
        RelayedRows(model, index, feed.chunks, outside.fate, old(outside.made), |yielded|)
      ensures Spend(old(ledger)) + Usage(yielded) <= Spend(ledger) <= Spend(old(ledger)) + Usage(feed.chunks)
      ensures feed.chunks == [] ==> ledger == old(ledger) && outside.made == old(outside.made)
    {
      hide Spend, Usage, Reports, UsageRows, AllWorked, GetsTo, RelayedRows;
      ghost var at := outside.made;
      yielded := [];
      assert feed.chunks[..0] == [];
      UsageNone();
      NothingRelayed(model, index, outside.fate, at);
      for i := 0 to |feed.chunks|
        invariant yielded == feed.chunks[..i]
        invariant Spend(ledger) == Spend(old(ledger)) + Usage(feed.chunks[..i])
        invariant ledger == old(ledger) + UsageRows(model, index, feed.chunks[..i])
        invariant outside.made == at + 2 * Reports(feed.chunks[..i])
        invariant AllWorked(outside.fate, at, at + 2 * Reports(feed.chunks[..i]))
      {
        var chunk := feed.chunks[i];
        UsageSnoc(feed.chunks, i);
        UsageGrows(feed.chunks, i);
        UsageGrows(feed.chunks, i + 1);
        ReportsSnoc(model, index, feed.chunks, i);
        assert feed.chunks[..i + 1] == feed.chunks[..i] + [chunk];
        if chunk.usage.Some? {
          StopsOrGoesOn(model, index, feed.chunks, outside.fate, at, i);
          var reported := Report(Entry(model, index, true, chunk.usage.value), outside);
          if !reported { return yielded, false; }
        }
        yielded := yielded + [chunk];
      }
      assert feed.chunks[..|feed.chunks|] == feed.chunks;
      AllRelayed(model, index, feed.chunks, outside.fate, at);
      ok := feed.ending.Finishes?;
    }

    /** One model's attempt: its stream, and if that did not end well, the failure's row. */
    method Attempt(model: Model, index: nat, feed: Feed, outside: Outside) returns (yielded: seq<Chunk>, ok: bool)
      modifies this, outside
      ensures called == old(called) + [model]
      ensures yielded <= feed.chunks && GetsTo(feed.chunks, outside.fate, old(outside.made), |yielded|)
      ensures ok <==> |yielded| == |feed.chunks| && feed.ending.Finishes?
      ensures Spend(old(ledger)) + Usage(yielded) <= Spend(ledger) <= Spend(old(ledger)) + Usage(feed.chunks)
      ensures ok || outside.made > 0
      ensures ledger == old(ledger)
        + RelayedRows(model, index, feed.chunks, outside.fate, old(outside.made), |yielded|)
        + (if !ok && outside.fate(outside.made - 1).Took() then [Entry(model, index, false, 0)] else [])
      ensures feed == Feed([], Fails(true)) ==> !ok && outside.made == old(outside.made) + 1
    {
      hide Spend, Usage, Reports, UsageRows, AllWorked, GetsTo, RelayedRows;
      called := called + [model];
      yielded, ok := Relay(model, index, feed, outside);
      if !ok {
        var failure := Entry(model, index, false, 0);
        SpendSnoc(ledger, failure);
        var _ := Record(failure, outside);
      }
    }

    /**
     The streaming call. The client never sees chunks of two models: whatever it got is a
     prefix of the last tried model's stream, and every model before that one failed
     before its first chunk.
     */
    method Stream(chain: seq<Model>, feeds: seq<Feed>, gateOpen: bool, outside: Outside)
      returns (yielded: seq<Chunk>, completed: bool)
      requires |chain| == |feeds|
      modifies this, outside
      ensures !gateOpen ==> yielded == [] && !completed && ledger == old(ledger) && called == old(called)
      ensures gateOpen ==>
        var k := |called| - |old(called)|;
        && 0 <= k <= |chain| && called == old(called) + chain[..k] && (chain != [] ==> k > 0)
        && (forall i :: 0 <= i < k - 1 ==> feeds[i] == Feed([], Fails(true)))
        && (0 < k < |chain| ==> feeds[k - 1] != Feed([], Fails(true)))
      ensures gateOpen && feeds != [] ==>
        var k := |called| - |old(called)|;
        var last := feeds[k - 1];
        && yielded <= last.chunks && GetsTo(last.chunks, outside.fate, old(outside.made) + k - 1, |yielded|)
        && (completed <==> |yielded| == |last.chunks| && last.ending.Finishes?)
        && Spend(old(ledger)) + Usage(yielded) <= Spend(ledger) <= Spend(old(ledger)) + Usage(last.chunks)
      ensures gateOpen && feeds != [] ==>
        var k, at := |called| - |old(called)|, old(outside.made);
        && (completed || outside.made > 0)
        && ledger == old(ledger) + FailureRows(chain, outside.fate, at, k - 1)
             + RelayedRows(chain[k - 1], k - 1, feeds[k - 1].chunks, outside.fate, at + k - 1, |yielded|)
             + (if !completed && outside.fate(outside.made - 1).Took()
                then [Entry(chain[k - 1], k - 1, false, 0)] else [])
      ensures feeds == [] ==> yielded == [] && !completed && ledger == old(ledger)
    {
      hide Spend, Usage, Reports, UsageRows, AllWorked, GetsTo, RelayedRows, FailureRows;
      FailureRowsNone(chain, outside.fate, outside.made);
      if !gateOpen { return [], false; }
      UsageNone();
      ghost var at := outside.made;
      yielded := [];
      var index := 0;
      while index < |chain|
        invariant 0 <= index <= |chain| && yielded == []
        invariant forall i :: 0 <= i < index ==> FailsToConnect(feeds[i])
        invariant called == old(called) + chain[..index] && Spend(ledger) == Spend(old(ledger))
        invariant outside.made == at + index
        invariant ledger == old(ledger) + FailureRows(chain, outside.fate, at, index)
        invariant index > 0 ==> GetsTo([], outside.fate, at + index - 1, 0)
      {
        var model, feed := chain[index], feeds[index];
        assert chain[..index + 1] == chain[..index] + [model];
        var ok;
        yielded, ok := Attempt(model, index, feed, outside);
        FailureRowsSnoc(chain, outside.fate, at, index);
        if ok { return yielded, true; }
        if !FailsToConnect(feed) { return yielded, false; }
        NoneRelayed(model, index, outside.fate, at + index);
        index := index + 1;
      }
      assert chain[..|chain|] == chain;
      if index > 0 {
        FailureRowsSnoc(chain, outside.fate, at, index - 1);
        NoneRelayed(chain[index - 1], index - 1, outside.fate, at + index - 1);
      }
      completed := false;
    }
  }

  lemma FailureRowsNone(chain: seq<Model>, fate: nat -> Answer, at: nat)
    ensures FailureRows(chain, fate, at, 0) == []
  {
  }

  lemma FailureRowsSnoc(chain: seq<Model>, fate: nat -> Answer, at: nat, i: nat)
    requires i < |chain|
    ensures FailureRows(chain, fate, at, i + 1) == FailureRows(chain, fate, at, i) +
      (if fate(at + i).Took() then [Entry(chain[i], i, false, 0)] else [])
  {
  }

  lemma NoneRelayed(model: Model, index: nat, fate: nat -> Answer, at: nat)
    ensures RelayedRows(model, index, [], fate, at, 0) == []
  {
  }

  lemma NothingRelayed(model: Model, index: nat, fate: nat -> Answer, at: nat)
    ensures Reports([]) == 0 && UsageRows(model, index, []) == [] && AllWorked(fate, at, at)
  {
  }

  lemma ReportsSnoc(model: Model, index: nat, chunks: seq<Chunk>, i: nat)
    requires i < |chunks|
    ensures Reports(chunks[..i + 1]) == Reports(chunks[..i]) + (if chunks[i].usage.Some? then 1 else 0)
    ensures UsageRows(model, index, chunks[..i + 1]) == UsageRows(model, index, chunks[..i]) +
      (if chunks[i].usage.Some? then [Entry(model, index, true, chunks[i].usage.value)] else [])
  {
    assert chunks[..i + 1][..i] == chunks[..i];
  }

  /** A report that throws ends the stream there; one that works takes it past the chunk. */
  lemma StopsOrGoesOn(model: Model, index: nat, chunks: seq<Chunk>, fate: nat -> Answer, at: nat, i: nat)
    requires i < |chunks| && chunks[i].usage.Some? && AllWorked(fate, at, at + 2 * Reports(chunks[..i]))
    ensures
      var next := at + 2 * Reports(chunks[..i]);
      && (if fate(next).Works? && fate(next + 1).Works?
          then AllWorked(fate, at, at + 2 * Reports(chunks[..i + 1]))
          else GetsTo(chunks, fate, at, i))
      && RelayedRows(model, index, chunks, fate, at, i) == UsageRows(model, index, chunks[..i]) +
           (if fate(next).Took() then [Entry(model, index, true, chunks[i].usage.value)] else [])
  {
    hide AllWorked, Reports, UsageRows;
    TwoMore(fate, at, 2 * Reports(chunks[..i]));
    ReportsSnoc(model, index, chunks, i);
  }

  lemma AllRelayed(model: Model, index: nat, chunks: seq<Chunk>, fate: nat -> Answer, at: nat)
    requires AllWorked(fate, at, at + 2 * Reports(chunks))
    ensures GetsTo(chunks, fate, at, |chunks|)
    ensures RelayedRows(model, index, chunks, fate, at, |chunks|) == UsageRows(model, index, chunks)
  {
    hide AllWorked, Reports, UsageRows;
    assert chunks[..|chunks|] == chunks;
  }

  lemma TwoMore(fate: nat -> Answer, at: nat, n: nat)
    ensures AllWorked(fate, at, at + n + 2) <==>
      AllWorked(fate, at, at + n) && fate(at + n).Works? && fate(at + n + 1).Works?
  {
    WorkedOn(fate, at, at + n, at + n + 2);
  }

  /** Only the last model tried can be the one whose answer comes back. */
  lemma ComesBackMeans(outcomes: seq<Outcome>, fate: nat -> Answer, at: nat)
    ensures
      var n := Tried(outcomes);
      && (ServedAt(outcomes, n) && Undisturbed(fate, at, n) ==> ComesBack(outcomes, fate, at, n - 1))
      && (forall i :: 0 <= i < |outcomes| && ComesBack(outcomes, fate, at, i) ==>
            i == n - 1 && ServedAt(outcomes, n) && Undisturbed(fate, at, n))
  {
    hide Tried;
    forall i | 0 <= i < |outcomes| && ComesBack(outcomes, fate, at, i)
      ensures i == Tried(outcomes) - 1
    {
      StopsAt(outcomes, i + 1);
    }
  }

  lemma UsageNone()
    ensures Usage([]) == 0
  {
  }

  lemma UsageSnoc(chunks: seq<Chunk>, i: nat)
    requires i < |chunks|
    ensures Usage(chunks[..i + 1]) == Usage(chunks[..i]) + chunks[i].usage.Or(0)
  {
    assert chunks[..i + 1][..i] == chunks[..i];
  }

  lemma {:induction false} UsageGrows(chunks: seq<Chunk>, i: nat)
    requires i <= |chunks|
    ensures Usage(chunks[..i]) <= Usage(chunks)
    decreases |chunks| - i
  {
    if i == |chunks| {
      assert chunks[..i] == chunks;
    } else {
      UsageSnoc(chunks, i);
      UsageGrows(chunks, i + 1);
    }
  }

  lemma Regroup<T>(a: seq<T>, b: seq<T>, c: seq<T>, d: seq<T>)
    ensures a + (b + c + d) == a + b + c + d
  {
  }

  lemma ServedIs(ledger: seq<Entry>, row: Entry, failure: Entry, fate: nat -> Answer, at: nat)
    ensures ServedLedger(ledger, row, failure, fate, at) ==
      ledger + (if fate(at).Took() then [row] else []) +
      (if !(fate(at).Works? && fate(at + 1).Works?) && fate(if fate(at).Works? then at + 2 else at + 1).Took()
       then [failure] else [])
  {
  }

  /** What the writes of a call served at position `i` leave after those of the attempts before it. */
  lemma ServedRows(chain: seq<Model>, outcomes: seq<Outcome>, fate: nat -> Answer, at: nat, i: nat, before: seq<Entry>)
    requires i < |chain| == |outcomes| && Tried(outcomes) == i + 1 && outcomes[i].Served?
    ensures ServedAt(outcomes, i + 1)
    ensures Undisturbed(fate, at, i + 1) == (fate(at + i).Works? && fate(at + i + 1).Works?)
    ensures
      var row, failure := Entry(chain[i], i, true, outcomes[i].cost), Entry(chain[i], i, false, 0);
      before + NewRows(chain, outcomes, fate, at)
        == ServedLedger(After(before, chain, outcomes, fate, at, i), row, failure, fate, at + i)
  {
    hide ServedLedger, Tried;
    var w := at + i;
    assert at + (i + 1) - 1 == w && at + (i + 1) == w + 1 && at + (i + 1) + 1 == w + 2;
    var row, failure := Entry(chain[i], i, true, outcomes[i].cost), Entry(chain[i], i, false, 0);
    var kept := KeptRows(chain, outcomes, fate, at, i);
    var own := if fate(w).Took() then [row] else [];
    var extra := ExtraRow(chain, outcomes, fate, at, i + 1);
    assert KeptRows(chain, outcomes, fate, at, i + 1) == kept + own;
    Regroup(before, kept, own, extra);
    ServedIs(before + kept, row, failure, fate, w);
  }

  /** A refused attempt's row follows those before it. */
  lemma RefusedRow(chain: seq<Model>, outcomes: seq<Outcome>, fate: nat -> Answer, at: nat, i: nat, before: seq<Entry>)
    requires i < |chain| == |outcomes| && !outcomes[i].Served?
    ensures After(before, chain, outcomes, fate, at, i + 1)
         == Recorded(After(before, chain, outcomes, fate, at, i), Entry(chain[i], i, false, 0), fate(at + i))
  {
    assert KeptRows(chain, outcomes, fate, at, i) + [] == KeptRows(chain, outcomes, fate, at, i);
  }

  lemma OnlyKept(chain: seq<Model>, outcomes: seq<Outcome>, fate: nat -> Answer, at: nat, before: seq<Entry>)
    requires |chain| == |outcomes| && !ServedAt(outcomes, Tried(outcomes))
    ensures before + NewRows(chain, outcomes, fate, at) == After(before, chain, outcomes, fate, at, Tried(outcomes))
  {
  }

  lemma NothingYet(chain: seq<Model>, outcomes: seq<Outcome>, fate: nat -> Answer, at: nat, before: seq<Entry>)
    requires |chain| == |outcomes|
    ensures After(before, chain, outcomes, fate, at, 0) == before
  {
  }

  lemma {:induction false} StopsAt(outcomes: seq<Outcome>, n: nat)
    requires 0 < n <= |outcomes| && !Retryable(outcomes[n - 1])
    requires forall i :: 0 <= i < n - 1 ==> Retryable(outcomes[i])
    ensures Tried(outcomes) == n
  {
  }

  lemma {:induction false} NeverStops(outcomes: seq<Outcome>)
    requires forall i :: 0 <= i < |outcomes| ==> Retryable(outcomes[i])
    ensures Tried(outcomes) == |outcomes|
  {
  }
}
