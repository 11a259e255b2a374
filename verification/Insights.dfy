/**
 One organization's insights: upserts by dedupe key, one event per new row, and the
 health sweep that retires what it no longer reports.

 The table is a map from dedupe key, which is the UNIQUE (organization, key) constraint;
 an event names the key of the row it announces.
 */
module Insights {

  type Key = string

  type Generator = string

  const INTEGRATION_HEALTH: Generator := "integration_health"

  datatype Status = Active | Dismissed | Expired

  /** What a generator reports; `content` is everything but the key. */
  datatype Draft = Draft(dedupeKey: Key, content: string)

  datatype Row = Row(sourceGenerator: Generator, status: Status, content: string)

  datatype Batch = Batch(generator: Generator, drafts: seq<Draft>)

  type Table = map<Key, Row>

  /** The upsert: an existing row keeps its generator and becomes active again. */
  function Upsert(rows: Table, generator: Generator, d: Draft): Table {
    if d.dedupeKey in rows
    then rows[d.dedupeKey := rows[d.dedupeKey].(status := Active, content := d.content)]
    else rows[d.dedupeKey := Row(generator, Active, d.content)]
  }

  function UpsertAll(rows: Table, generator: Generator, drafts: seq<Draft>): Table {
    if drafts == [] then rows
    else Upsert(UpsertAll(rows, generator, drafts[..|drafts| - 1]), generator, drafts[|drafts| - 1])
  }

  function Keys(drafts: seq<Draft>): (keys: set<Key>) {
    set d | d in drafts :: d.dedupeKey
  }

  /** The health generator reports a complete snapshot: its active rows not in it are dismissed. */
  function DismissResolved(rows: Table, keys: set<Key>): Table {
    map k | k in rows ::
      if rows[k].sourceGenerator == INTEGRATION_HEALTH && rows[k].status == Active && k !in keys
      then rows[k].(status := Dismissed)
      else rows[k]
  }

  function RunBatch(rows: Table, b: Batch): Table {
    var rows := if b.generator == INTEGRATION_HEALTH then DismissResolved(rows, Keys(b.drafts)) else rows;
    UpsertAll(rows, b.generator, b.drafts)
  }

  function RunBatches(rows: Table, batches: seq<Batch>): Table {
    if batches == [] then rows
    else RunBatch(RunBatches(rows, batches[..|batches| - 1]), batches[|batches| - 1])
  }

  lemma UpsertAllSnoc(rows: Table, generator: Generator, drafts: seq<Draft>, i: nat)
    requires i < |drafts|
    ensures UpsertAll(rows, generator, drafts[..i + 1]) ==
      Upsert(UpsertAll(rows, generator, drafts[..i]), generator, drafts[i])
  {
    assert drafts[..i + 1][..i] == drafts[..i];
  }

  lemma RunBatchesSnoc(rows: Table, batches: seq<Batch>, i: nat)
    requires i < |batches|
    ensures RunBatches(rows, batches[..i + 1]) == RunBatch(RunBatches(rows, batches[..i]), batches[i])
  {
    assert batches[..i + 1][..i] == batches[..i];
  }

  // ---------- The engine ----------

  ghost predicate NoRepeats(events: seq<Key>) {
    forall i, j :: 0 <= i < j < |events| ==> events[i] != events[j]
  }

  /** The events announce the rows, each row once. */
  ghost predicate Announced(rows: Table, events: seq<Key>) {
    NoRepeats(events) && (forall k :: k in events <==> k in rows)
  }

  class Engine {
    var rows: Table
    /** `InsightGenerated` in the outbox, by the key of its row. */
    var events: seq<Key>

    constructor ()
      ensures rows == map[] && events == [] && Announced(rows, events)
    {
      rows, events := map[], [];
    }

    method Persist(generator: Generator, draft: Draft) returns (created: bool)
      requires Announced(rows, events)
      modifies this
      ensures rows == Upsert(old(rows), generator, draft) && Announced(rows, events)
      ensures created <==> draft.dedupeKey !in old(rows)
      ensures rows.Keys == old(rows).Keys + {draft.dedupeKey}
      ensures forall k :: k in old(rows) && k != draft.dedupeKey ==> rows[k] == old(rows)[k]
      ensures draft.dedupeKey in rows && rows[draft.dedupeKey] ==
        Row(if created then generator else old(rows)[draft.dedupeKey].sourceGenerator, Active, draft.content)
      ensures events == if created then old(events) + [draft.dedupeKey] else old(events)
    {
      if draft.dedupeKey in rows {
        rows := rows[draft.dedupeKey := rows[draft.dedupeKey].(status := Active, content := draft.content)];
        return false;
      }
      rows := rows[draft.dedupeKey := Row(generator, Active, draft.content)];
      events := events + [draft.dedupeKey];
      return true;
    }

    /** One run over the batches; a generator that threw contributes an empty batch. */
    method Run(enabled: bool, batches: seq<Batch>) returns (persisted: nat)
      requires Announced(rows, events)
      modifies this
      ensures rows == (if enabled then RunBatches(old(rows), batches) else old(rows))
      ensures Announced(rows, events) && old(events) <= events && persisted == |events| - |old(events)|
    {
      hide Announced, UpsertAll, RunBatches, DismissResolved;
      persisted := 0;
      if !enabled { return; }
      NoBatches(rows);
      assert batches[..0] == [];
      for i := 0 to |batches|
        invariant rows == RunBatches(old(rows), batches[..i])
        invariant Announced(rows, events) && old(events) <= events && persisted == |events| - |old(events)|
      {
        var b := batches[i];
        RunBatchesSnoc(old(rows), batches, i);
        if b.generator == INTEGRATION_HEALTH {
          DismissKeepsKeys(rows, Keys(b.drafts), events);
          rows := DismissResolved(rows, Keys(b.drafts));
        }
        var created := PersistAll(b.generator, b.drafts);
        persisted := persisted + created;
      }
      assert batches[..|batches|] == batches;
    }

    method PersistAll(generator: Generator, drafts: seq<Draft>) returns (created: nat)
      requires Announced(rows, events)
      modifies this
      ensures rows == UpsertAll(old(rows), generator, drafts)
      ensures Announced(rows, events) && old(events) <= events && created == |events| - |old(events)|
    {
      hide Announced, UpsertAll;
      created := 0;
      NoDrafts(rows, generator);
      assert drafts[..0] == [];
      for i := 0 to |drafts|
        invariant rows == UpsertAll(old(rows), generator, drafts[..i])
        invariant Announced(rows, events) && old(events) <= events && created == |events| - |old(events)|
      {
        UpsertAllSnoc(old(rows), generator, drafts, i);
        var isNew := Persist(generator, drafts[i]);
        if isNew { created := created + 1; }
      }
      assert drafts[..|drafts|] == drafts;
    }
  }

  lemma NoBatches(rows: Table)
    ensures RunBatches(rows, []) == rows
  {
  }

  lemma NoDrafts(rows: Table, generator: Generator)
    ensures UpsertAll(rows, generator, []) == rows
  {
  }

  lemma DismissKeepsKeys(rows: Table, keys: set<Key>, events: seq<Key>)
    requires Announced(rows, events)
    ensures Announced(DismissResolved(rows, keys), events)
  {
  }

  // ---------- What a batch leaves of each row ----------

  /** A row that a batch reports is active, with what the batch's last draft of it says. */
  lemma {:induction false} DraftedRow(rows: Table, generator: Generator, drafts: seq<Draft>, k: Key) returns (i: nat)
    requires k in Keys(drafts)
    ensures i < |drafts| && drafts[i].dedupeKey == k
    ensures forall j :: i < j < |drafts| ==> drafts[j].dedupeKey != k
    ensures
      var after := UpsertAll(rows, generator, drafts);
      k in after && after[k] == Row(if k in rows then rows[k].sourceGenerator else generator, Active, drafts[i].content)
  {
    i := |drafts| - 1;
    var front := drafts[..i];
    if drafts[i].dedupeKey != k {
      var d :| d in drafts && d.dedupeKey == k;
      assert d in front;
      i := DraftedRow(rows, generator, front, k);
    } else if k in Keys(front) {
      var before := DraftedRow(rows, generator, front, k);
    } else {
      UndraftedRow(rows, generator, front, k);
    }
  }

  lemma {:induction false} UndraftedRow(rows: Table, generator: Generator, drafts: seq<Draft>, k: Key)
    requires k !in Keys(drafts)
    ensures k in UpsertAll(rows, generator, drafts) <==> k in rows
    ensures k in rows ==> UpsertAll(rows, generator, drafts)[k] == rows[k]
  {
    if drafts != [] {
      var front, last := drafts[..|drafts| - 1], drafts[|drafts| - 1];
      assert last in drafts && forall d :: d in front ==> d in drafts;
      UndraftedRow(rows, generator, front, k);
    }
  }

  /** A row no draft reports stays as it is, but the health generator's batch dismisses its own active rows. */
  lemma UnreportedRow(rows: Table, b: Batch, k: Key)
    requires k !in Keys(b.drafts)
    ensures k in RunBatch(rows, b) <==> k in rows
    ensures k in rows ==>
      RunBatch(rows, b)[k] ==
        (if b.generator == "integration_health" && rows[k].sourceGenerator == b.generator && rows[k].status == Active
         then Row("integration_health", Dismissed, rows[k].content)
         else rows[k])
  {
    UndraftedRow(if b.generator == INTEGRATION_HEALTH then DismissResolved(rows, Keys(b.drafts)) else rows,
                 b.generator, b.drafts, k);
  }

  // ---------- What a health sweep leaves ----------

  /** The rows the health generator owns. */
  function HealthRows(rows: Table): map<Key, Status> {
    map k | k in rows && rows[k].sourceGenerator == INTEGRATION_HEALTH :: rows[k].status
  }

  function ActiveHealth(rows: Table): set<Key> {
    set k | k in rows && rows[k].sourceGenerator == INTEGRATION_HEALTH && rows[k].status == Active
  }

  /** Every row under one of `keys` belongs to the health generator. */
  ghost predicate OwnedByHealth(rows: Table, keys: set<Key>) {
    forall k :: k in keys && k in rows ==> rows[k].sourceGenerator == INTEGRATION_HEALTH
  }

  /** Another generator's drafts stay off the health generator's keys. */
  lemma {:induction false} OtherBatch(rows: Table, generator: Generator, drafts: seq<Draft>, keys: set<Key>)
    requires generator != INTEGRATION_HEALTH && OwnedByHealth(rows, keys)
    requires Keys(drafts) !! keys && Keys(drafts) !! HealthRows(rows).Keys
    ensures HealthRows(UpsertAll(rows, generator, drafts)) == HealthRows(rows)
    ensures OwnedByHealth(UpsertAll(rows, generator, drafts), keys)
  {
    if drafts != [] {
      var front, last := drafts[..|drafts| - 1], drafts[|drafts| - 1];
      assert forall d :: d in front ==> d in drafts;
      OtherBatch(rows, generator, front, keys);
      assert last.dedupeKey in Keys(drafts);
      assert last.dedupeKey !in HealthRows(UpsertAll(rows, generator, front));
    }
  }

  lemma HealthUpsert(rows: Table, d: Draft)
    requires OwnedByHealth(rows, {d.dedupeKey})
    ensures ActiveHealth(Upsert(rows, INTEGRATION_HEALTH, d)) == ActiveHealth(rows) + {d.dedupeKey}
  {
  }

  /** The health batch activates its drafts and owns them. */
  lemma {:induction false} HealthUpserts(rows: Table, drafts: seq<Draft>)
    requires OwnedByHealth(rows, Keys(drafts))
    ensures ActiveHealth(UpsertAll(rows, INTEGRATION_HEALTH, drafts)) == ActiveHealth(rows) + Keys(drafts)
  {
    hide ActiveHealth;
    if drafts == [] {
      assert Keys(drafts) == {};
    } else {
      var front, last := drafts[..|drafts| - 1], drafts[|drafts| - 1];
      assert drafts == front + [last];
      assert Keys(drafts) == Keys(front) + {last.dedupeKey};
      HealthUpserts(rows, front);
      HealthOwnsItsKeys(rows, front, last.dedupeKey);
      HealthUpsert(UpsertAll(rows, INTEGRATION_HEALTH, front), last);
    }
  }

  lemma {:induction false} HealthOwnsItsKeys(rows: Table, drafts: seq<Draft>, k: Key)
    requires k in rows ==> rows[k].sourceGenerator == INTEGRATION_HEALTH
    ensures
      var after := UpsertAll(rows, INTEGRATION_HEALTH, drafts);
      k in after ==> after[k].sourceGenerator == INTEGRATION_HEALTH
  {
    if drafts != [] { HealthOwnsItsKeys(rows, drafts[..|drafts| - 1], k); }
  }

  /** No batch but `h` is the health generator's, and the others keep off its rows and its drafts. */
  ghost predicate OneHealthBatch(rows: Table, batches: seq<Batch>, h: nat) {
    && h < |batches| && batches[h].generator == INTEGRATION_HEALTH
    && OwnedByHealth(rows, Keys(batches[h].drafts))
    && forall i :: 0 <= i < |batches| && i != h ==>
         && batches[i].generator != INTEGRATION_HEALTH
         && Keys(batches[i].drafts) !! Keys(batches[h].drafts)
         && Keys(batches[i].drafts) !! HealthRows(rows).Keys
  }

  lemma {:induction false} BeforeHealth(rows: Table, batches: seq<Batch>, h: nat, n: nat)
    requires OneHealthBatch(rows, batches, h) && n <= h
    ensures HealthRows(RunBatches(rows, batches[..n])) == HealthRows(rows)
    ensures OwnedByHealth(RunBatches(rows, batches[..n]), Keys(batches[h].drafts))
  {
    hide Keys, OwnedByHealth, HealthRows;
    if n == 0 {
      assert batches[..0] == [];
    } else {
      BeforeHealth(rows, batches, h, n - 1);
      RunBatchesSnoc(rows, batches, n - 1);
      OtherBatch(RunBatches(rows, batches[..n - 1]), batches[n - 1].generator, batches[n - 1].drafts,
          Keys(batches[h].drafts));
    }
  }

  lemma AtHealth(rows: Table, drafts: seq<Draft>)
    requires OwnedByHealth(rows, Keys(drafts))
    ensures
      var after := RunBatch(rows, Batch(INTEGRATION_HEALTH, drafts));
      ActiveHealth(after) == Keys(drafts) && HealthRows(after).Keys <= HealthRows(rows).Keys + Keys(drafts)
  {
    var dismissed := DismissResolved(rows, Keys(drafts));
    HealthUpserts(dismissed, drafts);
    HealthKeys(dismissed, drafts);
    assert ActiveHealth(dismissed) <= Keys(drafts);
  }

  lemma {:induction false} HealthKeys(rows: Table, drafts: seq<Draft>)
    ensures HealthRows(UpsertAll(rows, INTEGRATION_HEALTH, drafts)).Keys <= HealthRows(rows).Keys + Keys(drafts)
  {
    if drafts != [] {
      var front, last := drafts[..|drafts| - 1], drafts[|drafts| - 1];
      assert drafts == front + [last];
      HealthKeys(rows, front);
    }
  }

  lemma {:induction false} AfterHealth(rows: Table, batches: seq<Batch>, h: nat, n: nat)
    requires OneHealthBatch(rows, batches, h) && h < n <= |batches|
    ensures ActiveHealth(RunBatches(rows, batches[..n])) == Keys(batches[h].drafts)
    ensures HealthRows(RunBatches(rows, batches[..n])).Keys <= HealthRows(rows).Keys + Keys(batches[h].drafts)
  {
    hide Keys, OwnedByHealth, HealthRows;
    var drafts := batches[h].drafts;
    RunBatchesSnoc(rows, batches, n - 1);
    if n == h + 1 {
      BeforeHealth(rows, batches, h, h);
      AtHealth(RunBatches(rows, batches[..h]), drafts);
    } else {
      AfterHealth(rows, batches, h, n - 1);
      var before := RunBatches(rows, batches[..n - 1]);
      NothingOwned(before);
      OtherBatch(before, batches[n - 1].generator, batches[n - 1].drafts, {});
      SameActive(before, RunBatches(rows, batches[..n]));
    }
  }

  lemma NothingOwned(rows: Table)
    ensures OwnedByHealth(rows, {})
  {
  }

  lemma SameActive(a: Table, b: Table)
    requires HealthRows(a) == HealthRows(b)
    ensures ActiveHealth(a) == ActiveHealth(b)
  {
    forall k
      ensures k in ActiveHealth(a) <==> k in ActiveHealth(b)
    {
      assert k in ActiveHealth(a) <==> k in HealthRows(a) && HealthRows(a)[k] == Active;
      assert k in ActiveHealth(b) <==> k in HealthRows(b) && HealthRows(b)[k] == Active;
    }
  }

  /**
   After a sweep the active health insights are exactly those the health generator
   drafted, wherever its batch stood. With an empty batch, which is also what a health
   generator that threw leaves, that is none at all.
   */
  lemma SweepIsExact(rows: Table, batches: seq<Batch>, h: nat)
    requires OneHealthBatch(rows, batches, h)
    ensures ActiveHealth(RunBatches(rows, batches)) == Keys(batches[h].drafts)
  {
    AfterHealth(rows, batches, h, |batches|);
    assert batches[..|batches|] == batches;
  }
}
