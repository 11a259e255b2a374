/**
 The worker's `tick`, with `ingest`, `purge` and the vector store's batched `upsert`, as the
 source writes them.

 Each call that leaves the process draws its fate from `Outside`: it works, or it throws,
 and a call that throws may or may not have taken effect first. A tick that nobody
 disturbs is shown to be a run of `RagMachine`'s events, so that machine's theorems hold
 of the code; the contracts also say what a tick that succeeded has achieved. The ghost
 states `s0` and `s` are the machine's when the tick began and now.
 */
module RagService {
  import opened Prelude
  import opened ExternalCalls
  import opened Text
  import opened Chunking
  import opened ChunkCoverage
  import opened HtmlText
  import opened RagLease
  import opened RagTables
  import opened RagMachine
  import opened RagProgress

  // ---------- Records ----------

  datatype VectorRecord = VectorRecord(pointId: ChunkId, vector: Vector)

  /** The points after inserting records in order, each replacing its predecessor. */
  function Put(points: map<ChunkId, Vector>, records: seq<VectorRecord>): map<ChunkId, Vector> {
    if records == [] then points
    else
      var last := records[|records| - 1];
      Put(points, records[..|records| - 1])[last.pointId := last.vector]
  }

  predicate WellSized(records: seq<VectorRecord>, dimensions: nat) {
    forall i :: 0 <= i < |records| ==> |records[i].vector| == dimensions
  }

  /** The rows of `chunks`, each under the id derived from its own sequence number. */
  function RowsFor(version: Version, chunks: seq<Chunk>): map<ChunkId, Chunk>
    requires forall i :: 0 <= i < |chunks| ==> chunks[i].sequence == i
  {
    map i | 0 <= i < |chunks| :: ChunkId(version, chunks[i].sequence) := chunks[i]
  }

  function Embeddings(chunks: seq<Chunk>, embed: Str -> Vector, n: nat): seq<Vector>
    requires n <= |chunks|
  {
    seq(n, i requires 0 <= i < n => embed(chunks[i].content))
  }

  function RecordsFor(version: Version, vectors: seq<Vector>): (records: seq<VectorRecord>)
    ensures |records| == |vectors|
  {
    seq(|vectors|, i requires 0 <= i < |vectors| => VectorRecord(ChunkId(version, i), vectors[i]))
  }

  lemma RowsAreKeyed(version: Version, chunks: seq<Chunk>)
    requires forall i :: 0 <= i < |chunks| ==> chunks[i].sequence == i
    ensures RowsFor(version, chunks) == Keyed(version, chunks, 0, |chunks|)
  {
  }

  lemma KeyedSnoc<V>(version: Version, items: seq<V>, n: nat, k: nat)
    requires n < k <= |items|
    ensures Keyed(version, items, n, k) == Keyed(version, items, n, k - 1)[ChunkId(version, k - 1) := items[k - 1]]
  {
  }

  lemma UpdateSum<V>(a: map<ChunkId, V>, b: map<ChunkId, V>, id: ChunkId, v: V)
    ensures (a + b)[id := v] == a + b[id := v]
  {
  }

  lemma PutSnoc(points: map<ChunkId, Vector>, records: seq<VectorRecord>, n: nat, k: nat)
    requires n < k <= |records|
    ensures Put(points, records[n..k]) ==
      Put(points, records[n..k - 1])[records[k - 1].pointId := records[k - 1].vector]
  {
    assert records[n..k][..k - 1 - n] == records[n..k - 1];
  }

  /** Inserting a batch of records sets the points of just those chunks. */
  lemma {:induction false} PutRecords(points: map<ChunkId, Vector>, version: Version, vectors: seq<Vector>, n: nat,
      k: nat)
    requires n <= k <= |vectors|
    ensures Put(points, RecordsFor(version, vectors)[n..k]) == points + Keyed(version, vectors, n, k)
  {
    hide Keyed;
    if n == k {
      KeyedOf(version, vectors, n, n);
      assert Keyed(version, vectors, n, n) == map[];
    } else {
      hide Put;
      PutRecords(points, version, vectors, n, k - 1);
      PutSnoc(points, RecordsFor(version, vectors), n, k);
      KeyedSnoc(version, vectors, n, k);
      UpdateSum(points, Keyed(version, vectors, n, k - 1), ChunkId(version, k - 1), vectors[k - 1]);
    }
  }

  lemma SizedBatch(version: Version, vectors: seq<Vector>, n: nat, k: nat, dimensions: nat)
    requires n <= k <= |vectors|
    ensures WellSized(RecordsFor(version, vectors)[n..k], dimensions) <==>
      forall i :: n <= i < k ==> |vectors[i]| == dimensions
  {
    var batch := RecordsFor(version, vectors)[n..k];
    assert forall j :: 0 <= j < k - n ==> batch[j].vector == vectors[n + j];
    if WellSized(batch, dimensions) {
      forall i | n <= i < k
        ensures |vectors[i]| == dimensions
      {
        assert batch[i - n].vector == vectors[i];
      }
    }
  }

  // ---------- The machine's steps, as the code takes them ----------

  lemma Asserted(c: Config, s0: State, s: State, t: Token, stage: Stage) returns (after: State)
    requires Reaches(c, s0, s) && Ready(s, t, stage) && !stage.Failing? && !stage.Finished?
    ensures Reaches(c, s0, after) && Ready(after, t, stage) && after.workers[t].asserted.Some?
    ensures after == s.(workers := after.workers, job := RenewJob(s.job, s.now))
  {
    hide Reaches;
    ReachesStep(c, s0, s, Assert(t));
    after := RagMachine.Step(c, s, Assert(t));
  }

  lemma GivesUp(c: Config, s0: State, s: State, t: Token, stage: Stage) returns (after: State)
    requires Reaches(c, s0, s) && Ready(s, t, stage)
    ensures Reaches(c, s0, after) && Ready(after, t, Failing) && after == s.(workers := after.workers)
  {
    hide Reaches;
    ReachesStep(c, s0, s, Event.Error(t));
    after := RagMachine.Step(c, s, Event.Error(t));
  }

  lemma Landed(c: Config, s0: State, s: State, t: Token, stage: Stage) returns (after: State)
    requires Reaches(c, s0, s) && Ready(s, t, stage) && s.workers[t].asserted.Some? && InStoreStage(stage)
    ensures Reaches(c, s0, after) && Ready(after, t, NextStage(c, stage))
    ensures after == s.(workers := after.workers, points := StoreEffect(c, s.points, stage))
  {
    hide Reaches, StoreEffect;
    ReachesStep(c, s0, s, Land(t));
    after := RagMachine.Step(c, s, Land(t));
  }

  lemma Committed(c: Config, s0: State, s: State, t: Token, stage: Stage) returns (after: State)
    requires Reaches(c, s0, s) && Ready(s, t, stage) && s.workers[t].asserted.Some? && InTransactionStage(stage)
    ensures Reaches(c, s0, after) && Ready(after, t, NextStage(c, stage))
    ensures after == CommitStep(c, s, t).(workers := after.workers)
  {
    hide Reaches, Without, Keyed;
    ReachesStep(c, s0, s, Lock(t));
    var locked := RagMachine.Step(c, s, Lock(t));
    ReachesStep(c, s0, locked, Commit(t));
    after := RagMachine.Step(c, locked, Commit(t));
  }

  lemma Claimed(c: Config, s: State, t: Token) returns (after: State)
    requires s.lock.None? && t !in s.workers && Claimable(s.job, s.now)
    ensures Reaches(c, s, after) && Ready(after, t, Preparing)
    ensures after == s.(job := ClaimJob(s.job, t, s.now), workers := after.workers)
  {
    ReachesItself(c, s);
    hide Reaches;
    ReachesStep(c, s, s, Claim(t));
    after := RagMachine.Step(c, s, Claim(t));
  }

  lemma Crashed(c: Config, s0: State, s: State, t: Token, stage: Stage) returns (after: State)
    requires Reaches(c, s0, s) && Ready(s, t, stage)
    ensures Reaches(c, s0, after) && after == s.(workers := after.workers)
  {
    hide Reaches;
    ReachesStep(c, s0, s, Crash(t));
    after := RagMachine.Step(c, s, Crash(t));
  }

  lemma Completed(c: Config, s0: State, s: State, t: Token, stage: Stage) returns (after: State)
    requires Reaches(c, s0, s) && Ready(s, t, stage) && stage.Finished?
    ensures Reaches(c, s0, after)
    ensures after == s.(workers := after.workers, job := SucceedJob(s.job), completedBy := Some(t))
  {
    hide Reaches;
    ReachesStep(c, s0, s, RagMachine.Succeed(t));
    after := RagMachine.Step(c, s, RagMachine.Succeed(t));
  }

  lemma Recorded(c: Config, s0: State, s: State, t: Token) returns (after: State)
    requires Reaches(c, s0, s) && Ready(s, t, Failing)
    ensures Reaches(c, s0, after)
    ensures after == s.(workers := after.workers, job := FailJob(s.job, s.job.attempts, s.job.maxAttempts, s.now),
                        version := if c.operation.Delete? then s.version else IndexingFailed,
                        document := if s.document.DocumentDeleted? then s.document else DocumentFailed)
  {
    hide Reaches, FailJob;
    ReachesStep(c, s0, s, RagMachine.Fail(t));
    after := RagMachine.Step(c, s, RagMachine.Fail(t));
  }

  // ---------- The worker ----------

  datatype Settings = Settings(chunker: Options, embeddingBatch: nat, dimensions: nat)

  /** An uploaded source, decoded. */
  datatype Source = Source(content: Str, mime: Mime)

  /** What a published version looks like. */
  ghost predicate Published(version: Version, chunks: seq<Chunk>, vectors: seq<Vector>, rows: map<ChunkId, Chunk>,
                            points: map<ChunkId, Vector>)
  {
    Of(rows, version) == Keyed(version, chunks, 0, |chunks|)
      && Of(points, version) == Keyed(version, vectors, 0, |vectors|)
  }

  class RagWorker {
    const row: JobRow
    const config: Config
    var rows: map<ChunkId, Chunk>
    var points: map<ChunkId, Vector>
    var version: Indexing
    var document: DocumentStatus
    /** Whether the uploaded file is still in storage. */
    var stored: bool

    constructor (row: JobRow, config: Config, rows: map<ChunkId, Chunk>, points: map<ChunkId, Vector>)
      ensures this.row == row && this.config == config && this.rows == rows && this.points == points
      ensures version == Pending && document == DocumentPending && stored
    {
      this.row, this.config, this.rows, this.points := row, config, rows, points;
      version, document, stored := Pending, DocumentPending, true;
    }

    /** The tables are the machine's, and no transaction is open. */
    ghost predicate Matches(s: State)
      reads this, row
    {
      && s.job == row.View() && s.lock.None?
      && s.rows == rows && s.points == points && s.version == version && s.document == document
    }

    /** The machine got from `s0` to `s`, where token `t` owns the job and its worker is at `stage`. */
    ghost predicate Holds(s0: State, s: State, t: Token, stage: Stage)
      reads this, row
    {
      Matches(s) && Reaches(config, s0, s) && Ready(s, t, stage)
    }

    /** `lease.assert`: renews the lease for five minutes, or throws. */
    method AssertLease(t: Token, now: Time, outside: Outside, ghost s0: State, ghost s: State, ghost stage: Stage)
      returns (ok: bool, ghost after: State)
      requires Holds(s0, s, t, stage) && s.now == now && !stage.Failing? && !stage.Finished?
      modifies row, outside
      ensures Holds(s0, after, t, if ok then stage else Failing) && after.now == now
      ensures ok ==> after.workers[t].asserted.Some?
      ensures ok == outside.fate(old(outside.made)).Works? && outside.made == old(outside.made) + 1
      ensures row.leaseUntil ==
        if outside.fate(old(outside.made)).Took() then Some(now + 300_000) else old(row.leaseUntil)
      ensures row.attempts == old(row.attempts) && row.maxAttempts == old(row.maxAttempts)
    {
      hide Reaches, Ready;
      var a := outside.Next();
      after := s;
      if a.Took() {
        after := Asserted(config, s0, s, t, stage);
        ReadyOwns(s, t, stage);
        var owned := row.Renew(t, now);
        assert owned;
      }
      if a.Throws? { after := GivesUp(config, s0, after, t, stage); }
      ok := a.Works?;
    }

    /** The first transaction of `ingest`: the version's rows are replaced behind the fence. */
    method StoreChunks(t: Token, plan: Plan, outside: Outside, ghost s0: State, ghost s: State)
      returns (ok: bool, ghost after: State)
      requires Holds(s0, s, t, StoreRows(plan)) && s.workers[t].asserted.Some?
      requires forall i :: 0 <= i < |plan.chunks| ==> plan.chunks[i].sequence == i
      modifies this, outside
      ensures Holds(s0, after, t, if ok then ClearPoints(plan) else Failing) && after.now == s.now
      ensures ok ==> Of(rows, config.version) == Keyed(config.version, plan.chunks, 0, |plan.chunks|)
      ensures ok == outside.fate(old(outside.made)).Works? && outside.made == old(outside.made) + 1
      ensures
        if outside.fate(old(outside.made)).Took() then
          && Of(rows, config.version) == Keyed(config.version, plan.chunks, 0, |plan.chunks|)
          && Without(rows, {config.version}) == Without(old(rows), {config.version})
          && points == if config.cascade then Without(old(points), {config.version}) else old(points)
        else rows == old(rows) && points == old(points)
      ensures version == old(version) && document == old(document) && stored == old(stored)
    {
      hide Reaches, Keyed, Without, Of;
      var a := outside.Next();
      after := s;
      if a.Took() {
        after := Committed(config, s0, s, t, StoreRows(plan));
        RowsAreKeyed(config.version, plan.chunks);
        ReplaceVersion(rows, config.version, plan.chunks);
        rows := Without(rows, {config.version}) + RowsFor(config.version, plan.chunks);
        if config.cascade { points := Without(points, {config.version}); }
      }
      if a.Throws? { after := GivesUp(config, s0, after, t, if a.Took() then ClearPoints(plan) else StoreRows(plan)); }
      ok := a.Works?;
    }

    method DeleteVersion(t: Token, plan: Plan, outside: Outside, ghost s0: State, ghost s: State)
      returns (ok: bool, ghost after: State)
      requires Holds(s0, s, t, ClearPoints(plan)) && s.workers[t].asserted.Some?
      modifies this`points, outside
      ensures Holds(s0, after, t, if ok then WritePoints(plan, 0) else Failing) && after.now == s.now
      ensures ok ==> Of(points, config.version) == Keyed(config.version, plan.vectors, 0, 0)
      ensures ok == outside.fate(old(outside.made)).Works? && outside.made == old(outside.made) + 1
      ensures points == if outside.fate(old(outside.made)).Took() then Without(old(points), {config.version})
                        else old(points)
    {
      hide Reaches, Keyed, Without, Of;
      var a := outside.Next();
      after := s;
      if a.Took() {
        after := Landed(config, s0, s, t, ClearPoints(plan));
        ClearVersion(points, config.version);
        KeyedNone(config.version, plan.vectors);
        points := Without(points, {config.version});
      }
      if a.Throws? {
        after := GivesUp(config, s0, after, t, if a.Took() then WritePoints(plan, 0) else ClearPoints(plan));
      }
      ok := a.Works?;
    }

    /** One batch of records: an assertion, a check of the vectors' sizes, and the insertion. */
    method WriteBatch(t: Token, now: Time, batch: seq<VectorRecord>, dimensions: nat, outside: Outside,
                      ghost plan: Plan, ghost n: nat, ghost s0: State, ghost s: State)
      returns (ok: bool, ghost after: State)
      requires ValidPlan(plan) && n < |plan.vectors| && Holds(s0, s, t, WritePoints(plan, n)) && s.now == now
      requires batch == RecordsFor(config.version, plan.vectors)[n..BatchEnd(plan, n)]
      modifies this`points, row, outside
      ensures Holds(s0, after, t, if ok then NextStage(config, WritePoints(plan, n)) else Failing) && after.now == now
      ensures
        var at := old(outside.made);
        var sized := forall i :: n <= i < BatchEnd(plan, n) ==> |plan.vectors[i]| == dimensions;
        && (ok <==> outside.fate(at).Works? && sized && outside.fate(at + 1).Works?)
        && points == (if outside.fate(at).Works? && sized && outside.fate(at + 1).Took()
                      then old(points) + Keyed(config.version, plan.vectors, n, BatchEnd(plan, n)) else old(points))
        && outside.made >= at && (ok ==> outside.made == at + 2)
        && (!ok && sized ==> !AllWorked(outside.fate, at, outside.made))
      ensures row.attempts == old(row.attempts) && row.maxAttempts == old(row.maxAttempts)
    {
      hide Reaches, Keyed, Put, Ready, WellSized;
      ghost var stage := WritePoints(plan, n);
      SizedBatch(config.version, plan.vectors, n, BatchEnd(plan, n), dimensions);
      ok, after := AssertLease(t, now, outside, s0, s, stage);
      if !ok { return false, after; }
      if !WellSized(batch, dimensions) {
        after := GivesUp(config, s0, after, t, stage);
        return false, after;
      }
      var a := outside.Next();
      if a.Took() {
        PutRecords(points, config.version, plan.vectors, n, BatchEnd(plan, n));
        after := Landed(config, s0, after, t, stage);
        stage := NextStage(config, stage);
        points := Put(points, batch);
      }
      if a.Throws? { after := GivesUp(config, s0, after, t, stage); }
      ok := a.Works?;
    }

    function BatchEnd(plan: Plan, n: nat): nat {
      RagMachine.Min(n + config.batchSize, |plan.vectors|)
    }

    /** Inserts the records batch by batch, asserting the lease before each. */
    method Upsert(t: Token, now: Time, plan: Plan, dimensions: nat, outside: Outside, ghost s0: State, ghost s: State)
      returns (ok: bool, ghost after: State)
      requires config.Valid() && ValidPlan(plan)
      requires Holds(s0, s, t, WritePoints(plan, 0)) && s.now == now
      requires Of(points, config.version) == Keyed(config.version, plan.vectors, 0, 0)
      modifies this`points, row, outside
      ensures Holds(s0, after, t, if ok then Publish(plan) else Failing) && after.now == now
      ensures ok ==> Of(points, config.version) == Keyed(config.version, plan.vectors, 0, |plan.vectors|)
      ensures Without(points, {config.version}) == Without(old(points), {config.version})
      ensures exists n ::
        0 <= n <= |plan.vectors| && Of(points, config.version) == Keyed(config.version, plan.vectors, 0, n)
      ensures outside.made >= old(outside.made)
      ensures ok <==>
        AllWorked(outside.fate, old(outside.made), outside.made)
        && forall i :: 0 <= i < |plan.vectors| ==> |plan.vectors[i]| == dimensions
      ensures row.attempts == old(row.attempts) && row.maxAttempts == old(row.maxAttempts)
    {
      hide Reaches, Keyed, Without, Of, Ready, AllWorked;
      ghost var at := outside.made;
      NoneYet(outside.fate, at);
      var records := RecordsFor(config.version, plan.vectors);
      var offset := 0;
      after := s;
      while offset < |records|
        invariant 0 <= offset <= |records|
        invariant Holds(s0, after, t, if offset < |records| then WritePoints(plan, offset) else Publish(plan))
          && after.now == now
        invariant Of(points, config.version) == Keyed(config.version, plan.vectors, 0, offset)
        invariant Without(points, {config.version}) == Without(old(points), {config.version})
        invariant AllWorked(outside.fate, at, outside.made) && outside.made >= at
        invariant forall i :: 0 <= i < offset ==> |plan.vectors[i]| == dimensions
        invariant row.attempts == old(row.attempts) && row.maxAttempts == old(row.maxAttempts)
        decreases |records| - offset
      {
        var end := BatchEnd(plan, offset);
        ghost var before := outside.made;
        PutBatch(points, config.version, plan.vectors, offset, end);
        ok, after := WriteBatch(t, now, records[offset..end], dimensions, outside, plan, offset, s0, after);
        WorkedOn(outside.fate, at, before, outside.made);
        if !ok { return false, after; }
        OneMore(outside.fate, before, before + 1);
        OneMore(outside.fate, before, before);
        NoneYet(outside.fate, before);
        offset := end;
      }
      ok := true;
    }

    /** The last transaction of `ingest`. */
    method MarkIndexed(t: Token, plan: Plan, outside: Outside, ghost s0: State, ghost s: State)
      returns (ok: bool, ghost after: State)
      requires Holds(s0, s, t, Publish(plan)) && s.workers[t].asserted.Some?
      modifies this`version, this`document, outside
      ensures Holds(s0, after, t, if ok then Finished(Some(plan)) else Failing) && after.now == s.now
      ensures ok ==> version == Indexed(|plan.chunks|) && document == DocumentIndexed
      ensures ok == outside.fate(old(outside.made)).Works? && outside.made == old(outside.made) + 1
      ensures !outside.fate(old(outside.made)).Took() ==> version == old(version) && document == old(document)
    {
      hide Reaches;
      var a := outside.Next();
      after := s;
      if a.Took() {
        after := Committed(config, s0, s, t, Publish(plan));
        version, document := Indexed(|plan.chunks|), DocumentIndexed;
      }
      if a.Throws? { after := GivesUp(config, s0, after, t, if a.Took() then Finished(Some(plan)) else Publish(plan)); }
      ok := a.Works?;
    }

    /** Embeds the chunks batch by batch, asserting the lease before each, and makes sure the store is there. */
    method Embed(t: Token, now: Time, chunks: seq<Chunk>, embed: Str -> Vector, settings: Settings, outside: Outside,
                 ghost s0: State, ghost s: State) returns (vectors: Option<seq<Vector>>, ghost after: State)
      requires Holds(s0, s, t, Preparing) && s.now == now && settings.embeddingBatch > 0
      modifies row, outside
      ensures Holds(s0, after, t, if vectors.Some? then Preparing else Failing) && after.now == now
      ensures vectors.Some? ==> vectors.value == Embeddings(chunks, embed, |chunks|)
      ensures outside.made >= old(outside.made)
      ensures vectors.Some? <==> AllWorked(outside.fate, old(outside.made), outside.made)
      ensures row.attempts == old(row.attempts) && row.maxAttempts == old(row.maxAttempts)
    {
      hide Reaches, Ready, AllWorked;
      ghost var at := outside.made;
      NoneYet(outside.fate, at);
      after := s;
      var ok;
      var embeddingResults: seq<Vector> := [];
      var index := 0;
      while index < |chunks|
        invariant 0 <= index <= |chunks|
        invariant embeddingResults == Embeddings(chunks, embed, index)
        invariant AllWorked(outside.fate, old(outside.made), outside.made) && outside.made >= old(outside.made)
        invariant Holds(s0, after, t, Preparing) && after.now == now
        invariant row.attempts == old(row.attempts) && row.maxAttempts == old(row.maxAttempts)
      {
        OneMore(outside.fate, at, outside.made);
        ok, after := AssertLease(t, now, outside, s0, after, Preparing);
        if !ok { return None, after; }
        OneMore(outside.fate, at, outside.made);
        var a := outside.Next();
        if a.Throws? {
          after := GivesUp(config, s0, after, t, Preparing);
          return None, after;
        }
        var end := RagMachine.Min(index + settings.embeddingBatch, |chunks|);
        embeddingResults := embeddingResults
          + seq(end - index, i requires 0 <= i < end - index => embed(chunks[index + i].content));
        index := end;
      }
      OneMore(outside.fate, at, outside.made);
      var a := outside.Next();
      if a.Throws? {
        after := GivesUp(config, s0, after, t, Preparing);
        return None, after;
      }
      vectors := Some(embeddingResults);
    }

    /** Reads, chunks and embeds the document, asserting the lease before each batch of embeddings. */
    method Plan(t: Token, now: Time, source: Source, embed: Str -> Vector, settings: Settings, outside: Outside,
                ghost s0: State, ghost s: State) returns (plan: Option<RagMachine.Plan>, ghost after: State)
      requires Holds(s0, s, t, Preparing) && s.now == now && settings.embeddingBatch > 0
      modifies row, outside
      ensures Holds(s0, after, t, if plan.Some? then Preparing else Failing) && after.now == now
      ensures plan.Some? ==> config.documentExists && PlanFor(source, embed, settings, plan.value)
      ensures outside.made >= old(outside.made)
      ensures plan.Some? <==>
        AllWorked(outside.fate, old(outside.made), outside.made) && config.documentExists && Indexable(source, settings)
      ensures row.attempts == old(row.attempts) && row.maxAttempts == old(row.maxAttempts)
    {
      hide Reaches, Ready, Chunks, SourceText, AllWorked;
      ghost var at := outside.made;
      NoneYet(outside.fate, at);
      OneMore(outside.fate, at, at);
      OneMore(outside.fate, at, at + 1);
      var ok;
      ok, after := AssertLease(t, now, outside, s0, s, Preparing);
      if !ok { return None, after; }
      var a := outside.Next();
      if a.Throws? || !config.documentExists || source.mime.Pdf? {
        after := GivesUp(config, s0, after, t, Preparing);
        return None, after;
      }
      var content := SourceText(source.content, source.mime);
      SourceIsNormal(source.content, source.mime);
      var chunked := ChunkText(content, settings.chunker);
      if chunked.Failed? || |chunked.chunks| == 0 {
        after := GivesUp(config, s0, after, t, Preparing);
        return None, after;
      }
      var chunks := chunked.chunks;
      var embedded;
      embedded, after := Embed(t, now, chunks, embed, settings, outside, s0, after);
      WorkedOn(outside.fate, at, at + 2, outside.made);
      if embedded.None? { return None, after; }
      plan := Some(RagMachine.Plan(chunks, embedded.value));
    }

    /** The version's points, removed and then written anew. */
    method ReplacePoints(t: Token, now: Time, plan: RagMachine.Plan, dimensions: nat, outside: Outside,
                         ghost s0: State, ghost s: State) returns (ok: bool, ghost after: State)
      requires config.Valid() && ValidPlan(plan) && Holds(s0, s, t, ClearPoints(plan)) && s.now == now
      modifies this`points, row, outside
      ensures Holds(s0, after, t, if ok then Publish(plan) else Failing) && after.now == now
      ensures ok ==> Of(points, config.version) == Keyed(config.version, plan.vectors, 0, |plan.vectors|)
      ensures Without(points, {config.version}) == Without(old(points), {config.version})
      ensures outside.made >= old(outside.made)
      ensures ok <==>
        AllWorked(outside.fate, old(outside.made), outside.made)
        && forall i :: 0 <= i < |plan.vectors| ==> |plan.vectors[i]| == dimensions
      ensures row.attempts == old(row.attempts) && row.maxAttempts == old(row.maxAttempts)
    {
      hide Reaches, Ready, Keyed, Without, Of, AllWorked;
      ghost var at := outside.made;
      NoneYet(outside.fate, at);
      OneMore(outside.fate, at, at);
      OneMore(outside.fate, at, at + 1);
      OneMore(outside.fate, at, at + 2);
      WithoutTwice(points, {config.version});
      ok, after := AssertLease(t, now, outside, s0, s, ClearPoints(plan));
      if !ok { return false, after; }
      ok, after := DeleteVersion(t, plan, outside, s0, after);
      if !ok { return false, after; }
      ok, after := AssertLease(t, now, outside, s0, after, WritePoints(plan, 0));
      if !ok { return false, after; }
      ok, after := Upsert(t, now, plan, dimensions, outside, s0, after);
      WorkedOn(outside.fate, at, at + 3, outside.made);
    }

    /** `ingest` from its first transaction on: rows, then points, then the published status. */
    method Rebuild(t: Token, now: Time, plan: RagMachine.Plan, dimensions: nat, outside: Outside, ghost s0: State,
        ghost s: State)
      returns (ok: bool, ghost after: State)
      requires config.Valid() && ValidPlan(plan) && forall i :: 0 <= i < |plan.chunks| ==> plan.chunks[i].sequence == i
      requires Holds(s0, s, t, StoreRows(plan)) && s.now == now
      modifies this, row, outside
      ensures Holds(s0, after, t, if ok then Finished(Some(plan)) else Failing) && after.now == now
      ensures ok ==>
        && Published(config.version, plan.chunks, plan.vectors, rows, points)
        && version == Indexed(|plan.chunks|) && document == DocumentIndexed
      ensures outside.made >= old(outside.made)
      ensures ok <==>
        AllWorked(outside.fate, old(outside.made), outside.made)
        && forall i :: 0 <= i < |plan.vectors| ==> |plan.vectors[i]| == dimensions
      ensures row.attempts == old(row.attempts) && row.maxAttempts == old(row.maxAttempts)
    {
      hide Reaches, Ready, Keyed, Without, Of, AllWorked;
      ghost var at := outside.made;
      NoneYet(outside.fate, at);
      OneMore(outside.fate, at, at);
      OneMore(outside.fate, at, at + 1);
      ok, after := AssertLease(t, now, outside, s0, s, StoreRows(plan));
      if !ok { return false, after; }
      ok, after := StoreChunks(t, plan, outside, s0, after);
      if !ok { return false, after; }
      ok, after := ReplacePoints(t, now, plan, dimensions, outside, s0, after);
      WorkedOn(outside.fate, at, at + 2, outside.made);
      if !ok { return false, after; }
      OneMore(outside.fate, at, outside.made);
      OneMore(outside.fate, at, outside.made + 1);
      ok, after := AssertLease(t, now, outside, s0, after, Publish(plan));
      if !ok { return false, after; }
      ok, after := MarkIndexed(t, plan, outside, s0, after);
    }

    /**
     Rebuilds the job's version. When it returns, the version's rows are the chunker's
     output and point `i` holds the embedding of chunk `i`, whatever the tables held.
     */
    method Ingest(t: Token, now: Time, source: Source, embed: Str -> Vector, settings: Settings, outside: Outside,
                  ghost s0: State, ghost s: State) returns (ok: bool, ghost after: State)
      requires config.Valid() && !config.operation.Delete? && settings.embeddingBatch > 0
      requires Holds(s0, s, t, Preparing) && s.now == now
      modifies this, row, outside
      ensures exists stage :: Holds(s0, after, t, stage) && (if ok then stage.Finished? else stage.Failing?)
      ensures after.now == now
      ensures ok ==> IngestedAs(source, embed, settings)
      ensures outside.made >= old(outside.made)
      ensures ok <==> AllWorked(outside.fate, old(outside.made), outside.made) && CanIngest(source, embed, settings)
      ensures row.attempts == old(row.attempts) && row.maxAttempts == old(row.maxAttempts)
    {
      hide Reaches, Ready, Chunks, SourceText, Keyed, Without, Of, AllWorked;
      ghost var at := outside.made;
      var planned;
      planned, after := Plan(t, now, source, embed, settings, outside, s0, s);
      if planned.None? { return false, after; }
      var plan := planned.value;
      PlanIsNumbered(source, embed, settings, plan);
      after := Prepares(config, s0, after, t, plan);
      ghost var middle := outside.made;
      ok, after := Rebuild(t, now, plan, settings.dimensions, outside, s0, after);
      WorkedOn(outside.fate, at, middle, outside.made);
      assert forall i :: 0 <= i < |plan.vectors| ==> plan.vectors[i] == embed(plan.chunks[i].content);
    }

    /** The document is there, its source gives chunks, and the model's embeddings have the configured size. */
    ghost predicate CanIngest(source: Source, embed: Str -> Vector, settings: Settings) {
      && config.documentExists && Indexable(source, settings)
      && var chunks := Chunks(SourceText(source.content, source.mime), settings.chunker);
      && forall i :: 0 <= i < |chunks| ==> |embed(chunks[i].content)| == settings.dimensions
    }

    /** What a completed ingest has achieved. */
    ghost predicate IngestedAs(source: Source, embed: Str -> Vector, settings: Settings)
      reads this
    {
      && config.documentExists && source.mime != Pdf && ValidOptions(settings.chunker)
      && var chunks := Chunks(SourceText(source.content, source.mime), settings.chunker);
      && 0 < |chunks| <= settings.chunker.maxChunks
      && Published(config.version, chunks, Embeddings(chunks, embed, |chunks|), rows, points)
      && version == Indexed(|chunks|) && document == DocumentIndexed
    }

    method DeleteDocument(t: Token, outside: Outside, ghost s0: State, ghost s: State)
      returns (ok: bool, ghost after: State)
      requires Holds(s0, s, t, PurgePoints) && s.workers[t].asserted.Some?
      modifies this`points, outside
      ensures Holds(s0, after, t, if ok then PurgeRows else Failing) && after.now == s.now
      ensures ok == outside.fate(old(outside.made)).Works? && outside.made == old(outside.made) + 1
      ensures points == if outside.fate(old(outside.made)).Took() then Without(old(points), config.documentVersions)
                        else old(points)
    {
      hide Reaches, Without;
      var a := outside.Next();
      after := s;
      if a.Took() {
        after := Landed(config, s0, s, t, PurgePoints);
        points := Without(points, config.documentVersions);
      }
      if a.Throws? { after := GivesUp(config, s0, after, t, if a.Took() then PurgeRows else PurgePoints); }
      ok := a.Works?;
    }

    /** The transaction of `purge`, behind the fence. */
    method DeleteChunks(t: Token, outside: Outside, ghost s0: State, ghost s: State)
      returns (ok: bool, ghost after: State)
      requires Holds(s0, s, t, PurgeRows) && s.workers[t].asserted.Some?
      requires Without(points, config.documentVersions) == points
      modifies this`rows, this`version, this`document, outside
      ensures Holds(s0, after, t, if ok then Finished(None) else Failing) && after.now == s.now
      ensures ok == outside.fate(old(outside.made)).Works? && outside.made == old(outside.made) + 1
      ensures
        if outside.fate(old(outside.made)).Took() then
          rows == Without(old(rows), config.documentVersions) && version == Superseded && document == DocumentDeleted
        else rows == old(rows) && version == old(version) && document == old(document)
    {
      hide Reaches, Without;
      var a := outside.Next();
      after := s;
      if a.Took() {
        after := Committed(config, s0, s, t, PurgeRows);
        rows := Without(rows, config.documentVersions);
        version, document := Superseded, DocumentDeleted;
      }
      if a.Throws? { after := GivesUp(config, s0, after, t, if a.Took() then Finished(None) else PurgeRows); }
      ok := a.Works?;
    }

    /** The asserted steps of `purge`: first the points, then the rows and the statuses. */
    method PurgeContent(t: Token, now: Time, outside: Outside, ghost s0: State, ghost s: State)
      returns (ok: bool, ghost after: State)
      requires config.Valid() && Holds(s0, s, t, PurgePoints) && s.now == now
      modifies this`rows, this`points, this`version, this`document, row, outside
      ensures Holds(s0, after, t, if ok then Finished(None) else Failing) && after.now == now
      ensures ok ==>
        && rows == Without(old(rows), config.documentVersions)
        && points == Without(old(points), config.documentVersions)
        && version == Superseded && document == DocumentDeleted
      ensures outside.made >= old(outside.made) && (!ok ==> !AllWorked(outside.fate, old(outside.made), outside.made))
      ensures
        var fate, at := outside.fate, old(outside.made);
        ok <==> fate(at).Works? && fate(at + 1).Works? && fate(at + 2).Works? && fate(at + 3).Works?
      ensures ok ==> outside.made == old(outside.made) + 4
      ensures row.attempts == old(row.attempts) && row.maxAttempts == old(row.maxAttempts)
    {
      hide Reaches, Without, Ready;
      ok, after := AssertLease(t, now, outside, s0, s, PurgePoints);
      if !ok { return false, after; }
      ok, after := DeleteDocument(t, outside, s0, after);
      if !ok { return false, after; }
      ok, after := AssertLease(t, now, outside, s0, after, PurgeRows);
      if !ok { return false, after; }
      WithoutTwice(old(points), config.documentVersions);
      ok, after := DeleteChunks(t, outside, s0, after);
    }

    /** The beginning of `purge`: an assertion and the lookup. A document that is gone already leaves nothing to do. */
    method FindDocument(t: Token, now: Time, outside: Outside, ghost s0: State, ghost s: State)
      returns (ok: bool, ghost after: State)
      requires config.Valid() && config.operation.Delete? && Holds(s0, s, t, Preparing) && s.now == now
      modifies row, outside
      ensures Holds(s0, after, t,
        if !ok then Failing else if config.documentExists then PurgePoints else Finished(None)) && after.now == now
      ensures
        var at := old(outside.made);
        && (ok <==> outside.fate(at).Works? && outside.fate(at + 1).Works?)
        && outside.made >= at && (ok ==> outside.made == at + 2)
        && (!ok ==> !AllWorked(outside.fate, at, outside.made))
      ensures row.attempts == old(row.attempts) && row.maxAttempts == old(row.maxAttempts)
    {
      hide Reaches, Ready;
      ok, after := AssertLease(t, now, outside, s0, s, Preparing);
      if !ok { return false, after; }
      var a := outside.Next();
      if a.Throws? {
        after := GivesUp(config, s0, after, t, Preparing);
        return false, after;
      }
      after := Prepares(config, s0, after, t, SomePlan());
    }

    /** Removes a document's content; the status row survives as `deleted`. */
    method Purge(t: Token, now: Time, outside: Outside, ghost s0: State, ghost s: State)
      returns (ok: bool, ghost after: State)
      requires config.Valid() && config.operation.Delete?
      requires Holds(s0, s, t, Preparing) && s.now == now
      modifies this, row, outside
      ensures Holds(s0, after, t, if ok then Finished(None) else Failing) && after.now == now
      ensures ok ==> PurgedFrom(old(rows), old(points))
      ensures ok && !config.documentExists ==>
        version == old(version) && document == old(document) && stored == old(stored)
      ensures !ok ==> stored == old(stored)
      ensures outside.made >= old(outside.made) && (!ok ==> !AllWorked(outside.fate, old(outside.made), outside.made))
      ensures
        var fate, at := outside.fate, old(outside.made);
        && (ok <==>
              && fate(at).Works? && fate(at + 1).Works?
              && (config.documentExists ==>
                    fate(at + 2).Works? && fate(at + 3).Works? && fate(at + 4).Works? && fate(at + 5).Works?))
        && (ok && config.documentExists ==> stored == (old(stored) && !fate(at + 6).Took()))
      ensures row.attempts == old(row.attempts) && row.maxAttempts == old(row.maxAttempts)
    {
      hide Reaches, Without, Ready, AllWorked;
      ghost var at := outside.made;
      ok, after := FindDocument(t, now, outside, s0, s);
      if !ok || !config.documentExists { return ok, after; }
      ok, after := PurgeContent(t, now, outside, s0, after);
      WorkedOn(outside.fate, at, at + 2, outside.made);
      if !ok { return false, after; }
      // Removing the stored file comes last, and its failure is ignored.
      var a := outside.Next();
      if a.Took() { stored := false; }
    }

    /** What a completed purge has achieved: all the document's content is gone, if there was a document. */
    ghost predicate PurgedFrom(rowsBefore: map<ChunkId, Chunk>, pointsBefore: map<ChunkId, Vector>)
      reads this
    {
      if config.documentExists then
        && rows == Without(rowsBefore, config.documentVersions)
        && points == Without(pointsBefore, config.documentVersions)
        && version == Superseded && document == DocumentDeleted
      else rows == rowsBefore && points == pointsBefore
    }

    /** `fail`: records the failure on the row and the statuses, or throws and leaves both to the lease's expiry. */
    method RecordFailure(t: Token, claim: ClaimedJob, now: Time, outside: Outside, ghost s0: State, ghost s: State)
      returns (ghost after: State)
      requires Holds(s0, s, t, Failing) && s.now == now
      requires claim == ClaimedJob(row.attempts, row.maxAttempts, t) && claim.attempts > 0
      modifies this`version, this`document, row, outside
      ensures Matches(after) && Reaches(config, s0, after) && row.status != RagLease.Status.Succeeded
      ensures outside.made == old(outside.made) + 1
      ensures
        if outside.fate(old(outside.made)).Took() then
          && (row.status == RagLease.Status.DeadLettered <==> claim.attempts >= claim.maxAttempts)
          && (row.status == RagLease.Status.Failed <==> claim.attempts < claim.maxAttempts)
          && (claim.attempts < claim.maxAttempts ==>
                row.nextRetryAt == Some(now + 5_000 * Power2(claim.attempts - 1)))
          && version == (if config.operation.Delete? then old(version) else IndexingFailed)
          && document == (if old(document) == DocumentDeleted then DocumentDeleted else DocumentFailed)
        else row.View() == old(row.View()) && version == old(version) && document == old(document)
    {
      hide Reaches, FailJob, Power2;
      FailedIsNotSucceeded(row.View(), claim.attempts, claim.maxAttempts, now);
      var a := outside.Next();
      if a.Took() {
        after := Recorded(config, s0, s, t);
        var owned := row.Fail(claim, now);
        assert owned;
        if !config.operation.Delete? { version := IndexingFailed; }
        if document != DocumentDeleted { document := DocumentFailed; }
      } else {
        after := Crashed(config, s0, s, t, Failing);
      }
    }

    /** `succeed`, and `fail` when it throws. */
    method RecordSuccess(t: Token, claim: ClaimedJob, now: Time, outside: Outside, ghost s0: State, ghost s: State,
        ghost stage: Stage)
      returns (done: bool, ghost after: State)
      requires Holds(s0, s, t, stage) && stage.Finished? && s.now == now
      requires claim == ClaimedJob(row.attempts, row.maxAttempts, t) && claim.attempts > 0
      modifies this`version, this`document, row, outside
      ensures Matches(after) && Reaches(config, s0, after)
      ensures done ==> row.status == RagLease.Status.Succeeded && after.completedBy == Some(t)
      ensures row.status == RagLease.Status.Succeeded ==> version == old(version) && document == old(document)
      ensures done == outside.fate(old(outside.made)).Works?
      ensures outside.made == old(outside.made) + (if done then 1 else 2)
      ensures
        if outside.fate(old(outside.made)).Took() then
          row.View() == old(row.View()).(status := RagLease.Status.Succeeded, leaseUntil := None, claimedBy := None)
        else if outside.fate(old(outside.made) + 1).Took() then
          && row.status == (if claim.attempts < claim.maxAttempts then RagLease.Status.Failed
                            else RagLease.Status.DeadLettered)
          && document == (if old(document) == DocumentDeleted then DocumentDeleted else DocumentFailed)
        else row.View() == old(row.View()) && version == old(version) && document == old(document)
    {
      hide Reaches, FailJob, Power2;
      var a := outside.Next();
      if a.Took() {
        after := Completed(config, s0, s, t, stage);
        var owned := row.Succeed(claim);
        assert owned;
        // A lost answer sends the worker to `fail`, which finds no job it owns.
        if a.Throws? {
          var b := outside.Next();
          if b.Took() { owned := row.Fail(claim, now); }
        }
        done := a.Works?;
      } else {
        after := GivesUp(config, s0, s, t, stage);
        after := RecordFailure(t, claim, now, outside, s0, after);
        done := false;
      }
    }

    /**
     One tick, undisturbed. It is a run of the machine; when it succeeds, an ingest has
     published exactly the document's chunks and embeddings, and a delete has removed the
     document's content, whatever was there before.
     */
    method Tick(t: Token, now: Time, source: Source, embed: Str -> Vector, settings: Settings, outside: Outside,
        ghost s0: State)
      returns (done: bool, ghost after: State)
      requires config.Valid() && settings.embeddingBatch > 0
      requires Matches(s0) && s0.now == now && t !in s0.workers
      modifies this, row, outside
      ensures Matches(after) && Reaches(config, s0, after)
      ensures done ==> row.status == RagLease.Status.Succeeded && after.completedBy == Some(t)
      ensures !old(Claimable(row.View(), now)) ==>
        && !done && row.View() == old(row.View()) && rows == old(rows) && points == old(points)
        && version == old(version) && document == old(document) && stored == old(stored)
      ensures old(Claimable(row.View(), now)) && outside.fate(old(outside.made)).Throws? ==>
        && !done && rows == old(rows) && points == old(points) && stored == old(stored)
        && row.attempts == old(row.attempts) + (if outside.fate(old(outside.made)).Took() then 1 else 0)
        && row.status == (if outside.fate(old(outside.made)).Took() then RagLease.Status.Running else old(row.status))
      ensures done ==>
        old(Claimable(row.View(), now)) && (config.operation.Delete? || CanIngest(source, embed, settings))
      ensures old(Claimable(row.View(), now)) && (config.operation.Delete? || CanIngest(source, embed, settings)) ==>
        (AllWorked(outside.fate, old(outside.made), outside.made) ==> done)
      ensures done && !config.operation.Delete? ==> IngestedAs(source, embed, settings)
      ensures done && config.operation.Delete? ==> PurgedFrom(old(rows), old(points))
    {
      hide Reaches, Ready, Without, FailJob, CanIngest, IngestedAs, PurgedFrom, AllWorked;
      ghost var at := outside.made;
      NoneYet(outside.fate, at);
      OneMore(outside.fate, at, at);
      var a := outside.Next();
      var claimed := None;
      after := s0;
      ReachesItself(config, s0);
      if a.Took() { claimed := row.Claim(t, now); }
      if claimed.None? { return false, after; }
      after := Claimed(config, s0, t);
      if a.Throws? {
        after := Crashed(config, s0, after, t, Preparing);
        return false, after;
      }
      done, after := Attempt(t, now, claimed.value, source, embed, settings, outside, s0, after);
      WorkedOn(outside.fate, at, at + 1, outside.made);
    }

    /** A claimed job: its work under the heartbeat, and the record of how it ended. */
    method Attempt(t: Token, now: Time, claim: ClaimedJob, source: Source, embed: Str -> Vector, settings: Settings,
                   outside: Outside, ghost s0: State, ghost s: State) returns (done: bool, ghost after: State)
      requires config.Valid() && settings.embeddingBatch > 0
      requires Holds(s0, s, t, Preparing) && s.now == now
      requires claim == ClaimedJob(row.attempts, row.maxAttempts, t) && claim.attempts > 0
      modifies this, row, outside
      ensures Matches(after) && Reaches(config, s0, after)
      ensures done ==> row.status == RagLease.Status.Succeeded && after.completedBy == Some(t)
      ensures done ==> config.operation.Delete? || CanIngest(source, embed, settings)
      ensures outside.made >= old(outside.made)
      ensures config.operation.Delete? || CanIngest(source, embed, settings) ==>
        (AllWorked(outside.fate, old(outside.made), outside.made) ==> done)
      ensures done && !config.operation.Delete? ==> IngestedAs(source, embed, settings)
      ensures done && config.operation.Delete? ==> PurgedFrom(old(rows), old(points))
    {
      hide Reaches, Ready, Without, FailJob, CanIngest, IngestedAs, PurgedFrom, AllWorked;
      ghost var at := outside.made;
      var ok;
      ghost var stage;
      ok, after, stage := Work(t, now, source, embed, settings, outside, s0, s);
      ghost var middle := outside.made;
      if ok {
        done, after := RecordSuccess(t, claim, now, outside, s0, after, stage);
      } else {
        after := RecordFailure(t, claim, now, outside, s0, after);
        done := false;
      }
      WorkedOn(outside.fate, at, middle, outside.made);
      NoneYet(outside.fate, middle);
      OneMore(outside.fate, middle, middle);
      WorkedOn(outside.fate, middle, middle + 1, outside.made);
    }

    /** What a claimed job runs under its heartbeat. */
    method Work(t: Token, now: Time, source: Source, embed: Str -> Vector, settings: Settings, outside: Outside,
                ghost s0: State, ghost s: State) returns (ok: bool, ghost after: State, ghost stage: Stage)
      requires config.Valid() && settings.embeddingBatch > 0
      requires Holds(s0, s, t, Preparing) && s.now == now
      modifies this, row, outside
      ensures Holds(s0, after, t, stage) && (if ok then stage.Finished? else stage.Failing?) && after.now == now
      ensures ok && !config.operation.Delete? ==> IngestedAs(source, embed, settings)
      ensures ok && config.operation.Delete? ==> PurgedFrom(old(rows), old(points))
      ensures outside.made >= old(outside.made)
      ensures ok ==> config.operation.Delete? || CanIngest(source, embed, settings)
      ensures config.operation.Delete? || CanIngest(source, embed, settings) ==>
        (AllWorked(outside.fate, old(outside.made), outside.made) ==> ok)
      ensures row.attempts == old(row.attempts) && row.maxAttempts == old(row.maxAttempts)
    {
      hide Reaches, Ready, Without, CanIngest, IngestedAs, PurgedFrom, AllWorked;
      ghost var at := outside.made;
      NoneYet(outside.fate, at);
      OneMore(outside.fate, at, at);
      ok, after := AssertLease(t, now, outside, s0, s, Preparing);
      if !ok { return false, after, Failing; }
      if config.operation.Delete? {
        ok, after := Purge(t, now, outside, s0, after);
        stage := if ok then Finished(None) else Failing;
      } else {
        ok, after := Ingest(t, now, source, embed, settings, outside, s0, after);
        stage :| Holds(s0, after, t, stage) && (if ok then stage.Finished? else stage.Failing?);
      }
      WorkedOn(outside.fate, at, at + 1, outside.made);
    }
  }

  lemma FailedIsNotSucceeded(job: Job, attempts: nat, maxAttempts: nat, now: Time)
    requires attempts > 0
    ensures FailJob(job, attempts, maxAttempts, now).status != RagLease.Status.Succeeded
  {
  }

  /** A source that gives chunks, and not too many: no PDF, with valid options and something to index. */
  ghost predicate Indexable(source: Source, settings: Settings) {
    && source.mime != Pdf && ValidOptions(settings.chunker)
    && 0 < |Chunks(SourceText(source.content, source.mime), settings.chunker)| <= settings.chunker.maxChunks
  }

  /** What `Plan` computes: the chunker's output and its embeddings, in order. */
  ghost predicate PlanFor(source: Source, embed: Str -> Vector, settings: Settings, plan: RagMachine.Plan) {
    && source.mime != Pdf && ValidPlan(plan) && ValidOptions(settings.chunker)
    && plan.chunks == Chunks(SourceText(source.content, source.mime), settings.chunker)
      && |plan.chunks| <= settings.chunker.maxChunks
    && plan.vectors == Embeddings(plan.chunks, embed, |plan.chunks|)
  }

  lemma PlanIsNumbered(source: Source, embed: Str -> Vector, settings: Settings, plan: RagMachine.Plan)
    requires PlanFor(source, embed, settings, plan)
    ensures forall i :: 0 <= i < |plan.chunks| ==> plan.chunks[i].sequence == i
  {
    hide Chunks;
    forall i | 0 <= i < |plan.chunks|
      ensures plan.chunks[i].sequence == i
    {
      ChunkShape(SourceText(source.content, source.mime), settings.chunker, i);
    }
  }

  /** A purge plans nothing; the machine asks for some plan. */
  ghost function SomePlan(): (plan: RagMachine.Plan)
    ensures ValidPlan(plan)
  {
    RagMachine.Plan([Chunk(0, [], 0, 0, 0)], [[]])
  }

  lemma ReadyOwns(s: State, t: Token, stage: Stage)
    requires Ready(s, t, stage)
    ensures Owns(s.job, t)
  {
  }
}
