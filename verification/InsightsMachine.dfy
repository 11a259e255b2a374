/**
 Any number of insight runs at once: redelivered events, overlapping sweeps, crashes.

 A `persist` transaction reads first and writes later, so two of them can both find no
 row for a key; the UNIQUE constraint then aborts the second insert, event and all.
 */
module InsightsMachine {
  import opened Insights

  /** A `persist` transaction. */
  datatype Phase = Reading | Updating | Inserting | Ended

  datatype Txn = Txn(generator: Generator, draft: Draft, phase: Phase)

  datatype State = State(rows: Table, events: seq<Key>, txns: seq<Txn>)

  datatype Event =
    | Begin(generator: Generator, draft: Draft)
    | Read(i: nat)
    | Commit(i: nat)
    | Abort(i: nat)
    | Dismiss(keys: set<Key>)

  predicate Enabled(s: State, e: Event) {
    match e
    case Begin(_, _) => true
    case Read(i) => i < |s.txns| && s.txns[i].phase.Reading?
    case Commit(i) => i < |s.txns| && (s.txns[i].phase.Updating? || s.txns[i].phase.Inserting?)
    case Abort(i) => i < |s.txns|
    case Dismiss(_) => true
  }

  function Close(s: State, i: nat): State
    requires i < |s.txns|
  {
    s.(txns := s.txns[i := s.txns[i].(phase := Ended)])
  }

  function Step(s: State, e: Event): State
    requires Enabled(s, e)
  {
    match e
    case Begin(generator, draft) => s.(txns := s.txns + [Txn(generator, draft, Reading)])
    case Read(i) =>
      var t := s.txns[i];
      s.(txns := s.txns[i := t.(phase := if t.draft.dedupeKey in s.rows then Updating else Inserting)])
    case Commit(i) =>
      var t := s.txns[i];
      var k := t.draft.dedupeKey;
      if t.phase.Inserting? && k in s.rows then Close(s, i)
      else if t.phase.Inserting?
        then Close(s, i).(rows := Upsert(s.rows, t.generator, t.draft), events := s.events + [k])
      else if k in s.rows then Close(s, i).(rows := Upsert(s.rows, t.generator, t.draft))
      else Close(s, i)
    case Abort(i) => Close(s, i)
    case Dismiss(keys) => s.(rows := DismissResolved(s.rows, keys))
  }

  predicate Possible(s: State, es: seq<Event>)
    decreases |es|
  {
    es == [] || (Enabled(s, es[0]) && Possible(Step(s, es[0]), es[1..]))
  }

  function Run(s: State, es: seq<Event>): State
    requires Possible(s, es)
    decreases |es|
  {
    if es == [] then s else Run(Step(s, es[0]), es[1..])
  }

  lemma StepAnnounced(s: State, e: Event)
    requires Announced(s.rows, s.events) && Enabled(s, e)
    ensures Announced(Step(s, e).rows, Step(s, e).events)
  {
  }

  /**
   For any duplicated, reordered, concurrent or crashed runs, the events announce exactly
   the insight rows, each once, and an announced row is never announced again.
   */
  lemma {:induction false} EventsMatchRows(s: State, es: seq<Event>)
    requires Announced(s.rows, s.events) && Possible(s, es)
    ensures Announced(Run(s, es).rows, Run(s, es).events)
    ensures s.events <= Run(s, es).events
    decreases |es|
  {
    hide Announced;
    if es != [] {
      StepAnnounced(s, es[0]);
      EventsMatchRows(Step(s, es[0]), es[1..]);
    }
  }

  lemma RunNone(s: State)
    ensures Possible(s, []) && Run(s, []) == s
  {
  }

  lemma RunCons(s: State, e: Event, rest: seq<Event>)
    requires Enabled(s, e) && Possible(Step(s, e), rest)
    ensures Possible(s, [e] + rest) && Run(s, [e] + rest) == Run(Step(s, e), rest)
  {
    assert ([e] + rest)[1..] == rest;
  }

  /** A transaction commits or aborts once: after that it never does anything, whatever happens. */
  lemma {:induction false} EndsOnce(s: State, es: seq<Event>, i: nat)
    requires Possible(s, es) && i < |s.txns|
    requires s.txns[i].phase.Ended? || (es != [] && es[0] in {Commit(i), Abort(i)})
    ensures i < |Run(s, es).txns| && Run(s, es).txns[i].phase.Ended? && !Enabled(Run(s, es), Commit(i))
    decreases |es|
  {
    if es != [] { EndsOnce(Step(s, es[0]), es[1..], i); }
  }

  // ---------- The engine's runs ----------

  /** Some run of events leads from `s` to `t`. */
  ghost predicate Reaches(s: State, t: State) {
    exists es :: Leads(s, es, t)
  }

  ghost predicate Leads(s: State, es: seq<Event>, t: State) {
    Possible(s, es) && Run(s, es) == t
  }

  lemma {:induction false} LeadsOn(s: State, es: seq<Event>, t: State, more: seq<Event>, u: State)
    requires Leads(s, es, t) && Leads(t, more, u)
    ensures Leads(s, es + more, u)
    decreases |es|
  {
    hide Step, Enabled;
    if es == [] {
      assert es + more == more;
    } else {
      LeadsOn(Step(s, es[0]), es[1..], t, more, u);
      assert (es + more)[0] == es[0] && (es + more)[1..] == es[1..] + more;
    }
  }

  lemma ReachesOn(s: State, t: State, u: State)
    requires Reaches(s, t) && Reaches(t, u)
    ensures Reaches(s, u)
  {
    hide Leads;
    var es :| Leads(s, es, t);
    var more :| Leads(t, more, u);
    LeadsOn(s, es, t, more, u);
  }

  lemma ReachesItself(s: State)
    ensures Reaches(s, s)
  {
    assert Leads(s, [], s);
  }

  lemma ReachesStep(s: State, e: Event)
    requires Enabled(s, e)
    ensures Reaches(s, Step(s, e))
  {
    hide Step;
    RunNone(Step(s, e));
    RunCons(s, e, []);
    assert Leads(s, [e] + [], Step(s, e));
  }

  /** `Engine.Persist`, undisturbed, is a run of events. */
  lemma PersistRefines(s: State, generator: Generator, d: Draft) returns (after: State)
    ensures Reaches(s, after) && after.rows == Upsert(s.rows, generator, d)
    ensures after.events == if d.dedupeKey in s.rows then s.events else s.events + [d.dedupeKey]
  {
    hide Reaches;
    var i := |s.txns|;
    var begun := Step(s, Begin(generator, d));
    var read := Step(begun, Read(i));
    after := Step(read, Commit(i));
    ReachesStep(s, Begin(generator, d));
    ReachesStep(begun, Read(i));
    ReachesStep(read, Commit(i));
    ReachesOn(s, begun, read);
    ReachesOn(s, read, after);
  }

  lemma {:induction false} DraftsRefine(s: State, generator: Generator, drafts: seq<Draft>) returns (after: State)
    ensures Reaches(s, after) && after.rows == UpsertAll(s.rows, generator, drafts)
  {
    hide Reaches, Upsert;
    if drafts == [] {
      ReachesItself(s);
      after := s;
    } else {
      var front := DraftsRefine(s, generator, drafts[..|drafts| - 1]);
      after := PersistRefines(front, generator, drafts[|drafts| - 1]);
      ReachesOn(s, front, after);
    }
  }

  /** So is `Engine.Run`, sweeps included: what holds of all runs holds of the engine. */
  lemma {:induction false} RunRefines(s: State, batches: seq<Batch>) returns (after: State)
    ensures Reaches(s, after) && after.rows == RunBatches(s.rows, batches)
    ensures Announced(s.rows, s.events) ==> Announced(after.rows, after.events) && s.events <= after.events
  {
    hide Reaches, Announced, UpsertAll, DismissResolved;
    if batches == [] {
      ReachesItself(s);
      after := s;
    } else {
      var front := RunRefines(s, batches[..|batches| - 1]);
      var b := batches[|batches| - 1];
      var swept := front;
      ReachesItself(front);
      if b.generator == INTEGRATION_HEALTH {
        ReachesStep(front, Dismiss(Keys(b.drafts)));
        swept := Step(front, Dismiss(Keys(b.drafts)));
      }
      after := DraftsRefine(swept, b.generator, b.drafts);
      ReachesOn(s, front, swept);
      ReachesOn(s, swept, after);
    }
    if Announced(s.rows, s.events) { ReachedAnnounced(s, after); }
  }

  lemma ReachedAnnounced(s: State, t: State)
    requires Announced(s.rows, s.events) && Reaches(s, t)
    ensures Announced(t.rows, t.events) && s.events <= t.events
  {
    hide Announced;
    var es :| Leads(s, es, t);
    EventsMatchRows(s, es);
  }

  /** Both halves of the race: two transactions find no row, and only the first to commit creates and announces one. */
  lemma RaceHasOneWinner(rows: Table, generator: Generator, d: Draft)
    requires d.dedupeKey !in rows
    ensures
      var es := [Begin(generator, d), Begin(generator, d), Read(0), Read(1), Commit(0), Commit(1)];
      && Possible(State(rows, [], []), es)
      && Run(State(rows, [], []), es).events == [d.dedupeKey]
  {
    hide Possible, Run;
    var s0 := State(rows, [], []);
    var s1 := Step(s0, Begin(generator, d));
    var s2 := Step(s1, Begin(generator, d));
    var s3 := Step(s2, Read(0));
    var s4 := Step(s3, Read(1));
    var s5 := Step(s4, Commit(0));
    RunNone(Step(s5, Commit(1)));
    RunCons(s5, Commit(1), []);
    assert [Commit(1)] + [] == [Commit(1)];
    RunCons(s4, Commit(0), [Commit(1)]);
    RunCons(s3, Read(1), [Commit(0)] + [Commit(1)]);
    RunCons(s2, Read(0), [Read(1)] + ([Commit(0)] + [Commit(1)]));
    RunCons(s1, Begin(generator, d), [Read(0)] + ([Read(1)] + ([Commit(0)] + [Commit(1)])));
    var tail := [Begin(generator, d)] + ([Read(0)] + ([Read(1)] + ([Commit(0)] + [Commit(1)])));
    RunCons(s0, Begin(generator, d), tail);
    assert [Begin(generator, d)] + tail
        == [Begin(generator, d), Begin(generator, d), Read(0), Read(1), Commit(0), Commit(1)];
  }
}
