/**
 Feature flags behind a one-minute cache.

 `FlagService` is the source's nested cache, updated in place. The machine below follows
 one organization's flag through any interleaving of lookups, loads and writes in one
 process, with other processes writing too; it measures how old an answer can be and when
 an answer is current.
 */
module FeatureFlags {
  import opened Prelude
  import opened ExternalCalls

  type Organization = string

  type Key = string

  type Time = int

  const CACHE_TTL_MS: nat := 60_000

  datatype Cached = Cached(value: bool, expiresAt: Time)

  class FlagService {
    var cache: map<Organization, map<Key, Cached>>
    /** The override rows in the database. */
    var overrides: map<(Organization, Key), bool>
    /** The catalog: every known flag's default. */
    const defaults: map<Key, bool>

    constructor (defaults: map<Key, bool>)
      ensures this.defaults == defaults && cache == map[] && overrides == map[]
    {
      this.defaults, cache, overrides := defaults, map[], map[];
    }

    function Peek(organization: Organization, key: Key): Option<Cached>
      reads this
    {
      if organization in cache && key in cache[organization] then Some(cache[organization][key]) else None
    }

    /** The override, or else the default. */
    function Effective(organization: Organization, key: Key): bool
      reads this
      requires key in defaults
    {
      if (organization, key) in overrides then overrides[(organization, key)] else defaults[key]
    }

    /**
     A lookup at `now` whose load, if it needs one, is done at `done`. It throws for an
     unknown flag and when the load does. Only this flag's entry of this organization
     can change.
     */
    method IsEnabled(organization: Organization, key: Key, now: Time, done: Time, outside: Outside)
      returns (value: Option<bool>)
      modifies this`cache, outside
      ensures forall o, k :: (o, k) != (organization, key) ==> Peek(o, k) == old(Peek(o, k))
      ensures key !in defaults ==> value == None && cache == old(cache)
      ensures key in defaults ==>
        var entry := old(Peek(organization, key));
        if entry.Some? && entry.value.expiresAt > now
        then value == Some(entry.value.value) && Peek(organization, key) == entry
        else if value.Some?
        then value.value == Effective(organization, key)
          && Peek(organization, key) == Some(Cached(value.value, done + CACHE_TTL_MS))
        else Peek(organization, key) == None
      ensures key in defaults ==>
        var entry := old(Peek(organization, key));
        if entry.Some? && entry.value.expiresAt > now then outside.made == old(outside.made)
        else if outside.fate(old(outside.made)).Works? then
          value == Some(if (organization, key) in overrides then overrides[(organization, key)] else defaults[key])
          && Peek(organization, key) == Some(Cached(value.value, done + 60_000))
        else value == None
    {
      if key !in defaults { return None; }
      if organization in cache && key in cache[organization] {
        var cached := cache[organization][key];
        if cached.expiresAt > now { return Some(cached.value); }
        cache := cache[organization := cache[organization] - {key}];
      }
      var a := outside.Next();
      if a.Throws? { return None; }
      value := Some(Effective(organization, key));
      Remember(organization, key, value.value, done);
    }

    method Remember(organization: Organization, key: Key, value: bool, now: Time)
      modifies this`cache
      ensures Peek(organization, key) == Some(Cached(value, now + CACHE_TTL_MS))
      ensures forall o, k :: (o, k) != (organization, key) ==> Peek(o, k) == old(Peek(o, k))
    {
      if organization !in cache { cache := cache[organization := map[]]; }
      cache := cache[organization := cache[organization][key := Cached(value, now + CACHE_TTL_MS)]];
    }

    method Invalidate(organization: Organization, key: Key)
      modifies this`cache
      ensures Peek(organization, key) == None
      ensures forall o, k :: (o, k) != (organization, key) ==> Peek(o, k) == old(Peek(o, k))
    {
      if organization in cache { cache := cache[organization := cache[organization] - {key}]; }
    }

    /**
     Writes the override, then drops the cached value. When the write throws, the old
     value stays cached, even if the row was written.
     */
    method SetOverride(organization: Organization, key: Key, enabled: bool, outside: Outside) returns (ok: bool)
      modifies this, outside
      ensures forall o, k :: (o, k) != (organization, key) ==> Peek(o, k) == old(Peek(o, k))
      ensures ok ==> key in defaults && Effective(organization, key) == enabled && Peek(organization, key) == None
      ensures !ok ==> cache == old(cache)
      ensures
        var read, write := outside.fate(old(outside.made)), outside.fate(old(outside.made) + 1);
        && (ok <==> key in defaults && read.Works? && write.Works?)
        && overrides == (if key in defaults && read.Works? && write.Took()
                         then old(overrides)[(organization, key) := enabled] else old(overrides))
    {
      if key !in defaults { return false; }
      var a := outside.Next();
      if a.Throws? { return false; }
      a := outside.Next();
      if a.Took() { overrides := overrides[(organization, key) := enabled]; }
      if a.Throws? { return false; }
      Invalidate(organization, key);
      return true;
    }
  }

  // ---------- One flag, many lookups and writes ----------

  /** The effective value became `value` at `at`. */
  datatype Change = Change(at: Time, value: bool)

  /** A cache entry, with the moment its value was read and how long its load took. */
  datatype Entry = Entry(value: bool, expiresAt: Time, readAt: Time, latency: int)

  datatype Lookup =
    | Loading(startedAt: Time)
    | Loaded(startedAt: Time, value: bool, readAt: Time)
    | Returned(value: bool, at: Time, readAt: Time, latency: int)
    | Threw

  /** `setting` counts the overrides that have written but not yet invalidated. */
  datatype State = State(now: Time, history: seq<Change>, cache: Option<Entry>, lookups: seq<Lookup>, setting: nat)

  datatype Event =
    | Ask
    | Fetch(i: nat)
    | Remember(i: nat)
    | Throw(i: nat)
    | Write(value: bool)
    | Invalidate
    | OtherProcessWrites(value: bool)
    | Tick(to: Time)

  predicate Enabled(s: State, e: Event) {
    match e
    case Ask => true
    case Fetch(i) => i < |s.lookups| && s.lookups[i].Loading? && s.history != []
    case Remember(i) => i < |s.lookups| && s.lookups[i].Loaded?
    case Throw(i) => i < |s.lookups| && s.lookups[i].Loading?
    case Write(_) => true
    case Invalidate => s.setting > 0
    case OtherProcessWrites(_) => true
    case Tick(to) => s.now <= to
  }

  function Current(s: State): bool
    requires s.history != []
  {
    s.history[|s.history| - 1].value
  }

  function Step(s: State, e: Event): State
    requires Enabled(s, e)
  {
    match e
    case Ask =>
      if s.cache.Some? && s.cache.value.expiresAt > s.now then
        s.(lookups := s.lookups + [Returned(s.cache.value.value, s.now, s.cache.value.readAt, s.cache.value.latency)])
      else s.(cache := None, lookups := s.lookups + [Loading(s.now)])
    case Fetch(i) => s.(lookups := s.lookups[i := Loaded(s.lookups[i].startedAt, Current(s), s.now)])
    case Remember(i) =>
      var l := s.lookups[i];
      var latency := s.now - l.startedAt;
      s.(cache := Some(Entry(l.value, s.now + CACHE_TTL_MS, l.readAt, latency)),
         lookups := s.lookups[i := Returned(l.value, s.now, l.readAt, latency)])
    case Throw(i) => s.(lookups := s.lookups[i := Threw])
    case Write(value) => s.(history := s.history + [Change(s.now, value)], setting := s.setting + 1)
    case Invalidate => s.(cache := None, setting := s.setting - 1)
    case OtherProcessWrites(value) => s.(history := s.history + [Change(s.now, value)])
    case Tick(to) => s.(now := to)
  }

  predicate Possible(s: State, es: seq<Event>)
    decreases |es|
  {
    es == [] || (Enabled(s, es[0]) && Possible(Step(s, es[0]), es[1..]))
  }

  function Run(s: State, es: seq<Event>): State
    requires Possible(s, es)
    decreases |es|
  {
    if es == [] then s else Run(Step(s, es[0]), es[1..])
  }

  lemma RunNone(s: State)
    ensures Possible(s, []) && Run(s, []) == s
  {
  }

  lemma RunCons(s: State, e: Event, rest: seq<Event>)
    requires Enabled(s, e) && Possible(Step(s, e), rest)
    ensures Possible(s, [e] + rest) && Run(s, [e] + rest) == Run(Step(s, e), rest)
  {
  }

  /** A fresh process, with the flag's value at that moment. */
  function Started(now: Time, value: bool): State {
    State(now, [Change(now, value)], None, [], 0)
  }

  /** What a load caches answers every lookup before a minute is over, and no other; the first one after loads again. */
  lemma EntriesLiveAMinute(s: State, i: nat, to: Time)
    requires Enabled(s, Remember(i)) && s.now <= to
    ensures
      var cached := Step(s, Remember(i));
      var asked := Step(Step(cached, Tick(to)), Ask);
      && |asked.lookups| == |s.lookups| + 1
      && (to < s.now + 60_000 ==>
            asked.cache == cached.cache && asked.lookups[|s.lookups|].Returned?
            && asked.lookups[|s.lookups|].value == s.lookups[i].value)
      && (s.now + 60_000 <= to ==> asked.cache == None && asked.lookups[|s.lookups|] == Loading(to))
  {
  }

  /** Nothing keeps another process from writing; this one's cache does not notice. */
  lemma OthersWriteUnnoticed(s: State, value: bool)
    ensures Enabled(s, OtherProcessWrites(value))
    ensures
      var after := Step(s, OtherProcessWrites(value));
      Current(after) == value && after.cache == s.cache && after.lookups == s.lookups
  {
  }

  // ---------- How old an answer can be ----------

  /** `value` was the effective value at moment `t`. */
  ghost predicate WasValue(history: seq<Change>, value: bool, t: Time) {
    exists i :: 0 <= i < |history| && Spans(history, i, t) && history[i].value == value
  }

  predicate Spans(history: seq<Change>, i: nat, t: Time)
    requires i < |history|
  {
    history[i].at <= t && (i + 1 < |history| ==> t <= history[i + 1].at)
  }

  /** A value read at `readAt` by a load that took `latency`, and no older than the TTL beyond that at `until`. */
  ghost predicate Honest(history: seq<Change>, now: Time, value: bool, readAt: Time, latency: int, until: Time) {
    WasValue(history, value, readAt) && readAt <= now && until - readAt <= CACHE_TTL_MS + latency
  }

  ghost predicate HonestLookup(s: State, l: Lookup) {
    match l
    case Loading(startedAt) => startedAt <= s.now
    case Loaded(startedAt, value, readAt) => startedAt <= readAt <= s.now && WasValue(s.history, value, readAt)
    case Returned(value, at, readAt, latency) =>
      readAt <= at <= s.now && Honest(s.history, s.now, value, readAt, latency, at)
    case Threw => true
  }

  ghost predicate Inv(s: State) {
    && s.history != [] && s.history[|s.history| - 1].at <= s.now
    && (s.cache.Some? ==>
          var c := s.cache.value;
          Honest(s.history, s.now, c.value, c.readAt, c.latency, c.expiresAt))
    && forall i :: 0 <= i < |s.lookups| ==> HonestLookup(s, s.lookups[i])
  }

  /** History only grows at its end, so what was true of a past moment stays true. */
  lemma PastStays(history: seq<Change>, c: Change, value: bool, t: Time)
    requires WasValue(history, value, t) && t <= c.at
    ensures WasValue(history + [c], value, t)
  {
    var i :| 0 <= i < |history| && Spans(history, i, t) && history[i].value == value;
    assert Spans(history + [c], i, t);
  }

  lemma CurrentWas(s: State)
    requires s.history != [] && s.history[|s.history| - 1].at <= s.now
    ensures WasValue(s.history, Current(s), s.now)
  {
  }

  lemma ChangeInv(s: State, value: bool)
    requires Inv(s)
    ensures Inv(s.(history := s.history + [Change(s.now, value)]))
  {
    hide WasValue;
    var c := Change(s.now, value);
    var t := s.(history := s.history + [c]);
    if s.cache.Some? { PastStays(s.history, c, s.cache.value.value, s.cache.value.readAt); }
    forall i | 0 <= i < |s.lookups|
      ensures HonestLookup(t, s.lookups[i])
    {
      var l := s.lookups[i];
      assert HonestLookup(s, l);
      if l.Loaded? || l.Returned? { PastStays(s.history, c, l.value, l.readAt); }
    }
  }

  lemma StepInv(s: State, e: Event)
    requires Inv(s) && Enabled(s, e)
    ensures Inv(Step(s, e))
  {
    hide WasValue;
    match e
    case Write(value) => ChangeInv(s, value);
    case OtherProcessWrites(value) => ChangeInv(s, value);
    case Fetch(i) => CurrentWas(s);
    case _ =>
  }

  lemma {:induction false} RunInv(s: State, es: seq<Event>)
    requires Inv(s) && Possible(s, es)
    ensures Inv(Run(s, es))
    decreases |es|
  {
    hide Inv, Step;
    if es != [] {
      StepInv(s, es[0]);
      RunInv(Step(s, es[0]), es[1..]);
    }
  }

  /**
   Whatever is interleaved, and whoever writes, an answer was the flag's effective value
   at some moment before it, and no earlier than sixty seconds plus its load's latency before.
   */
  lemma Staleness(now: Time, value: bool, es: seq<Event>, i: nat)
    requires Possible(Started(now, value), es)
    requires i < |Run(Started(now, value), es).lookups| && Run(Started(now, value), es).lookups[i].Returned?
    ensures
      var s := Run(Started(now, value), es);
      var l := s.lookups[i];
      exists t :: l.at - 60_000 - l.latency <= t <= l.at && WasValue(s.history, l.value, t)
  {
    hide WasValue, Step;
    var s0 := Started(now, value);
    RunInv(s0, es);
    var s := Run(s0, es);
    assert HonestLookup(s, s.lookups[i]);
  }

  // ---------- When an answer is current ----------

  predicate InFlight(l: Lookup) {
    l.Loading? || l.Loaded?
  }

  predicate NoLoads(s: State) {
    forall i :: 0 <= i < |s.lookups| ==> !InFlight(s.lookups[i])
  }

  /**
   No load overlaps an override: none is in flight when one writes, and none begins before
   its invalidation. And every write goes through this process.
   */
  predicate NoOverlap(s: State, e: Event) {
    && !e.OtherProcessWrites?
    && (e.Write? ==> NoLoads(s))
    && (e.Ask? && s.setting > 0 ==> AnswersFromCache(s))
  }

  predicate AnswersFromCache(s: State) {
    s.cache.Some? && s.cache.value.expiresAt > s.now
  }

  /** The value before the overrides that are still between their write and their invalidation. */
  function ValueBefore(s: State): bool
    requires s.setting < |s.history|
  {
    s.history[|s.history| - 1 - s.setting].value
  }

  ghost predicate Fresh(s: State) {
    && s.setting < |s.history|
    && (s.cache.Some? ==> s.cache.value.value == ValueBefore(s))
    && (s.setting > 0 ==> NoLoads(s))
    && forall i :: 0 <= i < |s.lookups| && s.lookups[i].Loaded? ==> s.lookups[i].value == Current(s)
  }

  lemma StepFresh(s: State, e: Event)
    requires Fresh(s) && Enabled(s, e) && NoOverlap(s, e)
    ensures Fresh(Step(s, e))
  {
  }

  ghost predicate NoOverlaps(s: State, es: seq<Event>)
    requires Possible(s, es)
    decreases |es|
  {
    es == [] || (NoOverlap(s, es[0]) && NoOverlaps(Step(s, es[0]), es[1..]))
  }

  lemma {:induction false} RunFresh(s: State, es: seq<Event>)
    requires Fresh(s) && Possible(s, es) && NoOverlaps(s, es)
    ensures Fresh(Run(s, es))
    decreases |es|
  {
    hide Fresh, Step, NoOverlap;
    if es != [] {
      StepFresh(s, es[0]);
      RunFresh(Step(s, es[0]), es[1..]);
    }
  }

  /**
   Under that discipline an answer that was just loaded is the current value, and one from
   the cache is if and only if the overrides still between their write and their
   invalidation left the value as it was; in particular when there are none.
   */
  lemma AnswersAreCurrent(now: Time, value: bool, es: seq<Event>, e: Event)
    requires Possible(Started(now, value), es) && NoOverlaps(Started(now, value), es)
    requires var s := Run(Started(now, value), es); Enabled(s, e) && NoOverlap(s, e)
    ensures
      var s := Run(Started(now, value), es);
      var t := Step(s, e);
      && s.setting < |s.history| && t.history != []
      && (e.Remember? ==> t.lookups[e.i].value == Current(t))
      && (e.Ask? && AnswersFromCache(s) ==>
            && t.lookups[|s.lookups|].Returned?
            && (t.lookups[|s.lookups|].value == Current(t) <==> ValueBefore(s) == Current(s)))
      && (e.Ask? && s.setting == 0 && t.lookups[|s.lookups|].Returned? ==> t.lookups[|s.lookups|].value == Current(t))
  {
    var s0 := Started(now, value);
    RunFresh(s0, es);
    StepFresh(Run(s0, es), e);
  }

  /** Between an override's write and its invalidation the cache still answers the old value, with no load in flight. */
  lemma OldAnswerBeforeInvalidation(now: Time)
    ensures
      var es := [Ask, Fetch(0), Remember(0), Write(true), Ask];
      && Possible(Started(now, false), es) && NoOverlaps(Started(now, false), es)
      && var s := Run(Started(now, false), es);
      && |s.lookups| == 2 && s.lookups[1].Returned? && !s.lookups[1].value && s.history != [] && Current(s)
  {
    hide Possible, Run;
    var s0 := Started(now, false);
    var s1 := Step(s0, Ask);
    var s2 := Step(s1, Fetch(0));
    var s3 := Step(s2, Remember(0));
    var s4 := Step(s3, Write(true));
    NoOverlapNone(Step(s4, Ask));
    NoOverlapCons(s4, Ask, []);
    assert [Ask] + [] == [Ask];
    NoOverlapCons(s3, Write(true), [Ask]);
    NoOverlapCons(s2, Remember(0), [Write(true)] + [Ask]);
    NoOverlapCons(s1, Fetch(0), [Remember(0)] + ([Write(true)] + [Ask]));
    var tail := [Fetch(0)] + ([Remember(0)] + ([Write(true)] + [Ask]));
    NoOverlapCons(s0, Ask, tail);
    assert [Ask] + tail == [Ask, Fetch(0), Remember(0), Write(true), Ask];
  }

  lemma NoOverlapNone(s: State)
    ensures Possible(s, []) && Run(s, []) == s && NoOverlaps(s, [])
  {
  }

  lemma NoOverlapCons(s: State, e: Event, rest: seq<Event>)
    requires Enabled(s, e) && Possible(Step(s, e), rest) && NoOverlap(s, e) && NoOverlaps(Step(s, e), rest)
    ensures Possible(s, [e] + rest) && Run(s, [e] + rest) == Run(Step(s, e), rest) && NoOverlaps(s, [e] + rest)
  {
    assert ([e] + rest)[1..] == rest;
  }

  /**
   Without it a toggle need not take effect: a load reads the old value, the override is
   written and the cache invalidated, and only then does the load fill the cache. From
   then on lookups answer the old value for almost a minute.
   */
  lemma ToggleLost(now: Time, wait: nat)
    requires wait < 60_000
    ensures
      var es := [Ask, Fetch(0), Write(true), Invalidate, Remember(0), Tick(now + wait), Ask];
      && Possible(Started(now, false), es)
      && var s := Run(Started(now, false), es);
      && s.history != [] && Current(s) && s.setting == 0 && |s.lookups| == 2
      && s.lookups[1].Returned? && !s.lookups[1].value && s.lookups[1].at == now + wait
  {
    hide Possible, Run;
    var s0 := Started(now, false);
    var s5 := LateCache(now);
    var s6 := s5.(now := now + wait);
    RunNone(Step(s6, Ask));
    RunCons(s6, Ask, []);
    assert [Ask] + [] == [Ask];
    RunCons(s5, Tick(now + wait), [Ask]);
    LateFill(now, [Tick(now + wait)] + [Ask]);
    assert [Ask, Fetch(0), Write(true), Invalidate, Remember(0)] + ([Tick(now + wait)] + [Ask])
        == [Ask, Fetch(0), Write(true), Invalidate, Remember(0), Tick(now + wait), Ask];
  }

  /** The toggle is written and invalidated, and the cache holds the old value for a full minute. */
  function LateCache(now: Time): State {
    State(now, [Change(now, false), Change(now, true)], Some(Entry(false, now + CACHE_TTL_MS, now, 0)),
          [Returned(false, now, now, 0)], 0)
  }

  lemma LateFill(now: Time, rest: seq<Event>)
    requires Possible(LateCache(now), rest)
    ensures
      var es := [Ask, Fetch(0), Write(true), Invalidate, Remember(0)] + rest;
      Possible(Started(now, false), es) && Run(Started(now, false), es) == Run(LateCache(now), rest)
  {
    hide Possible, Run;
    var s0 := Started(now, false);
    var s1 := Step(s0, Ask);
    var s2 := Step(s1, Fetch(0));
    var s3 := Step(s2, Write(true));
    var s4 := Step(s3, Invalidate);
    assert Step(s4, Remember(0)) == LateCache(now);
    RunCons(s4, Remember(0), rest);
    RunCons(s3, Invalidate, [Remember(0)] + rest);
    RunCons(s2, Write(true), [Invalidate] + ([Remember(0)] + rest));
    RunCons(s1, Fetch(0), [Write(true)] + ([Invalidate] + ([Remember(0)] + rest)));
    var tail := [Fetch(0)] + ([Write(true)] + ([Invalidate] + ([Remember(0)] + rest)));
    RunCons(s0, Ask, tail);
    assert [Ask] + tail == [Ask, Fetch(0), Write(true), Invalidate, Remember(0)] + rest;
  }

  // ---------- When a finished override has taken effect ----------

  predicate NoWrites(es: seq<Event>) {
    forall i :: 0 <= i < |es| ==> !es[i].Write? && !es[i].OtherProcessWrites?
  }

  /** Every answer given from `s` on, until the next write, is the current value. */
  ghost predicate TakesEffect(s: State)
    requires s.history != []
  {
    forall es, i ::
      Possible(s, es) && NoWrites(es) && 0 <= i < |Run(s, es).lookups| && Answered(s, Run(s, es), i) ==>
        Run(s, es).lookups[i].value == Current(s)
  }

  /** Lookup `i` of `t` was answered after `s`. */
  predicate Answered(s: State, t: State, i: nat)
    requires i < |t.lookups|
  {
    t.lookups[i].Returned? && (i < |s.lookups| ==> !s.lookups[i].Returned?)
  }

  predicate NoStaleLoads(s: State)
    requires s.history != []
  {
    forall i :: 0 <= i < |s.lookups| && s.lookups[i].Loaded? ==> s.lookups[i].value == Current(s)
  }

  /** What `TakesEffect` keeps along a run from `s`. */
  ghost predicate CurrentSince(s: State, t: State)
    requires s.history != []
  {
    && t.history == s.history && |s.lookups| <= |t.lookups| && NoStaleLoads(t)
    && (t.cache.Some? ==> t.cache.value.value == Current(s))
    && (forall i :: 0 <= i < |t.lookups| && Answered(s, t, i) ==> t.lookups[i].value == Current(s))
    && (forall i :: 0 <= i < |s.lookups| && s.lookups[i].Returned? ==> t.lookups[i].Returned?)
  }

  lemma StepCurrent(s: State, t: State, e: Event)
    requires s.history != [] && CurrentSince(s, t) && Enabled(t, e) && !e.Write? && !e.OtherProcessWrites?
    ensures CurrentSince(s, Step(t, e))
  {
  }

  lemma {:induction false} RunCurrent(s: State, t: State, es: seq<Event>)
    requires s.history != [] && CurrentSince(s, t) && Possible(t, es) && NoWrites(es)
    ensures CurrentSince(s, Run(t, es))
    decreases |es|
  {
    hide CurrentSince, Step;
    if es != [] {
      StepCurrent(s, t, es[0]);
      RunCurrent(s, Step(t, es[0]), es[1..]);
    }
  }

  /**
   Right after an override invalidated the cache, it has taken effect if and only if no
   load that read an earlier value is still on its way to the cache.
   */
  lemma EffectiveUnlessStaleLoad(s: State)
    requires s.history != [] && s.cache.None?
    ensures TakesEffect(s) <==> NoStaleLoads(s)
  {
    if NoStaleLoads(s) {
      forall es, i | Possible(s, es) && NoWrites(es) && 0 <= i < |Run(s, es).lookups| && Answered(s, Run(s, es), i)
        ensures Run(s, es).lookups[i].value == Current(s)
      {
        RunCurrent(s, s, es);
      }
    } else {
      var i :| 0 <= i < |s.lookups| && s.lookups[i].Loaded? && s.lookups[i].value != Current(s);
      var es := [Remember(i)];
      RunNone(Step(s, Remember(i)));
      RunCons(s, Remember(i), []);
      assert es == [Remember(i)] + [];
      assert Answered(s, Run(s, es), i);
    }
  }
}
