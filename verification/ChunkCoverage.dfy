/**
 What the chunks of a document are worth to a reader of them: their shape, their order,
 and exactly when together they hold every visible character of the text.
 */
module ChunkCoverage {
  import opened Text
  import opened Normalization
  import opened Chunking

  // ---------- From chunks back to windows ----------

  predicate NonEmpty(r: Range) { r.lo < r.hi }

  /** The indices of the non-empty ranges. */
  function Origins(ranges: seq<Range>): (origins: seq<nat>)
    ensures forall k :: 0 <= k < |origins| ==> origins[k] < |ranges| && NonEmpty(ranges[origins[k]])
    ensures forall k, l :: 0 <= k < l < |origins| ==> origins[k] < origins[l]
    ensures forall j :: 0 <= j < |ranges| && NonEmpty(ranges[j]) ==> j in origins
  {
    if ranges == [] then []
    else
      var n := |ranges| - 1;
      Origins(ranges[..n]) + (if NonEmpty(ranges[n]) then [n] else [])
  }

  lemma {:induction false} CollectOrigins(text: Str, ranges: seq<Range>)
    requires Within(text, ranges)
    ensures |Collect(text, ranges)| == |Origins(ranges)|
    ensures forall k :: 0 <= k < |Origins(ranges)| ==>
      Collect(text, ranges)[k] == ChunkOf(text, ranges[Origins(ranges)[k]], k)
  {
    hide ChunkOf, Collect, Origins, NonEmpty;
    if ranges == [] {
      NoRanges(text);
    } else {
      var init, last := ranges[..|ranges| - 1], ranges[|ranges| - 1];
      CollectOrigins(text, init);
      assert ranges == init + [last];
      CollectSnoc(text, init, last);
      OriginsSnoc(init, last);
      OneMoreOrigin(text, init, last);
    }
  }

  lemma OneMoreOrigin(text: Str, ranges: seq<Range>, r: Range)
    requires Within(text, ranges) && Within(text, ranges + [r])
    requires Origins(ranges + [r]) == Origins(ranges) + (if r.lo < r.hi then [|ranges|] else [])
    requires var before := Collect(text, ranges);
      Collect(text, ranges + [r]) == if r.lo == r.hi then before else before + [ChunkOf(text, r, |before|)]
    requires |Collect(text, ranges)| == |Origins(ranges)|
    requires forall k :: 0 <= k < |Origins(ranges)| ==>
      Collect(text, ranges)[k] == ChunkOf(text, ranges[Origins(ranges)[k]], k)
    ensures |Collect(text, ranges + [r])| == |Origins(ranges + [r])|
    ensures forall k :: 0 <= k < |Origins(ranges + [r])| ==>
      Collect(text, ranges + [r])[k] == ChunkOf(text, (ranges + [r])[Origins(ranges + [r])[k]], k)
  {
    hide ChunkOf, Collect, Origins;
    var n := |Origins(ranges)|;
    assert (ranges + [r])[|ranges|] == r;
    forall k | 0 <= k < |Origins(ranges + [r])|
      ensures Collect(text, ranges + [r])[k] == ChunkOf(text, (ranges + [r])[Origins(ranges + [r])[k]], k)
    {
      if k < n {
        assert (ranges + [r])[Origins(ranges)[k]] == ranges[Origins(ranges)[k]];
      }
    }
  }

  lemma NoRanges(text: Str)
    ensures Collect(text, []) == [] && Origins([]) == []
  {
  }

  lemma OriginsSnoc(ranges: seq<Range>, r: Range)
    ensures Origins(ranges + [r]) == Origins(ranges) + (if r.lo < r.hi then [|ranges|] else [])
  {
    assert (ranges + [r])[..|ranges|] == ranges;
  }

  function WindowOf(text: Str, o: Options): (origins: seq<nat>)
    requires ValidOptions(o) && text != []
  {
    Origins(Ranges(text, o, WindowCount(text, o)))
  }

  /** Chunk `k` is what is kept of its window. */
  lemma {:induction false} ChunkWindow(text: Str, o: Options, k: nat)
    requires ValidOptions(o) && text != []
    requires k < |WindowOf(text, o)|
    ensures WindowOf(text, o)[k] < WindowCount(text, o) && NonEmpty(Kept(text, o, WindowOf(text, o)[k]))
    ensures |Chunks(text, o)| == |WindowOf(text, o)|
    ensures Chunks(text, o)[k] == ChunkOf(text, Kept(text, o, WindowOf(text, o)[k]), k)
  {
    hide Kept, Ranges, Collect, Origins, WindowsFrom;
    var n := WindowCount(text, o);
    CollectOrigins(text, Ranges(text, o, n));
    RangeAt(text, o, n, WindowOf(text, o)[k]);
  }

  /** What trimming a window keeps: all of its visible characters, from one to another. */
  lemma KeptInk(text: Str, o: Options, i: nat)
    requires ValidOptions(o) && text != [] && i < WindowCount(text, o)
    ensures Start(o, i) < |text|
    ensures
      var r := Kept(text, o, i);
      var end := WindowEnd(text, o, Start(o, i));
      && Start(o, i) <= r.lo <= r.hi <= end <= Start(o, i) + o.targetCharacters
      && (NonEmpty(r) ==> !IsSpace(text[r.lo]) && !IsSpace(text[r.hi - 1]))
      && (forall p :: Start(o, i) <= p < end && !IsSpace(text[p]) ==> r.lo <= p < r.hi)
  {
    hide IsSpace, WindowEnd, KeptRange, WindowsFrom;
    WindowCountExact(text, o, i);
    RangeInk(text, Start(o, i), WindowEnd(text, o, Start(o, i)));
  }

  lemma RangeInk(text: Str, start: nat, end: nat)
    requires start <= end <= |text|
    ensures
      var r := KeptRange(text, start, end);
      && (NonEmpty(r) ==> !IsSpace(text[r.lo]) && !IsSpace(text[r.hi - 1]))
      && (forall p :: start <= p < end && !IsSpace(text[p]) ==> r.lo <= p < r.hi)
  {
    hide IsSpace, SkipSpace, DropSpace;
  }

  /** The shape of every chunk: numbered in order, the very slice its offsets name, trimmed, and within the target. */
  lemma ChunkShape(text: Str, o: Options, k: nat)
    requires ValidOptions(o) && k < |Chunks(text, o)|
    ensures
      var c := Chunks(text, o)[k];
      && c.sequence == k
      && c.sourceStart < c.sourceEnd <= |text|
      && c.content == text[c.sourceStart..c.sourceEnd]
      && 1 <= |c.content| == c.characterCount <= o.targetCharacters
      && Trimmed(c.content)
  {
    hide Collect, Ranges, Kept, Origins, IsSpace, WindowsFrom, WindowOf, WindowEnd, SkipSpace, DropSpace;
    WindowsOfChunks(text, o);
    ChunkWindow(text, o, k);
    KeptInk(text, o, WindowOf(text, o)[k]);
  }

  /** A chunk is what trimming leaves of the window from `start` to `end`. */
  ghost predicate TrimmedFrom(text: Str, c: Chunk, start: nat, end: nat) {
    && start <= c.sourceStart < c.sourceEnd <= end <= |text|
    && AllSpace(text, start, c.sourceStart) && !IsSpace(text[c.sourceStart])
    && AllSpace(text, c.sourceEnd, end) && !IsSpace(text[c.sourceEnd - 1])
  }

  /**
   Where the chunks come from: every chunk is what trimming leaves of a window that starts
   at a multiple of target minus overlap and ends as `EndsAt` says.
   */
  lemma ChunkSource(text: Str, o: Options, k: nat) returns (i: nat, start: nat, end: nat)
    requires ValidOptions(o) && k < |Chunks(text, o)|
    ensures start == i * (o.targetCharacters - o.overlapCharacters)
    ensures EndsAt(text, o.targetCharacters, start, end) && TrimmedFrom(text, Chunks(text, o)[k], start, end)
  {
    hide Collect, Ranges, Origins, IsSpace, WindowsFrom, WindowOf, WindowEnd, SkipSpace, DropSpace, EndsAt;
    WindowsOfChunks(text, o);
    ChunkWindow(text, o, k);
    i := WindowOf(text, o)[k];
    start := Start(o, i);
    StartClosedForm(o, i);
    WindowCountExact(text, o, i);
    end := WindowEnd(text, o, start);
    KeptTrims(text, start, end);
  }

  lemma KeptTrims(text: Str, start: nat, end: nat)
    requires start <= end <= |text|
    ensures
      var r := KeptRange(text, start, end);
      && AllSpace(text, start, r.lo) && AllSpace(text, r.hi, end)
      && (NonEmpty(r) ==> !IsSpace(text[r.lo]) && !IsSpace(text[r.hi - 1]))
  {
    hide IsSpace, SkipSpace, DropSpace;
  }

  lemma WindowsOfChunks(text: Str, o: Options)
    requires ValidOptions(o) && text != []
    ensures |WindowOf(text, o)| == |Chunks(text, o)|
  {
    hide Collect, Ranges, Origins, WindowsFrom;
    CollectOrigins(text, Ranges(text, o, WindowCount(text, o)));
  }

  // ---------- Order ----------

  lemma {:induction false} WindowEndsAscend(text: Str, o: Options, i: nat, j: nat)
    requires ValidOptions(o) && text != [] && i < j < WindowCount(text, o)
    ensures Start(o, i) < |text| && Start(o, j) < |text|
    ensures WindowEnd(text, o, Start(o, i)) <= WindowEnd(text, o, Start(o, j))
  {
    hide WindowsFrom, WindowEnd;
    WindowCountExact(text, o, i);
    WindowCountExact(text, o, j);
    WindowCountExact(text, o, j - 1);
    WindowEndNext(text, o, Start(o, j - 1));
    if i < j - 1 { WindowEndsAscend(text, o, i, j - 1); }
  }

  lemma WindowEndNext(text: Str, o: Options, start: nat)
    requires ValidOptions(o) && start + Step(o) < |text|
    ensures WindowEnd(text, o, start) <= WindowEnd(text, o, start + Step(o))
  {
  }

  /** Successive chunks start and end no earlier than the chunks before them. */
  lemma EndsAscend(text: Str, o: Options, k: nat, l: nat)
    requires ValidOptions(o) && k < l < |Chunks(text, o)|
    ensures Chunks(text, o)[k].sourceStart <= Chunks(text, o)[l].sourceStart
    ensures Chunks(text, o)[k].sourceEnd <= Chunks(text, o)[l].sourceEnd
  {
    hide Collect, Ranges, Kept, WindowsFrom, WindowEnd, IsSpace;
    CollectOrigins(text, Ranges(text, o, WindowCount(text, o)));
    ChunkWindow(text, o, k);
    ChunkWindow(text, o, l);
    var i, j := WindowOf(text, o)[k], WindowOf(text, o)[l];
    assert i < j;
    WindowEndsAscend(text, o, i, j);
    StartAscends(o, i, j);
    KeptInk(text, o, i);
    KeptInk(text, o, j);
    var a, b := Kept(text, o, i), Kept(text, o, j);
    if a.lo >= Start(o, j) { assert b.lo <= a.lo < b.hi; }
    if a.hi - 1 >= Start(o, j) { assert b.lo <= a.hi - 1 < b.hi; }
  }

  // ---------- Coverage ----------

  ghost predicate HeldByChunk(text: Str, o: Options, p: nat)
    requires ValidOptions(o)
  {
    exists k :: 0 <= k < |Chunks(text, o)| && Chunks(text, o)[k].sourceStart <= p < Chunks(text, o)[k].sourceEnd
  }

  /** Every visible character of the text lies in the source range of some chunk. */
  ghost predicate Covered(text: Str, o: Options)
    requires ValidOptions(o)
  {
    forall p :: 0 <= p < |text| && !IsSpace(text[p]) ==> HeldByChunk(text, o, p)
  }

  predicate InWindow(text: Str, o: Options, p: nat, i: nat)
    requires ValidOptions(o)
  {
    Start(o, i) < |text| && Start(o, i) <= p < WindowEnd(text, o, Start(o, i))
  }

  lemma HeldMeansInWindow(text: Str, o: Options, p: nat)
    requires ValidOptions(o) && text != [] && p < |text| && !IsSpace(text[p])
    ensures HeldByChunk(text, o, p) <==> exists i :: 0 <= i < WindowCount(text, o) && InWindow(text, o, p, i)
  {
    hide Chunks, WindowsFrom, WindowEnd, IsSpace, InWindow;
    if HeldByChunk(text, o, p) {
      var k :| 0 <= k < |Chunks(text, o)| && Chunks(text, o)[k].sourceStart <= p < Chunks(text, o)[k].sourceEnd;
      var i := HeldInWindow(text, o, p, k);
    }
    if i :| 0 <= i < WindowCount(text, o) && InWindow(text, o, p, i) {
      var k := InWindowHeld(text, o, p, i);
    }
  }

  lemma HeldInWindow(text: Str, o: Options, p: nat, k: nat) returns (i: nat)
    requires ValidOptions(o) && text != [] && p < |text| && k < |Chunks(text, o)|
    requires Chunks(text, o)[k].sourceStart <= p < Chunks(text, o)[k].sourceEnd
    ensures i < WindowCount(text, o) && InWindow(text, o, p, i)
  {
    hide Collect, Ranges, Kept, WindowsFrom, WindowEnd, IsSpace;
    CollectOrigins(text, Ranges(text, o, WindowCount(text, o)));
    ChunkWindow(text, o, k);
    i := WindowOf(text, o)[k];
    KeptInk(text, o, i);
  }

  lemma InWindowHeld(text: Str, o: Options, p: nat, i: nat) returns (k: nat)
    requires ValidOptions(o) && text != [] && p < |text| && !IsSpace(text[p])
    requires i < WindowCount(text, o) && InWindow(text, o, p, i)
    ensures k < |Chunks(text, o)| && Chunks(text, o)[k].sourceStart <= p < Chunks(text, o)[k].sourceEnd
  {
    hide Collect, Ranges, Kept, WindowsFrom, WindowEnd, IsSpace;
    KeptInk(text, o, i);
    RangeAt(text, o, WindowCount(text, o), i);
    assert i in WindowOf(text, o);
    k :| 0 <= k < |WindowOf(text, o)| && WindowOf(text, o)[k] == i;
    ChunkWindow(text, o, k);
  }

  /**
   Window `i` is cut back to a break that is late enough to be taken, yet so early that
   visible text lies between it and the start of the next window.
   */
  predicate Skips(text: Str, o: Options, i: nat)
    requires ValidOptions(o)
  {
    var hardEnd := Start(o, i) + o.targetCharacters;
    && hardEnd < |text|
    && var cut := LastBreak(text, hardEnd);
    && cut > Start(o, i) + SnapFloor(o)
    && exists p :: cut < p < Start(o, i) + Step(o) && !IsSpace(text[p])
  }

  lemma {:induction false} NotLast(text: Str, o: Options, i: nat)
    requires ValidOptions(o) && text != [] && Start(o, i) + o.targetCharacters < |text|
    ensures i + 1 < WindowCount(text, o)
  {
    var last := WindowCount(text, o) - 1;
    WindowCountExact(text, o, last);
    if last < i { StartAscends(o, last, i); }
  }

  lemma SkippedIsOutside(text: Str, o: Options, i: nat, p: nat, j: nat)
    requires ValidOptions(o) && text != [] && Start(o, i) + o.targetCharacters < |text|
    requires WindowEnd(text, o, Start(o, i)) <= p < Start(o, i) + Step(o)
    requires j < WindowCount(text, o)
    ensures !InWindow(text, o, p, j)
  {
    hide WindowsFrom, WindowEnd;
    NotLast(text, o, i);
    if j < i {
      WindowEndsAscend(text, o, j, i);
    } else if i < j {
      StartAscends(o, i, j);
    }
  }

  /** Some window starts at or before `p` while the next, if any, starts after it. */
  lemma {:induction false} LastStart(text: Str, o: Options, p: nat, n: nat) returns (i: nat)
    requires ValidOptions(o) && 0 < n <= WindowCount(text, o)
    ensures i < n && Start(o, i) <= p && (i + 1 < n ==> p < Start(o, i + 1))
  {
    if n == 1 || Start(o, n - 1) <= p { return n - 1; }
    i := LastStart(text, o, p, n - 1);
  }

  /** A visible character outside every window is one that a window skips. */
  lemma OutsideIsSkipped(text: Str, o: Options, p: nat) returns (i: nat)
    requires ValidOptions(o) && text != [] && p < |text| && !IsSpace(text[p])
    requires forall j :: 0 <= j < WindowCount(text, o) ==> !InWindow(text, o, p, j)
    ensures Skips(text, o, i)
  {
    hide WindowsFrom, LastIndexOf;
    i := LastStart(text, o, p, WindowCount(text, o));
    WindowCountExact(text, o, i);
    assert !InWindow(text, o, p, i);
    var cut := LastBreak(text, Start(o, i) + o.targetCharacters);
    assert cut <= p && IsSpace(text[cut]);
    assert cut < p < Start(o, i) + Step(o) && !IsSpace(text[p]);
  }

  lemma SkipsLoses(text: Str, o: Options, i: nat)
    requires ValidOptions(o) && Skips(text, o, i)
    ensures !Covered(text, o)
  {
    hide WindowsFrom, IsSpace, HeldByChunk, LastBreak;
    var cut := LastBreak(text, Start(o, i) + o.targetCharacters);
    var p :| cut < p < Start(o, i) + Step(o) && !IsSpace(text[p]);
    HeldMeansInWindow(text, o, p);
    forall j | 0 <= j < WindowCount(text, o)
      ensures !InWindow(text, o, p, j)
    {
      SkippedIsOutside(text, o, i, p, j);
    }
  }

  /** Exactly which texts lose visible characters: those with a window that skips some. */
  lemma CoverageOfText(text: Str, o: Options)
    requires ValidOptions(o)
    ensures Covered(text, o) <==> forall i: nat :: !Skips(text, o, i)
  {
    hide WindowsFrom, IsSpace, HeldByChunk, Skips, InWindow;
    if i: nat :| Skips(text, o, i) {
      SkipsLoses(text, o, i);
    } else {
      forall p | 0 <= p < |text| && !IsSpace(text[p])
        ensures HeldByChunk(text, o, p)
      {
        HeldMeansInWindow(text, o, p);
        if forall j :: 0 <= j < WindowCount(text, o) ==> !InWindow(text, o, p, j) {
          var i := OutsideIsSkipped(text, o, p);
        }
      }
    }
  }

  /** Wherever `overlap + 2` characters stand in a row, one of them is a space or a line feed. */
  predicate ShortWords(text: Str, o: Options) {
    forall i: nat :: i + o.overlapCharacters + 2 <= |text| ==> BreakNear(text, i, o.overlapCharacters)
  }

  predicate BreakNear(text: Str, from: nat, overlap: nat)
    requires from + overlap + 2 <= |text|
  {
    exists j :: from <= j < from + overlap + 2 && (text[j] == LF || text[j] == SPACE)
  }

  lemma SkipsNeedsLongWord(text: Str, o: Options, i: nat)
    requires ValidOptions(o) && Skips(text, o, i)
    ensures !ShortWords(text, o)
  {
    hide IsSpace, LastIndexOf;
    assert !BreakNear(text, Start(o, i) + o.targetCharacters - o.overlapCharacters - 1, o.overlapCharacters);
  }

  /** Words no longer than the overlap (plus one) are never lost, whatever the options. */
  lemma ShortWordsCovered(text: Str, o: Options)
    requires ValidOptions(o) && ShortWords(text, o)
    ensures Covered(text, o)
  {
    if i: nat :| Skips(text, o, i) {
      SkipsNeedsLongWord(text, o, i);
    }
    CoverageOfText(text, o);
  }

  /** A text that loses a character: a break just late enough to be taken, then one long word. */
  function Lossy(o: Options): (text: Str)
    ensures |text| == SnapFloor(o) + 2 + o.targetCharacters
  {
    var letter: CodeUnit := 97;
    seq(SnapFloor(o) + 2 + o.targetCharacters, i => if i == SnapFloor(o) + 1 then SPACE else letter)
  }

  lemma LossySkips(o: Options)
    requires ValidOptions(o) && Step(o) > SnapFloor(o) + 2
    ensures Normal(Lossy(o)) && Skips(Lossy(o), o, 0)
  {
    var text := Lossy(o);
    var cut := LastBreak(text, o.targetCharacters);
    assert text[SnapFloor(o) + 1] == SPACE;
    assert cut == SnapFloor(o) + 1;
    assert !IsSpace(text[cut + 1]);
  }

  /**
   Exactly which options are safe for every document: the step may exceed the earliest
   break a window is cut back to by two characters, no more.
   */
  lemma CoverageOfOptions(o: Options)
    requires ValidOptions(o)
    ensures (forall text | Normal(text) :: Covered(text, o)) <==>
      o.targetCharacters - o.overlapCharacters <= 3 * o.targetCharacters / 5 + 2
  {
    if Step(o) <= SnapFloor(o) + 2 {
      forall text | Normal(text)
        ensures Covered(text, o)
      {
        CoverageOfText(text, o);
      }
    } else {
      LossySkips(o);
      CoverageOfText(Lossy(o), o);
    }
  }
}
