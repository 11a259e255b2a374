/**
 The sliding-window chunker.

 `ChunkText` is the source's loop. It is proved against `Chunks`, which names window
 `i` by its closed form: it starts at `i * step`. About that specification we prove
 that every chunk is the slice of the text its offsets say (`ChunkShape`), that source
 ends never move back (`EndsAscend`), and exactly which texts (`CoverageOfText`) and
 which options (`CoverageOfOptions`) leave no visible character out.
 */
module Chunking {
  import opened Text
  import opened Normalization

  datatype Chunk = Chunk(sequence: nat, content: Str, sourceStart: nat, sourceEnd: nat, characterCount: nat)

  datatype Options = Options(targetCharacters: nat, overlapCharacters: nat, maxChunks: nat)

  datatype ChunkError = OverlapNotSmaller | TooManyChunks

  datatype ChunkResult = Ok(chunks: seq<Chunk>) | Failed(error: ChunkError)

  predicate ValidOptions(o: Options) {
    o.overlapCharacters < o.targetCharacters
  }

  function Step(o: Options): (step: nat)
    requires ValidOptions(o)
    ensures 0 < step <= o.targetCharacters
  {
    o.targetCharacters - o.overlapCharacters
  }

  /** floor(0.6 * target), in exact arithmetic. */
  function SnapFloor(o: Options): nat {
    3 * o.targetCharacters / 5
  }

  function Min(a: nat, b: nat): nat { if a <= b then a else b }

  function Max(a: int, b: int): int { if a >= b then a else b }

  /** The last line feed or space at or before `from`, or -1. */
  function LastBreak(text: Str, from: nat): (r: int)
    requires from < |text|
    ensures -1 <= r <= from
    ensures 0 <= r ==> text[r] == LF || text[r] == SPACE
    ensures forall i :: r < i <= from ==> text[i] != LF && text[i] != SPACE
  {
    Max(LastIndexOf(text, LF, from), LastIndexOf(text, SPACE, from))
  }

  /** A place where a window may be cut. */
  predicate IsBreak(text: Str, p: nat)
    requires p < |text|
  {
    text[p] == LF || text[p] == SPACE
  }

  /**
   Where a window is to end. Its hard end is `target` characters on, or the end of the text.
   When the hard end falls short of the text, and a space or line feed lies beyond six
   tenths of the target and no further than the hard end, the window ends at the last such
   character; otherwise it ends at the hard end.
   */
  ghost predicate EndsAt(text: Str, target: nat, start: nat, end: nat) {
    if start + target >= |text| then end == |text|
    else if exists p :: start + 3 * target / 5 < p <= start + target && IsBreak(text, p) then
      && start + 3 * target / 5 < end <= start + target && IsBreak(text, end)
      && forall p :: end < p <= start + target ==> !IsBreak(text, p)
    else end == start + target
  }

  /** Where the window starting at `start` ends: at the hard end, unless a late enough break precedes it. */
  function WindowEnd(text: Str, o: Options, start: nat): (end: nat)
    requires start < |text|
    ensures end <= |text| && end <= start + o.targetCharacters
    ensures end == |text| <==> start + o.targetCharacters >= |text|
    ensures ValidOptions(o) ==> start < end
    ensures EndsAt(text, o.targetCharacters, start, end)
  {
    var hardEnd := Min(start + o.targetCharacters, |text|);
    if hardEnd < |text| then
      var candidate := LastBreak(text, hardEnd);
      if candidate > start + SnapFloor(o) then candidate else hardEnd
    else hardEnd
  }

  // ---------- The windows in closed form ----------

  /** Window `i` starts `step` after window `i - 1`. */
  function Start(o: Options, i: nat): nat
    requires ValidOptions(o)
  {
    if i == 0 then 0 else Start(o, i - 1) + Step(o)
  }

  lemma {:induction false} StartClosedForm(o: Options, i: nat)
    requires ValidOptions(o)
    ensures Start(o, i) == i * (o.targetCharacters - o.overlapCharacters)
  {
    if i > 0 { StartClosedForm(o, i - 1); }
  }

  lemma {:induction false} StartAscends(o: Options, i: nat, j: nat)
    requires ValidOptions(o) && i < j
    ensures Start(o, i) + Step(o) <= Start(o, j)
  {
    if i < j - 1 { StartAscends(o, i, j - 1); }
  }

  /** How many windows are needed from `start` on: up to the first whose hard end reaches the end of the text. */
  function WindowsFrom(text: Str, o: Options, start: nat): (n: nat)
    requires ValidOptions(o)
    ensures n > 0
    decreases |text| - start
  {
    if start + o.targetCharacters >= |text| then 1 else 1 + WindowsFrom(text, o, start + Step(o))
  }

  function WindowCount(text: Str, o: Options): (n: nat)
    requires ValidOptions(o)
    ensures n > 0
  {
    WindowsFrom(text, o, 0)
  }

  lemma {:induction false} WindowsLeft(text: Str, o: Options, i: nat)
    requires ValidOptions(o) && i < WindowCount(text, o)
    ensures WindowsFrom(text, o, Start(o, i)) == WindowCount(text, o) - i
  {
    if i > 0 { WindowsLeft(text, o, i - 1); }
  }

  /** Window `i` exists and is not the last one exactly when its hard end falls short of the text. */
  lemma {:induction false} WindowCountExact(text: Str, o: Options, i: nat)
    requires ValidOptions(o) && text != [] && i < WindowCount(text, o)
    ensures i < WindowCount(text, o) - 1 <==> Start(o, i) + o.targetCharacters < |text|
    ensures Start(o, i) < |text|
  {
    WindowsLeft(text, o, i);
    if i > 0 { WindowsLeft(text, o, i - 1); }
  }

  datatype Range = Range(lo: nat, hi: nat)

  /** Window `i` without the white space at its ends; empty when the window is blank. */
  function Kept(text: Str, o: Options, i: nat): (r: Range)
    requires ValidOptions(o) && text != [] && i < WindowCount(text, o)
    ensures r.lo <= r.hi <= |text|
  {
    WindowCountExact(text, o, i);
    KeptRange(text, Start(o, i), WindowEnd(text, o, Start(o, i)))
  }

  function KeptRange(text: Str, start: nat, end: nat): (r: Range)
    requires start <= end <= |text|
    ensures start <= r.lo <= r.hi <= end
  {
    var lo := SkipSpace(text, start, end);
    Range(lo, DropSpace(text, lo, end))
  }

  lemma {:induction false} RangeAt(text: Str, o: Options, n: nat, i: nat)
    requires ValidOptions(o) && text != [] && i < n <= WindowCount(text, o)
    ensures Ranges(text, o, n)[i] == Kept(text, o, i)
  {
    hide Kept;
    if i < n - 1 { RangeAt(text, o, n - 1, i); }
  }

  predicate Within(text: Str, ranges: seq<Range>) {
    forall i :: 0 <= i < |ranges| ==> ranges[i].lo <= ranges[i].hi <= |text|
  }

  /** The kept ranges of the first `n` windows. */
  function Ranges(text: Str, o: Options, n: nat): (ranges: seq<Range>)
    requires ValidOptions(o) && text != [] && n <= WindowCount(text, o)
    ensures |ranges| == n && Within(text, ranges)
  {
    if n == 0 then [] else Ranges(text, o, n - 1) + [Kept(text, o, n - 1)]
  }

  /** One chunk per non-empty range, numbered in order. */
  function Collect(text: Str, ranges: seq<Range>): (chunks: seq<Chunk>)
    requires Within(text, ranges)
    ensures |chunks| <= |ranges|
  {
    if ranges == [] then []
    else
      var before := Collect(text, ranges[..|ranges| - 1]);
      var r := ranges[|ranges| - 1];
      if r.lo == r.hi then before
      else before + [ChunkOf(text, r, |before|)]
  }

  /** The chunks of a normalised text: what `ChunkText` is to return. */
  function Chunks(text: Str, o: Options): seq<Chunk>
    requires ValidOptions(o)
  {
    if text == [] then [] else Collect(text, Ranges(text, o, WindowCount(text, o)))
  }

  lemma {:induction false} CollectGrows(text: Str, ranges: seq<Range>, m: nat)
    requires Within(text, ranges)
    requires m < |ranges| && ranges[|ranges| - 1].lo < ranges[|ranges| - 1].hi
    ensures |Collect(text, ranges[..m])| < |Collect(text, ranges)|
  {
    CollectMonotone(text, ranges[..|ranges| - 1], m);
    assert ranges[..|ranges| - 1][..m] == ranges[..m];
  }

  lemma {:induction false} CollectMonotone(text: Str, ranges: seq<Range>, m: nat)
    requires Within(text, ranges)
    requires m <= |ranges|
    ensures |Collect(text, ranges[..m])| <= |Collect(text, ranges)|
  {
    if m == |ranges| {
      assert ranges[..m] == ranges;
    } else {
      CollectMonotone(text, ranges[..|ranges| - 1], m);
      assert ranges[..|ranges| - 1][..m] == ranges[..m];
    }
  }

  /** A trimmed text never ends in a blank window. */
  lemma {:induction false} LastWindowNotBlank(text: Str, o: Options)
    requires ValidOptions(o) && text != [] && Trimmed(text)
    ensures var last := Kept(text, o, WindowCount(text, o) - 1); last.lo < last.hi
  {
    var last := WindowCount(text, o) - 1;
    WindowCountExact(text, o, last);
    assert !IsSpace(text[|text| - 1]);
  }

  lemma {:induction false} RangesPrefix(text: Str, o: Options, m: nat, n: nat)
    requires ValidOptions(o) && text != [] && m <= n <= WindowCount(text, o)
    ensures Ranges(text, o, m) == Ranges(text, o, n)[..m]
  {
    hide Kept;
    forall i | 0 <= i < m
      ensures Ranges(text, o, m)[i] == Ranges(text, o, n)[i]
    {
      RangeAt(text, o, m, i);
      RangeAt(text, o, n, i);
    }
  }

  // ---------- The source's loop ----------

  /**
   Splits a document into overlapping chunks. It fails exactly when the non-blank
   windows outnumber `maxChunks`, even though the bound is tested before each window.
   */
  method ChunkText(input: Str, o: Options) returns (r: ChunkResult)
    ensures !ValidOptions(o) ==> r == Failed(OverlapNotSmaller)
    ensures ValidOptions(o) ==>
      var all := Chunks(Normalize(input), o);
      r == if |all| > o.maxChunks then Failed(TooManyChunks) else Ok(all)
  {
    if o.overlapCharacters >= o.targetCharacters {
      return Failed(OverlapNotSmaller);
    }
    var text := Normalize(input);
    assert Trimmed(text) by { NormalizeIsNormal(input); }
    if text == [] { return Ok([]); }
    r := ChunkWindows(text, o);
  }

  /** The loop over the windows of a trimmed, non-empty text. */
  method ChunkWindows(text: Str, o: Options) returns (r: ChunkResult)
    requires ValidOptions(o) && text != [] && Trimmed(text)
    ensures r == if |Chunks(text, o)| > o.maxChunks then Failed(TooManyChunks) else Ok(Chunks(text, o))
  {
    hide Trim, IndexOf, Kept, Collect, Ranges, WindowsFrom, WindowEnd, Trimmed;
    FirstWindow(text, o);
    var chunks: seq<Chunk> := [];
    var start := 0;
    var sequence := 0;
    var step := Step(o);
    ghost var i := 0;
    ghost var n := WindowCount(text, o);
    while start < |text|
      invariant i < n && start == Start(o, i) < |text|
      invariant chunks == Collect(text, Ranges(text, o, i))
      invariant sequence == |chunks|
      decreases |text| - start
    {
      if |chunks| >= o.maxChunks {
        BoundReached(text, o, i);
        return Failed(TooManyChunks);
      }
      var end := WindowEnd(text, o, start);
      var content := Trim(text[start..end]);
      Turn(text, o, i);
      if content != [] {
        var contentStart := IndexOf(text, content, start);
        var contentEnd := contentStart + |content|;
        chunks := chunks + [Chunk(sequence, content, contentStart, contentEnd, |content|)];
        sequence := sequence + 1;
      }
      if end >= |text| { break; }
      start := Max(start + step, end - o.overlapCharacters);
      i := i + 1;
    }
    return Ok(chunks);
  }

  /** What one turn of the loop does: the next range is collected, and the next start is the closed form's. */
  lemma Turn(text: Str, o: Options, i: nat)
    requires ValidOptions(o) && text != [] && i < WindowCount(text, o) && Start(o, i) < |text|
    ensures
      var start := Start(o, i);
      var end := WindowEnd(text, o, start);
      var content := Trim(text[start..end]);
      var chunks := Collect(text, Ranges(text, o, i));
      var at := IndexOf(text, content, start);
      && (content == [] ==> Collect(text, Ranges(text, o, i + 1)) == chunks)
      && (content != [] ==> at >= 0 && Collect(text, Ranges(text, o, i + 1)) ==
                            chunks + [Chunk(|chunks|, content, at, at + |content|, |content|)])
      && (end >= |text| <==> i + 1 == WindowCount(text, o))
      && (end < |text| ==> Max(start + Step(o), end - o.overlapCharacters) == Start(o, i + 1) < |text|)
  {
    hide Kept, KeptRange, Trim, IndexOf, Collect, Ranges, WindowCount, WindowsFrom, WindowEnd;
    KeptContent(text, o, i);
    NextWindow(text, o, i);
    CollectSnoc(text, Ranges(text, o, i), Kept(text, o, i));
    WindowCountExact(text, o, i);
    if i + 1 < WindowCount(text, o) { WindowCountExact(text, o, i + 1); }
  }

  lemma FirstWindow(text: Str, o: Options)
    requires ValidOptions(o) && text != []
    ensures Collect(text, Ranges(text, o, 0)) == []
  {
  }

  lemma NextWindow(text: Str, o: Options, i: nat)
    requires ValidOptions(o) && text != [] && i < WindowCount(text, o)
    ensures Ranges(text, o, i + 1) == Ranges(text, o, i) + [Kept(text, o, i)]
    ensures Start(o, i + 1) == Start(o, i) + Step(o)
  {
  }

  /** Once `maxChunks` chunks exist and a window is left, the document has too many chunks. */
  lemma BoundReached(text: Str, o: Options, i: nat)
    requires ValidOptions(o) && text != [] && Trimmed(text) && i < WindowCount(text, o)
    requires |Collect(text, Ranges(text, o, i))| >= o.maxChunks
    ensures |Chunks(text, o)| > o.maxChunks
  {
    LastWindowNotBlank(text, o);
    RangeAt(text, o, WindowCount(text, o), WindowCount(text, o) - 1);
    RangesPrefix(text, o, i, WindowCount(text, o));
    CollectGrows(text, Ranges(text, o, WindowCount(text, o)), i);
  }

  function ChunkOf(text: Str, r: Range, sequence: nat): Chunk
    requires r.lo <= r.hi <= |text|
  {
    Chunk(sequence, text[r.lo..r.hi], r.lo, r.hi, r.hi - r.lo)
  }

  lemma CollectSnoc(text: Str, ranges: seq<Range>, r: Range)
    requires Within(text, ranges) && r.lo <= r.hi <= |text|
    ensures Within(text, ranges + [r])
    ensures
      var before := Collect(text, ranges);
      Collect(text, ranges + [r]) == if r.lo == r.hi then before else before + [ChunkOf(text, r, |before|)]
  {
  }

  /**
   Searching for a window's trimmed content from the window's start finds the window's
   own copy: an earlier match would begin with white space.
   */
  lemma {:induction false} KeptContent(text: Str, o: Options, i: nat)
    requires ValidOptions(o) && text != [] && i < WindowCount(text, o)
    requires Start(o, i) < |text|
    ensures
      var start := Start(o, i);
      var r := Kept(text, o, i);
      && Trim(text[start..WindowEnd(text, o, start)]) == text[r.lo..r.hi]
      && (r.lo < r.hi ==> IndexOf(text, text[r.lo..r.hi], start) == r.lo)
  {
    var start := Start(o, i);
    var end := WindowEnd(text, o, start);
    TrimSlice(text, start, end);
    var p := SkipSpace(text, start, end);
    var q := DropSpace(text, p, end);
    if p < q { FirstInkFound(text, start, p, q); }
  }

  lemma {:induction false} FirstInkFound(text: Str, start: nat, p: nat, q: nat)
    requires start <= p < q <= |text|
    requires AllSpace(text, start, p) && !IsSpace(text[p])
    ensures IndexOf(text, text[p..q], start) == p
  {
    var content := text[p..q];
    assert OccursAt(text, content, p);
    var r := IndexOf(text, content, start);
    assert text[r] == content[0] by { assert text[r..r + |content|][0] == text[r]; }
    assert content[0] == text[p];
  }
}
