/**
 What the lines, frames and fragments of a stream amount to, said of positions in them:
 which lines count, when the reader throws, and which frame each part of the final chunk
 comes from.
 */
module StreamMeaning {
  import opened Prelude
  import opened Text
  import opened OpenRouterStream

  // ---------- Lines ----------

  /** Trimmed, the line starts with `data:`. */
  predicate IsData(line: Str) {
    |Trim(line)| >= 5 && Trim(line)[..5] == [100, 97, 116, 97, 58]
  }

  /** What follows `data:`, trimmed. */
  function Payload(line: Str): Str
    requires IsData(line)
  {
    Trim(Trim(line)[5..])
  }

  /** The payloads of the data lines, in order, without the end marker `[DONE]`. */
  function Payloads(lines: seq<Str>): seq<Str> {
    if lines == [] then []
    else
      var last := lines[|lines| - 1];
      Payloads(lines[..|lines| - 1])
        + (if IsData(last) && Payload(last) != [91, 68, 79, 78, 69, 93] then [Payload(last)] else [])
  }

  /** The frames among the parsed payloads; malformed ones contribute nothing. */
  function Decoded(parse: Parser, payloads: seq<Str>): seq<Frame> {
    if payloads == [] then []
    else
      var last := parse(payloads[|payloads| - 1]);
      Decoded(parse, payloads[..|payloads| - 1]) + (if last.Parsed? then [last.frame] else [])
  }

  ghost predicate SomeNull(parse: Parser, payloads: seq<Str>) {
    exists d :: d in payloads && parse(d) == Null
  }

  lemma PrefixIsData(line: Str)
    ensures DATA_PREFIX <= Trim(line) <==> IsData(line)
  {
    if IsData(line) { assert Trim(line)[..5] == DATA_PREFIX; }
  }

  /**
   What the reader makes of complete lines: it throws if and only if some payload parses to
   `null`; otherwise its frames are exactly the parsed payloads, in order.
   */
  lemma {:induction false} LinesMean(parse: Parser, lines: seq<Str>)
    ensures Aborts(parse, lines) <==> SomeNull(parse, Payloads(lines))
    ensures !Aborts(parse, lines) ==> Frames(parse, lines) == Decoded(parse, Payloads(lines))
  {
    hide Frames, Aborts, Payloads, Decoded, SomeNull, ReadLine;
    if lines == [] {
      NoLines(parse);
    } else {
      var front, last := lines[..|lines| - 1], lines[|lines| - 1];
      LinesMean(parse, front);
      assert lines == front + [last];
      LineMeans(parse, front, last);
    }
  }

  lemma NoLines(parse: Parser)
    ensures !Aborts(parse, []) && !SomeNull(parse, Payloads([])) && Frames(parse, []) == Decoded(parse, Payloads([]))
  {
  }

  lemma LineMeans(parse: Parser, lines: seq<Str>, line: Str)
    requires Aborts(parse, lines) <==> SomeNull(parse, Payloads(lines))
    requires !Aborts(parse, lines) ==> Frames(parse, lines) == Decoded(parse, Payloads(lines))
    ensures Aborts(parse, lines + [line]) <==> SomeNull(parse, Payloads(lines + [line]))
    ensures !Aborts(parse, lines + [line]) ==>
      Frames(parse, lines + [line]) == Decoded(parse, Payloads(lines + [line]))
  {
    hide Trim;
    PrefixIsData(line);
    var all := lines + [line];
    assert all[..|lines|] == lines;
    var more := Payloads(all);
    assert more == Payloads(lines) || more == Payloads(lines) + [Payload(line)];
    if more != Payloads(lines) {
      assert more[..|more| - 1] == Payloads(lines) && more[|more| - 1] == Payload(line);
      SomeNullSnoc(parse, Payloads(lines), Payload(line));
    }
    AbortsSnoc(parse, lines, line);
    if !Aborts(parse, lines) { FramesSnoc(parse, lines, line); }
  }

  lemma SomeNullSnoc(parse: Parser, payloads: seq<Str>, d: Str)
    ensures SomeNull(parse, payloads + [d]) <==> SomeNull(parse, payloads) || parse(d) == Null
  {
    if SomeNull(parse, payloads) {
      var e :| e in payloads && parse(e) == Null;
      assert e in payloads + [d];
    }
    assert d in payloads + [d];
  }

  lemma AbortsSnoc(parse: Parser, lines: seq<Str>, line: Str)
    ensures Aborts(parse, lines + [line]) <==> Aborts(parse, lines) || ReadLine(parse, line) == Abort
  {
    var all := lines + [line];
    if Aborts(parse, lines) {
      var i :| 0 <= i < |lines| && ReadLine(parse, lines[i]) == Abort;
      assert all[i] == lines[i];
    }
    assert all[|lines|] == line;
    if Aborts(parse, all) {
      var i :| 0 <= i < |all| && ReadLine(parse, all[i]) == Abort;
      if i < |lines| { assert lines[i] == all[i]; }
    }
  }

  /**
   The outcome of a stream by its payloads: an exception if and only if one of them parses
   to `null`; otherwise the deltas and the final chunk of the parsed ones.
   */
  lemma StreamMeans(parse: Parser, requested: Str, text: Str)
    ensures
      var payloads := Payloads(CompleteLines(text));
      var frames := Decoded(parse, payloads);
      && (Streamed(parse, requested, text).final.None? <==> SomeNull(parse, payloads))
      && (!SomeNull(parse, payloads) ==>
            Streamed(parse, requested, text) == Outcome(Deltas(frames), Some(FinalOf(frames, requested))))
  {
    hide Frames, Aborts, Payloads, Decoded, SomeNull, FinalOf, CompleteLines;
    LinesMean(parse, CompleteLines(text));
  }

  /** `data: [DONE]` and its line feed, after a complete line, change no outcome. */
  lemma DoneIsNothing(parse: Parser, requested: Str, text: Str)
    requires Remainder(text) == []
    ensures Streamed(parse, requested, text + [100, 97, 116, 97, 58, 32, 91, 68, 79, 78, 69, 93, 10])
         == Streamed(parse, requested, text)
  {
    hide Split, Trim, ReadLine, Frames;
    var done := [100, 97, 116, 97, 58, 32, 91, 68, 79, 78, 69, 93];
    var line := done + [LF];
    assert line == [100, 97, 116, 97, 58, 32, 91, 68, 79, 78, 69, 93, 10];
    SplitResumes(text, line);
    assert Remainder(text) + line == line;
    OneLine(done);
    assert CompleteLines(text + line) == CompleteLines(text) + [done];
    DoneIsSkipped(parse, done);
    Skipped(parse, CompleteLines(text), done);
  }

  lemma {:induction false} OneLine(line: Str)
    requires forall i :: 0 <= i < |line| ==> line[i] != LF
    ensures Split(line + [LF]) == [line, []]
  {
    if line == [] {
      assert Split([LF]) == [[]] + Split([]) by { SplitNewline([]); assert [LF] + [] == [LF]; }
      assert [] + [LF] == [LF];
    } else {
      OneLine(line[1..]);
      SplitCharacter(line[0], line[1..] + [LF]);
      assert line + [LF] == [line[0]] + (line[1..] + [LF]);
      assert [line[0]] + line[1..] == line;
    }
  }

  lemma DoneIsSkipped(parse: Parser, line: Str)
    requires line == [100, 97, 116, 97, 58, 32, 91, 68, 79, 78, 69, 93]
    ensures ReadLine(parse, line) == Skip
  {
    TrimIdentity(line);
    var rest := line[5..];
    assert rest == [SPACE] + DONE_MARKER;
    TrimSlice(rest, 0, |rest|);
    assert rest[0..|rest|] == rest;
    assert SkipSpace(rest, 0, |rest|) == 1 && DropSpace(rest, 1, |rest|) == |rest|;
    assert rest[1..|rest|] == DONE_MARKER;
  }

  lemma Skipped(parse: Parser, lines: seq<Str>, line: Str)
    requires ReadLine(parse, line) == Skip
    ensures OutcomeOf(parse, [], lines + [line]).deltas == OutcomeOf(parse, [], lines).deltas
    ensures forall requested :: OutcomeOf(parse, requested, lines + [line]) == OutcomeOf(parse, requested, lines)
  {
    hide ReadLine, FinalOf, Deltas;
    AbortsSnoc(parse, lines, line);
    if Aborts(parse, lines) {
      AbortFreezes(parse, lines, [line]);
    } else {
      FramesSnoc(parse, lines, line);
    }
  }

  // ---------- Frames ----------

  /** The served model is the one the last frame that names a model names, and the requested one if none does. */
  lemma {:induction false} ModelIsLast(frames: seq<Frame>, requested: Str) returns (i: int)
    ensures -1 <= i < |frames|
    ensures i == -1 ==> LastModel(frames, requested) == requested
    ensures i >= 0 ==> frames[i].model == Some(LastModel(frames, requested)) && frames[i].model != Some([])
    ensures forall j :: i < j < |frames| ==> frames[j].model == None || frames[j].model == Some([])
  {
    i := |frames| - 1;
    if frames != [] && frames[i].model.Or([]) == [] { i := ModelIsLast(frames[..i], requested); }
  }

  /** The usage is the last one any frame reports. */
  lemma {:induction false} UsageIsLast(frames: seq<Frame>) returns (i: int)
    ensures -1 <= i < |frames|
    ensures i == -1 ==> LastUsage(frames) == Usage(0, 0)
    ensures i >= 0 ==> frames[i].usage == Some(LastUsage(frames))
    ensures forall j :: i < j < |frames| ==> frames[j].usage == None
  {
    i := |frames| - 1;
    if frames != [] && frames[i].usage.None? { i := UsageIsLast(frames[..i]); }
  }

  function ReasonOf(f: Frame): Option<WireReason> {
    if f.choice.Some? then f.choice.value.finishReason else None
  }

  /** Which reasons of the provider mean which of the product's. */
  predicate Means(reason: WireReason, finish: FinishReason) {
    && (finish == Length <==> reason == LengthWord || reason == MaxTokens)
    && (finish == ToolCalls <==> reason == ToolCallsWord || reason == FunctionCall)
    && (finish == ContentFilter <==> reason == ContentFilterWord)
  }

  /** The finish reason is the last one any frame gives, and `stop` if none does or the reason is unknown. */
  lemma {:induction false} FinishIsLast(frames: seq<Frame>) returns (i: int)
    ensures -1 <= i < |frames|
    ensures i == -1 ==> LastFinish(frames) == Stop
    ensures i >= 0 ==> ReasonOf(frames[i]).Some? && Means(ReasonOf(frames[i]).value, LastFinish(frames))
    ensures forall j :: i < j < |frames| ==> ReasonOf(frames[j]) == None
  {
    i := |frames| - 1;
    if frames != [] && ReasonOf(frames[i]) == None { i := FinishIsLast(frames[..i]); }
  }

  function ContentOf(f: Frame): Str {
    if f.choice.Some? && f.choice.value.content.Some? then f.choice.value.content.value else []
  }

  /** The deltas together are the contents of all frames, in order, and none of them is empty. */
  lemma {:induction false} DeltasAreContents(frames: seq<Frame>)
    ensures Joined(Deltas(frames), |Deltas(frames)|) == Contents(frames)
    ensures forall i :: 0 <= i < |Deltas(frames)| ==> Deltas(frames)[i] != []
    ensures |Deltas(frames)| <= |frames|
  {
    if frames != [] {
      var front, last := frames[..|frames| - 1], frames[|frames| - 1];
      DeltasAreContents(front);
      if ContentOf(last) != [] {
        assert Deltas(frames) == Deltas(front) + [ContentOf(last)];
        JoinedPrefix(Deltas(front), ContentOf(last));
      } else {
        assert Deltas(frames) == Deltas(front) && Contents(front) + [] == Contents(front);
      }
    }
  }

  function Contents(frames: seq<Frame>): Str {
    if frames == [] then [] else Contents(frames[..|frames| - 1]) + ContentOf(frames[|frames| - 1])
  }

  lemma JoinedPrefix(pieces: seq<Str>, piece: Str)
    ensures Joined(pieces + [piece], |pieces| + 1) == Joined(pieces, |pieces|) + piece
  {
    JoinedSame(pieces, piece, |pieces|);
  }

  lemma {:induction false} JoinedSame(pieces: seq<Str>, piece: Str, n: nat)
    requires n <= |pieces|
    ensures Joined(pieces + [piece], n) == Joined(pieces, n)
  {
    if n > 0 { JoinedSame(pieces, piece, n - 1); }
  }

  // ---------- Fragments ----------

  /** Call `index` has the id of its last fragment that carries one. */
  lemma {:induction false} IdIsLast(fragments: seq<Fragment>, index: int) returns (i: int)
    ensures -1 <= i < |fragments|
    ensures i == -1 ==> IdFor(fragments, index) == []
    ensures i >= 0 ==> fragments[i].id == Some(IdFor(fragments, index)) && Belongs(fragments[i], index)
    ensures forall j :: i < j < |fragments| && Belongs(fragments[j], index) ==> fragments[j].id == None
  {
    i := |fragments| - 1;
    if fragments != [] && !(Belongs(fragments[i], index) && fragments[i].id.Some?) {
      i := IdIsLast(fragments[..i], index);
    }
  }

  /** And the name of its last fragment that carries one. */
  lemma {:induction false} NameIsLast(fragments: seq<Fragment>, index: int) returns (i: int)
    ensures -1 <= i < |fragments|
    ensures i == -1 ==> NameFor(fragments, index) == []
    ensures i >= 0 ==> fragments[i].name == Some(NameFor(fragments, index)) && Belongs(fragments[i], index)
    ensures forall j :: i < j < |fragments| && Belongs(fragments[j], index) ==> fragments[j].name == None
  {
    i := |fragments| - 1;
    if fragments != [] && !(Belongs(fragments[i], index) && fragments[i].name.Some?) {
      i := NameIsLast(fragments[..i], index);
    }
  }

  /** A fragment without an index belongs to call 0. */
  predicate Belongs(f: Fragment, index: int) {
    f.index == Some(index) || (f.index == None && index == 0)
  }

  /** Its arguments are those of its own fragments, in order; fragments of other calls contribute nothing. */
  lemma {:induction false} ArgumentsAreJoined(fragments: seq<Fragment>, index: int)
    ensures ArgsFor(fragments, index) == Joined(OwnArguments(fragments, index), |OwnArguments(fragments, index)|)
  {
    if fragments != [] {
      var front, last := fragments[..|fragments| - 1], fragments[|fragments| - 1];
      ArgumentsAreJoined(front, index);
      if Belongs(last, index) && last.arguments.Some? {
        assert OwnArguments(fragments, index) == OwnArguments(front, index) + [last.arguments.value];
        JoinedPrefix(OwnArguments(front, index), last.arguments.value);
      } else {
        assert OwnArguments(fragments, index) == OwnArguments(front, index);
        assert ArgsFor(front, index) + [] == ArgsFor(front, index);
      }
    }
  }

  function OwnArguments(fragments: seq<Fragment>, index: int): seq<Str> {
    if fragments == [] then []
    else
      var last := fragments[|fragments| - 1];
      OwnArguments(fragments[..|fragments| - 1], index)
        + (if Belongs(last, index) && last.arguments.Some? then [last.arguments.value] else [])
  }
}
