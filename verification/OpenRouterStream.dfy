/**
 The incremental reader of a streamed completion: buffered line splitting and the
 reassembly of tool calls from fragments.

 `Stream` is the source's nest of loops over reads, lines and fragments. Its contract
 mentions the reads only through their concatenation, so no outcome depends on where the
 network cut the text. What it returns is `Streamed`, which reads the complete lines of
 the whole text in closed form: last model, last usage, concatenated fragments.

 The JSON parser is a parameter; all results hold for every parser.
 */
module OpenRouterStream {
  import opened Prelude
  import opened Text

  // ---------- Wire types ----------

  datatype Fragment = Fragment(index: Option<int>, id: Option<Str>, name: Option<Str>, arguments: Option<Str>)

  datatype WireReason =
    StopWord | EndTurn | LengthWord | MaxTokens | ToolCallsWord | FunctionCall | ContentFilterWord | OtherWord

  datatype Usage = Usage(prompt: nat, completion: nat)

  datatype Choice = Choice(finishReason: Option<WireReason>, toolCalls: seq<Fragment>, content: Option<Str>)

  /** A decoded frame; `choice` is the first element of `choices`, if there is one. */
  datatype Frame = Frame(model: Option<Str>, usage: Option<Usage>, choice: Option<Choice>)

  /** `JSON.parse` throws, or yields `null` (whose fields cannot be read), or yields a frame. */
  datatype Parsed = Malformed | Null | Parsed(frame: Frame)

  type Parser = Str -> Parsed

  datatype FinishReason = Stop | Length | ToolCalls | ContentFilter

  function MapFinishReason(reason: WireReason): FinishReason {
    match reason
    case StopWord | EndTurn => Stop
    case LengthWord | MaxTokens => Length
    case ToolCallsWord | FunctionCall => ToolCalls
    case ContentFilterWord => ContentFilter
    case OtherWord => Stop
  }

  datatype ToolDraft = ToolDraft(id: Str, name: Str, args: Str)

  datatype ToolCall = ToolCall(id: Str, name: Str, arguments: Str)

  datatype Final = Final(
    toolCalls: Option<seq<ToolCall>>, promptTokens: nat, completionTokens: nat, totalTokens: nat,
    finishReason: FinishReason, servedModel: Str)

  /** What the consumer sees: the deltas in order, then a final chunk or an exception. */
  datatype Outcome = Outcome(deltas: seq<Str>, final: Option<Final>)

  // ---------- Lines ----------

  /** `s.split('\n')`. */
  function Split(s: Str): (lines: seq<Str>)
    ensures |lines| > 0
  {
    if s == [] then [[]]
    else
      var rest := Split(s[1..]);
      if s[0] == LF then [[]] + rest else [[s[0]] + rest[0]] + rest[1..]
  }

  function CompleteLines(s: Str): seq<Str> {
    Split(s)[..|Split(s)| - 1]
  }

  function Remainder(s: Str): Str {
    Split(s)[|Split(s)| - 1]
  }

  lemma SplitNewline(s: Str)
    ensures Split([LF] + s) == [[]] + Split(s)
  {
  }

  lemma SplitCharacter(u: CodeUnit, s: Str)
    requires u != LF
    ensures Split([u] + s) == [[u] + Split(s)[0]] + Split(s)[1..]
  {
  }

  /** Splitting can be resumed from the unfinished last line. */
  lemma {:induction false} SplitResumes(a: Str, b: Str)
    ensures Split(a + b) == CompleteLines(a) + Split(Remainder(a) + b)
  {
    hide Split, CompleteLines, Remainder;
    if a == [] {
      NothingSplit();
      assert a + b == b && [] + b == b;
    } else {
      SplitResumes(a[1..], b);
      if a[0] == LF { NewlineResumes(a[1..], b); } else { CharacterResumes(a[0], a[1..], b); }
      assert a == [a[0]] + a[1..] && a + b == [a[0]] + (a[1..] + b);
    }
  }

  lemma NothingSplit()
    ensures CompleteLines([]) == [] && Remainder([]) == []
  {
  }

  lemma NewlineResumes(a: Str, b: Str)
    requires Split(a + b) == CompleteLines(a) + Split(Remainder(a) + b)
    ensures Split([LF] + (a + b)) == CompleteLines([LF] + a) + Split(Remainder([LF] + a) + b)
  {
  }

  lemma CharacterResumes(u: CodeUnit, a: Str, b: Str)
    requires u != LF && Split(a + b) == CompleteLines(a) + Split(Remainder(a) + b)
    ensures Split([u] + (a + b)) == CompleteLines([u] + a) + Split(Remainder([u] + a) + b)
  {
    hide Split;
    SplitCharacter(u, a);
    SplitCharacter(u, a + b);
    if |Split(a)| == 1 {
      assert Remainder([u] + a) + b == [u] + (Remainder(a) + b);
      SplitCharacter(u, Remainder(a) + b);
    } else {
      assert CompleteLines([u] + a) == [[u] + CompleteLines(a)[0]] + CompleteLines(a)[1..];
    }
  }

  lemma LinesResume(a: Str, b: Str)
    ensures CompleteLines(a + b) == CompleteLines(a) + CompleteLines(Remainder(a) + b)
    ensures Remainder(a + b) == Remainder(Remainder(a) + b)
  {
    SplitResumes(a, b);
  }

  /** The concatenation of the first `n` reads. */
  function Joined(pieces: seq<Str>, n: nat): Str
    requires n <= |pieces|
  {
    if n == 0 then [] else Joined(pieces, n - 1) + pieces[n - 1]
  }

  // ---------- Frames ----------

  /** The five code units of `data:`. */
  const DATA_PREFIX: Str := [100, 97, 116, 97, 58]

  /** The six code units of `[DONE]`. */
  const DONE_MARKER: Str := [91, 68, 79, 78, 69, 93]

  datatype LineKind = Skip | Abort | Carry(frame: Frame)

  /** What a line amounts to: most are skipped, a `null` payload throws, the rest carry a frame. */
  function ReadLine(parse: Parser, line: Str): LineKind {
    var trimmed := Trim(line);
    if !(DATA_PREFIX <= trimmed) then Skip
    else
      var data := Trim(trimmed[5..]);
      if data == DONE_MARKER then Skip
      else match parse(data)
        case Malformed => Skip
        case Null => Abort
        case Parsed(frame) => Carry(frame)
  }

  /** The frames of `lines`, up to the first line that throws. */
  function Frames(parse: Parser, lines: seq<Str>): seq<Frame> {
    if lines == [] then []
    else if Aborts(parse, lines[..|lines| - 1]) then Frames(parse, lines[..|lines| - 1])
    else Frames(parse, lines[..|lines| - 1]) + FrameIn(ReadLine(parse, lines[|lines| - 1]))
  }

  function FrameIn(kind: LineKind): seq<Frame> {
    if kind.Carry? then [kind.frame] else []
  }

  predicate Aborts(parse: Parser, lines: seq<Str>) {
    exists i :: 0 <= i < |lines| && ReadLine(parse, lines[i]) == Abort
  }

  // ---------- The closed form ----------

  function LastModel(frames: seq<Frame>, requested: Str): Str {
    if frames == [] then requested
    else
      var model := frames[|frames| - 1].model.Or([]);
      if model != [] then model else LastModel(frames[..|frames| - 1], requested)
  }

  function LastUsage(frames: seq<Frame>): Usage {
    if frames == [] then Usage(0, 0)
    else frames[|frames| - 1].usage.Or(LastUsage(frames[..|frames| - 1]))
  }

  function LastFinish(frames: seq<Frame>): FinishReason {
    if frames == [] then Stop
    else match frames[|frames| - 1].choice
      case Some(Choice(Some(reason), _, _)) => MapFinishReason(reason)
      case _ => LastFinish(frames[..|frames| - 1])
  }

  function Deltas(frames: seq<Frame>): seq<Str> {
    if frames == [] then []
    else
      Deltas(frames[..|frames| - 1]) +
      match frames[|frames| - 1].choice
      case None => []
      case Some(choice) => if choice.content.Or([]) != [] then [choice.content.value] else []
  }

  /** Every tool-call fragment of the stream, in arrival order. */
  function Fragments(frames: seq<Frame>): seq<Fragment> {
    if frames == [] then []
    else
      Fragments(frames[..|frames| - 1]) +
      match frames[|frames| - 1].choice
      case None => []
      case Some(choice) => choice.toolCalls
  }

  function IndexOfFragment(f: Fragment): int {
    f.index.Or(0)
  }

  /** The last id any fragment of call `index` carries. */
  function IdFor(fragments: seq<Fragment>, index: int): Str {
    if fragments == [] then []
    else
      var f := fragments[|fragments| - 1];
      var before := IdFor(fragments[..|fragments| - 1], index);
      if IndexOfFragment(f) == index then f.id.Or(before) else before
  }

  function NameFor(fragments: seq<Fragment>, index: int): Str {
    if fragments == [] then []
    else
      var f := fragments[|fragments| - 1];
      var before := NameFor(fragments[..|fragments| - 1], index);
      if IndexOfFragment(f) == index then f.name.Or(before) else before
  }

  /** The argument text of call `index`: its fragments' arguments, in order. */
  function ArgsFor(fragments: seq<Fragment>, index: int): Str {
    if fragments == [] then []
    else
      var f := fragments[|fragments| - 1];
      ArgsFor(fragments[..|fragments| - 1], index) + (if IndexOfFragment(f) == index then f.arguments.Or([]) else [])
  }

  function Indices(fragments: seq<Fragment>): set<int> {
    set f | f in fragments :: IndexOfFragment(f)
  }

  /** The accumulator the fragments determine. */
  function Drafts(fragments: seq<Fragment>): map<int, ToolDraft> {
    map i | i in Indices(fragments) :: ToolDraft(IdFor(fragments, i), NameFor(fragments, i), ArgsFor(fragments, i))
  }

  function Least(s: set<int>): (least: int)
    requires s != {}
    ensures least in s && forall k :: k in s ==> least <= k
  {
    LeastExists(s);
    var least :| least in s && forall k :: k in s ==> least <= k;
    least
  }

  /** The members of a finite set of integers, in ascending order. */
  function Ascending(s: set<int>): (keys: seq<int>)
    ensures forall i, j :: 0 <= i < j < |keys| ==> keys[i] < keys[j]
    ensures forall k :: k in keys <==> k in s
    decreases |s|
  {
    if s == {} then []
    else
      var least := Least(s);
      [least] + Ascending(s - {least})
  }

  lemma {:induction false} LeastExists(s: set<int>)
    requires s != {}
    ensures exists least :: least in s && forall k :: k in s ==> least <= k
    decreases |s|
  {
    var k := PickMember(s);
    var rest := s - {k};
    if rest == {} {
      forall j | j in s
        ensures k <= j
      {
        assert j == k || j in rest;
      }
    } else {
      LeastExists(rest);
      var least :| least in rest && forall j :: j in rest ==> least <= j;
      var m := if k < least then k else least;
      forall j | j in s
        ensures m <= j
      {
        assert j == k || j in rest;
      }
      assert m in s;
    }
  }

  function ToolCallsOf(drafts: map<int, ToolDraft>): (calls: seq<ToolCall>) {
    var keys := Ascending(drafts.Keys);
    seq(|keys|, i requires 0 <= i < |keys| =>
      var t := drafts[keys[i]];
      ToolCall(t.id, t.name, if t.args == [] then EMPTY_OBJECT else t.args))
  }

  /** The two code units of `{}`. */
  const EMPTY_OBJECT: Str := [123, 125]

  function FinalOf(frames: seq<Frame>, requested: Str): Final {
    var calls := ToolCallsOf(Drafts(Fragments(frames)));
    var usage := LastUsage(frames);
    Final(if calls == [] then None else Some(calls), usage.prompt, usage.completion,
          usage.prompt + usage.completion, LastFinish(frames), LastModel(frames, requested))
  }

  /** The outcome as a function of the whole decoded text. */
  function Streamed(parse: Parser, requested: Str, text: Str): Outcome {
    OutcomeOf(parse, requested, CompleteLines(text))
  }

  function OutcomeOf(parse: Parser, requested: Str, lines: seq<Str>): Outcome {
    var frames := Frames(parse, lines);
    Outcome(Deltas(frames), if Aborts(parse, lines) then None else Some(FinalOf(frames, requested)))
  }

  // ---------- One line more, one fragment more ----------

  lemma FramesSnoc(parse: Parser, lines: seq<Str>, line: Str)
    requires !Aborts(parse, lines)
    ensures Aborts(parse, lines + [line]) <==> ReadLine(parse, line) == Abort
    ensures !ReadLine(parse, line).Carry? ==> Frames(parse, lines + [line]) == Frames(parse, lines)
    ensures ReadLine(parse, line).Carry? ==>
      Frames(parse, lines + [line]) == Frames(parse, lines) + [ReadLine(parse, line).frame]
  {
  }

  /** Nothing after a line that throws is read. */
  lemma {:induction false} AbortFreezes(parse: Parser, lines: seq<Str>, more: seq<Str>)
    requires Aborts(parse, lines)
    ensures Aborts(parse, lines + more) && Frames(parse, lines + more) == Frames(parse, lines)
  {
    hide ReadLine;
    var all := lines + more;
    var i :| 0 <= i < |lines| && ReadLine(parse, lines[i]) == Abort;
    assert all[i] == lines[i];
    if more == [] {
      assert all == lines;
    } else {
      AbortFreezes(parse, lines, more[..|more| - 1]);
      assert all[..|all| - 1] == lines + more[..|more| - 1];
    }
  }

  lemma {:induction false} AbsentDraft(fragments: seq<Fragment>, index: int)
    requires index !in Indices(fragments)
    ensures IdFor(fragments, index) == [] && NameFor(fragments, index) == [] && ArgsFor(fragments, index) == []
  {
    if fragments != [] {
      var init := fragments[..|fragments| - 1];
      assert IndexOfFragment(fragments[|fragments| - 1]) in Indices(fragments);
      assert forall f :: f in init ==> f in fragments;
      AbsentDraft(init, index);
    }
  }

  /** The update of the accumulator for one fragment. */
  function AddFragment(drafts: map<int, ToolDraft>, f: Fragment): map<int, ToolDraft> {
    var index := IndexOfFragment(f);
    var existing := if index in drafts then drafts[index] else ToolDraft([], [], []);
    drafts[index := ToolDraft(f.id.Or(existing.id), f.name.Or(existing.name), existing.args + f.arguments.Or([]))]
  }

  lemma IndicesSnoc(fragments: seq<Fragment>, f: Fragment)
    ensures Indices(fragments + [f]) == Indices(fragments) + {IndexOfFragment(f)}
  {
  }

  /** The update of the accumulator for one fragment keeps it the one the fragments determine. */
  lemma DraftsSnoc(fragments: seq<Fragment>, f: Fragment)
    ensures Drafts(fragments + [f]) == AddFragment(Drafts(fragments), f)
  {
    hide Indices;
    var all := fragments + [f];
    IndicesSnoc(fragments, f);
    assert all[..|all| - 1] == fragments && all[|all| - 1] == f;
    var index := IndexOfFragment(f);
    if index !in Indices(fragments) { AbsentDraft(fragments, index); }
    forall i | i in Indices(all)
      ensures Drafts(all)[i] == AddFragment(Drafts(fragments), f)[i]
    {
      assert ArgsFor(all, i) == ArgsFor(fragments, i) + (if index == i then f.arguments.Or([]) else []);
    }
  }

  lemma {:induction false} JoinedGrows(pieces: seq<Str>, m: nat, n: nat) returns (more: seq<Str>)
    requires m <= n <= |pieces|
    ensures CompleteLines(Joined(pieces, n)) == CompleteLines(Joined(pieces, m)) + more
  {
    hide CompleteLines, Remainder;
    if m == n {
      more := [];
    } else {
      var before := JoinedGrows(pieces, m, n - 1);
      LinesResume(Joined(pieces, n - 1), pieces[n - 1]);
      more := before + CompleteLines(Remainder(Joined(pieces, n - 1)) + pieces[n - 1]);
    }
  }

  // ---------- The source's loops ----------

  /** The local variables agree with the frames read so far. */
  ghost predicate Tracks(frames: seq<Frame>, requested: Str, deltas: seq<Str>, servedModel: Str, usage: Usage,
                         finishReason: FinishReason, tools: map<int, ToolDraft>)
  {
    && deltas == Deltas(frames)
    && servedModel == LastModel(frames, requested)
    && usage == LastUsage(frames)
    && finishReason == LastFinish(frames)
    && tools == Drafts(Fragments(frames))
  }

  lemma TrackFrame(frames: seq<Frame>, f: Frame, requested: Str, deltas: seq<Str>, servedModel: Str, usage: Usage,
                   finishReason: FinishReason, tools: map<int, ToolDraft>)
    requires Tracks(frames, requested, deltas, servedModel, usage, finishReason, tools)
    ensures f.choice.None? ==>
      Tracks(frames + [f], requested, deltas, if f.model.Or([]) != [] then f.model.value else servedModel,
             f.usage.Or(usage), finishReason, tools)
    ensures f.choice.Some? ==>
      var choice := f.choice.value;
      Tracks(frames + [f], requested, deltas + (if choice.content.Or([]) != [] then [choice.content.Or([])] else []),
             if f.model.Or([]) != [] then f.model.value else servedModel, f.usage.Or(usage),
             if choice.finishReason.Some? then MapFinishReason(choice.finishReason.value) else finishReason,
             Drafts(Fragments(frames) + choice.toolCalls))
  {
    hide Drafts;
    var all := frames + [f];
    assert all[..|all| - 1] == frames && all[|all| - 1] == f;
    if f.choice.None? { assert Fragments(frames) + [] == Fragments(frames) && Deltas(frames) + [] == Deltas(frames); }
  }

  /**
   Reads a completion stream piece by piece. Only the concatenation of the pieces enters
   the contract: where the stream was cut has no effect on deltas, tool calls, usage,
   model, finish reason, or on whether and when the reader throws.
   */
  method Stream(parse: Parser, requested: Str, pieces: seq<Str>) returns (r: Outcome)
    ensures r == Streamed(parse, requested, Joined(pieces, |pieces|))
  {
    hide Drafts, Fragments, LastModel, LastUsage, LastFinish, Deltas, Trim, Frames, Aborts, Split, OutcomeOf, Tracks,
      FinalOf, ToolCallsOf;
    var buffer: Str := [];
    var deltas: seq<Str> := [];
    var servedModel := requested;
    var usage := Usage(0, 0);
    var finishReason := Stop;
    var toolAccumulator: map<int, ToolDraft> := map[];
    ghost var done: seq<Str> := [];
    StartTracking(parse, requested);

    for i := 0 to |pieces|
      invariant done == CompleteLines(Joined(pieces, i)) && buffer == Remainder(Joined(pieces, i))
      invariant !Aborts(parse, done)
      invariant Tracks(Frames(parse, done), requested, deltas, servedModel, usage, finishReason, toolAccumulator)
    {
      LinesResume(Joined(pieces, i), pieces[i]);
      buffer := buffer + pieces[i];
      var lines := CompleteLines(buffer);
      buffer := Remainder(buffer);
      ghost var earlier := done;

      for j := 0 to |lines|
        invariant done == earlier + lines[..j]
        invariant !Aborts(parse, done)
        invariant Tracks(Frames(parse, done), requested, deltas, servedModel, usage, finishReason, toolAccumulator)
      {
        var line := lines[j];
        FramesSnoc(parse, done, line);
        assert earlier + lines[..j + 1] == done + [line];
        ghost var before := done;
        done := done + [line];

        match ReadLine(parse, line) {
          case Skip =>
          case Abort =>
            ghost var more := JoinedGrows(pieces, i + 1, |pieces|);
            ghost var rest := lines[j + 1..] + more;
            assert CompleteLines(Joined(pieces, |pieces|)) == done + rest;
            ThrownOutcome(parse, requested, done, rest);
            assert deltas == Deltas(Frames(parse, done)) by {
              Unfold(Frames(parse, done), requested, deltas, servedModel, usage, finishReason, toolAccumulator);
            }
            return Outcome(deltas, None);
          case Carry(parsed) =>
            ghost var frames := Frames(parse, before);
            TrackFrame(frames, parsed, requested, deltas, servedModel, usage, finishReason, toolAccumulator);
            assert toolAccumulator == Drafts(Fragments(frames)) by {
              Unfold(frames, requested, deltas, servedModel, usage, finishReason, toolAccumulator);
            }
            if parsed.model.Or([]) != [] { servedModel := parsed.model.value; }
            if parsed.usage.Some? { usage := parsed.usage.value; }
            if parsed.choice.Some? {
              var choice := parsed.choice.value;
              if choice.finishReason.Some? { finishReason := MapFinishReason(choice.finishReason.value); }
              assert Fragments(frames) + choice.toolCalls[..0] == Fragments(frames);
              for k := 0 to |choice.toolCalls|
                invariant toolAccumulator == Drafts(Fragments(frames) + choice.toolCalls[..k])
              {
                var fragment := choice.toolCalls[k];
                DraftsSnoc(Fragments(frames) + choice.toolCalls[..k], fragment);
                assert Fragments(frames) + choice.toolCalls[..k] + [fragment] ==
                  Fragments(frames) + choice.toolCalls[..k + 1];
                toolAccumulator := AddFragment(toolAccumulator, fragment);
              }
              assert choice.toolCalls[..|choice.toolCalls|] == choice.toolCalls;
              var content := choice.content.Or([]);
              deltas := deltas + (if content != [] then [content] else []);
            }
        }
      }
    }

    var toolCalls := ToolCallsOf(toolAccumulator);
    FinishedOutcome(parse, requested, done, deltas, servedModel, usage, finishReason, toolAccumulator);
    return Outcome(deltas, Some(Final(if toolCalls == [] then None else Some(toolCalls), usage.prompt, usage.completion,
                                      usage.prompt + usage.completion, finishReason, servedModel)));
  }

  lemma StartTracking(parse: Parser, requested: Str)
    ensures CompleteLines([]) == [] && Remainder([]) == [] && !Aborts(parse, [])
    ensures Tracks(Frames(parse, []), requested, [], requested, Usage(0, 0), Stop, map[])
  {
  }

  lemma Unfold(frames: seq<Frame>, requested: Str, deltas: seq<Str>, servedModel: Str, usage: Usage,
               finishReason: FinishReason, tools: map<int, ToolDraft>)
    requires Tracks(frames, requested, deltas, servedModel, usage, finishReason, tools)
    ensures deltas == Deltas(frames) && tools == Drafts(Fragments(frames))
    ensures servedModel == LastModel(frames, requested) && usage == LastUsage(frames)
      && finishReason == LastFinish(frames)
  {
  }

  lemma ThrownOutcome(parse: Parser, requested: Str, done: seq<Str>, rest: seq<Str>)
    requires Aborts(parse, done)
    ensures OutcomeOf(parse, requested, done + rest) == Outcome(Deltas(Frames(parse, done)), None)
  {
    AbortFreezes(parse, done, rest);
  }

  lemma FinishedOutcome(parse: Parser, requested: Str, done: seq<Str>, deltas: seq<Str>, servedModel: Str,
                        usage: Usage, finishReason: FinishReason, tools: map<int, ToolDraft>)
    requires !Aborts(parse, done)
    requires Tracks(Frames(parse, done), requested, deltas, servedModel, usage, finishReason, tools)
    ensures
      var calls := ToolCallsOf(tools);
      OutcomeOf(parse, requested, done) ==
        Outcome(deltas, Some(Final(if calls == [] then None else Some(calls), usage.prompt, usage.completion,
                                   usage.prompt + usage.completion, finishReason, servedModel)))
  {
    hide Frames, Aborts, Drafts, Fragments, ToolCallsOf;
  }

  // ---------- What the closed form says ----------

  /** One tool call per index, ascending; each carries its own fragments' arguments, concatenated in order. */
  lemma ToolCallShape(frames: seq<Frame>, requested: Str)
    ensures
      var fragments := Fragments(frames);
      var calls := FinalOf(frames, requested).toolCalls.Or([]);
      var keys := Ascending(Indices(fragments));
      && |calls| == |keys| == |Indices(fragments)|
      && forall k :: 0 <= k < |calls| ==>
           && calls[k].id == IdFor(fragments, keys[k])
           && calls[k].name == NameFor(fragments, keys[k])
           && calls[k].arguments ==
                (if ArgsFor(fragments, keys[k]) == [] then [123, 125] else ArgsFor(fragments, keys[k]))
  {
    hide IdFor, NameFor, ArgsFor, Indices;
    var fragments := Fragments(frames);
    assert Drafts(fragments).Keys == Indices(fragments);
    AscendingLength(Indices(fragments));
  }

  lemma {:induction false} AscendingLength(s: set<int>)
    ensures |Ascending(s)| == |s|
    decreases |s|
  {
    if s != {} {
      var rest := Ascending(s)[1..];
      var least := Ascending(s)[0];
      assert rest == Ascending(s - {least});
      AscendingLength(s - {least});
    }
  }

  lemma {:induction false} SplitOneLine(s: Str)
    requires LF !in s
    ensures Split(s) == [s]
  {
    if s != [] {
      assert s[0] in s && s == [s[0]] + s[1..];
      SplitOneLine(s[1..]);
    }
  }

  lemma {:induction false} LineFeedEnds(s: Str)
    ensures Remainder(s + [LF]) == [] && |Split(s + [LF])| > 1
  {
    hide Split;
    if s == [] {
      assert s + [LF] == [LF] + [];
      SplitNewline([]);
      NothingSplit();
    } else {
      LineFeedEnds(s[1..]);
      assert s + [LF] == [s[0]] + (s[1..] + [LF]);
      if s[0] == LF { SplitNewline(s[1..] + [LF]); } else { SplitCharacter(s[0], s[1..] + [LF]); }
    }
  }

  lemma TerminatedText(s: Str)
    requires s != [] && s[|s| - 1] == LF
    ensures Remainder(s) == []
  {
    hide Split;
    var front := s[..|s| - 1];
    assert s == front + [LF];
    LinesResume(front, [LF]);
    assert Remainder(front) + [LF] == Remainder(front) + [LF] + [];
    LineFeedEnds(Remainder(front));
  }

  /** A last line without a line feed is never read, whatever it carries. */
  lemma UnterminatedLineIgnored(parse: Parser, requested: Str, text: Str, tail: Str)
    requires text != [] && text[|text| - 1] == LF && LF !in tail
    ensures Streamed(parse, requested, text + tail) == Streamed(parse, requested, text)
  {
    LinesResume(text, tail);
    TerminatedText(text);
    SplitOneLine(tail);
    assert [] + tail == tail;
    assert CompleteLines(text + tail) == CompleteLines(text);
  }
}
