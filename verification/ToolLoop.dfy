/**
 The bounded tool loop and the transcript it leaves.

 The model and the tools are functions of what they are shown; a model call may throw,
 a tool always answers. `Run` and `PersistTranscript` are the source's loops. The rest
 says what a conversation is, and that the loop itself never breaks the provider's rule,
 that tool messages answer the preceding assistant message's calls, all of them, in order:
 every request and every transcript obeys it exactly if the opening does.
 */
module ToolLoop {
  import opened Prelude

  datatype Call = Call(id: string, name: string, arguments: string)

  datatype Message =
    | System(content: string)
    | User(content: string)
    | Assistant(content: string, calls: seq<Call>)
    | ToolReply(content: string, callId: string, name: string)

  datatype Completion = Completion(content: string, calls: seq<Call>)

  datatype ToolResult = ToolResult(ok: bool, rendered: string)

  const DEFAULT_MAX_ITERATIONS: nat := 8

  const NUDGE := User("You have reached the maximum number of tool calls for this request.")

  /** A request, with the model and the tools it runs against; a tool sees how many calls came before its own. */
  datatype Request = Request(
    systemPrompt: string, inputs: seq<Message>, toolsOffered: bool, maxIterations: Option<int>,
    model: (seq<Message>, bool) -> Option<Completion>, execute: (Call, nat) -> ToolResult)
  {
    function Cap(): nat {
      if maxIterations.None? then DEFAULT_MAX_ITERATIONS
      else if maxIterations.value < 0 then 0
      else maxIterations.value
    }

    function Opening(): seq<Message> {
      [System(systemPrompt)] + inputs
    }
  }

  datatype Result = Result(content: string, messages: seq<Message>, toolResults: seq<ToolResult>, iterations: nat,
      exhausted: bool)

  // ---------- What a conversation is ----------

  /** One assistant turn that asked for tools, and the tools' answers. */
  datatype Round = Round(content: string, calls: seq<Call>, results: seq<ToolResult>)

  datatype Conversation = Conversation(rounds: seq<Round>, answer: string, exhausted: bool)

  function Replies(calls: seq<Call>, results: seq<ToolResult>): (m: seq<Message>)
    requires |calls| == |results|
    ensures |m| == |calls|
  {
    seq(|calls|, i requires 0 <= i < |calls| => ToolReply(results[i].rendered, calls[i].id, calls[i].name))
  }

  predicate Answered(rounds: seq<Round>) {
    forall i :: 0 <= i < |rounds| ==> 0 < |rounds[i].calls| == |rounds[i].results|
  }

  function RoundMessages(round: Round): seq<Message>
    requires |round.calls| == |round.results|
  {
    [Assistant(round.content, round.calls)] + Replies(round.calls, round.results)
  }

  function Messages(rounds: seq<Round>): seq<Message>
    requires Answered(rounds)
  {
    if rounds == [] then [] else Messages(rounds[..|rounds| - 1]) + RoundMessages(rounds[|rounds| - 1])
  }

  function Results(rounds: seq<Round>): seq<ToolResult> {
    if rounds == [] then [] else Results(rounds[..|rounds| - 1]) + rounds[|rounds| - 1].results
  }

  function Calls(rounds: seq<Round>): seq<Call> {
    if rounds == [] then [] else Calls(rounds[..|rounds| - 1]) + rounds[|rounds| - 1].calls
  }

  function Execute(q: Request, calls: seq<Call>, before: nat): (results: seq<ToolResult>)
    ensures |results| == |calls|
  {
    seq(|calls|, i requires 0 <= i < |calls| => q.execute(calls[i], before + i))
  }

  /** What the model is shown after `rounds`. */
  function Shown(q: Request, rounds: seq<Round>): seq<Message>
    requires Answered(rounds)
  {
    q.Opening() + Messages(rounds)
  }

  /** The conversation after `rounds`, with `left` tool turns still allowed; none when a model call throws. */
  function Converse(q: Request, rounds: seq<Round>, left: nat): Option<Conversation>
    requires Answered(rounds)
    decreases left
  {
    if left == 0 then
      var final := q.model(Shown(q, rounds) + [NUDGE], false);
      if final.None? then None else Some(Conversation(rounds, final.value.content, true))
    else
      var completion := q.model(Shown(q, rounds), q.toolsOffered);
      if completion.None? then None
      else if completion.value.calls == [] then Some(Conversation(rounds, completion.value.content, false))
      else Converse(q, rounds + [NextRound(q, rounds, completion.value)], left - 1)
  }

  function NextRound(q: Request, rounds: seq<Round>, completion: Completion): Round {
    Round(completion.content, completion.calls, Execute(q, completion.calls, |Results(rounds)|))
  }

  function ResultOf(q: Request, c: Conversation): Result
    requires Answered(c.rounds)
  {
    Result(c.answer, Shown(q, c.rounds) + [Assistant(c.answer, [])], Results(c.rounds), |c.rounds| + 1, c.exhausted)
  }

  /** Every turn was the model's reaction to what it had been shown, and at most `left` more turns were taken. */
  lemma {:induction false} ConverseShape(q: Request, rounds: seq<Round>, left: nat)
    requires Answered(rounds) && Converse(q, rounds, left).Some?
    ensures
      var c := Converse(q, rounds, left).value;
      && Answered(c.rounds) && |rounds| <= |c.rounds| <= |rounds| + left && c.rounds[..|rounds|] == rounds
      && (c.exhausted <==> |c.rounds| == |rounds| + left)
      && (forall i :: |rounds| <= i < |c.rounds| ==> Reacts(q, c.rounds, i))
      && (if c.exhausted then
            q.model(Shown(q, c.rounds) + [NUDGE], false).Some?
            && q.model(Shown(q, c.rounds) + [NUDGE], false).value.content == c.answer
          else
            q.model(Shown(q, c.rounds), q.toolsOffered) == Some(Completion(c.answer, [])))
    decreases left
  {
    hide Messages, Results, Execute;
    if left > 0 {
      var completion := q.model(Shown(q, rounds), q.toolsOffered).value;
      if completion.calls != [] {
        var next := rounds + [NextRound(q, rounds, completion)];
        ConverseShape(q, next, left - 1);
        var c := Converse(q, rounds, left).value;
        assert c.rounds[..|rounds|] == next[..|rounds|] == rounds;
        assert c.rounds[|rounds|] == next[|rounds|];
        assert Reacts(q, c.rounds, |rounds|);
      }
    }
  }

  /** Turn `i` is what the model said to the turns before it, with the tools' answers to its calls. */
  predicate Reacts(q: Request, rounds: seq<Round>, i: nat)
    requires Answered(rounds) && i < |rounds|
  {
    var completion := q.model(Shown(q, rounds[..i]), q.toolsOffered);
    completion.Some? && completion.value.calls != [] && rounds[i] == NextRound(q, rounds[..i], completion.value)
  }

  lemma MessagesSnoc(rounds: seq<Round>, round: Round)
    requires Answered(rounds) && 0 < |round.calls| == |round.results|
    ensures Answered(rounds + [round])
    ensures Messages(rounds + [round]) == Messages(rounds) + RoundMessages(round)
    ensures Results(rounds + [round]) == Results(rounds) + round.results
    ensures Calls(rounds + [round]) == Calls(rounds) + round.calls
  {
  }

  // ---------- The source's loop ----------

  method Run(q: Request) returns (r: Option<Result>)
    ensures Converse(q, [], q.Cap()).None? ==> r == None
    ensures Converse(q, [], q.Cap()).Some? ==>
      var c := Converse(q, [], q.Cap()).value;
      Answered(c.rounds) && r == Some(ResultOf(q, c))
  {
    hide Converse, Messages, Results, Calls, Replies;
    var maxIterations := q.maxIterations.Or(DEFAULT_MAX_ITERATIONS);
    var messages := [System(q.systemPrompt)] + q.inputs;
    var toolResults := [];
    var iterations := 0;
    ghost var rounds: seq<Round> := [];
    NoRounds();
    while iterations < maxIterations
      invariant 0 <= iterations == |rounds| <= q.Cap()
      invariant Answered(rounds) && messages == Shown(q, rounds) && toolResults == Results(rounds)
      invariant Converse(q, [], q.Cap()) == Converse(q, rounds, q.Cap() - iterations)
      decreases maxIterations - iterations
    {
      ConverseStep(q, rounds, q.Cap() - iterations);
      iterations := iterations + 1;
      var completion := q.model(messages, q.toolsOffered);
      if completion.None? { return None; }
      var calls := completion.value.calls;
      if |calls| == 0 {
        messages := messages + [Assistant(completion.value.content, [])];
        return Some(Result(completion.value.content, messages, toolResults, iterations, false));
      }
      ghost var round := NextRound(q, rounds, completion.value);
      MessagesSnoc(rounds, round);
      messages := messages + [Assistant(completion.value.content, calls)];
      ghost var asked := messages;
      var results := Execute(q, calls, |toolResults|);
      NoReplies(calls, results);
      for i := 0 to |results|
        invariant toolResults == Results(rounds) + results[..i]
        invariant messages == asked + Replies(calls[..i], results[..i])
      {
        toolResults := toolResults + [results[i]];
        messages := messages + [ToolReply(results[i].rendered, calls[i].id, calls[i].name)];
        assert results[..i + 1] == results[..i] + [results[i]];
        RepliesSnoc(calls, results, i);
      }
      assert results[..|results|] == results && calls[..|calls|] == calls;
      assert messages == Shown(q, rounds + [round]);
      rounds := rounds + [round];
    }
    ConverseStep(q, rounds, 0);
    var final := q.model(messages + [NUDGE], false);
    if final.None? { return None; }
    messages := messages + [Assistant(final.value.content, [])];
    r := Some(Result(final.value.content, messages, toolResults, iterations + 1, true));
  }

  lemma NoRounds()
    ensures Messages([]) == [] && Results([]) == []
  {
  }

  lemma NoReplies(calls: seq<Call>, results: seq<ToolResult>)
    requires |calls| == |results|
    ensures Replies(calls[..0], results[..0]) == []
  {
  }

  lemma RepliesSnoc(calls: seq<Call>, results: seq<ToolResult>, i: nat)
    requires i < |calls| == |results|
    ensures Replies(calls[..i + 1], results[..i + 1])
         == Replies(calls[..i], results[..i]) + [ToolReply(results[i].rendered, calls[i].id, calls[i].name)]
  {
  }

  /** One unfolding of `Converse`. */
  lemma ConverseStep(q: Request, rounds: seq<Round>, left: nat)
    requires Answered(rounds)
    ensures
      if left == 0 then
        var final := q.model(Shown(q, rounds) + [NUDGE], false);
        Converse(q, rounds, left) == if final.None? then None else Some(Conversation(rounds, final.value.content, true))
      else
        var completion := q.model(Shown(q, rounds), q.toolsOffered);
        if completion.None? then Converse(q, rounds, left) == None
        else if completion.value.calls == [] then
          Converse(q, rounds, left) == Some(Conversation(rounds, completion.value.content, false))
        else
          var next := rounds + [NextRound(q, rounds, completion.value)];
          Answered(next) && Converse(q, rounds, left) == Converse(q, next, left - 1)
  {
  }

  // ---------- The provider's rule ----------

  /** The calls still unanswered after `messages`; none when a message breaks the rule. */
  function Pending(messages: seq<Message>): Option<seq<Call>> {
    if messages == [] then Some([])
    else
      var before := Pending(messages[..|messages| - 1]);
      if before.None? then None
      else
        var pending := before.value;
        match messages[|messages| - 1]
        case ToolReply(_, id, name) =>
          if pending != [] && pending[0].id == id && pending[0].name == name then Some(pending[1..]) else None
        case Assistant(_, calls) => if pending == [] then Some(calls) else None
        case _ => if pending == [] then Some([]) else None
  }

  predicate Grammatical(messages: seq<Message>) {
    Pending(messages) == Some([])
  }

  lemma {:induction false} PendingSnoc(messages: seq<Message>, m: Message)
    requires Pending(messages).Some?
    ensures m.ToolReply? ==>
      var pending := Pending(messages).value;
      Pending(messages + [m]) ==
        if pending != [] && pending[0].id == m.callId && pending[0].name == m.name then Some(pending[1..]) else None
    ensures Grammatical(messages) && m.Assistant? ==> Pending(messages + [m]) == Some(m.calls)
    ensures Grammatical(messages) && (m.System? || m.User?) ==> Grammatical(messages + [m])
  {
    assert (messages + [m])[..|messages|] == messages;
  }

  lemma {:induction false} RepliesPending(messages: seq<Message>, calls: seq<Call>, results: seq<ToolResult>, n: nat)
    requires n <= |calls| == |results| && Pending(messages) == Some(calls)
    ensures Pending(messages + Replies(calls, results)[..n]) == Some(calls[n..])
  {
    hide Pending;
    if n == 0 {
      assert messages + Replies(calls, results)[..0] == messages;
    } else {
      RepliesPending(messages, calls, results, n - 1);
      var front := messages + Replies(calls, results)[..n - 1];
      PendingSnoc(front, Replies(calls, results)[n - 1]);
      assert messages + Replies(calls, results)[..n] == front + [Replies(calls, results)[n - 1]];
    }
  }

  /** A broken rule stays broken. */
  lemma {:induction false} BrokenForGood(messages: seq<Message>, more: seq<Message>)
    requires Pending(messages).None?
    ensures Pending(messages + more).None?
  {
    if more == [] {
      assert messages + more == messages;
    } else {
      var front := more[..|more| - 1];
      BrokenForGood(messages, front);
      assert (messages + more)[..|messages + more| - 1] == messages + front;
    }
  }

  /** What is no answer breaks the rule when an answer is due, or the rule was broken before. */
  lemma {:induction false} BrokenBy(messages: seq<Message>, m: Message)
    requires !Grammatical(messages) && !m.ToolReply?
    ensures Pending(messages + [m]).None?
  {
    assert (messages + [m])[..|messages|] == messages;
  }

  /** A turn that answers all its calls leaves the rule as obeyed, or as broken, as it was. */
  lemma RoundGrammatical(messages: seq<Message>, round: Round)
    requires 0 < |round.calls| == |round.results|
    ensures Grammatical(messages + RoundMessages(round)) <==> Grammatical(messages)
  {
    hide Pending, Replies;
    var asked := messages + [Assistant(round.content, round.calls)];
    var replies := Replies(round.calls, round.results);
    assert messages + RoundMessages(round) == asked + replies;
    if Grammatical(messages) {
      PendingSnoc(messages, Assistant(round.content, round.calls));
      RepliesPending(asked, round.calls, round.results, |round.calls|);
      assert replies[..|round.calls|] == replies;
      assert round.calls[|round.calls|..] == [];
    } else {
      BrokenBy(messages, Assistant(round.content, round.calls));
      BrokenForGood(asked, replies);
    }
  }

  /** So does a message without calls that is no answer. */
  lemma PlainGrammatical(messages: seq<Message>, m: Message)
    requires Plain(m)
    ensures Grammatical(messages + [m]) <==> Grammatical(messages)
  {
    hide Pending;
    if Grammatical(messages) { PendingSnoc(messages, m); } else { BrokenBy(messages, m); }
  }

  predicate Plain(m: Message) {
    m.System? || m.User? || (m.Assistant? && m.calls == [])
  }

  /**
   The loop keeps the provider's rule, exactly: what the model is shown after any number
   of turns, and when it is made to answer, obeys the rule if and only if the system
   prompt and the inputs do.
   */
  lemma {:induction false} ShownGrammatical(q: Request, rounds: seq<Round>)
    requires Answered(rounds)
    ensures Grammatical(Shown(q, rounds)) <==> Grammatical(q.Opening())
    ensures Grammatical(Shown(q, rounds) + [NUDGE]) <==> Grammatical(q.Opening())
  {
    hide Pending, RoundMessages;
    if rounds == [] {
      assert Shown(q, rounds) == q.Opening();
    } else {
      var front, last := rounds[..|rounds| - 1], rounds[|rounds| - 1];
      ShownGrammatical(q, front);
      RoundGrammatical(Shown(q, front), last);
      assert Shown(q, rounds) == Shown(q, front) + RoundMessages(last);
    }
    PlainGrammatical(Shown(q, rounds), NUDGE);
  }

  /**
   A result's messages are the system prompt, the inputs, the turns with their answers,
   and the final answer; at most cap + 1 model calls produced them, the cap being eight
   unless the request names one. They obey the provider's rule if and only if the prompt
   and the inputs do.
   */
  lemma TranscriptGrammar(q: Request)
    requires Converse(q, [], q.Cap()).Some?
    ensures
      var c := Converse(q, [], q.Cap()).value;
      && Answered(c.rounds)
      && ResultOf(q, c).messages == [System(q.systemPrompt)] + q.inputs + Messages(c.rounds) + [Assistant(c.answer, [])]
      && ResultOf(q, c).iterations == |c.rounds| + 1
      && (q.maxIterations == None ==> |c.rounds| <= 8 && (c.exhausted <==> |c.rounds| == 8))
      && (q.maxIterations.Some? && q.maxIterations.value >= 0 ==>
            |c.rounds| <= q.maxIterations.value && (c.exhausted <==> |c.rounds| == q.maxIterations.value))
      && (q.maxIterations.Some? && q.maxIterations.value < 0 ==> c.rounds == [] && c.exhausted)
      && (Grammatical(ResultOf(q, c).messages) <==> Grammatical(q.Opening()))
  {
    ConverseShape(q, [], q.Cap());
    var c := Converse(q, [], q.Cap()).value;
    ShownGrammatical(q, c.rounds);
    PlainGrammatical(Shown(q, c.rounds), Assistant(c.answer, []));
  }

  /** Every result is its tool's answer to its call, made after all calls before it. */
  lemma {:induction false} ResultsAreAnswers(q: Request, i: nat, k: nat)
    requires Converse(q, [], q.Cap()).Some?
    ensures
      var c := Converse(q, [], q.Cap()).value;
      i < |c.rounds| && k < |c.rounds[i].calls| ==>
        && Answered(c.rounds) && k < |c.rounds[i].results|
        && c.rounds[i].results[k] == q.execute(c.rounds[i].calls[k], |Calls(c.rounds[..i])| + k)
  {
    hide Messages, Converse;
    ConverseShape(q, [], q.Cap());
    var c := Converse(q, [], q.Cap()).value;
    if i < |c.rounds| && k < |c.rounds[i].calls| {
      assert Reacts(q, c.rounds, i);
      AsManyResults(c.rounds[..i]);
    }
  }

  lemma {:induction false} AsManyResults(rounds: seq<Round>)
    requires Answered(rounds)
    ensures |Results(rounds)| == |Calls(rounds)|
  {
    if rounds != [] { AsManyResults(rounds[..|rounds| - 1]); }
  }

  // ---------- Persisting the transcript ----------

  datatype Role = UserRow | AssistantRow | ToolRow

  /** A stored message; without a call its id and tool name are empty. */
  datatype Row = Row(role: Role, content: string, callId: string, toolName: string)

  function CallRows(content: string, calls: seq<Call>): (rows: seq<Row>)
    ensures |rows| == |calls|
  {
    seq(|calls|, i requires 0 <= i < |calls| => Row(AssistantRow, content, calls[i].id, calls[i].name))
  }

  function RowsOf(m: Message): seq<Row> {
    match m
    case Assistant(content, calls) => CallRows(content, calls)
    case ToolReply(content, id, name) => [Row(ToolRow, content, id, name)]
    case _ => []
  }

  function Transcript(messages: seq<Message>): seq<Row> {
    if messages == [] then [] else Transcript(messages[..|messages| - 1]) + RowsOf(messages[|messages| - 1])
  }

  lemma TranscriptSnoc(messages: seq<Message>, m: Message)
    ensures Transcript(messages + [m]) == Transcript(messages) + RowsOf(m)
  {
  }

  lemma {:induction false} TranscriptConcat(a: seq<Message>, b: seq<Message>)
    ensures Transcript(a + b) == Transcript(a) + Transcript(b)
  {
    hide RowsOf, Transcript;
    if b == [] {
      NoTranscript();
      assert a + b == a;
    } else {
      var front, last := b[..|b| - 1], b[|b| - 1];
      TranscriptConcat(a, front);
      assert a + b == (a + front) + [last];
      TranscriptSnoc(a + front, last);
      assert b == front + [last];
      TranscriptSnoc(front, last);
    }
  }

  lemma NoTranscript()
    ensures Transcript([]) == []
  {
  }

  lemma NoCalls(content: string)
    ensures CallRows(content, []) == []
  {
  }

  class Conversations {
    var rows: seq<Row>

    constructor ()
      ensures rows == []
    {
      rows := [];
    }

    method Append(row: Row)
      modifies this
      ensures rows == old(rows) + [row]
    {
      rows := rows + [row];
    }

    method PersistCalls(content: string, calls: seq<Call>)
      modifies this
      ensures rows == old(rows) + CallRows(content, calls)
    {
      for k := 0 to |calls|
        invariant rows == old(rows) + CallRows(content, calls)[..k]
      {
        Append(Row(AssistantRow, content, calls[k].id, calls[k].name));
      }
    }

    method PersistTranscript(messages: seq<Message>, inputCount: nat)
      modifies this
      ensures rows == old(rows) + (if inputCount <= |messages| then Transcript(messages[inputCount..]) else [])
    {
      hide Transcript, CallRows;
      var kept := if inputCount <= |messages| then messages[inputCount..] else [];
      NoTranscript();
      assert kept[..0] == [];
      for i := 0 to |kept|
        invariant rows == old(rows) + Transcript(kept[..i])
      {
        var message := kept[i];
        ghost var before := rows;
        TranscriptSnoc(kept[..i], message);
        assert kept[..i + 1] == kept[..i] + [message];
        if message.Assistant? && |message.calls| > 0 {
          PersistCalls(message.content, message.calls);
        } else if message.ToolReply? {
          Append(Row(ToolRow, message.content, message.callId, message.name));
        } else {
          NoCalls(message.content);
        }
        assert rows == before + RowsOf(message);
      }
      assert kept[..|kept|] == kept;
    }
  }

  function RoundRows(round: Round): seq<Row>
    requires |round.calls| == |round.results|
  {
    CallRows(round.content, round.calls) +
    seq(|round.calls|, i requires 0 <= i < |round.calls| =>
      Row(ToolRow, round.results[i].rendered, round.calls[i].id, round.calls[i].name))
  }

  function RowsOfRounds(rounds: seq<Round>): seq<Row>
    requires Answered(rounds)
  {
    if rounds == [] then [] else RowsOfRounds(rounds[..|rounds| - 1]) + RoundRows(rounds[|rounds| - 1])
  }

  lemma {:induction false} RepliesTranscript(calls: seq<Call>, results: seq<ToolResult>, n: nat)
    requires n <= |calls| == |results|
    ensures Transcript(Replies(calls, results)[..n])
         == seq(n, i requires 0 <= i < n => Row(ToolRow, results[i].rendered, calls[i].id, calls[i].name))
  {
    if n > 0 {
      RepliesTranscript(calls, results, n - 1);
      assert Replies(calls, results)[..n] == Replies(calls, results)[..n - 1] + [Replies(calls, results)[n - 1]];
      TranscriptSnoc(Replies(calls, results)[..n - 1], Replies(calls, results)[n - 1]);
    }
  }

  lemma RoundTranscript(round: Round)
    requires |round.calls| == |round.results|
    ensures Transcript(RoundMessages(round)) == RoundRows(round)
  {
    hide Transcript, Replies, CallRows;
    NoTranscript();
    var asked := Assistant(round.content, round.calls);
    TranscriptSnoc([], asked);
    assert [] + [asked] == [asked];
    TranscriptConcat([asked], Replies(round.calls, round.results));
    RepliesTranscript(round.calls, round.results, |round.calls|);
    assert Replies(round.calls, round.results)[..|round.calls|] == Replies(round.calls, round.results);
  }

  lemma {:induction false} MessagesTranscript(rounds: seq<Round>)
    requires Answered(rounds)
    ensures Transcript(Messages(rounds)) == RowsOfRounds(rounds)
  {
    if rounds != [] {
      var front, last := rounds[..|rounds| - 1], rounds[|rounds| - 1];
      MessagesTranscript(front);
      RoundTranscript(last);
      TranscriptConcat(Messages(front), RoundMessages(last));
    }
  }

  lemma SplitAtPrefix<T>(a: seq<T>, b: seq<T>)
    ensures (a + b)[..|a|] == a && (a + b)[|a|..] == b
  {
  }

  /**
   With the use case's input count, persisting a result drops exactly the system prompt
   and the inputs, and stores each turn's calls and then each of its answers; the final
   answer stores nothing here.
   */
  lemma PersistsTheRounds(q: Request, prior: seq<Message>, history: seq<Message>, message: string, c: Conversation)
    requires Answered(c.rounds) && q.inputs == prior + history + [User(message)]
    ensures
      var messages := ResultOf(q, c).messages;
      var inputCount := 2 + |prior| + |history|;
      && inputCount <= |messages| && messages[..inputCount] == q.Opening()
      && Transcript(messages[inputCount..]) == RowsOfRounds(c.rounds)
  {
    var messages := ResultOf(q, c).messages;
    var inputCount := 2 + |prior| + |history|;
    hide Messages, Transcript, RowsOfRounds, Results;
    assert |q.Opening()| == inputCount;
    var rest := Messages(c.rounds) + [Assistant(c.answer, [])];
    assert messages == q.Opening() + rest;
    SplitAtPrefix(q.Opening(), rest);
    TranscriptSnoc(Messages(c.rounds), Assistant(c.answer, []));
    MessagesTranscript(c.rounds);
  }

  function CountRole(rows: seq<Row>, role: Role): nat {
    if rows == [] then 0 else CountRole(rows[..|rows| - 1], role) + (if rows[|rows| - 1].role == role then 1 else 0)
  }

  lemma {:induction false} CountRun(rows: seq<Row>, more: seq<Row>, role: Role)
    requires forall i :: 0 <= i < |more| ==> more[i].role == role
    ensures forall r :: CountRole(rows + more, r) == CountRole(rows, r) + (if r == role then |more| else 0)
  {
    if more == [] {
      assert rows + more == rows;
    } else {
      var front := more[..|more| - 1];
      CountRun(rows, front, role);
      assert (rows + more)[..|rows + more| - 1] == rows + front;
    }
  }

  /** One assistant row per call and one tool row per result, over the whole conversation. */
  lemma {:induction false} OneRowEach(rounds: seq<Round>)
    requires Answered(rounds)
    ensures CountRole(RowsOfRounds(rounds), AssistantRow) == |Calls(rounds)|
    ensures CountRole(RowsOfRounds(rounds), ToolRow) == |Results(rounds)| == |Calls(rounds)|
  {
    if rounds != [] {
      var front, last := rounds[..|rounds| - 1], rounds[|rounds| - 1];
      OneRowEach(front);
      var asked := CallRows(last.content, last.calls);
      var answered := RoundRows(last)[|asked|..];
      CountRun(RowsOfRounds(front), asked, AssistantRow);
      CountRun(RowsOfRounds(front) + asked, answered, ToolRow);
      assert RowsOfRounds(rounds) == RowsOfRounds(front) + asked + answered;
    }
  }
}
