/**
 Chat sessions: what the use case stores of one request, and what it shows the model of
 it in the next.

 Stored assistant rows lose their calls when they are loaded again, while tool rows come
 back as answers. So a tool turn within the rows that are loaded makes the next request
 one the provider refuses; this module says exactly when, and for how long.
 */
module Sessions {
  import opened Prelude
  import opened ToolLoop

  /** How many rows `recent` loads. */
  const HISTORY_LIMIT: nat := 40

  /** How many user turns are shown beside a mandatory live check. */
  const PREFLIGHT_TURNS: nat := 6

  function Last<T>(s: seq<T>, n: nat): seq<T> {
    if |s| <= n then s else s[|s| - n..]
  }

  /** A row as the use case shows it again: nothing gives an assistant row its calls back. */
  function Reloaded(row: Row): Message {
    match row.role
    case UserRow => User(row.content)
    case AssistantRow => Assistant(row.content, [])
    case ToolRow => ToolReply(row.content, row.callId, row.toolName)
  }

  function Reload(rows: seq<Row>): (messages: seq<Message>)
    ensures |messages| == |rows|
  {
    seq(|rows|, i requires 0 <= i < |rows| => Reloaded(rows[i]))
  }

  function UserTurns(messages: seq<Message>): (turns: seq<Message>)
    ensures forall i :: 0 <= i < |turns| ==> turns[i].User?
    ensures forall m :: m in messages && m.User? <==> m in turns
  {
    if messages == [] then []
    else
      var last := messages[|messages| - 1];
      UserTurns(messages[..|messages| - 1]) + (if last.User? then [last] else [])
  }

  /** The turns shown before the new message: all of them, or with a live check the user's latest only. */
  function Kept(messages: seq<Message>, preflight: bool): seq<Message> {
    if preflight then Last(UserTurns(messages), PREFLIGHT_TURNS) else messages
  }

  function History(rows: seq<Row>): seq<Message> {
    Reload(Last(rows, HISTORY_LIMIT))
  }

  /** What a request shows the model besides the system prompt. */
  function Inputs(rows: seq<Row>, prior: seq<Message>, message: string, preflight: bool): seq<Message> {
    Kept(prior, preflight) + Kept(History(rows), preflight) + [User(message)]
  }

  function UserTurn(message: string): Row {
    Row(UserRow, message, "", "")
  }

  function AnswerRow(answer: string): Row {
    Row(AssistantRow, answer, "", "")
  }

  /** A session after a request that was answered. */
  function Stored(rows: seq<Row>, message: string, rounds: seq<Round>, answer: string): seq<Row>
    requires Answered(rounds)
  {
    rows + [UserTurn(message)] + RowsOfRounds(rounds) + [AnswerRow(answer)]
  }

  // ---------- The use case ----------

  /**
   One request of a stored session. The history is loaded before the message is stored;
   when the loop throws, only the message has been. `review` stands for what the use case
   makes of the loop's result before it stores the answer.
   */
  method Respond(log: Conversations, q: Request, prior: seq<Message>, message: string, preflight: bool,
                 review: Result -> string)
    returns (content: Option<string>)
    requires q.inputs == Inputs(log.rows, prior, message, preflight)
    modifies log
    ensures Converse(q, [], q.Cap()).None? ==>
      content == None && log.rows == old(log.rows) + [Row(UserRow, message, "", "")]
    ensures Converse(q, [], q.Cap()).Some? ==>
      var c := Converse(q, [], q.Cap()).value;
      && Answered(c.rounds) && content == Some(review(ResultOf(q, c)))
      && log.rows == Stored(old(log.rows), message, c.rounds, review(ResultOf(q, c)))
      && log.rows == old(log.rows) + [Row(UserRow, message, "", "")] + RowsOfRounds(c.rounds)
                       + [Row(AssistantRow, content.value, "", "")]
  {
    hide Converse, Transcript, RowsOfRounds, Messages, Results, History, Kept;
    var promptPrior, promptHistory := Kept(prior, preflight), Kept(History(log.rows), preflight);
    log.Append(UserTurn(message));
    var result := Run(q);
    if result.None? { return None; }
    ghost var c := Converse(q, [], q.Cap()).value;
    PersistsTheRounds(q, promptPrior, promptHistory, message, c);
    log.PersistTranscript(result.value.messages, 2 + |promptPrior| + |promptHistory|);
    log.Append(AnswerRow(review(result.value)));
    content := Some(review(result.value));
  }

  /** Beside a live check the latest six user turns are shown, and nothing else. */
  lemma {:induction false} KeptTurns(messages: seq<Message>) returns (j: nat)
    ensures j <= |messages| && Kept(messages, true) == UserTurns(messages[j..])
    ensures |Kept(messages, true)| <= 6 && (j == 0 || |Kept(messages, true)| == 6)
  {
    hide UserTurns;
    j := 0;
    assert messages[0..] == messages;
    if |UserTurns(messages)| > 6 {
      NoTurns();
      UserTurnsFront(messages);
      var rest := KeptTurns(messages[1..]);
      LastOfMore(UserTurns(messages), UserTurns(messages[1..]), 6);
      j := rest + 1;
      assert messages[1..][rest..] == messages[j..];
    }
  }

  lemma NoTurns()
    ensures UserTurns([]) == []
  {
  }

  lemma LastOfMore<T>(s: seq<T>, t: seq<T>, n: nat)
    requires |t| >= n && (s == t || (|s| == |t| + 1 && s[1..] == t))
    ensures Last(s, n) == Last(t, n)
  {
    if s != t { assert forall i :: 0 <= i < |t| ==> s[i + 1] == s[1..][i]; }
  }

  function TurnOf(m: Message): seq<Message> {
    if m.User? then [m] else []
  }

  lemma LastTurn(messages: seq<Message>)
    requires messages != []
    ensures UserTurns(messages) == UserTurns(messages[..|messages| - 1]) + TurnOf(messages[|messages| - 1])
  {
  }

  lemma {:induction false} UserTurnsFront(messages: seq<Message>)
    requires messages != []
    ensures UserTurns(messages) == TurnOf(messages[0]) + UserTurns(messages[1..])
  {
    hide UserTurns, TurnOf;
    var front, rest := messages[..|messages| - 1], messages[1..];
    var first, last := TurnOf(messages[0]), TurnOf(messages[|messages| - 1]);
    LastTurn(messages);
    if rest == [] {
      NoTurns();
      assert front == [] && [] + last == last + [];
    } else {
      UserTurnsFront(front);
      LastTurn(rest);
      assert front[1..] == rest[..|rest| - 1];
      Associates(first, UserTurns(front[1..]), last);
    }
  }

  lemma Associates<T>(a: seq<T>, b: seq<T>, c: seq<T>)
    ensures a + b + c == a + (b + c)
  {
  }

  // ---------- Which requests the provider accepts ----------

  predicate NoToolRow(rows: seq<Row>) {
    forall i :: 0 <= i < |rows| ==> !rows[i].role.ToolRow?
  }

  predicate AllPlain(messages: seq<Message>) {
    forall i :: 0 <= i < |messages| ==> Plain(messages[i])
  }

  lemma {:induction false} AllPlainGrammatical(opening: seq<Message>, messages: seq<Message>)
    requires AllPlain(messages)
    ensures Grammatical(opening + messages) <==> Grammatical(opening)
  {
    hide Pending, Plain;
    if messages == [] {
      assert opening + messages == opening;
    } else {
      var front, last := messages[..|messages| - 1], messages[|messages| - 1];
      AllPlainGrammatical(opening, front);
      PlainGrammatical(opening + front, last);
      assert opening + messages == opening + front + [last];
    }
  }

  /** After an opening that obeys the rule, reloaded rows obey it exactly if no tool row is among them. */
  lemma {:induction false} ReloadGrammatical(opening: seq<Message>, rows: seq<Row>)
    requires Grammatical(opening)
    ensures Pending(opening + Reload(rows)) == if NoToolRow(rows) then Some([]) else None
  {
    hide Pending;
    if rows == [] {
      assert opening + Reload(rows) == opening;
    } else {
      var front, last := rows[..|rows| - 1], rows[|rows| - 1];
      ReloadGrammatical(opening, front);
      assert opening + Reload(rows) == opening + Reload(front) + [Reloaded(last)];
      assert NoToolRow(rows) <==> NoToolRow(front) && !last.role.ToolRow?;
      if NoToolRow(front) {
        PendingSnoc(opening + Reload(front), Reloaded(last));
      } else {
        BrokenForGood(opening + Reload(front), [Reloaded(last)]);
      }
    }
  }

  lemma KeptIsPlain(messages: seq<Message>, preflight: bool)
    requires preflight || AllPlain(messages)
    ensures AllPlain(Kept(messages, preflight))
  {
  }

  /**
   Exactly which requests of a session are well-formed, every one of the loop's and the
   forced last one: those with a mandatory live check, and those whose forty latest rows
   hold no tool row. `prior` has no calls: it is what a client sent of its own history.
   */
  lemma RequestsWellFormedExactly(q: Request, rows: seq<Row>, prior: seq<Message>, message: string, preflight: bool,
                                  rounds: seq<Round>)
    requires q.inputs == Inputs(rows, prior, message, preflight) && AllPlain(prior) && Answered(rounds)
    ensures Grammatical(Shown(q, rounds)) <==> preflight || NoToolRow(Last(rows, 40))
    ensures Grammatical(Shown(q, rounds) + [NUDGE]) <==> preflight || NoToolRow(Last(rows, 40))
  {
    hide Pending, Kept, Plain, Shown;
    ShownGrammatical(q, rounds);
    OpeningWellFormedExactly(q, rows, prior, message, preflight);
  }

  lemma OpeningWellFormedExactly(q: Request, rows: seq<Row>, prior: seq<Message>, message: string, preflight: bool)
    requires q.inputs == Inputs(rows, prior, message, preflight) && AllPlain(prior)
    ensures Grammatical(q.Opening()) <==> preflight || NoToolRow(Last(rows, HISTORY_LIMIT))
  {
    hide Pending, Kept, Last, UserTurns;
    var front := [System(q.systemPrompt)] + Kept(prior, preflight);
    var history := Kept(History(rows), preflight);
    assert q.Opening() == front + history + [User(message)];
    PlainGrammatical(front + history, User(message));
    KeptIsPlain(prior, preflight);
    AllPlainGrammatical([System(q.systemPrompt)], Kept(prior, preflight));
    PromptGrammatical(q.systemPrompt);
    if preflight {
      KeptIsPlain(History(rows), preflight);
      AllPlainGrammatical(front, history);
    } else {
      AllKept(History(rows));
      ReloadGrammatical(front, Last(rows, HISTORY_LIMIT));
    }
  }

  lemma AllKept(messages: seq<Message>)
    ensures Kept(messages, false) == messages
  {
  }

  lemma PromptGrammatical(prompt: string)
    ensures Grammatical([System(prompt)])
  {
    PlainGrammatical([], System(prompt));
    assert [] + [System(prompt)] == [System(prompt)];
  }

  // ---------- How long a tool turn stays in the way ----------

  /** Rows after a tool row push it out of the latest `n` exactly when they are `n` themselves. */
  lemma ToolRowAges(rows: seq<Row>, more: seq<Row>, n: nat)
    requires rows != [] && rows[|rows| - 1].role.ToolRow? && NoToolRow(more)
    ensures NoToolRow(Last(rows + more, n)) <==> |more| >= n
  {
    var all := rows + more;
    if |more| < n {
      var latest := Last(all, n);
      assert latest[|latest| - 1 - |more|] == all[|rows| - 1];
    } else if |all| > n {
      forall i | 0 <= i < n
        ensures !Last(all, n)[i].role.ToolRow?
      {
        assert Last(all, n)[i] == more[|more| - n + i];
      }
    }
  }

  lemma RoundsEndInTool(rounds: seq<Round>)
    requires Answered(rounds) && rounds != []
    ensures RowsOfRounds(rounds) != [] && RowsOfRounds(rounds)[|RowsOfRounds(rounds)| - 1].role.ToolRow?
  {
    var last := rounds[|rounds| - 1];
    var answered := RoundRows(last);
    assert answered[|answered| - 1].role.ToolRow?;
  }

  function UserRows(messages: seq<string>): (rows: seq<Row>)
    ensures |rows| == |messages| && NoToolRow(rows)
  {
    seq(|messages|, i requires 0 <= i < |messages| => UserTurn(messages[i]))
  }

  /**
   After an answered request, and however many failed ones that stored their message only,
   the rows loaded next hold no tool row exactly when the answer used no tool and none was
   loaded before, or that many requests have failed since: thirty-nine, with the limit of
   forty.
   */
  lemma ToolTurnBlocks(rows: seq<Row>, message: string, rounds: seq<Round>, answer: string, failed: seq<string>)
    requires Answered(rounds)
    ensures
      var later := Stored(rows, message, rounds, answer) + UserRows(failed);
      NoToolRow(Last(later, HISTORY_LIMIT)) <==>
        if rounds == [] then |failed| + 2 >= HISTORY_LIMIT || NoToolRow(Last(rows, HISTORY_LIMIT - 2 - |failed|))
        else |failed| >= HISTORY_LIMIT - 1
  {
    hide RowsOfRounds, Last;
    var after := [AnswerRow(answer)] + UserRows(failed);
    if rounds == [] {
      var more := [UserTurn(message)] + after;
      assert RowsOfRounds(rounds) == [] by { NoRoundRows(); }
      assert Stored(rows, message, rounds, answer) + UserRows(failed) == rows + more;
      ToolsOfEarlier(rows, more, HISTORY_LIMIT);
    } else {
      RoundsEndInTool(rounds);
      var front := rows + [UserTurn(message)] + RowsOfRounds(rounds);
      assert Stored(rows, message, rounds, answer) + UserRows(failed) == front + after;
      ToolRowAges(front, after, HISTORY_LIMIT);
    }
  }

  lemma NoRoundRows()
    ensures RowsOfRounds([]) == []
  {
  }

  lemma ToolsOfEarlier(rows: seq<Row>, more: seq<Row>, n: nat)
    requires NoToolRow(more)
    ensures NoToolRow(Last(rows + more, n)) <==> |more| >= n || NoToolRow(Last(rows, n - |more|))
  {
    var all := rows + more;
    if |more| >= n {
      assert forall i :: 0 <= i < |Last(all, n)| ==> Last(all, n)[i] == more[|more| - n + i];
    } else {
      var earlier := Last(rows, n - |more|);
      assert Last(all, n) == earlier + more;
      if NoToolRow(Last(all, n)) {
        assert forall i :: 0 <= i < |earlier| ==> earlier[i] == Last(all, n)[i];
      }
    }
  }

  /** A provider that refuses malformed requests. */
  ghost predicate Refuses(model: (seq<Message>, bool) -> Option<Completion>) {
    forall messages, offered :: !Grammatical(messages) ==> model(messages, offered).None?
  }

  /** With such a provider a malformed opening fails the whole request, before any tool runs. */
  lemma MalformedRequestFails(q: Request)
    requires Refuses(q.model) && !Grammatical(q.Opening())
    ensures Converse(q, [], q.Cap()).None?
  {
    hide Grammatical;
    NoRounds();
    assert Shown(q, []) == q.Opening();
    ShownGrammatical(q, []);
  }

  /**
   So with such a provider a session is blocked after every answer that used a tool: the
   next thirty-nine requests without a live check all fail, whatever they ask, as each
   stores nothing but its message; no request fails for this reason after that.
   */
  lemma SessionBlocked(q: Request, rows: seq<Row>, message: string, rounds: seq<Round>, answer: string,
                       failed: seq<string>, next: string)
    requires Answered(rounds) && rounds != [] && Refuses(q.model)
    requires q.inputs == Inputs(Stored(rows, message, rounds, answer) + UserRows(failed), [], next, false)
    ensures Grammatical(q.Opening()) <==> |failed| >= 39
    ensures |failed| < 39 ==> Converse(q, [], q.Cap()).None?
  {
    hide Pending, Converse, Stored, Last, Inputs;
    var later := Stored(rows, message, rounds, answer) + UserRows(failed);
    ToolTurnBlocks(rows, message, rounds, answer, failed);
    OpeningWellFormedExactly(q, later, [], next, false);
    if |failed| < HISTORY_LIMIT - 1 { MalformedRequestFails(q); }
  }
}
