/**
  The event handlers of app.py: the submission pre-check, the request payload
  built from the transcript, the rendering of the reply into the transcript,
  and the max-tokens adjustment on a model change.
 */
module App {
  import opened Wrappers
  import opened MyGpt
  import Config

  /** One row of the chat window: `[user_text, assistant_text]`. */
  datatype Turn = Turn(user: Option<string>, reply: Option<string>)

  /** The whole transcript as it stands at one moment, as sent to the chat window. */
  type Snapshot = seq<Turn>

  /** The chat window's history list, which the handlers update in place. */
  class Transcript {
    var turns: seq<Turn>

    /** A session starts with an empty chat window. */
    constructor ()
      ensures turns == []
    {
      turns := [];
    }
  }

  // ---------------------------------------------------------------------------
  // Submission pre-check

  /**
    `fn_prehandle_user_input`. An empty input raises the warning (`warned`) and
    leaves the transcript alone; any other input appends one pending turn.
   */
  method PrehandleUserInput(userInput: string, chatHistory: Transcript) returns (warned: bool)
    modifies chatHistory
    ensures warned <==> userInput == ""
    ensures warned ==> chatHistory.turns == old(chatHistory.turns)
    ensures !warned ==> chatHistory.turns == old(chatHistory.turns) + [Turn(Some(userInput), None)]
  {
    if userInput == "" {
      return true;
    }
    chatHistory.turns := chatHistory.turns + [Turn(Some(userInput), None)];
    warned := false;
  }

  // ---------------------------------------------------------------------------
  // Request payload

  /** The messages of one turn: user first, then assistant, each only when present. */
  function TurnMessages(t: Turn): seq<Message>
  {
    (if t.user.Some? then [Message(User, t.user.value)] else []) +
    (if t.reply.Some? then [Message(Assistant, t.reply.value)] else [])
  }

  /** The role-tagged messages of a whole transcript, turn by turn. */
  function HistoryMessages(turns: seq<Turn>): seq<Message>
  {
    if turns == [] then [] else HistoryMessages(turns[..|turns| - 1]) + TurnMessages(turns[|turns| - 1])
  }

  /** How many of a turn's two fields are present. */
  function FieldCount(t: Turn): nat
  {
    (if t.user.Some? then 1 else 0) + (if t.reply.Some? then 1 else 0)
  }

  /** How many fields are present across a transcript. */
  function FieldsPresent(turns: seq<Turn>): nat
  {
    if turns == [] then 0 else FieldCount(turns[0]) + FieldsPresent(turns[1..])
  }

  /**
    The `messages` argument `fn_predict` passes on: the bare input while the
    transcript has at most one turn, the whole history otherwise.
   */
  function Payload(userInput: string, turns: seq<Turn>): MessagesArg
  {
    if |turns| <= 1 then Text(userInput) else List(HistoryMessages(turns))
  }

  /** The loop of `fn_predict` that builds the `messages` argument. */
  method BuildMessages(userInput: string, chatHistory: seq<Turn>) returns (messages: MessagesArg)
    ensures messages == Payload(userInput, chatHistory)
  {
    messages := Text(userInput);
    if |chatHistory| > 1 {
      var list: seq<Message> := [];
      for i := 0 to |chatHistory|
        invariant list == HistoryMessages(chatHistory[..i])
      {
        assert chatHistory[..i + 1][..i] == chatHistory[..i];
        var chat := chatHistory[i];
        if chat.user.Some? {
          list := list + [Message(User, chat.user.value)];
        }
        if chat.reply.Some? {
          list := list + [Message(Assistant, chat.reply.value)];
        }
      }
      assert chatHistory[..|chatHistory|] == chatHistory;
      messages := List(list);
    }
  }

  lemma {:induction false} FieldsPresentAppend(a: seq<Turn>, b: seq<Turn>)
    ensures FieldsPresent(a + b) == FieldsPresent(a) + FieldsPresent(b)
  {
    if a != [] {
      assert (a + b)[1..] == a[1..] + b;
      FieldsPresentAppend(a[1..], b);
    } else {
      assert a + b == b;
    }
  }

  /** The history holds one message per present field, no more and no fewer. */
  lemma {:induction false} HistoryMessagesLength(turns: seq<Turn>)
    ensures |HistoryMessages(turns)| == FieldsPresent(turns)
  {
    if turns != [] {
      var n := |turns| - 1;
      HistoryMessagesLength(turns[..n]);
      FieldsPresentAppend(turns[..n], [turns[n]]);
      assert turns[..n] + [turns[n]] == turns;
      assert [turns[n]][1..] == [];
    }
  }

  /** Building the history distributes over concatenation of transcripts. */
  lemma {:induction false} HistoryMessagesAppend(a: seq<Turn>, b: seq<Turn>)
    ensures HistoryMessages(a + b) == HistoryMessages(a) + HistoryMessages(b)
  {
    if b == [] {
      assert a + b == a;
    } else {
      var n := |b| - 1;
      assert (a + b)[..|a + b| - 1] == a + b[..n];
      HistoryMessagesAppend(a, b[..n]);
    }
  }

  /**
    Where each field of turn `i` lands in the history: its user message right
    after the messages of the earlier turns, its assistant message right after
    that, and the messages of later turns after both. Together with
    `HistoryMessagesLength` this fixes the history completely.
   */
  lemma HistoryMessagesAt(turns: seq<Turn>, i: nat)
    requires i < |turns|
    ensures var h, at := HistoryMessages(turns), FieldsPresent(turns[..i]);
            var u := if turns[i].user.Some? then 1 else 0;
            at + FieldCount(turns[i]) == FieldsPresent(turns[..i + 1]) &&
            at + FieldCount(turns[i]) <= |h| &&
            (turns[i].user.Some? ==> h[at] == Message(User, turns[i].user.value)) &&
            (turns[i].reply.Some? ==> h[at + u] == Message(Assistant, turns[i].reply.value))
  {
    assert turns == turns[..i] + [turns[i]] + turns[i + 1..];
    HistoryMessagesAppend(turns[..i] + [turns[i]], turns[i + 1..]);
    HistoryMessagesAppend(turns[..i], [turns[i]]);
    assert HistoryMessages([turns[i]]) == TurnMessages(turns[i]) by {
      assert [turns[i]][..0] == [];
    }
    HistoryMessagesLength(turns[..i]);
    FieldsPresentAppend(turns[..i], [turns[i]]);
    assert turns[..i + 1] == turns[..i] + [turns[i]];
    assert [turns[i]][1..] == [];
  }

  /** With at most one turn the payload is the bare input, whatever that turn holds. */
  lemma ShortHistoryIgnored(userInput: string, t1: seq<Turn>, t2: seq<Turn>)
    requires |t1| <= 1 && |t2| <= 1
    ensures Payload(userInput, t1) == Payload(userInput, t2) == Text(userInput)
  {
  }

  /**
    Composed with `get_response`: on the first turn the client is sent exactly
    one message, a user message holding the input, with the chosen settings.
   */
  lemma FirstTurnSendsOneUserMessage(userInput: string, turns: seq<Turn>, model: string,
                                     maxTokens: int, temperature: Temperature, stream: bool)
    requires |turns| <= 1
    ensures RequestFor(Payload(userInput, turns), model, maxTokens, temperature, stream)
            == Some(Request([Message(User, userInput)], model, maxTokens, stream, temperature))
  {
  }

  /**
    With more than one turn the client is sent the history, one message per
    present field; the payload is never of the rejected kind.
   */
  lemma LongHistorySent(userInput: string, turns: seq<Turn>, model: string,
                        maxTokens: int, temperature: Temperature, stream: bool)
    requires |turns| > 1
    ensures var req := RequestFor(Payload(userInput, turns), model, maxTokens, temperature, stream);
            req.Some? && req.value.messages == HistoryMessages(turns) &&
            |req.value.messages| == FieldsPresent(turns)
  {
    HistoryMessagesLength(turns);
  }

  // ---------------------------------------------------------------------------
  // Rendering the reply

  /** The transcript with the last turn's reply replaced; every other turn as it was. */
  function WithReply(turns: seq<Turn>, reply: Option<string>): (r: seq<Turn>)
    requires |turns| > 0
    ensures |r| == |turns| && r[..|r| - 1] == turns[..|turns| - 1]
    ensures r[|r| - 1].user == turns[|turns| - 1].user && r[|r| - 1].reply == reply
  {
    turns[|turns| - 1 := Turn(turns[|turns| - 1].user, reply)]
  }

  /** The last reply written wins; so replacing it twice with the same text is replacing it once. */
  lemma WithReplyTwice(turns: seq<Turn>, first: Option<string>, second: Option<string>)
    requires |turns| > 0
    ensures WithReply(WithReply(turns, first), second) == WithReply(turns, second)
    ensures WithReply(WithReply(turns, second), second) == WithReply(turns, second)
  {
  }

  /** The fragments of a stream that carry text, in arrival order. */
  function Fragments(deltas: seq<Option<string>>): seq<string>
  {
    if deltas == [] then []
    else Fragments(deltas[..|deltas| - 1]) +
         (if deltas[|deltas| - 1].Some? then [deltas[|deltas| - 1].value] else [])
  }

  /** The fragments joined end to end. */
  function Concat(fs: seq<string>): string
  {
    if fs == [] then "" else Concat(fs[..|fs| - 1]) + fs[|fs| - 1]
  }

  /** The transcripts shown while streaming: one more after each delta that carries text. */
  function StreamSnapshots(turns: seq<Turn>, deltas: seq<Option<string>>): (ss: seq<Snapshot>)
    requires |turns| > 0
    ensures |ss| == |Fragments(deltas)|
  {
    if deltas == [] then []
    else StreamSnapshots(turns, deltas[..|deltas| - 1]) +
         (if deltas[|deltas| - 1].Some? then [WithReply(turns, Some(Concat(Fragments(deltas))))] else [])
  }

  lemma FragmentsSnoc(deltas: seq<Option<string>>, d: Option<string>)
    ensures Fragments(deltas + [d]) == Fragments(deltas) + (if d.Some? then [d.value] else [])
  {
    assert (deltas + [d])[..|deltas|] == deltas;
  }

  lemma ConcatSnoc(fs: seq<string>, f: string)
    ensures Concat(fs + [f]) == Concat(fs) + f
  {
    assert (fs + [f])[..|fs|] == fs;
  }

  lemma {:induction false} ConcatPrefix(fs: seq<string>, i: nat, j: nat)
    requires i <= j <= |fs|
    ensures Concat(fs[..i]) <= Concat(fs[..j])
  {
    if i < j {
      ConcatPrefix(fs, i, j - 1);
      assert fs[..j][..j - 1] == fs[..j - 1];
    }
  }

  /** Snapshot `k` shows the reply made of the first `k + 1` fragments with text. */
  lemma {:induction false} StreamSnapshotAt(turns: seq<Turn>, deltas: seq<Option<string>>, k: nat)
    requires |turns| > 0 && k < |Fragments(deltas)|
    ensures StreamSnapshots(turns, deltas)[k] == WithReply(turns, Some(Concat(Fragments(deltas)[..k + 1])))
  {
    var n := |deltas| - 1;
    var init := deltas[..n];
    assert deltas == init + [deltas[n]];
    FragmentsSnoc(init, deltas[n]);
    var fs, gs := Fragments(init), Fragments(deltas);
    if k < |fs| {
      StreamSnapshotAt(turns, init, k);
      assert gs[..k + 1] == fs[..k + 1];
    } else {
      assert gs[..k + 1] == gs;
    }
  }

  /** There is one snapshot per fragment with text, and each reply shown extends the one before. */
  lemma StreamSnapshotsGrow(turns: seq<Turn>, deltas: seq<Option<string>>, k: nat)
    requires |turns| > 0 && k + 1 < |Fragments(deltas)|
    ensures var ss, n := StreamSnapshots(turns, deltas), |turns| - 1;
            |ss[k]| == |ss[k + 1]| == |turns| && ss[k][n].reply.Some? && ss[k + 1][n].reply.Some? &&
            ss[k][n].reply.value <= ss[k + 1][n].reply.value
  {
    StreamSnapshotAt(turns, deltas, k);
    StreamSnapshotAt(turns, deltas, k + 1);
    ConcatPrefix(Fragments(deltas), k + 1, k + 2);
  }

  /** Every snapshot shows the earlier turns and the last turn's user text as they were. */
  lemma StreamSnapshotsKeepEarlierTurns(turns: seq<Turn>, deltas: seq<Option<string>>, k: nat)
    requires |turns| > 0 && k < |Fragments(deltas)|
    ensures var s, n := StreamSnapshots(turns, deltas)[k], |turns| - 1;
            |s| == |turns| && s[..n] == turns[..n] && s[n].user == turns[n].user
  {
    StreamSnapshotAt(turns, deltas, k);
  }

  /** The last snapshot shows the whole reply: every fragment with text, in arrival order. */
  lemma StreamSnapshotsLast(turns: seq<Turn>, deltas: seq<Option<string>>)
    requires |turns| > 0 && |Fragments(deltas)| > 0
    ensures var ss := StreamSnapshots(turns, deltas);
            ss[|ss| - 1] == WithReply(turns, Some(Concat(Fragments(deltas))))
  {
    var fs := Fragments(deltas);
    StreamSnapshotAt(turns, deltas, |fs| - 1);
    assert fs[..|fs|] == fs;
  }

  /**
    The streaming branch of `fn_predict`: the reply starts empty, each fragment
    with text is appended and the transcript shown after it.
   */
  method RenderStream(chatHistory: Transcript, deltas: seq<Option<string>>) returns (snapshots: seq<Snapshot>)
    requires |chatHistory.turns| > 0
    modifies chatHistory
    ensures chatHistory.turns == WithReply(old(chatHistory.turns), Some(Concat(Fragments(deltas))))
    ensures snapshots == StreamSnapshots(old(chatHistory.turns), deltas)
  {
    ghost var before := chatHistory.turns;
    var last := |chatHistory.turns| - 1;
    chatHistory.turns := chatHistory.turns[last := Turn(chatHistory.turns[last].user, Some(""))];
    snapshots := [];
    for i := 0 to |deltas|
      invariant chatHistory.turns == WithReply(before, Some(Concat(Fragments(deltas[..i]))))
      invariant snapshots == StreamSnapshots(before, deltas[..i])
    {
      assert deltas[..i + 1] == deltas[..i] + [deltas[i]];
      FragmentsSnoc(deltas[..i], deltas[i]);
      var characterContent := deltas[i];
      if characterContent.Some? {
        ConcatSnoc(Fragments(deltas[..i]), characterContent.value);
        ghost var acc := Concat(Fragments(deltas[..i]));
        WithReplyTwice(before, Some(acc), Some(acc + characterContent.value));
        chatHistory.turns := chatHistory.turns[last := Turn(chatHistory.turns[last].user,
                              Some(chatHistory.turns[last].reply.value + characterContent.value))];
        snapshots := snapshots + [chatHistory.turns];
      } else {
        assert Fragments(deltas[..i + 1]) == Fragments(deltas[..i]);
      }
    }
    assert deltas[..|deltas|] == deltas;
  }

  /** The non-streaming branch of `fn_predict`: the reply is overwritten and shown once. */
  method RenderFull(chatHistory: Transcript, botResponse: Option<string>) returns (snapshots: seq<Snapshot>)
    requires |chatHistory.turns| > 0
    modifies chatHistory
    ensures chatHistory.turns == WithReply(old(chatHistory.turns), botResponse)
    ensures snapshots == [chatHistory.turns]
  {
    var last := |chatHistory.turns| - 1;
    chatHistory.turns := chatHistory.turns[last := Turn(chatHistory.turns[last].user, botResponse)];
    snapshots := [chatHistory.turns];
  }

  /**
    `fn_predict`, a generator: `snapshots` is what it yields. An empty input
    yields nothing and changes nothing; otherwise the reply of `get_response`
    for the payload is rendered into the last turn.
   */
  method Predict(client: Client, userInput: string, chatHistory: Transcript, model: string,
                 maxTokens: int, temperature: Temperature, stream: bool) returns (snapshots: seq<Snapshot>)
    requires userInput != "" ==> |chatHistory.turns| > 0
    modifies chatHistory
    ensures userInput == "" ==> snapshots == [] && chatHistory.turns == old(chatHistory.turns)
    ensures userInput != "" ==>
              var botResponse := GetResponse(client, Payload(userInput, old(chatHistory.turns)),
                                             model, maxTokens, temperature, stream);
              if stream then
                chatHistory.turns == WithReply(old(chatHistory.turns),
                                               Some(Concat(Fragments(botResponse.completion.deltas)))) &&
                snapshots == StreamSnapshots(old(chatHistory.turns), botResponse.completion.deltas)
              else
                chatHistory.turns == WithReply(old(chatHistory.turns), botResponse.content) &&
                snapshots == [chatHistory.turns]
  {
    if userInput == "" {
      return [];
    }
    var messages := BuildMessages(userInput, chatHistory.turns);
    var botResponse := GetResponse(client, messages, model, maxTokens, temperature, stream);
    if stream {
      snapshots := RenderStream(chatHistory, botResponse.completion.deltas);
    } else {
      snapshots := RenderFull(chatHistory, botResponse.content);
    }
  }

  // ---------------------------------------------------------------------------
  // Max-tokens adjustment

  /** The value the token slider falls back to when it exceeds the new ceiling. */
  const DefaultSetTokens: int := 1000

  /** The `maximum` and `value` of the token slider built by `fn_update_max_tokens`. */
  datatype TokenSetting = TokenSetting(maximum: int, value: int)

  /**
    `fn_update_max_tokens`: the ceiling of a known model, the old value
    otherwise; the old value is kept when within the ceiling and reset to the
    default otherwise, so the value never exceeds the ceiling.
   */
  function UpdateMaxTokens(model: string, originSetTokens: int): (r: TokenSetting)
    ensures model in Config.ModelToMaxTokens ==> r.maximum == Config.ModelToMaxTokens[model]
    ensures model !in Config.ModelToMaxTokens ==> r.maximum == originSetTokens && r.value == originSetTokens
    ensures r.value == originSetTokens || r.value == DefaultSetTokens
    ensures r.value == originSetTokens <==> originSetTokens <= r.maximum
    ensures r.value <= r.maximum
  {
    var found := Get(Config.ModelToMaxTokens, model);
    // a missing entry and a zero entry are both falsy
    var newMaxTokens := if found.Some? && found.value != 0 then found.value else originSetTokens;
    var newSetTokens := if originSetTokens <= newMaxTokens then originSetTokens else DefaultSetTokens;
    TokenSetting(newMaxTokens, newSetTokens)
  }

  /** Re-selecting the same model leaves the slider as it is. */
  lemma UpdateMaxTokensIdempotent(model: string, originSetTokens: int)
    ensures var r := UpdateMaxTokens(model, originSetTokens);
            UpdateMaxTokens(model, r.value) == r
  {
  }

  /** The worked cases: a value over the ceiling is reset, one under it is kept. */
  lemma UpdateMaxTokensExamples()
    ensures UpdateMaxTokens("gpt-4-turbo", 5000) == TokenSetting(4096, 1000)
    ensures UpdateMaxTokens("gpt-4-turbo", 500) == TokenSetting(4096, 500)
    ensures UpdateMaxTokens("gpt-4", 5000) == TokenSetting(8192, 5000)
    ensures UpdateMaxTokens("unknown-model", 5000) == TokenSetting(5000, 5000)
  {
  }
}
