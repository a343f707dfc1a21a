/**
 What a persisted turn leaves in working memory (agent/loop.py) and in the next context (agent/context.py): the user's
 message, the model's answer, and the tool turns.
 */
module Records {
  import opened Types
  import opened Text
  import opened OrderedDict
  import opened Sessions
  import opened WorkingMemories
  import opened Budgeter
  import opened ContextBuilding
  import opened Conversations

  /** The answers, one a line, without the white space around them. */
  ghost predicate IsAnswer(text: string, texts: seq<string>) {
    && Solids(text) == AllSolids(texts) && text != "" && Trimmed(text)
    && exists front: string, back: string :: Around(texts, text, front, back)
  }

  predicate Around(texts: seq<string>, text: string, front: string, back: string) {
    Join(texts, "\n") == front + text + back && Blank(front) && Blank(back)
  }

  predicate PlainTurn(turn: Turn, role: Role, at: real) {
    turn.role == role && turn.toolCalls == [] && turn.toolCallId == None && turn.ts == at
  }

  ghost predicate SaysWhat(record: seq<Turn>, userMessage: string, texts: seq<string>, toolTurns: seq<Turn>, at: real) {
    && record != [] && PlainTurn(record[0], User, at) && record[0].text == userMessage
    && if AllSolids(texts) == "" then record[1..] == toolTurns
       else |record| > 1 && PlainTurn(record[1], Assistant, at) && IsAnswer(record[1].text, texts)
            && record[2..] == toolTurns
  }

  /**
   A record is the user's message; then, if and only if some answer has a character that is not white space, one
   assistant turn with exactly those characters of the answers; then the tool turns.
   */
  lemma RecordSays(userMessage: string, texts: seq<string>, toolTurns: seq<Turn>, at: real)
    ensures SaysWhat(RecordOf(userMessage, texts, toolTurns, at), userMessage, texts, toolTurns, at)
  {
    hide Join, Strip, Trimmed;
    var joined := Join(texts, "\n");
    var front, back := StripIs(joined);
    SolidsJoin(texts);
    SolidsBlankIff(joined);
    if AllSolids(texts) != "" {
      assert Around(texts, Strip(joined), front, back);
    }
  }

  lemma {:induction false} AnySolidIff(texts: seq<string>)
    ensures AllSolids(texts) != "" <==> exists i :: 0 <= i < |texts| && !Blank(texts[i])
  {
    if texts != [] {
      AnySolidIff(texts[1..]);
      SolidsBlankIff(texts[0]);
      assert forall i :: 1 <= i < |texts| ==> texts[i] == texts[1..][i - 1];
      if AllSolids(texts[1..]) != "" {
        var i :| 0 <= i < |texts[1..]| && !Blank(texts[1..][i]);
        assert !Blank(texts[i + 1]);
      }
    }
  }

  /** After the persist of a turn of a live session its buffer has grown by just such a record. */
  lemma PersistSays(d: Table, id: string, userMessage: string, texts: seq<string>, toolTurns: seq<Turn>, now: real)
    requires Get(d, id).Some?
    ensures var after := AppendAll(d, id, RecordOf(userMessage, texts, toolTurns, now), now);
            && after.1 && Get(after.0, id).Some?
            && var buffer, grown := Get(d, id).value.workingBuffer, Get(after.0, id).value.workingBuffer;
               buffer <= grown && SaysWhat(grown[|buffer|..], userMessage, texts, toolTurns, now)
  {
    hide AppendAll, RecordOf, SaysWhat;
    var record := RecordOf(userMessage, texts, toolTurns, now);
    RecordSays(userMessage, texts, toolTurns, now);
    AppendAllAdds(d, id, record, now);
    var buffer := Get(d, id).value.workingBuffer;
    assert (buffer + record)[|buffer|..] == record;
  }

  /** The messages of a turn that said something: what the user said, directly followed by the answer. */
  ghost predicate Exchange(messages: seq<Message>, userMessage: string, texts: seq<string>) {
    exists i :: 0 <= i < |messages| - 1 && ExchangeAt(messages, i, userMessage, texts)
  }

  ghost predicate ExchangeAt(messages: seq<Message>, i: nat, userMessage: string, texts: seq<string>)
    requires i < |messages| - 1
  {
    && messages[i] == UserMessage(userMessage)
    && messages[i + 1].AssistantMessage? && IsAnswer(messages[i + 1].text, texts)
  }

  /** A buffer that fits is taken whole. */
  lemma WholeBuffer(inputs: BudgetInputs, budget: int)
    requires Allocation(inputs, budget).Some?
    requires var r := Allocation(inputs, budget).value;
             Tier0(inputs) + Estimate(r.factualBlock) + Estimate(r.summary) + Tokens(inputs.buffer) <= budget
    ensures Allocation(inputs, budget).value.buffer == inputs.buffer
  {
    hide Allocation, Tokens, Estimate;
    assert inputs.buffer[0..] == inputs.buffer;
    KeepsLongestBuffer(inputs, budget, 0);
  }

  /**
   So the next context built from the buffer, if the whole buffer fits, has the user's message followed by the answer.
   */
  lemma AnswerIsSent(cfg: AgentConfig, s: Sources, tokens: int, d: Table, id: string, userMessage: string,
      texts: seq<string>,
      toolTurns: seq<Turn>, now: real)
    requires Get(d, id).Some? && AllSolids(texts) != ""
    requires var after := AppendAll(d, id, RecordOf(userMessage, texts, toolTurns, now), now).0;
             Get(after, id).Some? && s.buffer == Get(after, id).value.workingBuffer
    requires Allocation(InputsOf(cfg, s), tokens).Some?
    requires var r := Allocation(InputsOf(cfg, s), tokens).value;
             Tier0(InputsOf(cfg, s)) + Estimate(r.factualBlock) + Estimate(r.summary) + Tokens(s.buffer) <= tokens
    ensures Exchange(Assembled(cfg, s, Allocation(InputsOf(cfg, s), tokens).value), userMessage, texts)
  {
    hide AppendAll, RecordOf, Allocation, Tier0, Tokens, Estimate, IsAnswer;
    var r := Allocation(InputsOf(cfg, s), tokens).value;
    PersistSays(d, id, userMessage, texts, toolTurns, now);
    WholeBuffer(InputsOf(cfg, s), tokens);
    var n := |Get(d, id).value.workingBuffer|;
    var record, messages := s.buffer[n..], Assembled(cfg, s, r);
    assert r.buffer[n] == record[0] && r.buffer[n + 1] == record[1];
    assert messages[n + 1] == TurnToMessage(record[0]) && messages[n + 2] == TurnToMessage(record[1]);
    assert ExchangeAt(messages, n + 1, userMessage, texts);
  }
}
