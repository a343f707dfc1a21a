/** Assembling the budgeted sources into the provider's messages (agent/context.py). */
module ContextBuilding {
  import opened Types
  import opened Text
  import opened Sequences
  import opened WorkingMemories
  import opened Budgeter

  datatype AgentConfig = AgentConfig(systemPrompt: string, factualHeader: string, episodicHeader: string,
      summaryHeader: string)

  /** All that one build gathers before budgeting; the facts are already rendered as text. */
  datatype Sources = Sources(
    dynamicText: string,
    skillsBlock: string,
    toolText: string,
    facts: seq<(string, string)>,
    buffer: seq<Turn>,
    summary: string,
    hits: seq<MemoryHit>,
    userMessage: string)

  function FactLines(facts: seq<(string, string)>): seq<string> {
    if facts == [] then [] else ["- " + facts[0].0 + ": " + facts[0].1] + FactLines(facts[1..])
  }

  function FormatFactual(facts: seq<(string, string)>, header: string): string {
    if facts == [] then "" else header + "\n" + Join(FactLines(facts), "\n")
  }

  function HitLines(hits: seq<MemoryHit>): seq<string> {
    if hits == [] then [] else ["- " + hits[0].point.payload.text] + HitLines(hits[1..])
  }

  function FormatEpisodic(hits: seq<MemoryHit>, header: string): string {
    if hits == [] then "" else header + "\n" + Join(HitLines(hits), "\n")
  }

  function SystemFixed(cfg: AgentConfig, dynamicText: string, skillsBlock: string): string {
    cfg.systemPrompt
    + (if dynamicText != "" then "\n\n" + dynamicText else "")
    + (if skillsBlock != "" then "\n\n" + skillsBlock else "")
  }

  function Part(part: string): seq<string> {
    if part != "" then [part] else []
  }

  /** The system message: identity first, then every part that is not empty. */
  function ComposeSystem(cfg: AgentConfig, dynamicText: string, skillsBlock: string, factual: string, episodic: string,
      summary: string)
    : string
  {
    Join([cfg.systemPrompt] + Part(dynamicText) + Part(skillsBlock) + Part(factual) + Part(episodic)
         + (if summary != "" then [cfg.summaryHeader + "\n" + summary] else []), "\n\n")
  }

  function TurnToMessage(turn: Turn): Message {
    match turn.role
    case Assistant =>
      if turn.toolCalls != [] then AssistantToolCalls(turn.toolCalls, if turn.text != "" then Some(turn.text) else None)
      else AssistantMessage(turn.text)
    case Tool => ToolResultMessage(if turn.toolCallId.Some? then turn.toolCallId.value else "", turn.text)
    case User => UserMessage(turn.text)
  }

  function TurnsToMessages(turns: seq<Turn>): (messages: seq<Message>)
    ensures |messages| == |turns|
    ensures forall i :: 0 <= i < |turns| ==> messages[i] == TurnToMessage(turns[i])
  {
    seq(|turns|, i requires 0 <= i < |turns| => TurnToMessage(turns[i]))
  }

  function InputsOf(cfg: AgentConfig, s: Sources): BudgetInputs {
    BudgetInputs(SystemFixed(cfg, s.dynamicText, s.skillsBlock), s.userMessage, s.toolText,
                 FormatFactual(s.facts, cfg.factualHeader), s.buffer, s.summary, s.hits)
  }

  /** The messages from an allocation. The factual block is rendered again, not taken from the allocation. */
  function Assembled(cfg: AgentConfig, s: Sources, r: BudgetResult): seq<Message> {
    [SystemMessage(ComposeSystem(cfg, s.dynamicText, s.skillsBlock, FormatFactual(s.facts, cfg.factualHeader),
                                 FormatEpisodic(r.episodic, cfg.episodicHeader), r.summary))]
    + TurnsToMessages(r.buffer)
    + [UserMessage(s.userMessage)]
  }

  class ContextBuilder {
    const cfg: AgentConfig
    const budgeter: ContextBudgeter

    constructor (cfg: AgentConfig, budgeter: ContextBudgeter)
      ensures this.cfg == cfg && this.budgeter == budgeter
    {
      this.cfg := cfg;
      this.budgeter := budgeter;
    }

    /** The budgeting and assembly part of a build; None when the tier-0 sources alone overflow. */
    method Build(s: Sources) returns (messages: Option<seq<Message>>)
      ensures messages == match Allocation(InputsOf(cfg, s), budgeter.Budget())
                          case None => None
                          case Some(r) => Some(Assembled(cfg, s, r))
    {
      hide Allocation, TurnsToMessages, FormatFactual, FormatEpisodic, FactLines, HitLines, Estimate, Join;
      var systemFixed := cfg.systemPrompt;
      if s.dynamicText != "" {
        systemFixed := systemFixed + ("\n\n" + s.dynamicText);
      }
      if s.skillsBlock != "" {
        systemFixed := systemFixed + ("\n\n" + s.skillsBlock);
      }
      assert systemFixed == SystemFixed(cfg, s.dynamicText, s.skillsBlock);
      var factual := FormatFactual(s.facts, cfg.factualHeader);
      var budget := budgeter.Allocate(
        BudgetInputs(systemFixed, s.userMessage, s.toolText, factual, s.buffer, s.summary, s.hits));
      if budget.None? {
        return None;
      }
      var systemText := Compose(s.dynamicText, s.skillsBlock, FormatFactual(s.facts, cfg.factualHeader),
                                FormatEpisodic(budget.value.episodic, cfg.episodicHeader), budget.value.summary);
      var list := [SystemMessage(systemText)];
      list := list + TurnsToMessages(budget.value.buffer);
      list := list + [UserMessage(s.userMessage)];
      messages := Some(list);
    }

    method Compose(dynamicText: string, skillsBlock: string, factual: string, episodic: string, summary: string)
      returns (text: string)
      ensures text == ComposeSystem(cfg, dynamicText, skillsBlock, factual, episodic, summary)
    {
      hide Join;
      var parts := [cfg.systemPrompt];
      if dynamicText != "" { parts := parts + [dynamicText]; }
      ghost var p1 := [cfg.systemPrompt] + Part(dynamicText);
      assert parts == p1;
      if skillsBlock != "" { parts := parts + [skillsBlock]; }
      ghost var p2 := p1 + Part(skillsBlock);
      assert parts == p2;
      if factual != "" { parts := parts + [factual]; }
      ghost var p3 := p2 + Part(factual);
      assert parts == p3;
      if episodic != "" { parts := parts + [episodic]; }
      ghost var p4 := p3 + Part(episodic);
      assert parts == p4;
      if summary != "" { parts := parts + [cfg.summaryHeader + "\n" + summary]; }
      assert parts == p4 + (if summary != "" then [cfg.summaryHeader + "\n" + summary] else []);
      text := Join(parts, "\n\n");
    }
  }

  // ---- What the assembled messages say ----

  /**
   This text stands in the other as a section of its own: at its beginning or after a blank line, at its end or before
   one.
   */
  ghost predicate Section(text: string, part: string) {
    exists front: string, back: string :: SectionAt(text, part, front, back)
  }

  predicate SectionAt(text: string, part: string, front: string, back: string) {
    && text == front + part + back
    && (front == "" || (|front| >= 2 && front[|front| - 2..] == "\n\n"))
    && (back == "" || (|back| >= 2 && back[..2] == "\n\n"))
  }

  lemma SectionOf(parts: seq<string>, i: nat)
    requires i < |parts|
    ensures Section(Join(parts, "\n\n"), parts[i])
  {
    var front, back := JoinHolds(parts, "\n\n", i);
    assert SectionAt(Join(parts, "\n\n"), parts[i], front, back);
  }

  /** The parts of the system message, in order. */
  function SystemParts(cfg: AgentConfig, s: Sources, r: BudgetResult): seq<string> {
    [cfg.systemPrompt] + Part(s.dynamicText) + Part(s.skillsBlock) + Part(FormatFactual(s.facts, cfg.factualHeader))
    + Part(FormatEpisodic(r.episodic, cfg.episodicHeader))
    + (if r.summary != "" then [cfg.summaryHeader + "\n" + r.summary] else [])
  }

  lemma PartIn(part: string, parts: seq<string>)
    requires part in parts
    ensures Section(Join(parts, "\n\n"), part)
  {
    var i :| 0 <= i < |parts| && parts[i] == part;
    SectionOf(parts, i);
  }

  function Spaced(part: string): string {
    if part == "" then "" else "\n\n" + part
  }

  function SummarySection(cfg: AgentConfig, summary: string): string {
    if summary == "" then "" else cfg.summaryHeader + "\n" + summary
  }

  lemma OnePartMore(parts: seq<string>, part: string)
    requires parts != []
    ensures Join(parts + Part(part), "\n\n") == Join(parts, "\n\n") + Spaced(part)
  {
    if part == "" {
      assert parts + Part(part) == parts;
    } else {
      JoinAppend(parts, [part], "\n\n");
      JoinOne(part);
      AppendAssociative(Join(parts, "\n\n"), "\n\n", part);
    }
  }

  lemma JoinOne(part: string)
    ensures Join([part], "\n\n") == part
  {
  }

  lemma SummaryPart(cfg: AgentConfig, summary: string)
    ensures Part(SummarySection(cfg, summary)) == if summary != "" then [cfg.summaryHeader + "\n" + summary] else []
  {
  }

  lemma LaidOut(cfg: AgentConfig, s: Sources, r: BudgetResult)
    ensures Join(SystemParts(cfg, s, r), "\n\n") ==
            cfg.systemPrompt + Spaced(s.dynamicText) + Spaced(s.skillsBlock)
            + Spaced(FormatFactual(s.facts, cfg.factualHeader))
            + Spaced(FormatEpisodic(r.episodic, cfg.episodicHeader)) + Spaced(SummarySection(cfg, r.summary))
  {
    hide Join, FormatFactual, FormatEpisodic, Part, Spaced;
    var p0 := [cfg.systemPrompt];
    var p1 := p0 + Part(s.dynamicText);
    var p2 := p1 + Part(s.skillsBlock);
    var p3 := p2 + Part(FormatFactual(s.facts, cfg.factualHeader));
    var p4 := p3 + Part(FormatEpisodic(r.episodic, cfg.episodicHeader));
    OnePartMore(p0, s.dynamicText);
    OnePartMore(p1, s.skillsBlock);
    OnePartMore(p2, FormatFactual(s.facts, cfg.factualHeader));
    OnePartMore(p3, FormatEpisodic(r.episodic, cfg.episodicHeader));
    OnePartMore(p4, SummarySection(cfg, r.summary));
    SummaryPart(cfg, r.summary);
    JoinOne(cfg.systemPrompt);
  }

  /**
   The system message is the identity and then, each after a blank line where it is not empty: the dynamic text, the
   skills, the facts, the episodes that were kept, and, under its header, the summary that was kept. Each of them stands
   as a section of its own; and the last message is the user's.
   */
  lemma SystemShows(cfg: AgentConfig, s: Sources, r: BudgetResult)
    ensures var messages := Assembled(cfg, s, r);
            && messages[0].SystemMessage? && messages[|messages| - 1] == UserMessage(s.userMessage)
            && var text := messages[0].text;
               && text == cfg.systemPrompt + Spaced(s.dynamicText) + Spaced(s.skillsBlock)
                          + Spaced(FormatFactual(s.facts, cfg.factualHeader))
                          + Spaced(FormatEpisodic(r.episodic, cfg.episodicHeader))
                          + Spaced(SummarySection(cfg, r.summary))
               && (s.dynamicText != "" ==> Section(text, s.dynamicText))
               && (s.skillsBlock != "" ==> Section(text, s.skillsBlock))
               && (s.facts != [] ==> Section(text, FormatFactual(s.facts, cfg.factualHeader)))
               && (r.episodic != [] ==> Section(text, FormatEpisodic(r.episodic, cfg.episodicHeader)))
               && (r.summary != "" ==> Section(text, SummarySection(cfg, r.summary)))
  {
    hide *;
    PartsAre(cfg, s, r);
    var parts := SystemParts(cfg, s, r);
    var text := Join(parts, "\n\n");
    AssembledIs(cfg, s, r);
    forall part | part in parts ensures Section(text, part) {
      PartIn(part, parts);
    }
    LaidOut(cfg, s, r);
  }

  lemma AssembledIs(cfg: AgentConfig, s: Sources, r: BudgetResult)
    ensures var messages := Assembled(cfg, s, r);
            && messages[0] == SystemMessage(Join(SystemParts(cfg, s, r), "\n\n"))
            && messages[|messages| - 1] == UserMessage(s.userMessage)
  {
    hide Join, FormatFactual, FormatEpisodic;
  }

  lemma PartsAre(cfg: AgentConfig, s: Sources, r: BudgetResult)
    ensures var parts := SystemParts(cfg, s, r);
            && (s.dynamicText != "" ==> s.dynamicText in parts)
            && (s.skillsBlock != "" ==> s.skillsBlock in parts)
            && (s.facts != [] ==> FormatFactual(s.facts, cfg.factualHeader) in parts)
            && (r.episodic != [] ==> FormatEpisodic(r.episodic, cfg.episodicHeader) in parts)
            && (r.summary != "" ==> SummarySection(cfg, r.summary) in parts)
  {
    hide FormatFactual, FormatEpisodic;
    FormatsShow(cfg, s, r);
  }

  lemma FormatsShow(cfg: AgentConfig, s: Sources, r: BudgetResult)
    ensures s.facts != [] ==> FormatFactual(s.facts, cfg.factualHeader) != ""
    ensures r.episodic != [] ==> FormatEpisodic(r.episodic, cfg.episodicHeader) != ""
  {
  }

  /** This text stands in the other as a line of its own. */
  ghost predicate Line(text: string, line: string) {
    exists front: string, back: string :: LineAt(text, line, front, back)
  }

  predicate LineAt(text: string, line: string, front: string, back: string) {
    && text == front + line + back
    && front != "" && front[|front| - 1] == '\n' && (back == "" || back[0] == '\n')
  }

  lemma LineOf(header: string, lines: seq<string>, i: nat)
    requires i < |lines|
    ensures Line(header + "\n" + Join(lines, "\n"), lines[i])
  {
    var front, back := JoinHolds(lines, "\n", i);
    var text := header + "\n" + Join(lines, "\n");
    AppendAssociative(header + "\n", front, lines[i]);
    AppendAssociative(header + "\n", front + lines[i], back);
    assert LineAt(text, lines[i], header + "\n" + front, back);
  }

  lemma {:induction false} FactLineAt(facts: seq<(string, string)>, i: nat)
    requires i < |facts|
    ensures |FactLines(facts)| == |facts| && FactLines(facts)[i] == "- " + facts[i].0 + ": " + facts[i].1
  {
    if |facts| > 1 {
      FactLineAt(facts[1..], if i == 0 then 0 else i - 1);
    }
  }

  lemma {:induction false} HitLineAt(hits: seq<MemoryHit>, i: nat)
    requires i < |hits|
    ensures |HitLines(hits)| == |hits| && HitLines(hits)[i] == "- " + hits[i].point.payload.text
  {
    if |hits| > 1 {
      HitLineAt(hits[1..], if i == 0 then 0 else i - 1);
    }
  }

  /** Each fact, and each episode kept, has a line of its own under its header. */
  lemma BlocksShow(facts: seq<(string, string)>, hits: seq<MemoryHit>, header: string)
    ensures forall i :: 0 <= i < |facts| ==>
              Line(FormatFactual(facts, header), "- " + facts[i].0 + ": " + facts[i].1)
    ensures forall i :: 0 <= i < |hits| ==> Line(FormatEpisodic(hits, header), "- " + hits[i].point.payload.text)
    ensures facts != [] ==> header <= FormatFactual(facts, header)
    ensures hits != [] ==> header <= FormatEpisodic(hits, header)
  {
    hide Line, Join;
    forall i | 0 <= i < |facts| ensures Line(FormatFactual(facts, header), "- " + facts[i].0 + ": " + facts[i].1) {
      FactLineAt(facts, i);
      LineOf(header, FactLines(facts), i);
    }
    forall i | 0 <= i < |hits| ensures Line(FormatEpisodic(hits, header), "- " + hits[i].point.payload.text) {
      HitLineAt(hits, i);
      LineOf(header, HitLines(hits), i);
    }
  }

  /** The role that a message is sent with. */
  function RoleOf(m: Message): Option<Role> {
    match m
    case SystemMessage(_) => None
    case UserMessage(_) => Some(User)
    case AssistantMessage(_) => Some(Assistant)
    case AssistantToolCalls(_, _) => Some(Assistant)
    case ToolResultMessage(_, _) => Some(Role.Tool)
  }

  /**
   Every turn that was kept is sent in its place, in its role, with its text, and with the calls it made or answered.
   */
  lemma TurnsAreSent(cfg: AgentConfig, s: Sources, r: BudgetResult, i: nat)
    requires i < |r.buffer|
    ensures var messages, turn := Assembled(cfg, s, r), r.buffer[i];
            && |messages| == |r.buffer| + 2
            && RoleOf(messages[i + 1]) == Some(turn.role) && TextOf(messages[i + 1]) == turn.text
            && (messages[i + 1].AssistantToolCalls? <==> turn.role == Assistant && turn.toolCalls != [])
            && (messages[i + 1].AssistantToolCalls? ==> messages[i + 1].calls == turn.toolCalls)
            && (turn.role == Role.Tool && turn.toolCallId.Some? ==> messages[i + 1].callId == turn.toolCallId.value)
  {
    assert Assembled(cfg, s, r)[i + 1] == TurnToMessage(r.buffer[i]);
  }

  // ---- How many characters are assembled ----

  function TextOf(m: Message): string {
    match m
    case SystemMessage(text) => text
    case UserMessage(text) => text
    case AssistantMessage(text) => text
    case AssistantToolCalls(_, spoken) => if spoken.Some? then spoken.value else ""
    case ToolResultMessage(_, text) => text
  }

  function Chars(messages: seq<Message>): nat {
    if messages == [] then 0 else |TextOf(messages[0])| + Chars(messages[1..])
  }

  function Lengths(parts: seq<string>): nat {
    if parts == [] then 0 else |parts[0]| + Lengths(parts[1..])
  }

  function BufferChars(turns: seq<Turn>): nat {
    if turns == [] then 0 else |turns[0].text| + BufferChars(turns[1..])
  }

  function HitChars(hits: seq<MemoryHit>): nat {
    if hits == [] then 0 else |hits[0].point.payload.text| + HitChars(hits[1..])
  }

  lemma {:induction false} JoinLength(parts: seq<string>, separator: string)
    ensures |Join(parts, separator)| == Lengths(parts) + (if parts == [] then 0 else (|parts| - 1) * |separator|)
  {
    if |parts| > 1 {
      JoinLength(parts[1..], separator);
      assert (|parts| - 1) * |separator| == (|parts| - 2) * |separator| + |separator|;
    } else if |parts| == 1 {
      assert parts[1..] == [];
    }
  }

  lemma {:induction false} LengthsAppend(a: seq<string>, b: seq<string>)
    ensures Lengths(a + b) == Lengths(a) + Lengths(b)
  {
    if a == [] {
      assert a + b == b;
    } else {
      assert (a + b)[1..] == a[1..] + b;
      LengthsAppend(a[1..], b);
    }
  }

  lemma {:induction false} CharsAppend(a: seq<Message>, b: seq<Message>)
    ensures Chars(a + b) == Chars(a) + Chars(b)
  {
    if a == [] {
      assert a + b == b;
    } else {
      assert (a + b)[1..] == a[1..] + b;
      CharsAppend(a[1..], b);
    }
  }

  lemma {:induction false} BufferMessageChars(turns: seq<Turn>)
    ensures Chars(TurnsToMessages(turns)) == BufferChars(turns)
  {
    if turns != [] {
      assert TurnsToMessages(turns)[1..] == TurnsToMessages(turns[1..]);
      BufferMessageChars(turns[1..]);
    }
  }

  lemma {:induction false} HitLinesLength(hits: seq<MemoryHit>)
    ensures |HitLines(hits)| == |hits| && Lengths(HitLines(hits)) == HitChars(hits) + 2 * |hits|
  {
    if hits != [] {
      HitLinesLength(hits[1..]);
    }
  }

  /** The length a part adds to the system message: a blank line before it, if it is there at all. */
  function PartLength(part: string): nat {
    if part == "" then 0 else 2 + |part|
  }

  lemma SystemLength(cfg: AgentConfig, dynamicText: string, skillsBlock: string, factual: string, episodic: string,
      summary: string)
    ensures |ComposeSystem(cfg, dynamicText, skillsBlock, factual, episodic, summary)| ==
            |SystemFixed(cfg, dynamicText, skillsBlock)| + PartLength(factual) + PartLength(episodic)
            + (if summary == "" then 0 else 3 + |cfg.summaryHeader| + |summary|)
  {
    var p0 := [cfg.systemPrompt];
    var p1 := p0 + Part(dynamicText);
    var p2 := p1 + Part(skillsBlock);
    var p3 := p2 + Part(factual);
    var p4 := p3 + Part(episodic);
    var last := if summary != "" then cfg.summaryHeader + "\n" + summary else "";
    AddPart(p0, dynamicText);
    AddPart(p1, skillsBlock);
    AddPart(p2, factual);
    AddPart(p3, episodic);
    AddPart(p4, last);
    JoinLength(p4 + Part(last), "\n\n");
    OneLength(cfg.systemPrompt);
  }

  /** A part lengthens the joined text by its own length and a blank line, or not at all. */
  lemma AddPart(parts: seq<string>, part: string)
    ensures Lengths(parts + Part(part)) + 2 * |parts + Part(part)| == Lengths(parts) + 2 * |parts| + PartLength(part)
  {
    LengthsAppend(parts, Part(part));
    OneLength(part);
  }

  lemma OneLength(part: string)
    ensures Lengths([part]) == |part|
  {
    assert [part][1..] == [];
  }

  /** Headers, bullets and separators: what the assembly adds to the texts it is given. */
  function Overhead(cfg: AgentConfig, facts: seq<(string, string)>, r: BudgetResult): nat {
    (if facts == [] then 0 else 2)
    + (if r.episodic == [] then 0 else 2 + |cfg.episodicHeader| + 1 + 2 * |r.episodic| + (|r.episodic| - 1))
    + (if r.summary == "" then 0 else 3 + |cfg.summaryHeader|)
  }

  lemma EpisodicLength(hits: seq<MemoryHit>, header: string)
    ensures PartLength(FormatEpisodic(hits, header)) ==
            HitChars(hits) + if hits == [] then 0 else 2 + |header| + 1 + 2 * |hits| + (|hits| - 1)
  {
    if hits != [] {
      HitLinesLength(hits);
      JoinLength(HitLines(hits), "\n");
    }
  }

  /** Exactly what is assembled, character by character. The factual block counts whether or not it was budgeted. */
  lemma AssembledChars(cfg: AgentConfig, s: Sources, r: BudgetResult)
    ensures Chars(Assembled(cfg, s, r)) ==
            |SystemFixed(cfg, s.dynamicText, s.skillsBlock)| + |FormatFactual(s.facts, cfg.factualHeader)| + |r.summary|
            + BufferChars(r.buffer) + HitChars(r.episodic) + |s.userMessage| + Overhead(cfg, s.facts, r)
  {
    var system := SystemMessage(ComposeSystem(cfg, s.dynamicText, s.skillsBlock,
        FormatFactual(s.facts, cfg.factualHeader),
                                              FormatEpisodic(r.episodic, cfg.episodicHeader), r.summary));
    SystemLength(cfg, s.dynamicText, s.skillsBlock, FormatFactual(s.facts, cfg.factualHeader),
                 FormatEpisodic(r.episodic, cfg.episodicHeader), r.summary);
    EpisodicLength(r.episodic, cfg.episodicHeader);
    CharsAppend([system] + TurnsToMessages(r.buffer), [UserMessage(s.userMessage)]);
    CharsAppend([system], TurnsToMessages(r.buffer));
    BufferMessageChars(r.buffer);
    OneMessage(system);
    OneMessage(UserMessage(s.userMessage));
  }

  lemma OneMessage(m: Message)
    ensures Chars([m]) == |TextOf(m)|
  {
    assert [m][1..] == [];
  }

  lemma {:induction false} BufferRounding(turns: seq<Turn>)
    ensures 4 * Tokens(turns) <= BufferChars(turns) <= 4 * Tokens(turns) + 3 * |turns|
  {
    if turns != [] {
      BufferRounding(turns[1..]);
    }
  }

  lemma {:induction false} HitCharsLast(hits: seq<MemoryHit>)
    requires hits != []
    ensures HitChars(hits) == HitChars(hits[..|hits| - 1]) + |hits[|hits| - 1].point.payload.text|
  {
    if |hits| > 1 {
      HitCharsLast(hits[1..]);
      assert hits[1..][..|hits| - 2] == hits[..|hits| - 1][1..];
    }
  }

  lemma {:induction false} HitRounding(hits: seq<MemoryHit>)
    ensures 4 * HitTokens(hits) <= HitChars(hits) <= 4 * HitTokens(hits) + 3 * |hits|
  {
    if hits != [] {
      HitRounding(hits[..|hits| - 1]);
      HitCharsLast(hits);
    }
  }

  /**
   When the factual block was kept, the characters assembled, with those of the tool definitions, exceed four times the
   tokens counted by at most three for each piece estimated, plus the headers and separators; and they never fall short
   of four times the tokens counted. The slack is the rounding of a quarter of the characters, piece by piece.
   */
  lemma CharsWithinTokens(cfg: AgentConfig, s: Sources, budget: int)
    requires Allocation(InputsOf(cfg, s), budget).Some?
    requires Allocation(InputsOf(cfg, s), budget).value.factualBlock == FormatFactual(s.facts, cfg.factualHeader)
    ensures var r := Allocation(InputsOf(cfg, s), budget).value;
            var chars := Chars(Assembled(cfg, s, r)) + |s.toolText|;
            var pieces := 5 + |r.buffer| + |r.episodic|;
            4 * r.usedTokens + Overhead(cfg, s.facts, r) <= chars <= 4 * r.usedTokens + 3 * pieces
                + Overhead(cfg, s.facts, r)
  {
    var r := Allocation(InputsOf(cfg, s), budget).value;
    AllocationWithinBudget(InputsOf(cfg, s), budget);
    AssembledChars(cfg, s, r);
    BufferRounding(r.buffer);
    HitRounding(r.episodic);
  }

  /** The tokens of everything that is sent: what was budgeted, and the factual block whether it was kept or not. */
  function SentTokens(cfg: AgentConfig, s: Sources, r: BudgetResult): nat {
    Tier0(InputsOf(cfg, s)) + Estimate(FormatFactual(s.facts, cfg.factualHeader)) + Estimate(r.summary)
    + Tokens(r.buffer) + HitTokens(r.episodic)
  }

  /**
   For every input that does not overflow on tier 0: what is sent stays within the budget if and only if tier 0 and the
   factual block alone do, which is exactly when the block that is sent is the one that was budgeted.
   */
  lemma SentContextFitsIff(cfg: AgentConfig, s: Sources, budget: int)
    requires Allocation(InputsOf(cfg, s), budget).Some?
    ensures var r, block := Allocation(InputsOf(cfg, s), budget).value, FormatFactual(s.facts, cfg.factualHeader);
            && (SentTokens(cfg, s, r) <= budget <==> Tier0(InputsOf(cfg, s)) + Estimate(block) <= budget)
            && (r.factualBlock == block <==> Tier0(InputsOf(cfg, s)) + Estimate(block) <= budget)
  {
    AllocationWithinBudget(InputsOf(cfg, s), budget);
  }

  /**
   For every input whose factual block was dropped, the characters assembled, with those of the tool definitions, are at
   least four for each token of the budget and four more, plus the headers and separators.
   */
  lemma DroppedFactualOvershoots(cfg: AgentConfig, s: Sources, budget: int)
    requires Allocation(InputsOf(cfg, s), budget).Some?
    requires Allocation(InputsOf(cfg, s), budget).value.factualBlock != FormatFactual(s.facts, cfg.factualHeader)
    ensures var r := Allocation(InputsOf(cfg, s), budget).value;
            Chars(Assembled(cfg, s, r)) + |s.toolText| >= 4 * (budget + 1) + Overhead(cfg, s.facts, r)
  {
    var r := Allocation(InputsOf(cfg, s), budget).value;
    SentContextFitsIff(cfg, s, budget);
    AssembledChars(cfg, s, r);
    BufferRounding(r.buffer);
    HitRounding(r.episodic);
  }

  /** Every budget has such an input. */
  lemma DroppedFactualOverflows(cfg: AgentConfig, budget: nat, message: string, value: string)
    requires Estimate(cfg.systemPrompt) + Estimate(message) <= budget
    requires |value| >= 4 * (budget + 1)
    ensures var s := Sources("", "", "", [("note", value)], [], "", [], message);
            Allocation(InputsOf(cfg, s), budget).Some? &&
            var r := Allocation(InputsOf(cfg, s), budget).value;
            && r.factualBlock == "" && r.usedTokens <= budget
            && Chars(Assembled(cfg, s, r)) > 4 * budget + 3
  {
    var s := Sources("", "", "", [("note", value)], [], "", [], message);
    assert SystemFixed(cfg, "", "") == cfg.systemPrompt;
    assert Tier0(InputsOf(cfg, s)) <= budget;
    var block := FormatFactual(s.facts, cfg.factualHeader);
    assert FactLines(s.facts) == ["- " + "note" + ": " + value] by {
      assert s.facts[1..] == [];
    }
    assert |block| >= |value|;
    var r := Allocation(InputsOf(cfg, s), budget).value;
    AllocationWithinBudget(InputsOf(cfg, s), budget);
    AssembledChars(cfg, s, r);
  }
}
