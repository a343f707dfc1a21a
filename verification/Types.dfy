/** The records that the stores persist and the other modules pass around (stores/types.py). */
module Types {

  datatype Option<+T> = None | Some(value: T)

  /** The three role tags a turn is stored with. */
  datatype Role = User | Assistant | Tool
  {
    function Name(): string {
      match this
      case User => "user"
      case Assistant => "assistant"
      case Tool => "tool"
    }
  }

  /** `arguments` is a JSON object; its content is never inspected here. */
  datatype ToolCall = ToolCall(id: string, name: string, arguments: string)

  datatype Turn = Turn(role: Role, text: string, toolCalls: seq<ToolCall>, toolCallId: Option<string>, ts: real)

  datatype SessionState = SessionState(
    userId: string,
    workingBuffer: seq<Turn>,
    rollingSummary: string,
    modelName: Option<string>,
    scratch: map<string, string>,
    updatedAt: real,
    finalizedAt: Option<real>,
    createdAt: real)

  datatype ConversationMeta = ConversationMeta(
    conversationId: string,
    userId: string,
    createdAt: real,
    updatedAt: real,
    finalizedAt: Option<real>,
    turnCount: nat,
    summaryPreview: string,
    modelName: Option<string>)

  datatype Kind = Conversation | Moment

  datatype Payload = Payload(
    userId: string,
    text: string,
    kind: Kind,
    ts: Option<real>,
    conversationId: Option<string>,
    sourceConversationIds: seq<string>)

  datatype MemoryPoint = MemoryPoint(id: string, vector: seq<real>, payload: Payload)

  datatype MemoryHit = MemoryHit(point: MemoryPoint, score: real)

  /** The key that sorts hits best first. */
  function BestFirst(hit: MemoryHit): real { -hit.score }

  /** The provider messages the loop and the context builder produce. */
  datatype Message =
    | SystemMessage(text: string)
    | UserMessage(text: string)
    | AssistantMessage(text: string)
    | AssistantToolCalls(calls: seq<ToolCall>, spoken: Option<string>)
    | ToolResultMessage(callId: string, text: string)
}
