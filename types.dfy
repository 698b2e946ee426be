/** The wire and UI record types of the chat client (lib/types.ts). */
module Types {
  import opened Wrappers

  /** `"inbound" | "outbound"`: inbound is from the person, outbound from the assistant. */
  datatype Direction = Inbound | Outbound

  /** Client to server frames. */
  datatype ClientMessage = Message(text: string) | Ping
  {
    /** The frame's `type` field. */
    function Tag(): (t: string)
      ensures t == "message" <==> Message?
      ensures t == "ping" <==> Ping?
    {
      match this
      case Message(_) => "message"
      case Ping => "ping"
    }
  }

  /**
   * Server to client frames: a closed union of seven variants. `MessageComplete.direction`
   * is an unconstrained string on the wire.
   */
  datatype ServerMessage =
    | Connected(ownerName: string, contactId: string)
    | Token(text: string)
    | ToolStart(tool: string)
    | ToolEnd(tool: string)
    | MessageComplete(text: string, platform: string, direction: string, toolsUsed: seq<string>)
    | ServerError(error: string)
    | Pong
  {
    /** The frame's `type` field. */
    function Tag(): string
    {
      match this
      case Connected(_, _) => "connected"
      case Token(_) => "token"
      case ToolStart(_) => "tool_start"
      case ToolEnd(_) => "tool_end"
      case MessageComplete(_, _, _, _) => "message_complete"
      case ServerError(_) => "error"
      case Pong => "pong"
    }
  }

  /** The seven `type` tags are pairwise distinct, so the tag alone names the variant. */
  lemma ServerTagDeterminesVariant(a: ServerMessage, b: ServerMessage)
    ensures a.Tag() == b.Tag() ==>
      (a.Connected? && b.Connected?) || (a.Token? && b.Token?) || (a.ToolStart? && b.ToolStart?) ||
      (a.ToolEnd? && b.ToolEnd?) || (a.MessageComplete? && b.MessageComplete?) ||
      (a.ServerError? && b.ServerError?) || (a.Pong? && b.Pong?)
  {
  }

  /** Reply to `POST /owner/api/auth`. */
  datatype AuthResponse = AuthResponse(token: string, tenantId: string, ownerName: string, botName: string)

  /** One persisted message of `GET /owner/api/history`; the id is numeric. */
  datatype HistoryMessage = HistoryMessage(
    id: int, platform: string, direction: Direction, content: string, createdAt: string)

  datatype HistoryResponse = HistoryResponse(
    messages: seq<HistoryMessage>, hasMore: bool, contactId: Option<string>)

  /** A `Date` built from a server timestamp; the timestamp text is kept opaque. */
  datatype Timestamp = DateOf(text: string)

  /** A message of the chat screen's log; the id is a string, the last two fields optional. */
  datatype ChatMessage = ChatMessage(
    id: string, text: string, direction: Direction, platform: string, timestamp: Timestamp,
    isStreaming: Option<bool>, toolsUsed: Option<seq<string>>)
}
