/** A conversation (the `Conversation` model): messages, the context the
    service accumulates, and the session status. */
module ConversationSchema {
  import opened Wrappers

  datatype Role = User | Assistant | System

  function RoleName(r: Role): string {
    match r
    case User => "user"
    case Assistant => "assistant"
    case System => "system"
  }

  /** `Completed` is only ever set from outside the service. */
  datatype Status = Active | Completed | Escalated

  function StatusName(s: Status): string {
    match s
    case Active => "active"
    case Completed => "completed"
    case Escalated => "escalated"
  }

  /** The three optional fields a message's metadata may carry. */
  datatype MessageMetadata = MessageMetadata(
    intent: Option<string>,
    confidence: Option<real>,
    suggestedActions: Option<seq<string>>)

  /** `timestamp` is milliseconds since the epoch. */
  datatype Message = Message(role: Role, content: string, timestamp: int, metadata: Option<MessageMetadata>)

  /** `userPreferences` is free-form; it is kept as a string map. */
  datatype Context = Context(
    department: Option<string>,
    category: Option<string>,
    lastQuestion: Option<string>,
    userPreferences: Option<map<string, string>>)

  const EmptyContext := Context(None, None, None, None)

  datatype ConversationRecord = ConversationRecord(
    sessionId: string,
    userId: Option<string>,
    messages: seq<Message>,
    context: Context,
    status: Status,
    escalatedTo: Option<string>)

  /** What the schema's validators demand of a saved conversation: a
      session id and the content of every message (a `required` string is
      rejected when empty). */
  predicate WellFormed(c: ConversationRecord) {
    c.sessionId != "" && forall i :: 0 <= i < |c.messages| ==> c.messages[i].content != ""
  }

  /** The unique index on `sessionId`: the store is keyed by it. */
  predicate KeyedBySessionId(sessions: map<string, ConversationRecord>) {
    forall id :: id in sessions ==> sessions[id].sessionId == id && WellFormed(sessions[id])
  }

  /** A conversation as first created: no messages, the given context and
      the default status. */
  function NewConversation(id: string, context: Context): (c: ConversationRecord)
    ensures c.sessionId == id && c.messages == [] && c.context == context
    ensures c.status == Active && c.escalatedTo.None? && c.userId.None?
    ensures id != "" ==> WellFormed(c)
  {
    ConversationRecord(id, None, [], context, Active, None)
  }
}
