/**
 * Records of query sessions, users and conversations (src/database/types/session.rs,
 * src/database/types/user.rs). Identifiers are numbers; a fresh identifier (`Uuid::new_v4`) and
 * the clock are inputs.
 */
module SessionTypes {

  import opened Wrappers
  import opened Json

  type Uuid = nat

  /** A row of `query_sessions`. */
  datatype QuerySession = QuerySession(
    id: Uuid,
    userId: Uuid,
    queryText: string,
    queryType: string,
    responseType: string,
    errorMessage: Option<string>,
    totalCost: real,
    processingTimeMs: Option<int>,
    platform: string,
    metadata: Option<Json>,
    createdAt: int)

  /** How a query ended. */
  datatype SessionResult = SessionResult(
    success: bool,
    errorMessage: Option<string>,
    processingTimeMs: int,
    queryMetadata: Option<Json>)

  /** Who is asking, on which platform, in which session and conversation. */
  datatype SessionContext = SessionContext(
    userId: Uuid,
    sessionId: Uuid,
    platform: string,
    userPhone: Option<string>,
    telegramId: Option<string>,
    lastModelUsed: Option<string>,
    conversationId: Option<Uuid>)

  /** `SessionContext::new`, with the fresh session id as an input. */
  function NewContext(userId: Uuid, platform: string, freshSessionId: Uuid): (c: SessionContext)
  {
    SessionContext(userId, freshSessionId, platform, None, None, None, None)
  }

  function WithPhone(c: SessionContext, phone: string): (r: SessionContext)
  {
    c.(userPhone := Some(phone))
  }

  function WithTelegramId(c: SessionContext, telegramId: string): (r: SessionContext)
  {
    c.(telegramId := Some(telegramId))
  }

  function WithConversationId(c: SessionContext, conversationId: Uuid): (r: SessionContext)
  {
    c.(conversationId := Some(conversationId))
  }

  /** A new context carries the user, platform and fresh session id, and nothing else. */
  lemma NewContextSpec(userId: Uuid, platform: string, freshSessionId: Uuid)
    ensures var c := NewContext(userId, platform, freshSessionId);
      && c.userId == userId && c.platform == platform && c.sessionId == freshSessionId
      && c.userPhone.None? && c.telegramId.None? && c.lastModelUsed.None? && c.conversationId.None?
  {
  }

  /**
   * Each builder sets its own field and keeps every other one; so the builders commute, and
   * applying one twice keeps only the later value.
   */
  lemma BuildersSetOnlyTheirField(c: SessionContext, phone: string, telegramId: string, conversationId: Uuid)
    ensures WithPhone(c, phone) == c.(userPhone := Some(phone))
    ensures WithTelegramId(c, telegramId) == c.(telegramId := Some(telegramId))
    ensures WithConversationId(c, conversationId) == c.(conversationId := Some(conversationId))
    ensures WithTelegramId(WithPhone(c, phone), telegramId) == WithPhone(WithTelegramId(c, telegramId), phone)
    ensures WithConversationId(WithPhone(c, phone), conversationId)
         == WithPhone(WithConversationId(c, conversationId), phone)
    ensures WithConversationId(WithTelegramId(c, telegramId), conversationId)
         == WithTelegramId(WithConversationId(c, conversationId), telegramId)
    ensures forall p :: WithPhone(WithPhone(c, p), phone) == WithPhone(c, phone)
  {
  }

  /** What the assistant answered, kept with a conversation message. */
  datatype StructuredResponse = StructuredResponse(responseText: string, responseMetadata: Option<string>, timestamp: string)

  /** `get_metadata`: the metadata text, or "" when there is none. */
  function GetMetadata(r: StructuredResponse): (m: string)
    ensures r.responseMetadata.Some? ==> m == r.responseMetadata.value
    ensures r.responseMetadata.None? ==> m == ""
  {
    r.responseMetadata.GetOr("")
  }

  datatype ConversationMessage = ConversationMessage(userQuery: string, structuredResponse: Option<StructuredResponse>)

  datatype ConversationContext = ConversationContext(conversationId: Uuid, messages: seq<ConversationMessage>)

  /** A row of `users`. */
  datatype User = User(
    id: Uuid,
    phoneNumber: Option<string>,
    telegramId: Option<string>,
    status: string,
    platform: string,
    createdAt: int)

  const StatusActive := "active"
  const StatusPending := "pending_approval"
}
