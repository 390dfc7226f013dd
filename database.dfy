/**
 * The database service (src/database/services/): the Supabase tables it reads and writes are
 * fields of `DatabaseService`, and each REST request's outcome is an input `Reply`, so every
 * method states both what it returns and how the tables change.
 */
module Database {

  import opened Wrappers
  import opened Text
  import opened Json
  import opened SessionTypes
  import opened CostTypes
  import opened CostService
  import opened DatabaseErrors
  import opened DatabaseQueries

  /**
   * How one REST request went: the client failed to send it, the server answered with an error
   * status, or the server performed it.
   */
  datatype Reply = Unreachable(message: string) | Rejected(status: nat, statusLine: string, body: string) | Accepted

  /** The error a JSON body that is not the expected rows is read as. */
  const DecodeError := QueryError("error decoding response body")

  /** PostgREST's status for "not exactly one row" under `.single()`. */
  const NotAcceptable := 406

  /** Reading rows: the server's rows, or the error the request or its decoding gave. */
  function ReadRows<T>(reply: Reply, rows: T): (r: Result<T, DatabaseError>)
    ensures r.Success? <==> reply.Accepted?
    ensures reply.Unreachable? ==> r == Failure(QueryError(reply.message))
    ensures reply.Rejected? ==> r == Failure(DecodeError)
  {
    match reply
    case Unreachable(message) => Failure(QueryError(message))
    case Rejected(_, _, _) => Failure(DecodeError)
    case Accepted => Success(rows)
  }

  /**
   * Reading at most one user under `.single()`: the server answers "not acceptable" when no row
   * (or more than one) matches, which the lookups report as no user.
   */
  function LookupOne(rows: seq<User>, reply: Reply): (r: Result<Option<User>, DatabaseError>)
    ensures r.Failure? <==> reply.Unreachable? || (reply.Rejected? && reply.status != NotAcceptable)
    ensures r.Success? && r.value.Some? ==> reply.Accepted? && |rows| == 1 && r.value.value == rows[0]
  {
    match reply
    case Unreachable(message) => Failure(QueryError(message))
    case Rejected(status, _, _) => if status == NotAcceptable then Success(None) else Failure(DecodeError)
    case Accepted => Success(Single(rows))
  }

  /** An insert whose response is not read: only an unsent request is an error. */
  function InsertOutcome(reply: Reply): (r: Result<(), DatabaseError>)
    ensures r.Failure? <==> reply.Unreachable?
  {
    if reply.Unreachable? then Failure(QueryError(reply.message)) else Success(())
  }

  class DatabaseService {
    var users: seq<User>
    var sessions: seq<QuerySession>
    var costEvents: seq<CostEvent>
    var conversations: seq<Conversation>
    var messages: seq<StoredMessage>
    /** The Telegram id `is_admin` compares with. */
    const adminTelegramId: string

    constructor(adminTelegramId: string)
      ensures this.adminTelegramId == adminTelegramId
      ensures users == [] && sessions == [] && costEvents == [] && conversations == [] && messages == []
    {
      this.adminTelegramId := adminTelegramId;
      users, sessions, costEvents, conversations, messages := [], [], [], [], [];
    }

    // ------------------------------------------------------------ cost events

    /** `log_cost_event`: the row is stored when the server accepts it; a refusal still reads as `Ok`. */
    method LogCostEvent(e: CostEvent, reply: Reply) returns (r: Result<(), DatabaseError>)
      modifies this
      ensures r == InsertOutcome(reply)
      ensures costEvents == old(costEvents) + (if reply.Accepted? then [e] else [])
      ensures users == old(users) && sessions == old(sessions)
      ensures conversations == old(conversations) && messages == old(messages)
    {
      r := InsertOutcome(reply);
      if reply.Accepted? {
        costEvents := costEvents + [e];
      }
    }

    /** `log_whatsapp_message`. */
    method LogWhatsappMessage(context: SessionContext, outgoing: bool, messageLen: nat, hasMedia: bool, now: int,
                              reply: Reply) returns (r: Result<(), DatabaseError>)
      modifies this
      ensures r == InsertOutcome(reply)
      ensures costEvents == old(costEvents)
                            + (if reply.Accepted? then [LoggedEvent(WhatsappMessageBuilder(context, outgoing, messageLen, hasMedia), now)] else [])
      ensures users == old(users) && sessions == old(sessions)
      ensures conversations == old(conversations) && messages == old(messages)
    {
      r := LogCostEvent(LoggedEvent(WhatsappMessageBuilder(context, outgoing, messageLen, hasMedia), now), reply);
    }

    /** `log_claude_api_call`: the rates read, or the defaults when reading them failed. */
    method LogClaudeApiCall(context: SessionContext, inputTokens: int, cacheReadTokens: int, cacheWriteTokens: int,
                            outputTokens: int, model: string, ratesReply: RatesReply, now: int, reply: Reply)
      returns (r: Result<(), DatabaseError>)
      modifies this
      ensures r == InsertOutcome(reply)
      ensures var rates := ClaudeRatesFrom(ratesReply).GetOr(DefaultClaudeRates);
              costEvents == old(costEvents)
                            + (if reply.Accepted?
                               then [LoggedTotalEvent(ClaudeCallBuilder(context, rates, inputTokens, cacheReadTokens,
                                                                        cacheWriteTokens, outputTokens, model), now)]
                               else [])
      ensures users == old(users) && sessions == old(sessions)
      ensures conversations == old(conversations) && messages == old(messages)
    {
      var loaded := GetClaudeRates(ratesReply);
      var rates := loaded.GetOr(DefaultClaudeRates);
      r := LogCostEvent(LoggedTotalEvent(ClaudeCallBuilder(context, rates, inputTokens, cacheReadTokens,
                                                           cacheWriteTokens, outputTokens, model), now), reply);
    }

    /** `log_textract_usage`. */
    method LogTextractUsage(context: SessionContext, imageSizeBytes: nat, now: int, reply: Reply)
      returns (r: Result<(), DatabaseError>)
      modifies this
      ensures r == InsertOutcome(reply)
      ensures costEvents == old(costEvents)
                            + (if reply.Accepted? then [LoggedEvent(TextractBuilder(context, imageSizeBytes), now)] else [])
      ensures users == old(users) && sessions == old(sessions)
      ensures conversations == old(conversations) && messages == old(messages)
    {
      r := LogCostEvent(LoggedEvent(TextractBuilder(context, imageSizeBytes), now), reply);
    }

    /** `get_session_cost_events`. */
    method GetSessionCostEvents(sessionId: Uuid, reply: Reply) returns (r: Result<seq<CostEvent>, DatabaseError>)
      ensures r == ReadRows(reply, EventsOfSession(costEvents, sessionId))
      ensures r.Success? ==> forall e :: e in r.value <==> e in costEvents && e.querySessionId == sessionId
    {
      r := ReadRows(reply, EventsOfSession(costEvents, sessionId));
    }

    /** `create_cost_notification`: built from the session's events, or without a breakdown if they cannot be read. */
    method CreateCostNotification(context: SessionContext, queryText: string, totalCost: real, processingTime: int,
                                  reply: Reply) returns (n: CostNotification)
      ensures n == CostNotificationOf(context, queryText, totalCost, processingTime,
                                      ReadRows(reply, EventsOfSession(costEvents, context.sessionId)))
      ensures n.totalRupees == totalCost * ForexRate && n.query == TruncatedQuery(queryText)
      ensures n.breakdown.Some? <==> reply.Accepted?
    {
      var events := GetSessionCostEvents(context.sessionId, reply);
      n := CostNotificationOf(context, queryText, totalCost, processingTime, events);
    }

    // ------------------------------------------------------------ sessions

    /** `create_session`: the new row's id, or the error. */
    method CreateSession(session: QuerySession, reply: Reply) returns (r: Result<Uuid, DatabaseError>)
      modifies this
      ensures r == ReadRows(reply, session.id)
      ensures sessions == old(sessions) + (if reply.Accepted? then [session] else [])
      ensures users == old(users) && costEvents == old(costEvents)
      ensures conversations == old(conversations) && messages == old(messages)
    {
      r := ReadRows(reply, session.id);
      if reply.Accepted? {
        sessions := sessions + [session];
      }
    }

    /** `update_session_result`: a refused update reports the server's answer. */
    method UpdateSessionResult(sessionId: Uuid, responseType: string, errorMessage: Option<string>, totalCost: real,
                               processingTime: int, metadata: Option<Json>, reply: Reply)
      returns (r: Result<(), DatabaseError>)
      modifies this
      ensures reply.Unreachable? ==> r == Failure(QueryError(reply.message))
      ensures reply.Rejected? ==> r == Failure(QueryError("Update failed with status: " + reply.body))
      ensures reply.Accepted? ==> r == Success(())
      ensures sessions == if reply.Accepted?
                          then RecordResult(old(sessions), sessionId, responseType, errorMessage, totalCost,
                                            processingTime, metadata)
                          else old(sessions)
      ensures users == old(users) && costEvents == old(costEvents)
      ensures conversations == old(conversations) && messages == old(messages)
    {
      match reply
      case Unreachable(message) =>
        r := Failure(QueryError(message));
      case Rejected(_, _, body) =>
        r := Failure(QueryError("Update failed with status: " + body));
      case Accepted =>
        sessions := RecordResult(sessions, sessionId, responseType, errorMessage, totalCost, processingTime, metadata);
        r := Success(());
    }

    /** `get_session_total_cost`: the sum of the cost amounts of the session's events. */
    method GetSessionTotalCost(sessionId: Uuid, reply: Reply) returns (r: Result<real, DatabaseError>)
      ensures r == ReadRows(reply, SessionTotal(costEvents, sessionId))
    {
      if !reply.Accepted? {
        return ReadRows(reply, 0.0);
      }
      var total := 0.0;
      var i := 0;
      while i < |costEvents|
        invariant 0 <= i <= |costEvents|
        invariant total == SessionTotal(costEvents[..i], sessionId)
      {
        assert costEvents[..i + 1][..i] == costEvents[..i];
        if costEvents[i].querySessionId == sessionId {
          total := total + costEvents[i].costAmount;
        }
        i := i + 1;
      }
      assert costEvents[..i] == costEvents;
      r := Success(total);
    }

    /** `update_session_query_type`. */
    method UpdateSessionQueryType(sessionId: Uuid, queryType: string, reply: Reply) returns (r: Result<(), DatabaseError>)
      modifies this
      ensures reply.Unreachable? ==> r == Failure(QueryError(reply.message))
      ensures reply.Rejected? ==> r == Failure(QueryError("Update query type failed with status: " + reply.statusLine))
      ensures reply.Accepted? ==> r == Success(())
      ensures sessions == if reply.Accepted? then RecordQueryType(old(sessions), sessionId, queryType) else old(sessions)
      ensures users == old(users) && costEvents == old(costEvents)
      ensures conversations == old(conversations) && messages == old(messages)
    {
      match reply
      case Unreachable(message) =>
        r := Failure(QueryError(message));
      case Rejected(_, statusLine, _) =>
        r := Failure(QueryError("Update query type failed with status: " + statusLine));
      case Accepted =>
        sessions := RecordQueryType(sessions, sessionId, queryType);
        r := Success(());
    }

    /** `create_session_with_context`: a "processing" session with no cost yet, under the context's ids. */
    method CreateSessionWithContext(context: SessionContext, queryText: string, queryType: string, now: int,
                                    reply: Reply) returns (r: Result<Uuid, DatabaseError>)
      modifies this
      ensures r == ReadRows(reply, context.sessionId)
      ensures reply.Accepted? ==> sessions == old(sessions) + [
                QuerySession(context.sessionId, context.userId, queryText, queryType, "processing", None, 0.0, None,
                             context.platform, None, now)]
      ensures !reply.Accepted? ==> sessions == old(sessions)
      ensures users == old(users) && costEvents == old(costEvents)
      ensures conversations == old(conversations) && messages == old(messages)
    {
      var session := QuerySession(context.sessionId, context.userId, queryText, queryType, "processing", None, 0.0,
                                  None, context.platform, None, now);
      r := CreateSession(session, reply);
    }

    /**
     * `complete_session`: the session's cost total (0 when it cannot be read) and the result are
     * written to the session row.
     */
    method CompleteSession(context: SessionContext, result: SessionResult, totalReply: Reply, updateReply: Reply)
      returns (r: Result<(), DatabaseError>)
      modifies this
      ensures var total := ReadRows(totalReply, SessionTotal(old(costEvents), context.sessionId)).GetOr(0.0);
              sessions == if updateReply.Accepted?
                          then RecordResult(old(sessions), context.sessionId, if result.success then "success" else "error",
                                            result.errorMessage, total, result.processingTimeMs, result.queryMetadata)
                          else old(sessions)
      ensures r.Success? <==> updateReply.Accepted?
      ensures users == old(users) && costEvents == old(costEvents)
      ensures conversations == old(conversations) && messages == old(messages)
    {
      var read := GetSessionTotalCost(context.sessionId, totalReply);
      var total := read.GetOr(0.0);
      var responseType := if result.success then "success" else "error";
      r := UpdateSessionResult(context.sessionId, responseType, result.errorMessage, total,
                               result.processingTimeMs, result.queryMetadata, updateReply);
    }

    /**
     * `complete_session_with_notification`: as `complete_session`, and a cost notification
     * for the alert channel only when the update succeeded and the query succeeded.
     */
    method CompleteSessionWithNotification(context: SessionContext, result: SessionResult, queryText: string,
                                           totalReply: Reply, updateReply: Reply, eventsReply: Reply)
      returns (r: Result<(), DatabaseError>, alert: Option<CostNotification>)
      modifies this
      ensures var total := ReadRows(totalReply, SessionTotal(old(costEvents), context.sessionId)).GetOr(0.0);
              sessions == if updateReply.Accepted?
                          then RecordResult(old(sessions), context.sessionId, if result.success then "success" else "error",
                                            result.errorMessage, total, result.processingTimeMs, result.queryMetadata)
                          else old(sessions)
      ensures r.Success? <==> updateReply.Accepted?
      ensures alert.Some? <==> updateReply.Accepted? && result.success
      ensures alert.Some? ==>
                alert.value == CostNotificationOf(context, queryText,
                                                  ReadRows(totalReply, SessionTotal(costEvents, context.sessionId)).GetOr(0.0),
                                                  result.processingTimeMs,
                                                  ReadRows(eventsReply, EventsOfSession(costEvents, context.sessionId)))
      ensures users == old(users) && costEvents == old(costEvents)
      ensures conversations == old(conversations) && messages == old(messages)
    {
      var read := GetSessionTotalCost(context.sessionId, totalReply);
      var total := read.GetOr(0.0);
      var responseType := if result.success then "success" else "error";
      r := UpdateSessionResult(context.sessionId, responseType, result.errorMessage, total,
                               result.processingTimeMs, result.queryMetadata, updateReply);
      alert := None;
      if r.Success? && result.success {
        var n := CreateCostNotification(context, queryText, total, result.processingTimeMs, eventsReply);
        alert := Some(n);
      }
    }

    // ------------------------------------------------------------ conversations

    /**
     * `get_recent_conversation`: the user's conversation most recently active in the last 24
     * hours, with all its messages oldest first; `None` when there is none.
     */
    method GetRecentConversation(userId: Uuid, now: int, conversationReply: Reply, messagesReply: Reply)
      returns (r: Result<Option<ConversationContext>, DatabaseError>)
      ensures conversationReply.Unreachable? ==> r == Failure(QueryError(conversationReply.message))
      ensures conversationReply.Rejected? ==>
                r == if conversationReply.status == NotAcceptable then Success(None) else Failure(DecodeError)
      ensures conversationReply.Accepted? && MostRecentConversation(conversations, userId, now).None? ==>
                r == Success(None)
      ensures conversationReply.Accepted? && MostRecentConversation(conversations, userId, now).Some? ==>
                var c := MostRecentConversation(conversations, userId, now).value;
                r == ReadRows(messagesReply,
                              Some(ConversationContext(c.id, AsConversationMessages(MessagesInOrder(messages, c.id)))))
    {
      match conversationReply
      case Unreachable(message) =>
        return Failure(QueryError(message));
      case Rejected(status, _, _) =>
        return if status == NotAcceptable then Success(None) else Failure(DecodeError);
      case Accepted =>
        var found := MostRecentConversation(conversations, userId, now);
        if found.None? {
          return Success(None);
        }
        var c := found.value;
        r := ReadRows(messagesReply,
                      Some(ConversationContext(c.id, AsConversationMessages(MessagesInOrder(messages, c.id)))));
    }

    /** `create_conversation`: the new conversation starts active now; its id is the one the server assigns. */
    method CreateConversation(userId: Uuid, now: int, assignedId: Uuid, reply: Reply)
      returns (r: Result<Uuid, DatabaseError>)
      modifies this
      ensures r == ReadRows(reply, assignedId)
      ensures conversations == old(conversations) + (if reply.Accepted? then [Conversation(assignedId, userId, now, now)] else [])
      ensures users == old(users) && sessions == old(sessions)
      ensures costEvents == old(costEvents) && messages == old(messages)
    {
      r := ReadRows(reply, assignedId);
      if reply.Accepted? {
        conversations := conversations + [Conversation(assignedId, userId, now, now)];
      }
    }

    /**
     * `save_conversation_message`: the message is inserted, then the conversation's last activity
     * is moved to now; an unsent insert stops before the update.
     */
    method SaveConversationMessage(conversationId: Uuid, sessionId: Uuid, userQuery: string,
                                   structuredResponse: Option<StructuredResponse>, now: int,
                                   insertReply: Reply, updateReply: Reply) returns (r: Result<(), DatabaseError>)
      modifies this
      ensures insertReply.Unreachable? ==> r == Failure(QueryError(insertReply.message))
      ensures !insertReply.Unreachable? ==> r == InsertOutcome(updateReply)
      ensures messages == old(messages)
                          + (if insertReply.Accepted?
                             then [StoredMessage(conversationId, sessionId, userQuery, structuredResponse, now)] else [])
      ensures conversations == if insertReply.Unreachable? || !updateReply.Accepted? then old(conversations)
                               else TouchConversation(old(conversations), conversationId, now)
      ensures users == old(users) && sessions == old(sessions) && costEvents == old(costEvents)
    {
      if insertReply.Unreachable? {
        return Failure(QueryError(insertReply.message));
      }
      if insertReply.Accepted? {
        messages := messages + [StoredMessage(conversationId, sessionId, userQuery, structuredResponse, now)];
      }
      r := InsertOutcome(updateReply);
      if updateReply.Accepted? {
        conversations := TouchConversation(conversations, conversationId, now);
      }
    }

    // ------------------------------------------------------------ users

    /** `get_user_by_phone`: WhatsApp users are stored under "whatsapp:" and their number. */
    method GetUserByPhone(phone: string, reply: Reply) returns (r: Result<Option<User>, DatabaseError>)
      ensures reply.Unreachable? ==> r == Failure(QueryError(reply.message))
      ensures reply.Rejected? ==> r == if reply.status == NotAcceptable then Success(None) else Failure(DecodeError)
      ensures reply.Accepted? ==> r == Success(Single(UsersWithPhone(users, "whatsapp:" + phone)))
      ensures r == LookupOne(UsersWithPhone(users, "whatsapp:" + phone), reply)
    {
      match reply
      case Unreachable(message) =>
        r := Failure(QueryError(message));
      case Rejected(status, _, _) =>
        r := if status == NotAcceptable then Success(None) else Failure(DecodeError);
      case Accepted =>
        r := Success(Single(UsersWithPhone(users, "whatsapp:" + phone)));
    }

    /** `get_user_by_telegram`. */
    method GetUserByTelegram(telegramId: string, reply: Reply) returns (r: Result<Option<User>, DatabaseError>)
      ensures reply.Unreachable? ==> r == Failure(QueryError(reply.message))
      ensures reply.Rejected? ==> r == if reply.status == NotAcceptable then Success(None) else Failure(DecodeError)
      ensures reply.Accepted? ==> r == Success(Single(UsersWithTelegramId(users, telegramId)))
      ensures r == LookupOne(UsersWithTelegramId(users, telegramId), reply)
    {
      match reply
      case Unreachable(message) =>
        r := Failure(QueryError(message));
      case Rejected(status, _, _) =>
        r := if status == NotAcceptable then Success(None) else Failure(DecodeError);
      case Accepted =>
        r := Success(Single(UsersWithTelegramId(users, telegramId)));
    }

    /** `create_pending_telegram_user`: a Telegram user waiting for approval. */
    method CreatePendingTelegramUser(telegramId: string, assignedId: Uuid, now: int, reply: Reply)
      returns (r: Result<(), DatabaseError>)
      modifies this
      ensures r == InsertOutcome(reply)
      ensures users == old(users)
                       + (if reply.Accepted? then [User(assignedId, None, Some(telegramId), StatusPending, "telegram", now)] else [])
      ensures sessions == old(sessions) && costEvents == old(costEvents)
      ensures conversations == old(conversations) && messages == old(messages)
    {
      r := InsertOutcome(reply);
      if reply.Accepted? {
        users := users + [User(assignedId, None, Some(telegramId), StatusPending, "telegram", now)];
      }
    }

    /** `is_admin`. */
    predicate IsAdmin(telegramId: string)
    {
      telegramId == adminTelegramId
    }

    /**
     * `approve_telegram_user`: the pending rows with the id become active; the answer is whether
     * the server accepted the update, not whether a row changed.
     */
    method ApproveTelegramUser(telegramId: string, reply: Reply) returns (r: Result<bool, DatabaseError>)
      modifies this
      ensures reply.Unreachable? ==> r == Failure(QueryError(reply.message))
      ensures !reply.Unreachable? ==> r == Success(reply.Accepted?)
      ensures users == if reply.Accepted? then ApproveRows(old(users), telegramId) else old(users)
      ensures sessions == old(sessions) && costEvents == old(costEvents)
      ensures conversations == old(conversations) && messages == old(messages)
    {
      if reply.Unreachable? {
        return Failure(QueryError(reply.message));
      }
      if reply.Accepted? {
        users := ApproveRows(users, telegramId);
      }
      r := Success(reply.Accepted?);
    }

    /** `approve_whatsapp_user`: WhatsApp users are inserted already active. */
    method ApproveWhatsappUser(phone: string, assignedId: Uuid, now: int, reply: Reply)
      returns (r: Result<(), DatabaseError>)
      modifies this
      ensures r == InsertOutcome(reply)
      ensures users == old(users)
                       + (if reply.Accepted? then [User(assignedId, Some("whatsapp:" + phone), None, StatusActive, "whatsapp", now)] else [])
      ensures sessions == old(sessions) && costEvents == old(costEvents)
      ensures conversations == old(conversations) && messages == old(messages)
    {
      r := InsertOutcome(reply);
      if reply.Accepted? {
        users := users + [User(assignedId, Some("whatsapp:" + phone), None, StatusActive, "whatsapp", now)];
      }
    }

    /** `get_pending_users`. */
    method GetPendingUsers(reply: Reply) returns (r: Result<seq<User>, DatabaseError>)
      ensures r == ReadRows(reply, PendingUsers(users))
      ensures r.Success? ==> forall u :: u in r.value <==> u in users && u.status == StatusPending
    {
      r := ReadRows(reply, PendingUsers(users));
    }
  }
}
