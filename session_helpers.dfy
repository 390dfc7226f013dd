/**
 * Session bookkeeping shared by the chat front ends (src/communication/session_helpers.rs):
 * the Telegram session context, session creation with a failure alert, and completing a session
 * after an error or a success. What happens outside the database is returned as a list of
 * effects in the order they occur.
 */
module SessionHelpers {

  import opened Wrappers
  import opened SessionTypes
  import opened CostTypes
  import opened CostService
  import opened Database
  import opened DatabaseQueries
  import opened QueryTypes
  import opened Numbers

  /** A message to the operators' alert channel. */
  datatype Alert = TextAlert(text: string) | CostAlert(notification: CostNotification)

  /** What a request handler does outside the tables, in order. */
  datatype Effect =
    | Alerted(alert: Alert)
    | SessionCompletion(result: SessionResult)
    | Answered(text: string, mediaUrl: Option<string>)
    | DocumentSent(path: string)
    | FileRemoved(path: string)

  const SessionCreationFailed := "Failed to create session"

  /** `create_session_context`: a Telegram session for the user, with the Telegram id set. */
  function TelegramContext(user: User, telegramId: string, freshSessionId: Uuid): (c: SessionContext)
    ensures c.platform == "telegram" && c.telegramId == Some(telegramId)
    ensures c.userId == user.id && c.sessionId == freshSessionId
    ensures c.userPhone.None? && c.lastModelUsed.None? && c.conversationId.None?
  {
    WithTelegramId(NewContext(user.id, "telegram", freshSessionId), telegramId)
  }

  /** The result written after a failed query. */
  function FailureResult(e: QueryError, elapsedMs: nat): (r: SessionResult)
    ensures !r.success && r.errorMessage == Some(ErrorText(e)) && r.queryMetadata.None?
    ensures r.processingTimeMs == AsI32(elapsedMs)
  {
    SessionResult(false, Some(ErrorText(e)), AsI32(elapsedMs), None)
  }

  /** The result written after a successful query: the response's metadata, no error. */
  function SuccessResult(response: Response, elapsedMs: nat): (r: SessionResult)
    ensures r.success && r.errorMessage.None? && r.queryMetadata == response.queryMetadata
    ensures r.processingTimeMs == AsI32(elapsedMs)
  {
    SessionResult(true, None, AsI32(elapsedMs), response.queryMetadata)
  }

  /** The alert text for a failed query. */
  function FailureAlert(queryText: string, e: QueryError): string
  {
    "\U{274C} Query Failed\n\nQuery: " + queryText + "\nError: " + ErrorText(e)
  }

  /**
   * The session rows once a query has been completed: when the update is accepted, the rows of
   * the session record the outcome, with the session's summed cost and the elapsed time.
   */
  function CompletedSessions(sessions: seq<QuerySession>, costEvents: seq<CostEvent>, sessionId: Uuid,
                             outcome: Result<Response, QueryError>, elapsedMs: nat, totalReply: Reply,
                             updateReply: Reply): seq<QuerySession>
  {
    var total := ReadRows(totalReply, SessionTotal(costEvents, sessionId)).GetOr(0.0);
    if !updateReply.Accepted? then sessions
    else
      match outcome
      case Success(response) =>
        RecordResult(sessions, sessionId, "success", None, total, AsI32(elapsedMs), response.queryMetadata)
      case Failure(e) =>
        RecordResult(sessions, sessionId, "error", Some(ErrorText(e)), total, AsI32(elapsedMs), None)
  }

  /**
   * A session opened as "processing" under a fresh id and then completed: the earlier rows are
   * untouched, and the new row keeps its query, type, platform and creation time and records
   * the outcome ("success" with the response's metadata, or "error" with the error's text) when
   * the update was accepted.
   */
  lemma {:induction false} OpenedThenCompleted(sessions: seq<QuerySession>, row: QuerySession, costEvents: seq<CostEvent>,
                                               outcome: Result<Response, QueryError>, elapsedMs: nat,
                                               totalReply: Reply, updateReply: Reply)
    requires forall i :: 0 <= i < |sessions| ==> sessions[i].id != row.id
    ensures var after := CompletedSessions(sessions + [row], costEvents, row.id, outcome, elapsedMs,
                                           totalReply, updateReply);
      && |after| == |sessions| + 1 && after[..|sessions|] == sessions
      && after[|sessions|].(responseType := row.responseType, errorMessage := row.errorMessage,
                            totalCost := row.totalCost, processingTimeMs := row.processingTimeMs,
                            metadata := row.metadata) == row
      && (updateReply.Accepted? ==>
            && after[|sessions|].responseType == (if outcome.Success? then "success" else "error")
            && after[|sessions|].errorMessage == (if outcome.Success? then None else Some(ErrorText(outcome.error)))
            && after[|sessions|].metadata == (if outcome.Success? then outcome.value.queryMetadata else None)
            && after[|sessions|].processingTimeMs == Some(AsI32(elapsedMs)))
      && (!updateReply.Accepted? ==> after[|sessions|] == row)
  {
    var all := sessions + [row];
    var after := CompletedSessions(all, costEvents, row.id, outcome, elapsedMs, totalReply, updateReply);
    forall i | 0 <= i < |sessions| ensures after[i] == sessions[i] {
      assert all[i] == sessions[i];
    }
    assert all[|sessions|] == row;
  }

  /** `create_session_or_error`: `Err` exactly when the session could not be created, after alerting. */
  method CreateSessionOrError(db: DatabaseService, context: SessionContext, queryText: string, queryType: string,
                              now: int, reply: Reply) returns (r: Result<(), ()>, effects: seq<Effect>)
    modifies db
    ensures r.Failure? <==> !reply.Accepted?
    ensures effects == if r.Failure? then [Alerted(TextAlert(SessionCreationFailed))] else []
    ensures reply.Accepted? ==> db.sessions == old(db.sessions) + [
              QuerySession(context.sessionId, context.userId, queryText, queryType, "processing", None, 0.0, None,
                           context.platform, None, now)]
    ensures !reply.Accepted? ==> db.sessions == old(db.sessions)
    ensures db.users == old(db.users) && db.costEvents == old(db.costEvents)
    ensures db.conversations == old(db.conversations) && db.messages == old(db.messages)
  {
    var created := db.CreateSessionWithContext(context, queryText, queryType, now, reply);
    if created.Failure? {
      return Failure(()), [Alerted(TextAlert(SessionCreationFailed))];
    }
    return Success(()), [];
  }

  /**
   * `complete_session_with_error`: the failure alert goes out first, then the session is
   * completed as failed; a failed query never draws a cost notification.
   */
  method CompleteSessionWithError(db: DatabaseService, context: SessionContext, e: QueryError, queryText: string,
                                  elapsedMs: nat, totalReply: Reply, updateReply: Reply, eventsReply: Reply)
    returns (effects: seq<Effect>)
    modifies db
    ensures effects == [Alerted(TextAlert(FailureAlert(queryText, e))), SessionCompletion(FailureResult(e, elapsedMs))]
    ensures db.sessions == CompletedSessions(old(db.sessions), old(db.costEvents), context.sessionId, Failure(e),
                                             elapsedMs, totalReply, updateReply)
    ensures db.users == old(db.users) && db.costEvents == old(db.costEvents)
    ensures db.conversations == old(db.conversations) && db.messages == old(db.messages)
  {
    effects := [Alerted(TextAlert(FailureAlert(queryText, e)))];
    var result := FailureResult(e, elapsedMs);
    var _, alert := db.CompleteSessionWithNotification(context, result, queryText, totalReply, updateReply, eventsReply);
    effects := effects + [SessionCompletion(result)];
  }

  /**
   * `complete_session_with_success`: the session is completed as successful, and its cost
   * notification follows when the row was updated.
   */
  method CompleteSessionWithSuccess(db: DatabaseService, context: SessionContext, response: Response,
                                    queryText: string, elapsedMs: nat, totalReply: Reply, updateReply: Reply,
                                    eventsReply: Reply)
    returns (effects: seq<Effect>)
    modifies db
    ensures effects == [SessionCompletion(SuccessResult(response, elapsedMs))]
                       + if updateReply.Accepted?
                         then [Alerted(CostAlert(CostNotificationOf(
                                 context, queryText,
                                 ReadRows(totalReply, SessionTotal(db.costEvents, context.sessionId)).GetOr(0.0),
                                 AsI32(elapsedMs), ReadRows(eventsReply, EventsOfSession(db.costEvents, context.sessionId)))))]
                         else []
    ensures db.sessions == CompletedSessions(old(db.sessions), old(db.costEvents), context.sessionId, Success(response),
                                             elapsedMs, totalReply, updateReply)
    ensures db.users == old(db.users) && db.costEvents == old(db.costEvents)
    ensures db.conversations == old(db.conversations) && db.messages == old(db.messages)
  {
    var result := SuccessResult(response, elapsedMs);
    var _, alert := db.CompleteSessionWithNotification(context, result, queryText, totalReply, updateReply, eventsReply);
    effects := [SessionCompletion(result)];
    if alert.Some? {
      effects := effects + [Alerted(CostAlert(alert.value))];
    }
  }
}
