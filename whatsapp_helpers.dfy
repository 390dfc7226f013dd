/**
 * Answering a processed WhatsApp query (src/communication/whatsapp/whatsapp_helpers.rs): the
 * session is completed, then the user receives the file as media, the text, or the error's
 * message. URL encoding of a path segment is an input function.
 */
module WhatsappHelpers {

  import opened Wrappers
  import opened Text
  import opened SessionTypes
  import opened CostTypes
  import opened CostService
  import opened Numbers
  import opened Database
  import opened DatabaseQueries
  import opened QueryTypes
  import opened ErrorHandler
  import opened SessionHelpers

  /** `WhatsAppError`. */
  datatype WhatsAppError = QueryFulfilmentInitError(detail: string) | ImageProcessingError(detail: string)

  function WhatsAppErrorText(e: WhatsAppError): string
  {
    match e
    case QueryFulfilmentInitError(d) => "Error initializing query fulfilment service: " + d
    case ImageProcessingError(d) => "Image processing error: " + d
  }

  /** `convert_whatsapp_error_to_query_error`: an image failure is an OCR error, anything else a language-model error. */
  function ToQueryError(e: WhatsAppError): (q: QueryError)
    ensures e.ImageProcessingError? <==> q.OcrError?
    ensures e.QueryFulfilmentInitError? <==> q.LLMError?
    ensures q.detail == WhatsAppErrorText(e)
  {
    match e
    case ImageProcessingError(_) => OcrError(WhatsAppErrorText(e))
    case QueryFulfilmentInitError(_) => LLMError(WhatsAppErrorText(e))
  }

  /** What the user is told after either error. */
  lemma ConvertedErrorMessages(d: string)
    ensures UserMessage(ToQueryError(ImageProcessingError(d))) == ImageUnreadable
    ensures UserMessage(ToQueryError(QueryFulfilmentInitError(d))) == NotUnderstood
  {
  }

  function MapSegments(parts: seq<string>, encode: string -> string): (r: seq<string>)
    ensures |r| == |parts|
    ensures forall i :: 0 <= i < |parts| ==> r[i] == encode(parts[i])
  {
    seq(|parts|, i requires 0 <= i < |parts| => encode(parts[i]))
  }

  /** The path with every '/'-separated segment encoded, joined again with '/'. */
  function EncodedPath(path: string, encode: string -> string): string
  {
    Join(MapSegments(Split(path, '/'), encode), "/")
  }

  /** The public URL of a file to send as media. */
  function MediaUrl(fileBaseUrl: string, path: string, encode: string -> string): string
  {
    fileBaseUrl + "/" + EncodedPath(path, encode)
  }

  /**
   * As long as the encoder never yields '/', the encoded path has exactly the segments of the
   * file path, each encoded, so the server sees the same directory structure.
   */
  lemma MediaUrlKeepsSegments(path: string, encode: string -> string)
    requires forall s :: '/' !in encode(s)
    ensures Split(EncodedPath(path, encode), '/') == MapSegments(Split(path, '/'), encode)
    ensures |Split(EncodedPath(path, encode), '/')| == |Split(path, '/')|
  {
    var parts := MapSegments(Split(path, '/'), encode);
    SplitJoin(parts, '/');
  }

  /** With the identity encoding, the media URL is the base URL, '/', and the path itself. */
  lemma {:induction false} IdentityEncodingKeepsPath(fileBaseUrl: string, path: string)
    ensures MediaUrl(fileBaseUrl, path, s => s) == fileBaseUrl + "/" + path
  {
    JoinSplit(path);
  }

  lemma {:induction false} JoinSplit(s: string)
    ensures Join(MapSegments(Split(s, '/'), t => t), "/") == s
    decreases |s|
  {
    if |s| > 0 {
      var rest := Split(s[1..], '/');
      JoinSplit(s[1..]);
      assert MapSegments(rest, t => t) == rest;
      assert MapSegments(Split(s, '/'), t => t) == Split(s, '/');
      if s[0] == '/' {
        assert Split(s, '/') == [""] + rest;
        assert s == [s[0]] + s[1..];
      } else {
        assert Split(s, '/') == [[s[0]] + rest[0]] + rest[1..];
        if |rest| == 1 {
          assert s == [s[0]] + rest[0];
        } else {
          assert Join(rest, "/") == rest[0] + "/" + Join(rest[1..], "/");
          assert ([[s[0]] + rest[0]] + rest[1..])[1..] == rest[1..];
          assert s == [s[0]] + s[1..];
        }
      }
    }
  }

  /** How Twilio answered an outgoing message: not at all (the request failed), or with a status. */
  datatype TwilioAnswer = NoAnswer | StatusAnswer(success: bool, status: string)

  /** The message `process_query_response` sends: the file as media, else the text, else the error's message. */
  function QueryReply(result: Result<Response, QueryError>, fileBaseUrl: string, encode: string -> string): (e: Effect)
    ensures e.Answered?
    ensures e.mediaUrl.Some? <==> result.Success? && result.value.file.Some?
  {
    if result.Failure? then Answered(UserMessage(result.error), None)
    else if result.value.file.Some? then Answered("", Some(MediaUrl(fileBaseUrl, result.value.file.value, encode)))
    else Answered(result.value.text, None)
  }

  /** The admin alert `send_whatsapp_message[_with_media]` raises when Twilio answers with a failure status. */
  function DeliveryAlerts(answer: TwilioAnswer, sent: Effect, to: string): (r: seq<Effect>)
    requires sent.Answered?
    ensures |r| <= 1 && (|r| == 1 <==> answer.StatusAnswer? && !answer.success)
  {
    if answer.NoAnswer? || answer.success then []
    else if sent.mediaUrl.Some? then
      [Alerted(TextAlert("\U{274C} Error sending whatsapp message with media : " + sent.mediaUrl.value + ", to:" + to))]
    else [Alerted(TextAlert("\U{274C} Error sending whatsapp message - response state : " + answer.status + ", to:" + to))]
  }

  /**
   * The charge for the message sent, once Twilio answered, whatever the status: a media message
   * is logged with length 0, a text with its length in bytes.
   */
  function ReplyCharge(answer: TwilioAnswer, chargeReply: Reply, context: SessionContext, sent: Effect, now: int)
    : (r: seq<CostEvent>)
    requires sent.Answered?
    ensures |r| <= 1 && (|r| == 1 <==> answer.StatusAnswer? && chargeReply.Accepted?)
    ensures |r| == 1 ==> r[0].eventType == "whatsapp_outgoing" && r[0].userId == context.userId
                         && r[0].querySessionId == context.sessionId
  {
    if answer.NoAnswer? || !chargeReply.Accepted? then []
    else
      var length := if sent.mediaUrl.Some? then 0 else Utf8Len(sent.text);
      [LoggedEvent(WhatsappMessageBuilder(context, true, length, sent.mediaUrl.Some?), now)]
  }

  /**
   * `process_query_response`: on success the session is completed first, then the file goes out
   * as media or else the text; on failure the session is completed as failed and the user gets
   * the error's message. The message is charged once Twilio answers, and a failure status is
   * reported to the admin.
   */
  method ProcessQueryResponse(db: DatabaseService, from: string, queryText: string, context: SessionContext,
                              elapsedMs: nat, result: Result<Response, QueryError>, fileBaseUrl: string,
                              encode: string -> string, totalReply: Reply, updateReply: Reply, eventsReply: Reply,
                              twilio: TwilioAnswer, chargeReply: Reply, now: int)
    returns (effects: seq<Effect>)
    modifies db
    ensures var sent := QueryReply(result, fileBaseUrl, encode);
            var events := old(db.costEvents);
            var completion :=
              if result.Failure? then
                [Alerted(TextAlert(FailureAlert(queryText, result.error))), SessionCompletion(FailureResult(result.error, elapsedMs))]
              else
                [SessionCompletion(SuccessResult(result.value, elapsedMs))]
                + if updateReply.Accepted?
                  then [Alerted(CostAlert(CostNotificationOf(
                          context, queryText, ReadRows(totalReply, SessionTotal(events, context.sessionId)).GetOr(0.0),
                          AsI32(elapsedMs), ReadRows(eventsReply, EventsOfSession(events, context.sessionId)))))]
                  else [];
            effects == completion + [sent] + DeliveryAlerts(twilio, sent, from)
    ensures db.sessions == CompletedSessions(old(db.sessions), old(db.costEvents), context.sessionId, result, elapsedMs,
                                             totalReply, updateReply)
    ensures db.costEvents == old(db.costEvents)
                             + ReplyCharge(twilio, chargeReply, context, QueryReply(result, fileBaseUrl, encode), now)
    ensures db.users == old(db.users)
    ensures db.conversations == old(db.conversations) && db.messages == old(db.messages)
  {
    var sent := QueryReply(result, fileBaseUrl, encode);
    if result.Success? {
      effects := CompleteSessionWithSuccess(db, context, result.value, queryText, elapsedMs, totalReply, updateReply,
                                            eventsReply);
    } else {
      effects := CompleteSessionWithError(db, context, result.error, queryText, elapsedMs, totalReply, updateReply,
                                          eventsReply);
    }
    effects := effects + [sent];
    if twilio.StatusAnswer? {
      effects := effects + DeliveryAlerts(twilio, sent, from);
      var length := if sent.mediaUrl.Some? then 0 else Utf8Len(sent.text);
      var _ := db.LogWhatsappMessage(context, true, length, sent.mediaUrl.Some?, now, chargeReply);
    }
  }

  /** Exactly one message goes to the user, right after the session's completion. */
  lemma OneReplyAfterCompletion(result: Result<Response, QueryError>, fileBaseUrl: string, encode: string -> string,
                                completion: seq<Effect>, twilio: TwilioAnswer, from: string)
    requires forall i :: 0 <= i < |completion| ==> !completion[i].Answered?
    ensures var sent := QueryReply(result, fileBaseUrl, encode);
            var effects := completion + [sent] + DeliveryAlerts(twilio, sent, from);
            forall i :: 0 <= i < |effects| ==> (effects[i].Answered? <==> i == |completion|)
  {
  }
}
