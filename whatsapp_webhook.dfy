/**
 * The WhatsApp webhook (`webhook_handler` in src/communication/whatsapp/mod.rs): Twilio posts the
 * message's form fields; the sender is looked up by phone, refused or served, and charged for the
 * incoming message; help and non-image media are answered at once, and any other request is
 * acknowledged and handed to a background job. The reply is the text of the TwiML message; every
 * reply is charged as an outgoing message.
 */
module WhatsappWebhook {

  import opened Wrappers
  import opened Text
  import opened SessionTypes
  import opened CostTypes
  import opened CostService
  import opened DatabaseQueries
  import opened Database
  import DatabaseErrors
  import opened SessionHelpers
  import QueryFulfilment

  /**
   * One webhook call's inputs besides the form and the tables: a fresh session id, the clock, the
   * help file, and the database server's replies to the lookup, the session insert and the two
   * message charges.
   */
  datatype Hook = Hook(freshSessionId: Uuid, now: int, helpFile: Option<string>,
                       lookup: Reply, sessionReply: Reply, incomingReply: Reply, outgoingReply: Reply)

  /** The query a served request hands to the background: a text query, or an image with its caption. */
  datatype Job = TextJob(queryText: string) | ImageJob(mediaUrl: string, userText: string, queryText: string)

  const AccessDeniedText := "Access denied"
  const SystemErrorText := "System error"
  const ImagesOnly := "Please send only images with your request"
  const Processing := "Processing your request...please wait \U{23F3}"
  const WhatsappPrefix := "whatsapp:"

  /** The id sessions and charges of refused senders are recorded under (the nil UUID). */
  const NilUserId: Uuid := 0

  /** A form field, or the empty string when it is missing. */
  function Field(payload: map<string, string>, key: string): string
  {
    if key in payload then payload[key] else ""
  }

  /** The sender's number: `From` with one "whatsapp:" prefix removed when present. */
  function SenderPhone(from: string): string
  {
    StripPrefix(from, WhatsappPrefix).GetOr(from)
  }

  /**
   * A Twilio sender "whatsapp:" + number is looked up under exactly that string; a `From`
   * without the prefix is used as it is.
   */
  lemma SenderPhoneRoundTrip(from: string, number: string)
    ensures SenderPhone(WhatsappPrefix + number) == number
    ensures StartsWith(from, WhatsappPrefix) ==> WhatsappPrefix + SenderPhone(from) == from
    ensures !StartsWith(from, WhatsappPrefix) ==> SenderPhone(from) == from
  {
    var s := WhatsappPrefix + number;
    assert s[..|WhatsappPrefix|] == WhatsappPrefix && s[|WhatsappPrefix|..] == number;
  }

  /** The phone a served user's session carries: the stored number without its prefix, or "". */
  function StoredPhone(u: User): string
  {
    if u.phoneNumber.Some? then StripPrefix(u.phoneNumber.value, WhatsappPrefix).GetOr("") else ""
  }

  /** A number stored with the prefix is carried without it; a missing or unprefixed one becomes "". */
  lemma StoredPhoneDefaults(u: User, number: string)
    ensures u.phoneNumber == Some(WhatsappPrefix + number) ==> StoredPhone(u) == number
    ensures u.phoneNumber.None? ==> StoredPhone(u) == ""
    ensures u.phoneNumber.Some? && !StartsWith(u.phoneNumber.value, WhatsappPrefix) ==> StoredPhone(u) == ""
  {
    SenderPhoneRoundTrip(WhatsappPrefix + number, number);
  }

  /** The gate's verdict: refused (with the session type recorded), a failed lookup, or served. */
  datatype Verdict = Denied(sessionType: string) | Failed | Served(user: User)

  function WebhookGate(lookup: Result<Option<User>, DatabaseErrors.DatabaseError>): Verdict
  {
    match lookup
    case Failure(_) => Failed
    case Success(None) => Denied("unknown_user")
    case Success(Some(u)) => if IsAuthorized(u) then Served(u) else Denied("unauthorized")
  }

  /** The session context of a request: the user's own for a served sender, the nil user's otherwise. */
  function WebhookContext(verdict: Verdict, phone: string, h: Hook): (c: SessionContext)
    ensures c.platform == "whatsapp" && c.sessionId == h.freshSessionId
    ensures c.userId == if verdict.Served? then verdict.user.id else NilUserId
  {
    if verdict.Served? then WithPhone(NewContext(verdict.user.id, "whatsapp", h.freshSessionId), StoredPhone(verdict.user))
    else WithPhone(NewContext(NilUserId, "whatsapp", h.freshSessionId), phone)
  }

  /** What a served sender is answered, and the job started for the request. */
  function ServedAnswer(payload: map<string, string>, helpFile: Option<string>): (string, Option<Job>)
  {
    var body := Field(payload, "Body");
    if Trim(body) == "/help" || Trim(body) == "help" then (QueryFulfilment.HelpText(helpFile), None)
    else if "MediaUrl0" in payload then
      var mediaType := Field(payload, "MediaContentType0");
      if !StartsWith(mediaType, "image/") || mediaType == "" then (ImagesOnly, None)
      else (Processing, Some(ImageJob(payload["MediaUrl0"], body, "Image query: " + body)))
    else (Processing, Some(TextJob(body)))
  }

  /** The reply and the job for a request, by the gate's verdict. */
  function WebhookAnswer(payload: map<string, string>, verdict: Verdict, helpFile: Option<string>): (string, Option<Job>)
  {
    match verdict
    case Failed => (SystemErrorText, None)
    case Denied(_) => (AccessDeniedText, None)
    case Served(_) => ServedAnswer(payload, helpFile)
  }

  /** Only an active user's request starts a job; a failed lookup or a refused sender gets a fixed reply. */
  lemma JobsOnlyForServedRequests(payload: map<string, string>, lookup: Result<Option<User>, DatabaseErrors.DatabaseError>,
                                  helpFile: Option<string>)
    ensures WebhookAnswer(payload, WebhookGate(lookup), helpFile).1.Some? ==>
              lookup.Success? && lookup.value.Some? && IsAuthorized(lookup.value.value)
    ensures lookup.Failure? ==> WebhookAnswer(payload, WebhookGate(lookup), helpFile) == (SystemErrorText, None)
    ensures lookup == Success(None) ==> WebhookAnswer(payload, WebhookGate(lookup), helpFile) == (AccessDeniedText, None)
  {
  }

  /**
   * A request that starts a job is acknowledged at once and is not a help request; an image job
   * only for a content type starting with "image/", carrying the body as caption, and a text job
   * only without media, carrying the body as the query.
   */
  lemma JobsAreAcknowledged(payload: map<string, string>, helpFile: Option<string>)
    ensures var (reply, job) := ServedAnswer(payload, helpFile);
      && (job.Some? ==> reply == Processing && Trim(Field(payload, "Body")) != "help" && Trim(Field(payload, "Body")) != "/help")
      && (job.Some? && job.value.ImageJob? ==>
            "MediaUrl0" in payload && StartsWith(Field(payload, "MediaContentType0"), "image/")
            && job.value.queryText == "Image query: " + Field(payload, "Body") && job.value.userText == Field(payload, "Body"))
      && (job.Some? && job.value.TextJob? ==> "MediaUrl0" !in payload && job.value.queryText == Field(payload, "Body"))
  {
  }

  /** Help is answered before media is looked at, and any non-image media is refused without a job. */
  lemma HelpThenMediaCheck(payload: map<string, string>, u: User, helpFile: Option<string>)
    requires IsAuthorized(u)
    ensures var body := Trim(Field(payload, "Body"));
      (body == "/help" || body == "help") ==> WebhookAnswer(payload, Served(u), helpFile) == (QueryFulfilment.HelpText(helpFile), None)
    ensures var body := Trim(Field(payload, "Body"));
      body != "/help" && body != "help" && "MediaUrl0" in payload && !StartsWith(Field(payload, "MediaContentType0"), "image/")
      ==> WebhookAnswer(payload, Served(u), helpFile) == (ImagesOnly, None)
  {
  }

  /** The charge for one message, when its insert was accepted. */
  function Charge(reply: Reply, context: SessionContext, outgoing: bool, text: string, now: int): seq<CostEvent>
  {
    if reply.Accepted? then [LoggedEvent(WhatsappMessageBuilder(context, outgoing, Utf8Len(text), false), now)] else []
  }

  /** The session row a request opens: none after a failed lookup, otherwise one under the request's context. */
  function WebhookSessions(verdict: Verdict, context: SessionContext, body: string, h: Hook): seq<QuerySession>
  {
    if verdict.Failed? || !h.sessionReply.Accepted? then []
    else
      var queryType := if verdict.Denied? then verdict.sessionType else "text_query";
      [QuerySession(context.sessionId, context.userId, body, queryType, "processing", None, 0.0, None,
                    context.platform, None, h.now)]
  }

  /**
   * A refused sender's session and charges are recorded under the nil user with the sender's
   * number, as an "unauthorized" or "unknown_user" session; a failed lookup opens no session.
   */
  lemma RefusedRequestsRecorded(payload: map<string, string>, u: User, phone: string, h: Hook)
    requires !IsAuthorized(u) && h.sessionReply.Accepted?
    ensures var s := WebhookSessions(Denied("unauthorized"), WebhookContext(Denied("unauthorized"), phone, h), Field(payload, "Body"), h);
      |s| == 1 && s[0].userId == NilUserId && s[0].queryType == "unauthorized"
    ensures WebhookContext(Denied("unknown_user"), phone, h).userPhone == Some(phone)
    ensures WebhookSessions(Failed, WebhookContext(Failed, phone, h), Field(payload, "Body"), h) == []
  {
  }

  /** `send_text_response`: the outgoing message is charged, then returned as the TwiML body. */
  method SendTextResponse(db: DatabaseService, message: string, context: SessionContext, h: Hook) returns (reply: string)
    modifies db
    ensures reply == message
    ensures db.costEvents == old(db.costEvents) + Charge(h.outgoingReply, context, true, message, h.now)
    ensures db.users == old(db.users) && db.sessions == old(db.sessions)
    ensures db.conversations == old(db.conversations) && db.messages == old(db.messages)
  {
    var _ := db.LogWhatsappMessage(context, true, Utf8Len(message), false, h.now, h.outgoingReply);
    reply := message;
  }

  /** `webhook_handler`: the gate, the session and the incoming charge, then help, the media check or a job. */
  method WebhookHandler(db: DatabaseService, payload: map<string, string>, h: Hook)
    returns (reply: string, job: Option<Job>, effects: seq<Effect>)
    modifies db
    ensures var phone := SenderPhone(Field(payload, "From"));
      var verdict := WebhookGate(LookupOne(UsersWithPhone(old(db.users), WhatsappPrefix + phone), h.lookup));
      var context := WebhookContext(verdict, phone, h);
      var body := Field(payload, "Body");
      && (reply, job) == WebhookAnswer(payload, verdict, h.helpFile)
      && db.sessions == old(db.sessions) + WebhookSessions(verdict, context, body, h)
      && db.costEvents == old(db.costEvents)
                          + (if verdict.Failed? then [] else Charge(h.incomingReply, context, false, body, h.now))
                          + Charge(h.outgoingReply, context, true, reply, h.now)
      && effects == if verdict.Served? && !h.sessionReply.Accepted? then [Alerted(TextAlert(SessionCreationFailed))] else []
    ensures db.users == old(db.users)
    ensures db.conversations == old(db.conversations) && db.messages == old(db.messages)
  {
    var from := Field(payload, "From");
    var body := Field(payload, "Body");
    var phone := SenderPhone(from);
    var found := db.GetUserByPhone(phone, h.lookup);
    var verdict := WebhookGate(found);
    var context := WebhookContext(verdict, phone, h);
    effects := [];
    if verdict.Failed? {
      reply := SendTextResponse(db, SystemErrorText, context, h);
      return reply, None, effects;
    }
    if verdict.Denied? {
      var _ := db.CreateSessionWithContext(context, body, verdict.sessionType, h.now, h.sessionReply);
      var _ := db.LogWhatsappMessage(context, false, Utf8Len(body), false, h.now, h.incomingReply);
      reply := SendTextResponse(db, AccessDeniedText, context, h);
      return reply, None, effects;
    }
    var _, opening := CreateSessionOrError(db, context, body, "text_query", h.now, h.sessionReply);
    effects := opening;
    var _ := db.LogWhatsappMessage(context, false, Utf8Len(body), false, h.now, h.incomingReply);
    var answer := ServedAnswer(payload, h.helpFile);
    reply := SendTextResponse(db, answer.0, context, h);
    job := answer.1;
  }
}
