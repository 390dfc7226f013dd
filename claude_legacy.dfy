/**
 * The older `ClaudeAI` client (src/claude/mod.rs): Claude answers in plain JSON text that is
 * decoded into a six-way query, a parse failure is retried once with a stricter prompt, and a
 * failed Claude attempt falls back to a Groq model without tools. Both calls write their cost
 * event directly, attributed to the Telegram platform.
 */
module ClaudeLegacy {

  import opened Wrappers
  import opened Json
  import opened SessionTypes
  import opened CostTypes
  import opened CostService
  import opened Database
  import opened QuotationTypes
  import opened Quotation
  import opened Llm
  import opened LlmProviders

  /** The older `Query`: no stock or listing requests. */
  datatype LegacyQuery =
    | LegacyMetalPricing
    | LegacyGetPriceList(brand: string, keywords: seq<string>)
    | LegacyGetQuotation(quotation: QuotationRequest)
    | LegacyGetProformaInvoice(quotation: QuotationRequest)
    | LegacyGetPricesOnly(request: PriceOnlyRequest)
    | LegacyUnsupportedQuery

  /** The string items of an array, when every item is a string. */
  function AllStrings(items: seq<Json>): (r: Option<seq<string>>)
    ensures r.Some? <==> forall i :: 0 <= i < |items| ==> items[i].JString?
    ensures r.Some? ==> |r.value| == |items| && forall i :: 0 <= i < |items| ==> items[i] == JString(r.value[i])
    decreases |items|
  {
    if |items| == 0 then Some([])
    else if !items[0].JString? then None
    else
      match AllStrings(items[1..])
      case None => None
      case Some(rest) => Some([items[0].s] + rest)
  }

  /** The payload of `GetPriceList`: "keywords" must be strings; a missing "brand" is "kei". */
  function DecodePriceList(payload: Json): (r: Option<LegacyQuery>)
    ensures r.Some? ==> r.value.LegacyGetPriceList?
    ensures r.Some? && Get(payload, "brand").None? ==> r.value.brand == DefaultBrand
  {
    if !payload.JObject? then None
    else
      match Get(payload, "keywords")
      case None => None
      case Some(k) =>
        if !k.JArray? || AllStrings(k.items).None? then None
        else
          match Get(payload, "brand")
          case None => Some(LegacyGetPriceList(DefaultBrand, AllStrings(k.items).value))
          case Some(b) => if b.JString? then Some(LegacyGetPriceList(b.s, AllStrings(k.items).value)) else None
  }

  /**
   * Deserialising the older `Query` from its externally tagged JSON: a unit variant is its name,
   * or an object with its name as the only key and null as the value; any other variant an
   * object with the variant's name as its only key.
   */
  function DecodeLegacyQuery(j: Json, d: Decoders): (r: Option<LegacyQuery>)
    ensures j.JString? ==> (r.Some? <==> j.s == "MetalPricing" || j.s == "UnsupportedQuery")
    ensures j == JObject([("MetalPricing", JNull)]) ==> r == Some(LegacyMetalPricing)
    ensures j == JObject([("UnsupportedQuery", JNull)]) ==> r == Some(LegacyUnsupportedQuery)
  {
    if j.JString? then
      if j.s == "MetalPricing" then Some(LegacyMetalPricing)
      else if j.s == "UnsupportedQuery" then Some(LegacyUnsupportedQuery)
      else None
    else if j.JObject? && |j.fields| == 1 then
      var tag := j.fields[0].0;
      var payload := j.fields[0].1;
      if tag == "MetalPricing" then (if payload == JNull then Some(LegacyMetalPricing) else None)
      else if tag == "UnsupportedQuery" then (if payload == JNull then Some(LegacyUnsupportedQuery) else None)
      else if tag == "GetPriceList" then DecodePriceList(payload)
      else if tag == "GetQuotation" then
        (match d.quotation(payload) case Some(q) => Some(LegacyGetQuotation(q)) case None => None)
      else if tag == "GetProformaInvoice" then
        (match d.quotation(payload) case Some(q) => Some(LegacyGetProformaInvoice(q)) case None => None)
      else if tag == "GetPricesOnly" then
        (match d.priceOnly(payload) case Some(q) => Some(LegacyGetPricesOnly(q)) case None => None)
      else None
    else None
  }

  /** A price-list request without a brand is for "kei". */
  lemma {:induction false} MissingBrandIsKei(keywords: seq<string>, d: Decoders)
    ensures var items := seq(|keywords|, i requires 0 <= i < |keywords| => JString(keywords[i]));
      DecodeLegacyQuery(JObject([("GetPriceList", JObject([("keywords", JArray(items))]))]), d)
        == Some(LegacyGetPriceList(DefaultBrand, keywords))
  {
    var items := seq(|keywords|, i requires 0 <= i < |keywords| => JString(keywords[i]));
    var payload := JObject([("keywords", JArray(items))]);
    GetFindsFirstField(payload.fields, "keywords", 0);
    assert AllStrings(items).value == keywords;
  }

  /** `value[i]`: the item of an array, `null` for a missing one. */
  function Item(v: Json, i: nat): (r: Json)
  {
    if v.JArray? && i < |v.items| then v.items[i] else JNull
  }

  /** `parse_response`: the first content block's "text", decoded as a query. */
  function ParseResponse(response: Json, parseJson: string -> Option<Json>, d: Decoders): (r: Result<LegacyQuery, LLMError>)
    ensures r.Failure? ==> r.error == ParseError("")
    ensures r.Success? <==>
              exists text :: AsStr(Index(Item(Index(response, "content"), 0), "text")) == Some(text)
                             && parseJson(text).Some? && DecodeLegacyQuery(parseJson(text).value, d).Some?
  {
    match AsStr(Index(Item(Index(response, "content"), 0), "text"))
    case None => Failure(ParseError(""))
    case Some(text) =>
      match parseJson(text)
      case None => Failure(ParseError(""))
      case Some(j) =>
        match DecodeLegacyQuery(j, d)
        case None => Failure(ParseError(""))
        case Some(q) => Success(q)
  }

  /** The reply shape the Groq fallback produces is read back as its text. */
  lemma {:induction false} TextReplyIsParsed(text: string, parseJson: string -> Option<Json>, d: Decoders)
    ensures var shaped := JObject([("content", JArray([JObject([("text", JString(text))])]))]);
      ParseResponse(shaped, parseJson, d)
        == match parseJson(text)
           case None => Failure(ParseError(""))
           case Some(j) => if DecodeLegacyQuery(j, d).Some? then Success(DecodeLegacyQuery(j, d).value) else Failure(ParseError(""))
  {
    var block := JObject([("text", JString(text))]);
    var shaped := JObject([("content", JArray([block]))]);
    GetFindsFirstField(shaped.fields, "content", 0);
    GetFindsFirstField(block.fields, "text", 0);
  }

  /** The older request's reading of a Claude reply: only overload is told apart. */
  function LegacyClaudeOutcome(reply: ApiReply): (r: Result<Json, LLMError>)
    ensures r.Failure? ==> r.error.OverloadedError? || r.error.ClientError?
  {
    match reply
    case Unreachable(message) => Failure(ClientError(message))
    case Answer(body) =>
      match Get(body, "error")
      case Some(error) =>
        if ErrorField(error, "type") == OverloadedType then Failure(OverloadedError)
        else Failure(ClientError(ErrorField(error, "type") + ": " + ErrorField(error, "message")))
      case None => Success(body)
  }

  /**
   * The two Claude requests read every reply alike, except that a complaint about the tool input,
   * which the current request hands back for a retry, is a client error to the older one.
   */
  lemma LegacyReadsToolComplaintAsClientError(reply: ApiReply, showJson: Json -> string)
    ensures ClaudeOutcome(reply, showJson).Failure? && ClaudeOutcome(reply, showJson).error.ParseError? ==>
              LegacyClaudeOutcome(reply).Failure? && LegacyClaudeOutcome(reply).error.ClientError?
    ensures !(ClaudeOutcome(reply, showJson).Failure? && ClaudeOutcome(reply, showJson).error.ParseError?) ==>
              LegacyClaudeOutcome(reply) == ClaudeOutcome(reply, showJson)
  {
  }

  /** The older Claude cost event: the input rate as unit cost, the whole charge as amount. */
  function LegacyClaudeEvent(userId: Uuid, sessionId: Uuid, rates: ClaudeRates, u: ClaudeUsage, now: int): (e: CostEvent)
  {
    var c := ClaudeCostOf(rates, u.input, u.cacheRead, u.cacheWrite, u.output);
    var metadata := JObject([
      ("model", JString(ClaudeModel)),
      ("input_tokens", JNumber(u.input as real)),
      ("cache_read_tokens", JNumber(u.cacheRead as real)),
      ("output_tokens", JNumber(u.output as real)),
      ("input_cost", JNumber(c.inputCost)),
      ("cache_read_cost", JNumber(c.cacheReadCost)),
      ("cache_write_cost", JNumber(c.cacheWriteCost)),
      ("output_cost", JNumber(c.outputCost))]);
    CostEvent(userId, sessionId, "claude_api", rates.inputToken, "per_1m_tokens",
              u.input + u.cacheRead + u.cacheWrite + u.output,
              c.inputCost + c.cacheReadCost + c.cacheWriteCost + c.outputCost, Some(metadata), "telegram", now)
  }

  /**
   * The older and the current Claude charge agree on amount and units; the older one records the
   * input rate as unit cost and always the Telegram platform.
   */
  lemma LegacyClaudeChargeAgrees(context: SessionContext, rates: ClaudeRates, u: ClaudeUsage, now: int)
    ensures var e := LegacyClaudeEvent(context.userId, context.sessionId, rates, u, now);
            var current := LoggedTotalEvent(ClaudeCallBuilder(context, rates, u.input, u.cacheRead, u.cacheWrite,
                                                              u.output, ClaudeModel), now);
      && e.costAmount == current.costAmount && e.unitsConsumed == current.unitsConsumed
      && e.eventType == current.eventType && e.unitCost == rates.inputToken && e.platform == "telegram"
  {
  }

  const FallbackModel := "openai/gpt-oss-20b"

  /** The older Groq fallback's cost event. */
  function LegacyGroqEvent(userId: Uuid, sessionId: Uuid, rates: GroqRates, promptTokens: int, completionTokens: int,
                           now: int): (e: CostEvent)
  {
    var inputCost := (promptTokens as real * rates.inputToken) / 1000000.0;
    var outputCost := (completionTokens as real * rates.outputToken) / 1000000.0;
    var metadata := JObject([
      ("model", JString(FallbackModel)),
      ("prompt_tokens", JNumber(promptTokens as real)),
      ("completion_tokens", JNumber(completionTokens as real)),
      ("input_cost", JNumber(inputCost)),
      ("output_cost", JNumber(outputCost)),
      ("fallback_call", JBool(true))]);
    CostEvent(userId, sessionId, "groq_api", rates.inputToken, "per_1m_tokens", promptTokens + completionTokens,
              inputCost + outputCost, Some(metadata), "telegram", now)
  }

  /** The fallback is charged like a current Groq call, marked as a fallback. */
  lemma LegacyGroqChargeAgrees(context: SessionContext, rates: GroqRates, promptTokens: int, completionTokens: int, now: int)
    ensures var e := LegacyGroqEvent(context.userId, context.sessionId, rates, promptTokens, completionTokens, now);
            var current := LoggedTotalEvent(GroqCallBuilder(context, rates, promptTokens, completionTokens), now);
      && e.costAmount == current.costAmount && e.unitsConsumed == current.unitsConsumed
      && e.eventType == current.eventType && e.unitCost == rates.inputToken
      && Index(e.metadata.value, "fallback_call") == JBool(true)
  {
    var e := LegacyGroqEvent(context.userId, context.sessionId, rates, promptTokens, completionTokens, now);
    GetFindsFirstField(e.metadata.value.fields, "fallback_call", 5);
  }

  /** The inputs of the older client: replies, JSON parsing, decoders, the Groq key and the database's replies. */
  datatype LegacyEnv = LegacyEnv(
    api: (Provider, string) -> ApiReply,
    parseJson: string -> Option<Json>,
    decoders: Decoders,
    groqKey: Option<string>,
    claudeRates: RatesReply,
    groqRates: RatesReply,
    costReply: Reply,
    now: int)

  /** `make_api_request`: an answered call is charged; whether the charge was stored is ignored. */
  method LegacyClaudeRequest(db: DatabaseService, prompt: string, userId: Uuid, sessionId: Uuid, env: LegacyEnv)
    returns (r: Result<Json, LLMError>)
    modifies db
    ensures r == LegacyClaudeOutcome(env.api(ClaudeProvider, prompt))
    ensures var reply := env.api(ClaudeProvider, prompt);
            db.costEvents == old(db.costEvents)
              + (if ClaudeCharges(reply) && env.costReply.Accepted?
                 then [LegacyClaudeEvent(userId, sessionId, ClaudeRatesFrom(env.claudeRates).GetOr(DefaultClaudeRates),
                                         ClaudeUsageOf(reply.body), env.now)]
                 else [])
    ensures db.users == old(db.users) && db.sessions == old(db.sessions)
    ensures db.conversations == old(db.conversations) && db.messages == old(db.messages)
  {
    var reply := env.api(ClaudeProvider, prompt);
    r := LegacyClaudeOutcome(reply);
    if r.Success? {
      var loaded := GetClaudeRates(env.claudeRates);
      var event := LegacyClaudeEvent(userId, sessionId, loaded.GetOr(DefaultClaudeRates), ClaudeUsageOf(reply.body), env.now);
      var _ := db.LogCostEvent(event, env.costReply);
    }
  }

  const LegacyRetryPreamble := "Your previous response failed JSON parsing. Return ONLY valid JSON matching the exact schema. Original query: "

  /** One request on `prompt` and the parsing of its response. */
  function ClaudeAttempt(prompt: string, env: LegacyEnv): Result<LegacyQuery, LLMError>
  {
    match LegacyClaudeOutcome(env.api(ClaudeProvider, prompt))
    case Failure(e) => Failure(e)
    case Success(body) => ParseResponse(body, env.parseJson, env.decoders)
  }

  /** The first response arrived but could not be parsed, so `try_claude` asks once more. */
  predicate RetriesClaude(query: string, env: LegacyEnv)
  {
    var first := LegacyClaudeOutcome(env.api(ClaudeProvider, query));
    && first.Success?
    && ParseResponse(first.value, env.parseJson, env.decoders).Failure?
    && ParseResponse(first.value, env.parseJson, env.decoders).error.ParseError?
  }

  /** What `try_claude` returns: the retry's outcome after an unparsable first response, else the first. */
  function TryClaudeOutcome(query: string, env: LegacyEnv): Result<LegacyQuery, LLMError>
  {
    if RetriesClaude(query, env) then ClaudeAttempt(LegacyRetryPreamble + query, env) else ClaudeAttempt(query, env)
  }

  /**
   * `try_claude`: at most two requests; the second, with the stricter prompt, only after the
   * response could not be parsed. A failed request is returned at once.
   */
  method TryClaude(db: DatabaseService, query: string, userId: Uuid, sessionId: Uuid, env: LegacyEnv)
    returns (r: Result<LegacyQuery, LLMError>, prompts: seq<string>)
    modifies db
    ensures r == TryClaudeOutcome(query, env)
    ensures |prompts| == 2 <==> RetriesClaude(query, env)
    ensures 1 <= |prompts| <= 2 && prompts[0] == query
    ensures |prompts| == 2 ==> prompts[1] == LegacyRetryPreamble + query
    ensures |prompts| == 2 ==> var first := LegacyClaudeOutcome(env.api(ClaudeProvider, query));
                               first.Success? && ParseResponse(first.value, env.parseJson, env.decoders).Failure?
    ensures |prompts| == 1 ==> r == (match LegacyClaudeOutcome(env.api(ClaudeProvider, query))
                                      case Failure(e) => Failure(e)
                                      case Success(body) => ParseResponse(body, env.parseJson, env.decoders))
    ensures |prompts| == 1 ==> !(r.Failure? && r.error.ParseError?)
    ensures db.users == old(db.users) && db.sessions == old(db.sessions)
    ensures db.conversations == old(db.conversations) && db.messages == old(db.messages)
  {
    var retried := false;
    prompts := [];
    while true
      invariant |prompts| == (if retried then 1 else 0)
      invariant retried ==> prompts[0] == query
      invariant retried ==> var first := LegacyClaudeOutcome(env.api(ClaudeProvider, query));
                            first.Success? && ParseResponse(first.value, env.parseJson, env.decoders).Failure?
      invariant db.users == old(db.users) && db.sessions == old(db.sessions)
      invariant db.conversations == old(db.conversations) && db.messages == old(db.messages)
      decreases if retried then 0 else 1
    {
      var text := if retried then LegacyRetryPreamble + query else query;
      prompts := prompts + [text];
      var response := LegacyClaudeRequest(db, text, userId, sessionId, env);
      if response.Failure? {
        return Failure(response.error), prompts;
      }
      r := ParseResponse(response.value, env.parseJson, env.decoders);
      if r.Failure? && r.error.ParseError? && !retried {
        retried := true;
        continue;
      }
      return r, prompts;
    }
  }

  /** The text the Groq fallback's first choice carries, if any. */
  function FallbackText(body: Json): (t: Option<string>)
  {
    var choices := Get(body, "choices");
    if choices.None? || !choices.value.JArray? || |choices.value.items| == 0 then None
    else
      match Get(choices.value.items[0], "message")
      case None => None
      case Some(message) => AsStr(Get(message, "content").GetOr(JNull))
  }

  /** What `understand_using_groq` returns. */
  function FallbackOutcome(groqKey: Option<string>, reply: ApiReply): (r: Result<Json, LLMError>)
    ensures groqKey.None? ==> r == Failure(GroqError("GROQ_API_KEY not found"))
    ensures r.Success? <==> groqKey.Some? && reply.Answer? && FallbackText(reply.body).Some?
  {
    if groqKey.None? then Failure(GroqError("GROQ_API_KEY not found"))
    else
      match reply
      case Unreachable(message) => Failure(GroqError(message))
      case Answer(body) =>
        match FallbackText(body)
        case Some(text) => Success(JObject([("content", JArray([JObject([("text", JString(text))])]))]))
        case None => Failure(GroqError("Invalid Groq response format"))
  }

  /**
   * `understand_using_groq`: without a key nothing is sent; the call is charged only when the
   * reply carries text, and then that text is handed on as a single content block.
   */
  method UnderstandUsingGroq(db: DatabaseService, query: string, userId: Uuid, sessionId: Uuid, env: LegacyEnv)
    returns (r: Result<Json, LLMError>)
    modifies db
    ensures r == FallbackOutcome(env.groqKey, env.api(GroqProvider, query))
    ensures var reply := env.api(GroqProvider, query);
            var tokens := if reply.Answer? then GroqTokens(reply.body) else (0, 0);
            db.costEvents == old(db.costEvents)
              + (if r.Success? && env.costReply.Accepted?
                 then [LegacyGroqEvent(userId, sessionId, GroqRatesFrom(env.groqRates).GetOr(DefaultGroqRates),
                                       tokens.0, tokens.1, env.now)]
                 else [])
    ensures db.users == old(db.users) && db.sessions == old(db.sessions)
    ensures db.conversations == old(db.conversations) && db.messages == old(db.messages)
  {
    if env.groqKey.None? {
      return Failure(GroqError("GROQ_API_KEY not found"));
    }
    var reply := env.api(GroqProvider, query);
    if reply.Unreachable? {
      return Failure(GroqError(reply.message));
    }
    var tokens := GroqTokens(reply.body);
    var loaded := GetGroqRates(env.groqRates);
    var rates := loaded.GetOr(DefaultGroqRates);
    var text := FallbackText(reply.body);
    if text.None? {
      return Failure(GroqError("Invalid Groq response format"));
    }
    var _ := db.LogCostEvent(LegacyGroqEvent(userId, sessionId, rates, tokens.0, tokens.1, env.now), env.costReply);
    r := Success(JObject([("content", JArray([JObject([("text", JString(text.value))])]))]));
  }

  /** What the older `parse_query` returns: Claude's outcome when it succeeds, else the parsed Groq fallback. */
  function LegacyOutcome(query: string, env: LegacyEnv): Result<LegacyQuery, LLMError>
  {
    var claude := TryClaudeOutcome(query, env);
    if claude.Success? then claude
    else
      match FallbackOutcome(env.groqKey, env.api(GroqProvider, query))
      case Failure(e) => Failure(e)
      case Success(shaped) => ParseResponse(shaped, env.parseJson, env.decoders)
  }

  /**
   * A successful first Claude response is the answer with no second request; a Claude failure
   * without a Groq key is reported as the missing key, whatever Claude's error was.
   */
  lemma LegacyOutcomeCases(query: string, env: LegacyEnv)
    ensures ClaudeAttempt(query, env).Success? ==> LegacyOutcome(query, env) == ClaudeAttempt(query, env)
    ensures TryClaudeOutcome(query, env).Failure? && env.groqKey.None? ==>
              LegacyOutcome(query, env) == Failure(GroqError("GROQ_API_KEY not found"))
    ensures LegacyOutcome(query, env).Failure? ==> TryClaudeOutcome(query, env).Failure?
  {
  }

  /** `parse_query`: Claude first; Groq only when Claude failed, and then Groq's outcome. */
  method LegacyParseQuery(db: DatabaseService, query: string, userId: Uuid, sessionId: Uuid, env: LegacyEnv)
    returns (r: Result<LegacyQuery, LLMError>, attempts: seq<Provider>)
    modifies db
    ensures 1 <= |attempts| <= 2 && attempts[0] == ClaudeProvider
    ensures |attempts| == 2 ==> attempts[1] == GroqProvider
    ensures r.Failure? ==> |attempts| == 2
    ensures |attempts| == 2 <==> TryClaudeOutcome(query, env).Failure?
    ensures r == LegacyOutcome(query, env)
    ensures |attempts| == 2 ==>
              r == (match FallbackOutcome(env.groqKey, env.api(GroqProvider, query))
                    case Failure(e) => Failure(e)
                    case Success(shaped) => ParseResponse(shaped, env.parseJson, env.decoders))
    ensures db.users == old(db.users) && db.sessions == old(db.sessions)
    ensures db.conversations == old(db.conversations) && db.messages == old(db.messages)
  {
    var prompts;
    r, prompts := TryClaude(db, query, userId, sessionId, env);
    attempts := [ClaudeProvider];
    if r.Failure? {
      attempts := attempts + [GroqProvider];
      var shaped := UnderstandUsingGroq(db, query, userId, sessionId, env);
      if shaped.Failure? {
        return Failure(shaped.error), attempts;
      }
      r := ParseResponse(shaped.value, env.parseJson, env.decoders);
    }
  }
}
