/**
 * The two model providers (src/llm/llm_providers/): what one request to Claude or to Groq makes
 * of the HTTP reply, the cost each answered call is charged, how Groq's OpenAI-style reply is
 * reshaped into Claude's content blocks, and when a failed attempt is retried with a stricter
 * prompt. The HTTP exchange is an input `ApiReply`.
 */
module LlmProviders {

  import opened Wrappers
  import opened Text
  import opened Json
  import opened Numbers
  import opened SessionTypes
  import opened CostTypes
  import opened DatabaseErrors
  import opened Llm

  /** One request to a provider: it could not be sent or read, or the JSON body came back. */
  datatype ApiReply = Unreachable(message: string) | Answer(body: Json)

  const ClaudeModel := "claude-sonnet-4-20250514"
  const GroqModel := "moonshotai/kimi-k2-instruct"

  /** `Option::and_then(|v| v.get(key))`. */
  function Field(v: Option<Json>, key: string): (r: Option<Json>)
    ensures r.Some? ==> v.Some?
  {
    if v.Some? then Get(v.value, key) else None
  }

  /** A token count: `as_i64`, zero when absent or not an integer, then `as i32`. */
  function Tokens(t: Option<Json>): (n: int)
    ensures I32Min <= n < I32Min + I32Modulus
    ensures t.None? || !t.value.JNumber? ==> n == 0
    ensures t.Some? && t.value.JNumber? && t.value.n == t.value.n.Floor as real && 0 <= t.value.n.Floor < 0x8000_0000 ==>
              n == t.value.n.Floor
  {
    var count := if t.Some? && t.value.JNumber? then AsI64(t.value.n) else None;
    AsI32(count.GetOr(0))
  }

  // ---------------------------------------------------------------- Claude

  /** The token counts a Claude reply reports under "usage". */
  datatype ClaudeUsage = ClaudeUsage(input: int, cacheRead: int, cacheWrite: int, output: int)

  function ClaudeUsageOf(body: Json): ClaudeUsage
  {
    var usage := Get(body, "usage");
    ClaudeUsage(Tokens(Field(usage, "input_tokens")), Tokens(Field(usage, "cache_read_input_tokens")),
                Tokens(Field(Field(usage, "cache_creation"), "ephemeral_1h_input_tokens")),
                Tokens(Field(usage, "output_tokens")))
  }

  const OverloadedType := "overloaded_error"
  const InvalidRequestType := "invalid_request_error"

  /** An invalid-request message that complains about the tool call rather than the request. */
  predicate ComplainsAboutTools(message: string)
  {
    Contains(message, "input_schema") || Contains(message, "tool") || Contains(message, "JSON schema")
  }

  /** A string field of an error object, "unknown" when absent. */
  function ErrorField(error: Json, key: string): string
  {
    AsStr(Index(error, key)).GetOr("unknown")
  }

  /**
   * The error an "error" object in a Claude reply is read as: overloaded, a parse error carrying
   * the whole reply (so that the attempt is retried) when the request was refused for its tool
   * input, and a client error naming type and message otherwise.
   */
  function ClaudeApiError(error: Json, body: Json, showJson: Json -> string): (e: LLMError)
    ensures e.OverloadedError? || e.ParseError? || e.ClientError?
    ensures e.OverloadedError? <==> ErrorField(error, "type") == OverloadedType
    ensures e.ParseError? <==>
              ErrorField(error, "type") == InvalidRequestType && ComplainsAboutTools(ErrorField(error, "message"))
    ensures e.ParseError? ==> e.detail == showJson(body)
    ensures e.ClientError? ==> e.message == ErrorField(error, "type") + ": " + ErrorField(error, "message")
  {
    var errorType := ErrorField(error, "type");
    var message := ErrorField(error, "message");
    if errorType == OverloadedType then OverloadedError
    else if errorType == InvalidRequestType && ComplainsAboutTools(message) then ParseError(showJson(body))
    else ClientError(errorType + ": " + message)
  }

  /** What Claude's `make_api_request` returns for a reply. */
  function ClaudeOutcome(reply: ApiReply, showJson: Json -> string): (r: Result<Json, LLMError>)
  {
    match reply
    case Unreachable(message) => Failure(ClientError(message))
    case Answer(body) =>
      match Get(body, "error")
      case Some(error) => Failure(ClaudeApiError(error, body, showJson))
      case None => Success(body)
  }

  /** Claude's call is charged exactly when the reply is a body without an "error" field. */
  predicate ClaudeCharges(reply: ApiReply)
  {
    reply.Answer? && Get(reply.body, "error").None?
  }

  /**
   * A Claude request succeeds exactly when it is charged, and then hands on the reply unchanged;
   * an unsent request is a client error and never a parse error, so it is not retried.
   */
  lemma ClaudeOutcomeSpec(reply: ApiReply, showJson: Json -> string)
    ensures ClaudeOutcome(reply, showJson).Success? <==> ClaudeCharges(reply)
    ensures ClaudeCharges(reply) ==> ClaudeOutcome(reply, showJson) == Success(reply.body)
    ensures reply.Unreachable? ==> ClaudeOutcome(reply, showJson) == Failure(ClientError(reply.message))
    ensures ClaudeOutcome(reply, showJson).Failure? && ClaudeOutcome(reply, showJson).error.ParseError? ==>
              reply.Answer? && ComplainsAboutTools(ErrorField(Get(reply.body, "error").value, "message"))
  {
  }

  /** An overloaded API is reported as such whatever the message says. */
  lemma OverloadedExample(showJson: Json -> string)
    ensures ClaudeOutcome(Answer(JObject([("error", JObject([("type", JString(OverloadedType)),
                                                             ("message", JString("tool"))]))])), showJson)
         == Failure(OverloadedError)
  {
  }

  // ---------------------------------------------------------------- Groq

  /** A Groq tool in OpenAI's function format, built from a Claude tool definition. */
  function GroqTool(tool: Json): (g: Json)
    ensures Index(g, "type") == JString("function")
    ensures Index(Index(g, "function"), "name") == Index(tool, "name")
    ensures Index(Index(g, "function"), "parameters") == Index(tool, "input_schema")
  {
    var definition := JObject([("name", Index(tool, "name")), ("description", Index(tool, "description")),
                             ("parameters", Index(tool, "input_schema"))]);
    GetFindsFirstField(definition.fields, "name", 0);
    GetFindsFirstField(definition.fields, "parameters", 2);
    var g := JObject([("type", JString("function")), ("function", definition)]);
    GetFindsFirstField(g.fields, "type", 0);
    GetFindsFirstField(g.fields, "function", 1);
    g
  }

  /** The Groq tools for a list of Claude tools. */
  function GroqTools(tools: seq<Json>): (g: seq<Json>)
    ensures |g| == |tools|
  {
    seq(|tools|, i requires 0 <= i < |tools| => GroqTool(tools[i]))
  }

  /** The loop of `get_groq_tool_definitions`. */
  method GroqToolDefinitions(tools: seq<Json>) returns (groqTools: seq<Json>)
    ensures groqTools == GroqTools(tools)
  {
    groqTools := [];
    for i := 0 to |tools|
      invariant groqTools == GroqTools(tools[..i])
    {
      assert tools[..i + 1] == tools[..i] + [tools[i]];
      groqTools := groqTools + [GroqTool(tools[i])];
    }
    assert tools[..|tools|] == tools;
  }

  /** Groq is offered the same tools as Claude, in the same order, under the same names. */
  lemma GroqToolsKeepNames(describe: string -> (string, Json))
    ensures |GroqTools(ToolDefinitions(describe))| == |ToolNames|
    ensures forall i :: 0 <= i < |ToolNames| ==>
              Index(Index(GroqTools(ToolDefinitions(describe))[i], "function"), "name") == JString(ToolNames[i])
  {
  }

  /** The reply reports a failed tool call (`"code": "tool_use_failed"`). */
  predicate ToolUseFailed(body: Json)
  {
    Get(body, "error").Some? && AsStr(Index(Get(body, "error").value, "code")) == Some("tool_use_failed")
  }

  /** The cost event of a Groq call, charged per million tokens from the rates loaded. */
  function GroqCallBuilder(context: SessionContext, rates: GroqRates, promptTokens: int, completionTokens: int)
    : (b: CostEventBuilder)
  {
    var inputCost := (promptTokens as real * rates.inputToken) / 1000000.0;
    var outputCost := (completionTokens as real * rates.outputToken) / 1000000.0;
    var metadata := JObject([
      ("model", JString(GroqModel)),
      ("prompt_tokens", JNumber(promptTokens as real)),
      ("completion_tokens", JNumber(completionTokens as real)),
      ("input_cost", JNumber(inputCost)),
      ("output_cost", JNumber(outputCost))]);
    WithMetadata(WithCost(NewBuilder(context, "groq_api"), inputCost + outputCost, "per_1m_tokens",
                          promptTokens + completionTokens), metadata)
  }

  /** A Groq event is a "groq_api" charge of the rate-weighted tokens per million, counting both kinds. */
  lemma GroqCallCost(context: SessionContext, rates: GroqRates, promptTokens: int, completionTokens: int, now: int)
    ensures var e := LoggedTotalEvent(GroqCallBuilder(context, rates, promptTokens, completionTokens), now);
      && e.eventType == "groq_api" && e.unitType == "per_1m_tokens"
      && e.costAmount == (promptTokens as real * rates.inputToken + completionTokens as real * rates.outputToken) / 1000000.0
      && e.unitsConsumed == promptTokens + completionTokens
      && e.querySessionId == context.sessionId && e.userId == context.userId
  {
  }

  /** The prompt and completion token counts of a Groq reply. */
  function GroqTokens(body: Json): (int, int)
  {
    var usage := Get(body, "usage");
    (Tokens(Field(usage, "prompt_tokens")), Tokens(Field(usage, "completion_tokens")))
  }

  /** The single content block Groq's reply is reshaped into, if it has one. */
  function GroqBlock(body: Json, parseJson: string -> Option<Json>): (b: Option<Json>)
  {
    var choices := Get(body, "choices");
    if choices.None? || !choices.value.JArray? || |choices.value.items| == 0 then None
    else
      match Get(choices.value.items[0], "message")
      case None => None
      case Some(message) =>
        var toolCalls := Get(message, "tool_calls");
        if toolCalls.Some? && toolCalls.value.JArray? && |toolCalls.value.items| > 0 then
          var definition := Index(toolCalls.value.items[0], "function");
          var arguments := AsStr(Index(definition, "arguments")).GetOr("{}");
          Some(JObject([("type", JString("tool_use")), ("name", Index(definition, "name")),
                        ("input", parseJson(arguments).GetOr(JObject([])))]))
        else
          match AsStr(Get(message, "content").GetOr(JNull))
          case Some(text) => Some(JObject([("text", JString(text))]))
          case None => None
  }

  /** The response shape of Groq's `make_api_request` once the cost is logged. */
  function GroqShape(body: Json, parseJson: string -> Option<Json>): (r: Result<Json, LLMError>)
    ensures r.Failure? <==> GroqBlock(body, parseJson).None?
    ensures r.Failure? ==> r.error == GroqError("Invalid Groq response format")
    ensures r.Success? ==> Index(r.value, "content") == JArray([GroqBlock(body, parseJson).value])
  {
    match GroqBlock(body, parseJson)
    case None => Failure(GroqError("Invalid Groq response format"))
    case Some(block) =>
      var shaped := JObject([("content", JArray([block]))]);
      GetFindsFirstField(shaped.fields, "content", 0);
      Success(shaped)
  }

  /**
   * What Groq's `make_api_request` returns, given whether the cost event could be sent: a failed
   * tool call is a parse error (and is not charged); an unsent cost event fails the request.
   */
  function GroqOutcome(reply: ApiReply, parseJson: string -> Option<Json>, costLogged: Result<(), DatabaseError>)
    : (r: Result<Json, LLMError>)
  {
    match reply
    case Unreachable(message) => Failure(GroqError(message))
    case Answer(body) =>
      if ToolUseFailed(body) then Failure(ParseError(""))
      else if costLogged.Failure? then Failure(GroqError("Failed to log cost"))
      else GroqShape(body, parseJson)
  }

  /** Groq's call is charged when a body comes back that does not report a failed tool call. */
  predicate GroqCharges(reply: ApiReply)
  {
    reply.Answer? && !ToolUseFailed(reply.body)
  }

  /**
   * Groq's only parse error is a failed tool call; a charged call fails only when its cost could
   * not be logged or the reply has no usable message.
   */
  lemma GroqOutcomeSpec(reply: ApiReply, parseJson: string -> Option<Json>, costLogged: Result<(), DatabaseError>)
    ensures var r := GroqOutcome(reply, parseJson, costLogged);
      && (r.Failure? && r.error.ParseError? <==> reply.Answer? && ToolUseFailed(reply.body))
      && (r.Success? <==> GroqCharges(reply) && costLogged.Success? && GroqBlock(reply.body, parseJson).Some?)
  {
  }

  /**
   * Groq's reply is read like Claude's: a tool call becomes the first (and only) tool_use block,
   * named as the call was; a text-only reply has no tool_use block and is an unsupported query.
   */
  lemma {:induction false} GroqReplyReadsLikeClaude(body: Json, parseJson: string -> Option<Json>, d: Decoders, runsTools: bool)
    requires GroqShape(body, parseJson).Success?
    ensures var shaped := GroqShape(body, parseJson).value;
            var block := GroqBlock(body, parseJson).value;
      && Index(shaped, "content").JArray?
      && (FirstToolUse(Index(shaped, "content").items).Some? <==> Index(block, "type") == JString("tool_use"))
      && (Index(block, "type") != JString("tool_use") ==>
            ResponseDecision(shaped, d, runsTools) == Decided(Success(UnsupportedQuery)))
  {
    var block := GroqBlock(body, parseJson).value;
    var blocks := Index(GroqShape(body, parseJson).value, "content").items;
    assert blocks == [block];
    var fields := block.fields;
    if |fields| == 3 {
      GetFindsFirstField(fields, "type", 0);
    } else {
      assert fields == [("text", fields[0].1)];
      assert Get(block, "type") == None;
    }
  }

  // ---------------------------------------------------------------- retrying

  /** Where a failed attempt failed: in the provider's request, or reading its response. */
  datatype Stage = RequestStage | ParsingStage

  /**
   * The retry rule as the two `try_parse` loops are written: Claude retries a parse error from
   * either stage, Groq only one from reading the response.
   */
  predicate RetriesAsWritten(p: Provider, stage: Stage, e: LLMError)
  {
    e.ParseError? && (p == ClaudeProvider || stage == ParsingStage)
  }

  /**
   * The retry rule the model uses: a parse error from either stage is retried once, for both
   * providers, which is what Groq's request means by turning a failed tool call into a parse error.
   */
  predicate Retries(p: Provider, stage: Stage, e: LLMError)
  {
    e.ParseError?
  }

  /** The two rules differ only on Groq's parse errors from the request, i.e. failed tool calls. */
  lemma RetryRulesDiffer(p: Provider, stage: Stage, e: LLMError)
    ensures RetriesAsWritten(p, stage, e) != Retries(p, stage, e) <==>
              p == GroqProvider && stage == RequestStage && e.ParseError?
  {
  }

  /**
   * A Groq reply reporting a failed tool call is read as a parse error that the loop as written
   * returns at once, while the corrected rule retries it.
   */
  lemma GroqToolUseFailureNotRetriedAsWritten(parseJson: string -> Option<Json>, costLogged: Result<(), DatabaseError>)
    ensures var body := JObject([("error", JObject([("code", JString("tool_use_failed"))]))]);
      && GroqOutcome(Answer(body), parseJson, costLogged) == Failure(ParseError(""))
      && !RetriesAsWritten(GroqProvider, RequestStage, ParseError(""))
      && Retries(GroqProvider, RequestStage, ParseError(""))
  {
    var error := JObject([("code", JString("tool_use_failed"))]);
    GetFindsFirstField([("error", error)], "error", 0);
    GetFindsFirstField(error.fields, "code", 0);
  }

  const SchemaReminder := "Your previous response was not as per input schema. Return ONLY valid tool call with input matching the exact input schema."

  /** A prompt made of four parts mentions its second and its last part. */
  lemma MentionsBoth(a: string, t: string, b: string, u: string)
    ensures Contains(a + t + b + u, t) && Contains(a + t + b + u, u)
  {
    ContainsInfix(a, t, b + u);
    assert a + t + b + u == a + t + (b + u);
    ContainsSuffix(a + t + b, u);
  }

  /** A prompt made of three parts mentions its first and its last part. */
  lemma MentionsEnds(t: string, b: string, u: string)
    ensures Contains(t + b + u, t) && Contains(t + b + u, u)
  {
    ContainsInfix([], t, b + u);
    assert [] + t + (b + u) == t + b + u;
    ContainsSuffix(t + b, u);
  }

  /** The stricter prompt of the second attempt; Claude's also quotes what went wrong. */
  function RetryPrompt(p: Provider, query: string, detail: string): (s: string)
    ensures Contains(s, query) && Contains(s, SchemaReminder)
    ensures |s| > |query|
  {
    if p == ClaudeProvider then
      MentionsBoth("Original query: ", query, "\nYour response:" + detail + "\n", SchemaReminder);
      "Original query: " + query + ("\nYour response:" + detail + "\n") + SchemaReminder
    else
      MentionsEnds(SchemaReminder, " Original query: ", query);
      SchemaReminder + " Original query: " + query
  }
}
