/**
 * The orchestrator's control flow (src/llm/mod.rs and the two `try_parse` loops): understanding
 * a query with the primary provider and falling back to the other, the retry with a stricter
 * prompt after a parse error, and the second round after an information tool ran. Every answered
 * request is charged to the session as a cost event.
 *
 * The world outside is an input `Env`: each provider's reply to each prompt, JSON parsing and
 * printing, the quotation decoders, how a price-list listing is printed for the model, the
 * configured price lists, and the database's replies.
 */
module LlmOrchestrator {

  import opened Wrappers
  import opened Json
  import opened SessionTypes
  import opened CostTypes
  import opened CostService
  import opened Database
  import opened PriceList
  import opened Llm
  import opened LlmProviders

  datatype Env = Env(
    api: (Provider, string) -> ApiReply,
    showJson: Json -> string,
    parseJson: string -> Option<Json>,
    decoders: Decoders,
    renderListing: seq<PriceListInfo> -> string,
    pricelists: Option<PriceListService>,
    claudeRates: RatesReply,
    groqRates: RatesReply,
    costReply: Reply,
    now: int)

  /** What one request to `p` returns, with the cost event's insert answered by `costReply`. */
  function RequestOutcome(p: Provider, prompt: string, env: Env): Result<Json, LLMError>
  {
    match p
    case ClaudeProvider => ClaudeOutcome(env.api(p, prompt), env.showJson)
    case GroqProvider => GroqOutcome(env.api(p, prompt), env.parseJson, InsertOutcome(env.costReply))
  }

  /** A request to either provider succeeds only when the provider answered. */
  lemma SuccessNeedsAnswer(p: Provider, prompt: string, env: Env)
    ensures RequestOutcome(p, prompt, env).Success? ==> env.api(p, prompt).Answer?
    ensures env.api(p, prompt).Unreachable? ==> !RequestOutcome(p, prompt, env).Success?
  {
  }

  /**
   * The cost events after `before` are new rows, each a model call charged to the session of
   * `context`.
   */
  predicate ChargedToSession(before: seq<CostEvent>, after: seq<CostEvent>, context: SessionContext)
  {
    && before <= after
    && forall i :: |before| <= i < |after| ==>
         after[i].userId == context.userId && after[i].querySessionId == context.sessionId
         && (after[i].eventType == "claude_api" || after[i].eventType == "groq_api")
  }

  lemma ChargedToSessionTrans(a: seq<CostEvent>, b: seq<CostEvent>, c: seq<CostEvent>, context: SessionContext)
    requires ChargedToSession(a, b, context) && ChargedToSession(b, c, context)
    ensures ChargedToSession(a, c, context)
  {
  }

  /** Claude's `make_api_request`: the reply is classified, and an answered call is charged. */
  method ClaudeRequest(db: DatabaseService, prompt: string, context: SessionContext, env: Env)
    returns (r: Result<Json, LLMError>)
    modifies db
    ensures r == RequestOutcome(ClaudeProvider, prompt, env)
    ensures var reply := env.api(ClaudeProvider, prompt);
            var u := if reply.Answer? then ClaudeUsageOf(reply.body) else ClaudeUsage(0, 0, 0, 0);
            db.costEvents == old(db.costEvents)
              + (if ClaudeCharges(reply) && env.costReply.Accepted?
                 then [LoggedTotalEvent(ClaudeCallBuilder(context, ClaudeRatesFrom(env.claudeRates).GetOr(DefaultClaudeRates),
                                                          u.input, u.cacheRead, u.cacheWrite, u.output, ClaudeModel), env.now)]
                 else [])
    ensures ChargedToSession(old(db.costEvents), db.costEvents, context)
    ensures db.users == old(db.users) && db.sessions == old(db.sessions)
    ensures db.conversations == old(db.conversations) && db.messages == old(db.messages)
  {
    var reply := env.api(ClaudeProvider, prompt);
    if reply.Unreachable? {
      return Failure(ClientError(reply.message));
    }
    var error := Get(reply.body, "error");
    if error.Some? {
      return Failure(ClaudeApiError(error.value, reply.body, env.showJson));
    }
    var u := ClaudeUsageOf(reply.body);
    var _ := db.LogClaudeApiCall(context, u.input, u.cacheRead, u.cacheWrite, u.output, ClaudeModel,
                                 env.claudeRates, env.now, env.costReply);
    ClaudeCallCost(context, ClaudeRatesFrom(env.claudeRates).GetOr(DefaultClaudeRates),
                   u.input, u.cacheRead, u.cacheWrite, u.output, ClaudeModel, env.now);
    r := Success(reply.body);
  }

  /**
   * Groq's `make_api_request`: a failed tool call is a parse error; otherwise the call is charged
   * before the reply is reshaped, and a cost event that could not be sent fails the request.
   */
  method GroqRequest(db: DatabaseService, prompt: string, context: SessionContext, env: Env)
    returns (r: Result<Json, LLMError>)
    modifies db
    ensures r == RequestOutcome(GroqProvider, prompt, env)
    ensures var reply := env.api(GroqProvider, prompt);
            var tokens := if reply.Answer? then GroqTokens(reply.body) else (0, 0);
            db.costEvents == old(db.costEvents)
              + (if GroqCharges(reply) && env.costReply.Accepted?
                 then [LoggedTotalEvent(GroqCallBuilder(context, GroqRatesFrom(env.groqRates).GetOr(DefaultGroqRates),
                                                        tokens.0, tokens.1), env.now)]
                 else [])
    ensures ChargedToSession(old(db.costEvents), db.costEvents, context)
    ensures db.users == old(db.users) && db.sessions == old(db.sessions)
    ensures db.conversations == old(db.conversations) && db.messages == old(db.messages)
  {
    var reply := env.api(GroqProvider, prompt);
    if reply.Unreachable? {
      return Failure(GroqError(reply.message));
    }
    if ToolUseFailed(reply.body) {
      return Failure(ParseError(""));
    }
    var tokens := GroqTokens(reply.body);
    var loaded := GetGroqRates(env.groqRates);
    var rates := loaded.GetOr(DefaultGroqRates);
    GroqCallCost(context, rates, tokens.0, tokens.1, env.now);
    var logged := db.LogCostEvent(LoggedTotalEvent(GroqCallBuilder(context, rates, tokens.0, tokens.1), env.now),
                                  env.costReply);
    if logged.Failure? {
      return Failure(GroqError("Failed to log cost"));
    }
    r := GroqShape(reply.body, env.parseJson);
  }

  /** One request to the provider `p`. */
  method Request(db: DatabaseService, p: Provider, prompt: string, context: SessionContext, env: Env)
    returns (r: Result<Json, LLMError>)
    modifies db
    ensures r == RequestOutcome(p, prompt, env)
    ensures ChargedToSession(old(db.costEvents), db.costEvents, context)
    ensures db.users == old(db.users) && db.sessions == old(db.sessions)
    ensures db.conversations == old(db.conversations) && db.messages == old(db.messages)
  {
    match p
    case ClaudeProvider => r := ClaudeRequest(db, prompt, context, env);
    case GroqProvider => r := GroqRequest(db, prompt, context, env);
  }

  /**
   * `execute_tool`: only `list_available_pricelists`, and only with price lists configured, runs;
   * it lists every entry of the brands its "brand" input selects.
   */
  method ExecuteTool(name: string, input: Json, env: Env) returns (result: Option<ToolResult>)
    ensures result.Some? <==> name == ListPricelistsTool && env.pricelists.Some?
    ensures result.Some? ==>
              var svc := env.pricelists.value;
              multiset(result.value.listing) == InfosOf(svc.byBrand, Selected(svc.byBrand, AsStr(Index(input, "brand"))))
  {
    if name == ListPricelistsTool && env.pricelists.Some? {
      var listing := PriceList.ListAvailablePricelists(env.pricelists.value, AsStr(Index(input, "brand")));
      return Some(AvailablePricelists(listing));
    }
    return None;
  }

  /** Whether an information tool may run: price lists are configured and rounds are left. */
  predicate RunsTools(env: Env, rounds: nat)
  {
    env.pricelists.Some? && rounds > 0
  }

  /** The rounds the continued query may still spend on the tool once a round has run it. */
  function OneRoundLess(rounds: nat): (left: nat)
    requires rounds > 0
    ensures left < rounds
  {
    rounds - 1
  }

  /** The stage an attempt on `prompt` fails in: the request itself, or reading its response. */
  function StageOf(p: Provider, prompt: string, env: Env): (stage: Stage)
    ensures stage == RequestStage <==> RequestOutcome(p, prompt, env).Failure?
  {
    if RequestOutcome(p, prompt, env).Failure? then RequestStage else ParsingStage
  }

  /**
   * The results `try_parse` may come to: the first attempt's, or, when that is an error it
   * retries, the attempt with the stricter prompt. The only freedom is the order in which a
   * price-list listing comes out (a `HashMap`'s), so after a tool round the results are those
   * of every order of the listed rows.
   */
  ghost predicate TryParseYields(p: Provider, query: string, context: SessionContext, env: Env, rounds: nat,
                                 r: Result<Query, LLMError>)
    decreases rounds, 3
  {
    exists first :: AttemptYields(p, query, query, context, env, rounds, first)
      && if first.Failure? && Retries(p, StageOf(p, query, env), first.error)
         then AttemptYields(p, RetryPrompt(p, query, first.error.detail), query, context, env, rounds, r)
         else r == first
  }

  /** One request on `prompt`: its failure, or what its response comes to. */
  ghost predicate AttemptYields(p: Provider, prompt: string, originalQuery: string, context: SessionContext, env: Env,
                                rounds: nat, r: Result<Query, LLMError>)
    decreases rounds, 2
  {
    var response := RequestOutcome(p, prompt, env);
    if response.Failure? then r == Failure(response.error)
    else MultistepYields(response.value, originalQuery, context, env, rounds, r)
  }

  /**
   * What a response comes to: the decided outcome, or, after a call of the information tool,
   * what `try_parse` comes to on the continued query with the listing of the selected brands.
   */
  ghost predicate MultistepYields(response: Json, originalQuery: string, context: SessionContext, env: Env, rounds: nat,
                                  r: Result<Query, LLMError>)
    decreases rounds, 1
  {
    match ResponseDecision(response, env.decoders, RunsTools(env, rounds))
    case Decided(result) => r == result
    case RunTool(_, input) =>
      && RunsTools(env, rounds)
      && exists listing: seq<PriceListInfo> ::
           && multiset(listing) == InfosOf(env.pricelists.value.byBrand,
                                           Selected(env.pricelists.value.byBrand, AsStr(Index(input, "brand"))))
           && TryParseYields(ContinuationProvider(context.lastModelUsed),
                             ContinuedQuery(env.renderListing(listing), originalQuery), context, env, OneRoundLess(rounds), r)
  }

  /** A request that fails is the attempt's outcome. */
  lemma FailedAttempt(p: Provider, prompt: string, originalQuery: string, context: SessionContext, env: Env, rounds: nat)
    requires RequestOutcome(p, prompt, env).Failure?
    ensures AttemptYields(p, prompt, originalQuery, context, env, rounds, Failure(RequestOutcome(p, prompt, env).error))
  {
  }

  /** An answered request comes to what its response comes to. */
  lemma AnsweredAttempt(p: Provider, prompt: string, originalQuery: string, context: SessionContext, env: Env,
                        rounds: nat, r: Result<Query, LLMError>)
    requires RequestOutcome(p, prompt, env).Success?
    requires MultistepYields(RequestOutcome(p, prompt, env).value, originalQuery, context, env, rounds, r)
    ensures AttemptYields(p, prompt, originalQuery, context, env, rounds, r)
  {
  }

  /** A first attempt that is not retried is the outcome of `try_parse`. */
  lemma FinalFirstAttempt(p: Provider, query: string, context: SessionContext, env: Env, rounds: nat,
                          r: Result<Query, LLMError>)
    requires AttemptYields(p, query, query, context, env, rounds, r)
    requires !(r.Failure? && Retries(p, StageOf(p, query, env), r.error))
    ensures TryParseYields(p, query, context, env, rounds, r)
  {
  }

  /** After a retried first attempt, the second attempt's outcome is that of `try_parse`. */
  lemma FinalSecondAttempt(p: Provider, query: string, context: SessionContext, env: Env, rounds: nat,
                           e: LLMError, r: Result<Query, LLMError>)
    requires AttemptYields(p, query, query, context, env, rounds, Failure(e)) && Retries(p, StageOf(p, query, env), e)
    requires AttemptYields(p, RetryPrompt(p, query, e.detail), query, context, env, rounds, r)
    ensures TryParseYields(p, query, context, env, rounds, r)
  {
  }

  /** A decided response comes to its decision. */
  lemma DecidedResponse(response: Json, originalQuery: string, context: SessionContext, env: Env, rounds: nat)
    requires ResponseDecision(response, env.decoders, RunsTools(env, rounds)).Decided?
    ensures MultistepYields(response, originalQuery, context, env, rounds,
                            ResponseDecision(response, env.decoders, RunsTools(env, rounds)).result)
  {
  }

  /** After a tool round, the response comes to what the continued query comes to with the listing produced. */
  lemma ToolRoundResponse(response: Json, originalQuery: string, context: SessionContext, env: Env, rounds: nat,
                          listing: seq<PriceListInfo>, provider: Provider, prompt: string,
                          r: Result<Query, LLMError>)
    requires ResponseDecision(response, env.decoders, RunsTools(env, rounds)).RunTool?
    requires RunsTools(env, rounds)
    requires var input := ResponseDecision(response, env.decoders, RunsTools(env, rounds)).input;
             multiset(listing) == InfosOf(env.pricelists.value.byBrand,
                                          Selected(env.pricelists.value.byBrand, AsStr(Index(input, "brand"))))
    requires provider == ContinuationProvider(context.lastModelUsed)
    requires prompt == ContinuedQuery(env.renderListing(listing), originalQuery)
    requires TryParseYields(provider, prompt, context, env, OneRoundLess(rounds), r)
    ensures MultistepYields(response, originalQuery, context, env, rounds, r)
  {
  }

  /** Without price lists or rounds left, an attempt has exactly one outcome. */
  lemma AttemptDeterminedWithoutTools(p: Provider, prompt: string, originalQuery: string, context: SessionContext,
                                      env: Env, rounds: nat, r1: Result<Query, LLMError>, r2: Result<Query, LLMError>)
    requires !RunsTools(env, rounds)
    requires AttemptYields(p, prompt, originalQuery, context, env, rounds, r1)
    requires AttemptYields(p, prompt, originalQuery, context, env, rounds, r2)
    ensures r1 == r2
  {
  }

  /**
   * What the first request decides is the outcome of `try_parse` unless it is a parse error: a
   * failed request's error, or the decision a response that needs no tool round comes to.
   */
  lemma TryParseFirstOutcome(p: Provider, query: string, context: SessionContext, env: Env, rounds: nat,
                             r: Result<Query, LLMError>)
    requires TryParseYields(p, query, context, env, rounds, r)
    ensures var first := RequestOutcome(p, query, env);
      && (first.Failure? && !first.error.ParseError? ==> r == Failure(first.error))
      && (first.Success? && ResponseDecision(first.value, env.decoders, RunsTools(env, rounds)).Decided?
          && !(ResponseDecision(first.value, env.decoders, RunsTools(env, rounds)).result.Failure?
               && ResponseDecision(first.value, env.decoders, RunsTools(env, rounds)).result.error.ParseError?) ==>
            r == ResponseDecision(first.value, env.decoders, RunsTools(env, rounds)).result)
  {
    var first :| AttemptYields(p, query, query, context, env, rounds, first)
      && if first.Failure? && Retries(p, StageOf(p, query, env), first.error)
         then AttemptYields(p, RetryPrompt(p, query, first.error.detail), query, context, env, rounds, r)
         else r == first;
    var response := RequestOutcome(p, query, env);
    if response.Success? {
      var d := ResponseDecision(response.value, env.decoders, RunsTools(env, rounds));
      assert MultistepYields(response.value, query, context, env, rounds, first);
      if d.Decided? {
        assert first == d.result;
      }
    }
  }

  /** Without price lists or rounds left, `try_parse` has exactly one outcome. */
  lemma {:induction false} TryParseDeterminedWithoutTools(p: Provider, query: string, context: SessionContext, env: Env,
                                                          rounds: nat, r1: Result<Query, LLMError>, r2: Result<Query, LLMError>)
    requires !RunsTools(env, rounds)
    requires TryParseYields(p, query, context, env, rounds, r1)
    requires TryParseYields(p, query, context, env, rounds, r2)
    ensures r1 == r2
  {
    var first1 :| AttemptYields(p, query, query, context, env, rounds, first1)
      && if first1.Failure? && Retries(p, StageOf(p, query, env), first1.error)
         then AttemptYields(p, RetryPrompt(p, query, first1.error.detail), query, context, env, rounds, r1)
         else r1 == first1;
    var first2 :| AttemptYields(p, query, query, context, env, rounds, first2)
      && if first2.Failure? && Retries(p, StageOf(p, query, env), first2.error)
         then AttemptYields(p, RetryPrompt(p, query, first2.error.detail), query, context, env, rounds, r2)
         else r2 == first2;
    AttemptDeterminedWithoutTools(p, query, query, context, env, rounds, first1, first2);
    if first1.Failure? && Retries(p, StageOf(p, query, env), first1.error) {
      AttemptDeterminedWithoutTools(p, RetryPrompt(p, query, first1.error.detail), query, context, env, rounds, r1, r2);
    }
  }

  /** The attempt that ends `try_parse`'s loop gives its outcome, whether it was the first or the retry. */
  lemma Conclude(p: Provider, query: string, context: SessionContext, env: Env, rounds: nat,
                 retryAfter: Option<LLMError>, text: string, r: Result<Query, LLMError>)
    requires retryAfter.Some? ==> AttemptYields(p, query, query, context, env, rounds, Failure(retryAfter.value))
                                  && Retries(p, StageOf(p, query, env), retryAfter.value)
    requires text == if retryAfter.Some? then RetryPrompt(p, query, retryAfter.value.detail) else query
    requires AttemptYields(p, text, query, context, env, rounds, r)
    requires retryAfter.None? ==> !(r.Failure? && Retries(p, StageOf(p, query, env), r.error))
    ensures TryParseYields(p, query, context, env, rounds, r)
  {
    if retryAfter.Some? {
      FinalSecondAttempt(p, query, context, env, rounds, retryAfter.value, r);
    } else {
      FinalFirstAttempt(p, query, context, env, rounds, r);
    }
  }

  /** One request of `try_parse` and the reading of its response; `requestFailed` says which stage failed. */
  method Attempt(db: DatabaseService, p: Provider, text: string, query: string, context: SessionContext, env: Env,
                 rounds: nat)
    returns (r: Result<Query, LLMError>, requestFailed: bool)
    modifies db
    decreases rounds, 3
    ensures requestFailed <==> RequestOutcome(p, text, env).Failure?
    ensures AttemptYields(p, text, query, context, env, rounds, r)
    ensures r.Success? ==> env.api(p, text).Answer?
    ensures ChargedToSession(old(db.costEvents), db.costEvents, context)
    ensures db.users == old(db.users) && db.sessions == old(db.sessions)
    ensures db.conversations == old(db.conversations) && db.messages == old(db.messages)
  {
    var response := Request(db, p, text, context, env);
    if response.Failure? {
      FailedAttempt(p, text, query, context, env, rounds);
      return Failure(response.error), true;
    }
    SuccessNeedsAnswer(p, text, env);
    ghost var before := db.costEvents;
    var listing, continuation;
    r, listing, continuation := ParseResponseWithMultistep(db, response.value, query, context, env, rounds);
    ChargedToSessionTrans(old(db.costEvents), before, db.costEvents, context);
    if ResponseDecision(response.value, env.decoders, RunsTools(env, rounds)).Decided? {
      DecidedResponse(response.value, query, context, env, rounds);
    } else {
      ToolRoundResponse(response.value, query, context, env, rounds, listing.value,
                        ContinuationProvider(context.lastModelUsed), continuation[0], r);
    }
    AnsweredAttempt(p, text, query, context, env, rounds, r);
    requestFailed := false;
  }

  /**
   * `try_parse`: ask `p`, read the response, and on a parse error from either stage ask once
   * more with the stricter prompt. `rounds` bounds how many information-tool rounds may follow.
   */
  method TryParse(db: DatabaseService, p: Provider, query: string, context: SessionContext, env: Env, rounds: nat)
    returns (r: Result<Query, LLMError>, prompts: seq<string>, retryAfter: Option<LLMError>)
    modifies db
    decreases rounds, 4
    ensures 1 <= |prompts| <= 2 && prompts[0] == query
    ensures |prompts| == 2 <==> retryAfter.Some?
    ensures retryAfter.Some? ==>
              retryAfter.value.ParseError? && prompts[1] == RetryPrompt(p, query, retryAfter.value.detail)
    ensures |prompts| == 1 ==> !(r.Failure? && r.error.ParseError?)
    ensures r.Success? ==> env.api(p, prompts[|prompts| - 1]).Answer?
    ensures TryParseYields(p, query, context, env, rounds, r)
    ensures ChargedToSession(old(db.costEvents), db.costEvents, context)
    ensures db.users == old(db.users) && db.sessions == old(db.sessions)
    ensures db.conversations == old(db.conversations) && db.messages == old(db.messages)
  {
    prompts := [];
    retryAfter := None;
    while true
      invariant |prompts| == (if retryAfter.Some? then 1 else 0)
      invariant retryAfter.Some? ==> prompts[0] == query && retryAfter.value.ParseError?
      invariant retryAfter.Some? ==> AttemptYields(p, query, query, context, env, rounds, Failure(retryAfter.value))
                                     && Retries(p, StageOf(p, query, env), retryAfter.value)
      invariant ChargedToSession(old(db.costEvents), db.costEvents, context)
      invariant db.users == old(db.users) && db.sessions == old(db.sessions)
      invariant db.conversations == old(db.conversations) && db.messages == old(db.messages)
      decreases if retryAfter.Some? then 0 else 1
    {
      var text := if retryAfter.Some? then RetryPrompt(p, query, retryAfter.value.detail) else query;
      prompts := prompts + [text];
      ghost var before := db.costEvents;
      var requestFailed;
      r, requestFailed := Attempt(db, p, text, query, context, env, rounds);
      ChargedToSessionTrans(old(db.costEvents), before, db.costEvents, context);
      var stage := if requestFailed then RequestStage else ParsingStage;
      if r.Failure? && Retries(p, stage, r.error) && retryAfter.None? {
        retryAfter := Some(r.error);
        continue;
      }
      Conclude(p, query, context, env, rounds, retryAfter, text, r);
      return r, prompts, retryAfter;
    }
  }

  /**
   * `parse_response_with_multistep`: the first tool_use block decides (`ResponseDecision` reads
   * the content blocks). A call of the information tool runs it and asks again
   * (`continue_conversation_with_tool_result`); every other outcome is the decided one, without
   * a further request.
   */
  method ParseResponseWithMultistep(db: DatabaseService, response: Json, originalQuery: string, context: SessionContext,
                                    env: Env, rounds: nat)
    returns (r: Result<Query, LLMError>, listing: Option<seq<PriceListInfo>>, continuation: seq<string>)
    modifies db
    decreases rounds, 2
    ensures ResponseDecision(response, env.decoders, RunsTools(env, rounds)).Decided? ==>
              r == ResponseDecision(response, env.decoders, RunsTools(env, rounds)).result
              && listing.None? && continuation == [] && db.costEvents == old(db.costEvents)
    ensures ResponseDecision(response, env.decoders, RunsTools(env, rounds)).RunTool? ==>
              ToolRoundYields(ResponseDecision(response, env.decoders, RunsTools(env, rounds)).input, originalQuery,
                              context, env, rounds, r, listing, continuation)
    ensures ChargedToSession(old(db.costEvents), db.costEvents, context)
    ensures db.users == old(db.users) && db.sessions == old(db.sessions)
    ensures db.conversations == old(db.conversations) && db.messages == old(db.messages)
  {
    listing, continuation := None, [];
    var decision := ResponseDecision(response, env.decoders, RunsTools(env, rounds));
    match decision
    case Decided(result) =>
      r := result;
    case RunTool(_, input) =>
      var ran;
      r, ran, continuation := RunToolRound(db, input, originalQuery, context, env, rounds);
      listing := Some(ran);
  }

  /**
   * What a round through the price-list tool ends with: the listing of the brand the model asked
   * for, and the continued query's outcome, one round fewer left.
   */
  ghost predicate ToolRoundYields(input: Json, originalQuery: string, context: SessionContext, env: Env, rounds: nat,
                                  r: Result<Query, LLMError>, listing: Option<seq<PriceListInfo>>,
                                  continuation: seq<string>)
  {
    && env.pricelists.Some?
    && rounds > 0
    && listing.Some?
    && multiset(listing.value) == InfosOf(env.pricelists.value.byBrand,
                                          Selected(env.pricelists.value.byBrand, AsStr(Index(input, "brand"))))
    && |continuation| >= 1
    && continuation[0] == ContinuedQuery(env.renderListing(listing.value), originalQuery)
    && TryParseYields(ContinuationProvider(context.lastModelUsed), continuation[0], context, env, OneRoundLess(rounds), r)
  }

  /** The tool branch of `parse_response_with_multistep`: list the price lists, then continue. */
  method RunToolRound(db: DatabaseService, input: Json, originalQuery: string, context: SessionContext,
                      env: Env, rounds: nat)
    returns (r: Result<Query, LLMError>, listing: seq<PriceListInfo>, continuation: seq<string>)
    requires RunsTools(env, rounds)
    modifies db
    decreases rounds, 1
    ensures ToolRoundYields(input, originalQuery, context, env, rounds, r, Some(listing), continuation)
    ensures ChargedToSession(old(db.costEvents), db.costEvents, context)
    ensures db.users == old(db.users) && db.sessions == old(db.sessions)
    ensures db.conversations == old(db.conversations) && db.messages == old(db.messages)
  {
    var toolResult := ExecuteTool(ListPricelistsTool, input, env);
    listing := toolResult.value.listing;
    var provider;
    r, provider, continuation := ContinueWithToolResult(db, originalQuery, toolResult.value, context, env, OneRoundLess(rounds));
  }

  /**
   * `continue_conversation_with_tool_result`: ask again, with the tool's result and the original
   * query, the provider the session last used (Claude when none or an unknown one).
   */
  method ContinueWithToolResult(db: DatabaseService, originalQuery: string, toolResult: ToolResult,
                                context: SessionContext, env: Env, rounds: nat)
    returns (r: Result<Query, LLMError>, provider: Provider, prompts: seq<string>)
    modifies db
    decreases rounds + 1, 0
    ensures provider == ContinuationProvider(context.lastModelUsed)
    ensures 1 <= |prompts| && prompts[0] == ContinuedQuery(env.renderListing(toolResult.listing), originalQuery)
    ensures TryParseYields(ContinuationProvider(context.lastModelUsed), prompts[0], context, env, rounds, r)
    ensures ChargedToSession(old(db.costEvents), db.costEvents, context)
    ensures db.users == old(db.users) && db.sessions == old(db.sessions)
    ensures db.conversations == old(db.conversations) && db.messages == old(db.messages)
  {
    var continued := ContinuedQuery(env.renderListing(toolResult.listing), originalQuery);
    provider := ContinuationProvider(context.lastModelUsed);
    var retryAfter;
    r, prompts, retryAfter := TryParse(db, provider, continued, context, env, rounds);
  }

  /** The provider the configured primary model names; any other name means Claude. */
  function PrimaryProvider(primary: string): (p: Provider)
    ensures p == GroqProvider <==> primary == "groq"
  {
    if primary == "groq" then GroqProvider else ClaudeProvider
  }

  /** The name `last_model_used` records for a provider. */
  function ModelName(p: Provider): (name: string)
  {
    match p
    case ClaudeProvider => "claude"
    case GroqProvider => "groq"
  }

  function Other(p: Provider): (q: Provider)
    ensures q != p
  {
    match p
    case ClaudeProvider => GroqProvider
    case GroqProvider => ClaudeProvider
  }

  /**
   * The session records the provider being tried, so an information-tool round continues with
   * that same provider: with the primary model's name, and after a fallback with the other one.
   */
  lemma ContinuationStaysWithProvider(primary: string, p: Provider)
    ensures ContinuationProvider(Some(primary)) == PrimaryProvider(primary)
    ensures ContinuationProvider(Some(ModelName(p))) == p
  {
  }

  /**
   * `parse_query`: the primary provider first; when it fails with a known primary, the other
   * provider once, with the session now naming it. An unknown primary is Claude alone.
   */
  method ParseQuery(db: DatabaseService, primary: string, query: string, context: SessionContext, env: Env, rounds: nat)
    returns (r: Result<Query, LLMError>, after: SessionContext, attempts: seq<Provider>)
    modifies db
    ensures 1 <= |attempts| <= 2 && attempts[0] == PrimaryProvider(primary)
    ensures |attempts| == 2 ==> (primary == "claude" || primary == "groq") && attempts[1] == Other(attempts[0])
    ensures (primary == "claude" || primary == "groq") && r.Failure? ==> |attempts| == 2
    ensures |attempts| == 2 ==> after == context.(lastModelUsed := Some(ModelName(attempts[1])))
    ensures |attempts| == 1 ==> after == context.(lastModelUsed := Some(primary))
    ensures TryParseYields(attempts[|attempts| - 1], query, after, env, rounds, r)
    ensures |attempts| == 2 ==>
              exists failed: Result<Query, LLMError> :: failed.Failure?
                && TryParseYields(attempts[0], query, context.(lastModelUsed := Some(primary)), env, rounds, failed)
    ensures ChargedToSession(old(db.costEvents), db.costEvents, context)
    ensures db.users == old(db.users) && db.sessions == old(db.sessions)
    ensures db.conversations == old(db.conversations) && db.messages == old(db.messages)
  {
    after := context.(lastModelUsed := Some(primary));
    var first := PrimaryProvider(primary);
    attempts := [first];
    var prompts, retryAfter;
    ghost var before := db.costEvents;
    r, prompts, retryAfter := TryParse(db, first, query, after, env, rounds);
    if r.Failure? && (primary == "claude" || primary == "groq") {
      var second := Other(first);
      after := context.(lastModelUsed := Some(ModelName(second)));
      attempts := attempts + [second];
      ghost var middle := db.costEvents;
      r, prompts, retryAfter := TryParse(db, second, query, after, env, rounds);
      ChargedToSessionTrans(before, middle, db.costEvents, context);
    }
  }
}
