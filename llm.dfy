/**
 * The language-model orchestrator's vocabulary (src/llm/mod.rs): the closed `Query` a user's
 * message is understood as, the seven tools the models may call, how a tool call becomes a
 * `Query`, and which response block decides. Deserialising a quotation or price-only payload is
 * an input pair of decoders.
 */
module Llm {

  import opened Wrappers
  import opened Json
  import opened QuotationTypes
  import opened Quotation
  import opened PriceList

  /** `Query` of src/llm/mod.rs. */
  datatype Query =
    | MetalPricing
    | GetPriceList(brand: string, keywords: seq<string>)
    | GetQuotation(quotation: QuotationRequest)
    | GetProformaInvoice(quotation: QuotationRequest)
    | GetPricesOnly(request: PriceOnlyRequest)
    | UnsupportedQuery
    | GetStock(query: string)
    | ListAvailablePricelists(brandFilter: Option<string>)

  /**
   * `LLMError`. The providers carry the failed response in `ParseError`; src/llm/mod.rs raises
   * it without one, which the model writes as an empty detail.
   */
  datatype LLMError =
    | ParseError(detail: string)
    | EnvError
    | ClientError(message: string)
    | SystemPromptError(message: string)
    | OverloadedError
    | ImageProcessingError(message: string)
    | GroqError(message: string)

  /** The error's display text; a variant with a message ends with it. */
  function LLMErrorText(e: LLMError): (s: string)
    ensures e.ClientError? || e.SystemPromptError? || e.ImageProcessingError? || e.GroqError? ==>
              |e.message| <= |s| && s[|s| - |e.message|..] == e.message
  {
    match e
    case ParseError(_) => "Cannot parse and deserialize llm response"
    case EnvError => "Cannot find api key in env"
    case ClientError(m) => "Claude client error: " + m
    case SystemPromptError(m) => "System prompt construction error:" + m
    case OverloadedError => "API overloaded"
    case ImageProcessingError(m) => "Image processing error: " + m
    case GroqError(m) => "Groq error: " + m
  }

  /** A parse failure is reported without the response that failed to parse. */
  lemma ParseErrorHidesDetail(a: string, b: string)
    ensures LLMErrorText(ParseError(a)) == LLMErrorText(ParseError(b))
  {
  }

  datatype Provider = ClaudeProvider | GroqProvider

  /** How the payload of a quotation, proforma or price-only tool call is read. */
  datatype Decoders = Decoders(quotation: Json -> Option<QuotationRequest>, priceOnly: Json -> Option<PriceOnlyRequest>)

  /** The result of an information tool, fed back to the model. */
  datatype ToolResult = AvailablePricelists(listing: seq<PriceListInfo>)

  const MetalPricesTool := "get_metal_prices"
  const StockTool := "get_stock_info"
  const QuotationTool := "generate_quotation"
  const ProformaTool := "generate_proforma"
  const PricesOnlyTool := "get_prices_only"
  const FindPriceListTool := "find_price_list"
  const ListPricelistsTool := "list_available_pricelists"

  /** The tools of `get_tool_definitions`, in order. */
  const ToolNames := [MetalPricesTool, StockTool, QuotationTool, ProformaTool, PricesOnlyTool, FindPriceListTool,
                      ListPricelistsTool]

  /** A tool as Claude's API takes it; descriptions and schemas are inputs. */
  function ToolDefinition(name: string, description: string, schema: Json): Json
  {
    JObject([("name", JString(name)), ("description", JString(description)), ("input_schema", schema)])
  }

  /** `get_tool_definitions`: one definition per tool name, in order. */
  function ToolDefinitions(describe: string -> (string, Json)): (tools: seq<Json>)
    ensures |tools| == |ToolNames| == 7
    ensures forall i :: 0 <= i < |tools| ==> Index(tools[i], "name") == JString(ToolNames[i])
  {
    seq(|ToolNames|, i requires 0 <= i < |ToolNames| =>
      ToolDefinition(ToolNames[i], describe(ToolNames[i]).0, describe(ToolNames[i]).1))
  }

  /** The tool whose call produces a query; unsupported queries come from no tool. */
  function ToolOf(q: Query): (name: Option<string>)
    ensures name.Some? ==> name.value in ToolNames
    ensures name.None? <==> q.UnsupportedQuery?
  {
    match q
    case MetalPricing => Some(MetalPricesTool)
    case GetPriceList(_, _) => Some(FindPriceListTool)
    case GetQuotation(_) => Some(QuotationTool)
    case GetProformaInvoice(_) => Some(ProformaTool)
    case GetPricesOnly(_) => Some(PricesOnlyTool)
    case UnsupportedQuery => None
    case GetStock(_) => Some(StockTool)
    case ListAvailablePricelists(_) => Some(ListPricelistsTool)
  }

  /** The string items of a JSON array, in order (`filter_map(as_str)`). */
  function Strings(items: seq<Json>): (r: seq<string>)
    ensures |r| <= |items|
    ensures forall s :: s in r <==> JString(s) in items
    decreases |items|
  {
    if |items| == 0 then []
    else
      var rest := Strings(items[1..]);
      assert forall j :: j in items <==> j == items[0] || j in items[1..];
      if items[0].JString? then [items[0].s] + rest else rest
  }

  /** `handle_tool_call`: the tool name picks the query; the input must have the shape that query needs. */
  function HandleToolCall(block: Json, d: Decoders): (r: Result<Query, LLMError>)
  {
    var name := AsStr(Index(block, "name"));
    var input := Index(block, "input");
    if name.None? then Failure(ParseError(""))
    else if name.value == MetalPricesTool then Success(MetalPricing)
    else if name.value == StockTool then
      (match AsStr(Index(input, "query"))
       case Some(q) => Success(GetStock(q))
       case None => Failure(ParseError("")))
    else if name.value == QuotationTool then
      (match d.quotation(input)
       case Some(req) => Success(GetQuotation(req))
       case None => Failure(ParseError("")))
    else if name.value == ProformaTool then
      (match d.quotation(input)
       case Some(req) => Success(GetProformaInvoice(req))
       case None => Failure(ParseError("")))
    else if name.value == PricesOnlyTool then
      (match d.priceOnly(input)
       case Some(req) => Success(GetPricesOnly(req))
       case None => Failure(ParseError("")))
    else if name.value == FindPriceListTool then
      (var keywords := Index(input, "keywords");
       if keywords.JArray?
       then Success(GetPriceList(AsStr(Index(input, "brand")).GetOr(DefaultBrand), Strings(keywords.items)))
       else Failure(ParseError("")))
    else if name.value == ListPricelistsTool then Success(ListAvailablePricelists(AsStr(Index(input, "brand"))))
    else Success(UnsupportedQuery)
  }

  /**
   * A tool call without a name is a parse error; a call of an unknown tool is an unsupported
   * query, never an error; a call of a known tool that succeeds yields that tool's query.
   */
  lemma {:induction false} ToolCallNames(block: Json, d: Decoders)
    ensures AsStr(Index(block, "name")).None? ==> HandleToolCall(block, d) == Failure(ParseError(""))
    ensures AsStr(Index(block, "name")).Some? && AsStr(Index(block, "name")).value !in ToolNames ==>
              HandleToolCall(block, d) == Success(UnsupportedQuery)
    ensures AsStr(Index(block, "name")).Some? && AsStr(Index(block, "name")).value in ToolNames
            && HandleToolCall(block, d).Success? ==>
              ToolOf(HandleToolCall(block, d).value) == AsStr(Index(block, "name"))
  {
    var name := AsStr(Index(block, "name"));
    if name.Some? && name.value in ToolNames {
      assert name.value == ToolNames[0] || name.value == ToolNames[1] || name.value == ToolNames[2]
          || name.value == ToolNames[3] || name.value == ToolNames[4] || name.value == ToolNames[5]
          || name.value == ToolNames[6];
    }
  }

  /**
   * `find_price_list` defaults the brand to "kei", needs an array of keywords, and keeps only the
   * string keywords.
   */
  lemma {:induction false} FindPriceListInput(brand: Json, keywords: Json, d: Decoders)
    ensures var r := HandleToolCall(JObject([("name", JString(FindPriceListTool)),
                                             ("input", JObject([("brand", brand), ("keywords", keywords)]))]), d);
      && (r.Success? <==> keywords.JArray?)
      && (r.Success? ==> r.value.brand == (if brand.JString? then brand.s else DefaultBrand))
      && (r.Success? ==> forall k :: k in r.value.keywords <==> JString(k) in keywords.items)
  {
    var input := JObject([("brand", brand), ("keywords", keywords)]);
    var block := JObject([("name", JString(FindPriceListTool)), ("input", input)]);
    GetFindsFirstField(block.fields, "name", 0);
    GetFindsFirstField(block.fields, "input", 1);
    GetFindsFirstField(input.fields, "brand", 0);
    GetFindsFirstField(input.fields, "keywords", 1);
  }

  /** `get_stock_info` needs a string "query". */
  lemma {:induction false} StockToolNeedsQuery(query: Json, d: Decoders)
    ensures var r := HandleToolCall(JObject([("name", JString(StockTool)),
                                             ("input", JObject([("query", query)]))]), d);
      (r.Success? <==> query.JString?) && (r.Success? ==> r.value == GetStock(query.s))
  {
    var input := JObject([("query", query)]);
    var block := JObject([("name", JString(StockTool)), ("input", input)]);
    GetFindsFirstField(block.fields, "name", 0);
    GetFindsFirstField(block.fields, "input", 1);
    GetFindsFirstField(input.fields, "query", 0);
  }

  /** The position of the first block of type "tool_use". */
  function FirstToolUse(blocks: seq<Json>): (r: Option<nat>)
    ensures r.Some? ==> r.value < |blocks| && AsStr(Index(blocks[r.value], "type")) == Some("tool_use")
    ensures r.Some? ==> forall j :: 0 <= j < r.value ==> AsStr(Index(blocks[j], "type")) != Some("tool_use")
    ensures r.None? <==> forall j :: 0 <= j < |blocks| ==> AsStr(Index(blocks[j], "type")) != Some("tool_use")
    decreases |blocks|
  {
    if |blocks| == 0 then None
    else if AsStr(Index(blocks[0], "type")) == Some("tool_use") then Some(0)
    else
      var rest := FirstToolUse(blocks[1..]);
      assert forall j :: 1 <= j < |blocks| ==> blocks[j] == blocks[1..][j - 1];
      if rest.None? then None else Some(rest.value + 1)
  }

  /** What the first step of `parse_response_with_multistep` decides about a model response. */
  datatype Decision =
    | Decided(result: Result<Query, LLMError>)
    | RunTool(name: string, input: Json)

  /**
   * The response's "content" must be an array; the first tool_use block decides, and without one
   * the query is unsupported. A call of `list_available_pricelists` runs that tool first when
   * tools can run (`runsTools`: a price-list service is configured); every other named call is
   * decided by `handle_tool_call`.
   */
  function ResponseDecision(response: Json, d: Decoders, runsTools: bool): (r: Decision)
    ensures !Index(response, "content").JArray? ==> r == Decided(Failure(ParseError("")))
    ensures Index(response, "content").JArray? && FirstToolUse(Index(response, "content").items).None? ==>
              r == Decided(Success(UnsupportedQuery))
    ensures Index(response, "content").JArray? && FirstToolUse(Index(response, "content").items).Some? ==>
              var block := Index(response, "content").items[FirstToolUse(Index(response, "content").items).value];
              r == if AsStr(Index(block, "name")).None? then Decided(Failure(ParseError("")))
                   else if runsTools && AsStr(Index(block, "name")).value == ListPricelistsTool
                   then RunTool(AsStr(Index(block, "name")).value, Index(block, "input"))
                   else Decided(HandleToolCall(block, d))
  {
    var content := Index(response, "content");
    if !content.JArray? then Decided(Failure(ParseError("")))
    else
      match FirstToolUse(content.items)
      case None => Decided(Success(UnsupportedQuery))
      case Some(i) =>
        var block := content.items[i];
        match AsStr(Index(block, "name"))
        case None => Decided(Failure(ParseError("")))
        case Some(name) => if runsTools && name == ListPricelistsTool then RunTool(name, Index(block, "input")) else Decided(HandleToolCall(block, d))
  }

  /** A tool_use block after the first one is never looked at. */
  lemma {:induction false} OnlyFirstToolUseCounts(blocks: seq<Json>, later: seq<Json>, d: Decoders, runsTools: bool)
    requires FirstToolUse(blocks).Some?
    ensures ResponseDecision(JObject([("content", JArray(blocks + later))]), d, runsTools)
         == ResponseDecision(JObject([("content", JArray(blocks))]), d, runsTools)
  {
    FirstToolUseOfPrefix(blocks, later);
  }

  lemma {:induction false} FirstToolUseOfPrefix(blocks: seq<Json>, later: seq<Json>)
    requires FirstToolUse(blocks).Some?
    ensures FirstToolUse(blocks + later) == FirstToolUse(blocks)
    ensures (blocks + later)[FirstToolUse(blocks).value] == blocks[FirstToolUse(blocks).value]
    decreases |blocks|
  {
    if AsStr(Index(blocks[0], "type")) != Some("tool_use") {
      assert (blocks + later)[1..] == blocks[1..] + later;
      FirstToolUseOfPrefix(blocks[1..], later);
    }
  }

  /** The prompt that continues the conversation after an information tool ran. */
  function ContinuedQuery(toolResultText: string, originalQuery: string): string
  {
    "Available pricelists: " + toolResultText + "\n\nOriginal user query: " + originalQuery
    + "\n\nNow use find_price_list with appropriate keywords based on the available pricelists above."
  }

  /** The provider that continues a conversation: the one last used, Claude when none or unknown. */
  function ContinuationProvider(lastModelUsed: Option<string>): (p: Provider)
    ensures p == GroqProvider <==> lastModelUsed == Some("groq")
  {
    if lastModelUsed == Some("groq") then GroqProvider else ClaudeProvider
  }
}
