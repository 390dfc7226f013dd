/**
 * Query fulfilment (`QueryFulfilment`): a user's text, or an image's text joined with it, is parsed
 * into a query by the language model, and the query is answered by the service that owns it: the
 * PDF price lists, the metal-price service, the quotation service, the price-only lookup or the
 * Tally stock relay.
 *
 * What the clock, the random generator, the web pages, the websocket and the configuration supply
 * for one query is gathered in `Inputs`.
 */
module QueryFulfilment {

  import opened Wrappers
  import opened Text
  import opened Json
  import opened QuotationTypes
  import opened Quotation
  import opened PriceList
  import opened Prices
  import opened Ocr
  import opened Stock
  import opened Llm
  import opened ClaudeLegacy
  import opened QueryTypes
  import opened Database

  // ---------------------------------------------------------------- the query from an image

  /**
   * `fulfil_image_query`'s query: the user's text alone when the image text is blank or contains the
   * no-text sentence; otherwise the trimmed image text, a newline, and the trimmed user text.
   */
  function CombinedQuery(imageText: string, userText: string): (q: string)
  {
    if Trim(imageText) == [] || Contains(imageText, NoReadableText) then userText
    else Trim(imageText) + "\n" + Trim(userText)
  }

  lemma TrimIdle(t: string)
    requires |t| > 0 && !IsWhitespace(t[0]) && !IsWhitespace(t[|t| - 1])
    ensures Trim(t) == t
  {
  }

  /**
   * An image from which OCR reads nothing leaves the user's text as the query, unchanged; an image
   * with readable text (that does not itself contain the no-text sentence) puts that text on the
   * first line and the trimmed user text after it.
   */
  lemma {:induction false} ImageTextInQuery(reply: TextractReply, userText: string)
    requires OcrResult(reply).Success?
    ensures var text := OcrResult(reply).value;
      && (AllWhitespace(LineText(reply.blocks.GetOr([]))) ==> CombinedQuery(text, userText) == userText)
      && (!AllWhitespace(LineText(reply.blocks.GetOr([]))) && !Contains(text, NoReadableText) ==>
            CombinedQuery(text, userText) == Trim(LineText(reply.blocks.GetOr([]))) + "\n" + Trim(userText))
  {
    var text := OcrResult(reply).value;
    var lines := LineText(reply.blocks.GetOr([]));
    if AllWhitespace(lines) {
      assert text == NoReadableText;
      ContainsIff(text, NoReadableText);
      assert OccursAt(text, NoReadableText, 0);
    } else {
      TrimIdle(text);
    }
  }

  // ---------------------------------------------------------------- parsing

  /** The legacy model's query read as the current `Query`: every legacy variant has a namesake. */
  function Lift(q: LegacyQuery): (r: Query)
    ensures !r.GetStock? && !r.ListAvailablePricelists?
  {
    match q
    case LegacyMetalPricing => MetalPricing
    case LegacyGetPriceList(brand, keywords) => GetPriceList(brand, keywords)
    case LegacyGetQuotation(quotation) => GetQuotation(quotation)
    case LegacyGetProformaInvoice(quotation) => GetProformaInvoice(quotation)
    case LegacyGetPricesOnly(request) => GetPricesOnly(request)
    case LegacyUnsupportedQuery => UnsupportedQuery
  }

  /** No two legacy queries are read as the same query. */
  lemma LiftInjective(a: LegacyQuery, b: LegacyQuery)
    ensures Lift(a) == Lift(b) ==> a == b
  {
  }

  // ---------------------------------------------------------------- document details

  datatype Date = Date(year: nat, month: nat, day: nat)

  /** A calendar date as the local clock gives it, in the four-digit years `%Y` prints unsigned. */
  predicate ValidDate(d: Date)
  {
    1 <= d.year <= 9999 && 1 <= d.month <= 12 && 1 <= d.day <= 31
  }

  /** `n` printed in decimal, zero-padded on the left to `width` digits. */
  function Padded(n: nat, width: nat): (s: string)
    ensures |s| == if |NatToString(n)| >= width then |NatToString(n)| else width
    ensures forall i :: 0 <= i < |s| ==> '0' <= s[i] <= '9'
    ensures s[|s| - |NatToString(n)|..] == NatToString(n)
  {
    var digits := NatToString(n);
    if |digits| >= width then digits else seq(width - |digits|, i => '0') + digits
  }

  /** `%Y%m%d`. */
  function DateStamp(d: Date): (s: string)
    requires ValidDate(d)
    ensures |s| == 8 && forall i :: 0 <= i < 8 ==> '0' <= s[i] <= '9'
  {
    NatDigitsBound(d.year, 4);
    NatDigitsBound(d.month, 2);
    NatDigitsBound(d.day, 2);
    Padded(d.year, 4) + Padded(d.month, 2) + Padded(d.day, 2)
  }

  lemma {:induction false} NatDigitsBound(n: nat, width: nat)
    requires width >= 1 && n < Power10(width)
    ensures |NatToString(n)| <= width
    decreases width
  {
    if n >= 10 {
      NatDigitsBound(n / 10, width - 1);
    }
  }

  function Power10(k: nat): (p: nat)
    ensures p >= 1
  {
    if k == 0 then 1 else 10 * Power10(k - 1)
  }

  /** The ordinal suffix `generate_document_details` gives a day of the month. */
  function OrdinalSuffix(day: nat): (s: string)
  {
    if day == 1 || day == 21 || day == 31 then "st"
    else if day == 2 || day == 22 then "nd"
    else if day == 3 || day == 23 then "rd"
    else "th"
  }

  /** The English ordinal rule: 11th, 12th, 13th, otherwise by the last digit. */
  function EnglishOrdinal(n: nat): (s: string)
  {
    if 11 <= n % 100 <= 13 then "th"
    else if n % 10 == 1 then "st"
    else if n % 10 == 2 then "nd"
    else if n % 10 == 3 then "rd"
    else "th"
  }

  /** For every day of a month the table agrees with the English rule. */
  lemma OrdinalSuffixIsEnglish(day: nat)
    requires 1 <= day <= 31
    ensures OrdinalSuffix(day) == EnglishOrdinal(day)
  {
    if day < 10 {
    } else if day < 20 {
      assert 11 <= day % 100 <= 13 <==> 11 <= day <= 13;
    } else if day < 30 {
      assert day % 10 == day - 20;
    } else {
      assert day % 10 == day - 30;
    }
  }

  const MonthNames := ["January", "February", "March", "April", "May", "June", "July", "August",
                       "September", "October", "November", "December"]

  /** `%B`: the month's full English name. */
  function MonthName(month: nat): (s: string)
    requires 1 <= month <= 12
    ensures s == MonthNames[month - 1]
  {
    MonthNames[month - 1]
  }

  /** The date printed on a document: day with its ordinal suffix, month name, year. */
  function DocumentDate(d: Date): (s: string)
    requires ValidDate(d)
  {
    NatToString(d.day) + OrdinalSuffix(d.day) + " " + MonthName(d.month) + ", " + NatToString(d.year)
  }

  datatype DocumentKind = QuotationDocument | ProformaInvoiceDocument

  /** The document number: the kind's prefix, the date stamp and the random number, joined by '-'. */
  function DocumentNumber(prefix: string, d: Date, n: nat): (s: string)
    requires ValidDate(d)
  {
    prefix + "-" + DateStamp(d) + "-" + NatToString(n)
  }

  /** The file a document is written to. */
  function DocumentFilename(number: string): (s: string)
  {
    number + ".pdf"
  }

  /**
   * A document number splits back at '-' into the prefix (when it has no '-'), the eight-digit date
   * stamp and the four-digit random number.
   */
  lemma {:induction false} DocumentNumberParts(prefix: string, d: Date, n: nat)
    requires ValidDate(d) && 1000 <= n <= 9999
    requires '-' !in prefix
    ensures Split(DocumentNumber(prefix, d, n), '-') == [prefix, DateStamp(d), NatToString(n)]
    ensures |DateStamp(d)| == 8 && |NatToString(n)| == 4
  {
    FourDigits(n);
    DateStampHasNoDash(d);
    NumberHasNoDash(n);
    SplitThree(prefix, DateStamp(d), NatToString(n));
  }

  /** A string of decimal digits holds no '-'. */
  lemma DigitsHaveNoDash(s: string)
    requires forall i :: 0 <= i < |s| ==> '0' <= s[i] <= '9'
    ensures '-' !in s
  {
  }

  lemma DateStampHasNoDash(d: Date)
    requires ValidDate(d)
    ensures '-' !in DateStamp(d)
  {
    DigitsHaveNoDash(DateStamp(d));
  }

  lemma NumberHasNoDash(n: nat)
    ensures '-' !in NatToString(n)
  {
    DigitsHaveNoDash(NatToString(n));
  }

  /** Three pieces without '-', joined by '-', split back into those pieces. */
  lemma SplitThree(a: string, b: string, c: string)
    requires '-' !in a && '-' !in b && '-' !in c
    ensures Split(a + "-" + b + "-" + c, '-') == [a, b, c]
  {
    assert a + "-" + b + "-" + c == a + ['-'] + (b + ['-'] + c);
    SplitPrefix(a, '-', b + ['-'] + c);
    SplitPrefix(b, '-', c);
    SplitNoSeparator(c, '-');
  }

  // ---------------------------------------------------------------- price-only answers

  /** One line of the price-only answer. */
  function PriceLine(item: PriceOnlyResponseItem, money: real -> string): (s: string)
  {
    item.description + ": Rs." + money(item.price) + "/mtr"
  }

  function PriceLines(items: seq<PriceOnlyResponseItem>, money: real -> string): (lines: seq<string>)
    ensures |lines| == |items| && forall i :: 0 <= i < |items| ==> lines[i] == PriceLine(items[i], money)
  {
    seq(|items|, i requires 0 <= i < |items| => PriceLine(items[i], money))
  }

  /** `format_price_only_response`: the lines built in a loop, then joined with newlines. */
  method FormatPriceOnlyResponse(response: PriceOnlyResponse, money: real -> string) returns (text: string)
    ensures text == Join(PriceLines(response.items, money), "\n")
  {
    var lines: seq<string> := [];
    for i := 0 to |response.items|
      invariant lines == PriceLines(response.items[..i], money)
    {
      var item := response.items[i];
      lines := lines + [PriceLine(item, money)];
    }
    assert response.items[..|response.items|] == response.items;
    text := Join(lines, "\n");
  }

  /** With descriptions and prices free of newlines, the answer has exactly one line per item, in order. */
  lemma OneLinePerItem(items: seq<PriceOnlyResponseItem>, money: real -> string)
    requires |items| >= 1
    requires forall i :: 0 <= i < |items| ==> '\n' !in items[i].description && '\n' !in money(items[i].price)
    ensures Split(Join(PriceLines(items, money), "\n"), '\n') == PriceLines(items, money)
    ensures |Split(Join(PriceLines(items, money), "\n"), '\n')| == |items|
  {
    var lines := PriceLines(items, money);
    forall i | 0 <= i < |lines| ensures '\n' !in lines[i] {
      assert lines[i] == items[i].description + ": Rs." + money(items[i].price) + "/mtr";
    }
    SplitJoin(lines, '\n');
  }

  const NoPricesFound := "No prices found for the requested items. Please check item/specifications"

  /** The price-only answer: the lines when some item was priced, the fixed sentence otherwise. */
  function PricesOnlyText(response: Option<PriceOnlyResponse>, money: real -> string): (s: string)
  {
    if response.Some? && |response.value.items| > 0 then Join(PriceLines(response.value.items, money), "\n")
    else NoPricesFound
  }

  // ---------------------------------------------------------------- dispatch

  datatype Inputs = Inputs(
    pricelists: PriceListService,
    quotations: QuotationService,
    norm: string -> string,
    pricesOnly: PriceOnlyRequest -> Option<PriceOnlyResponse>,
    money: real -> string,
    timestamp: string,
    clientBuilds: bool,
    fetch: string -> Result<real, PriceError>,
    today: Date,
    randomNumber: nat,
    refPrefix: DocumentKind -> string,
    stockId: string,
    tallyReplies: seq<string>,
    parseJson: string -> Option<Json>)

  /** What the clock and the random generator guarantee: a real date and a four-digit number. */
  predicate InputsValid(s: Inputs)
  {
    ValidDate(s.today) && 1000 <= s.randomNumber <= 9999
  }

  /** Whether every item of a quotation request has a price, which is when a quotation is produced. */
  predicate Quotable(svc: QuotationService, request: QuotationRequest, norm: string -> string)
  {
    forall i :: 0 <= i < |request.items| ==> ItemPrice(svc, request.items[i], norm).Some?
  }

  /** The file a quotation or proforma invoice is attached as. */
  function DocumentFile(s: Inputs, kind: DocumentKind): (f: string)
    requires InputsValid(s)
    ensures StartsWith(f, "artifacts/") && EndsWith(f, ".pdf")
  {
    var number := DocumentNumber(s.refPrefix(kind), s.today, s.randomNumber);
    Enclosed("artifacts/", number, ".pdf");
    "artifacts/" + number + ".pdf"
  }

  lemma Enclosed(a: string, m: string, b: string)
    ensures StartsWith(a + m + b, a) && EndsWith(a + m + b, b)
  {
    assert (a + m + b)[..|a|] == a;
    assert (a + m + b)[|a + m + b| - |b|..] == b;
  }

  /** The reply to a quotation or proforma request: the priced document, or the quotation error. */
  function DocumentOutcome(request: QuotationRequest, s: Inputs, kind: DocumentKind): (r: Result<Response, QueryError>)
    requires InputsValid(s)
  {
    if !Quotable(s.quotations, request, s.norm) then Failure(QuotationServiceError)
    else Success(Response(if kind == QuotationDocument then QuotationCreated else ProformaCreated,
                          Some(DocumentFile(s, kind)), None))
  }

  const HelpFallback := "Could not understand query. Please rephrase"

  /** `get_help_text`: the help file's contents when it could be read, a fixed sentence otherwise. */
  function HelpText(helpFile: Option<string>): (r: string)
    ensures helpFile.Some? ==> r == helpFile.value
    ensures helpFile.None? ==> r == HelpFallback
  {
    helpFile.GetOr(HelpFallback)
  }

  const QuotationCreated := "Quotation created for given enquiry"
  const ProformaCreated := "Proforma Invoice created for given enquiry"
  const NoPricelist := "No matching pricelist found"
  const CannotFulfil := "Cannot fulfil this request at the moment"

  /**
   * `fulfil_query`'s handler table, given the outcome of the metal-price fetch and of the stock request
   * (each is only looked at for its own query).
   */
  function Respond(q: Query, s: Inputs, metal: Result<(real, real), PriceError>, stock: Result<string, string>)
    : (r: Result<Response, QueryError>)
    requires InputsValid(s)
  {
    match q
    case GetPriceList(brand, keywords) =>
      var path := FindPricelist(s.pricelists, brand, keywords);
      if path.Some? then Success(Response("Pricelist", path, None)) else Success(TextResponse(NoPricelist))
    case MetalPricing =>
      if metal.Failure? then Failure(MetalPricingError(PriceErrorText(metal.error)))
      else Success(TextResponse(PriceMessage(s.timestamp, metal.value.0, metal.value.1, s.money)))
    case GetQuotation(request) => DocumentOutcome(request, s, QuotationDocument)
    case GetProformaInvoice(request) => DocumentOutcome(request, s, ProformaInvoiceDocument)
    case GetPricesOnly(request) =>
      Success(TextResponse(PricesOnlyText(s.pricesOnly(request), s.money)))
    case GetStock(query) =>
      Success(TextResponse(if stock.Success? then stock.value else "Stock check failed: " + stock.error))
    case _ => Success(TextResponse(CannotFulfil))
  }

  /**
   * Only a failed metal-price fetch and an unpriceable quotation or proforma are errors: a missing
   * price list, a price-only request with nothing priced and a failed stock check are answered in text.
   */
  lemma RespondFailsOnlyFor(q: Query, s: Inputs, metal: Result<(real, real), PriceError>, stock: Result<string, string>)
    requires InputsValid(s)
    ensures Respond(q, s, metal, stock).Failure? <==>
              (q.MetalPricing? && metal.Failure?)
              || ((q.GetQuotation? || q.GetProformaInvoice?) && !Quotable(s.quotations, q.quotation, s.norm))
    ensures Respond(q, s, metal, stock).Failure? && q.MetalPricing? ==>
              Respond(q, s, metal, stock).error == MetalPricingError(PriceErrorText(metal.error))
    ensures Respond(q, s, metal, stock).Failure? && !q.MetalPricing? ==>
              Respond(q, s, metal, stock).error == QuotationServiceError
  {
  }

  /**
   * A file is attached only to a found price list (the configured path) and to a created quotation or
   * proforma invoice (under "artifacts/", named by its document number).
   */
  lemma RespondFiles(q: Query, s: Inputs, metal: Result<(real, real), PriceError>, stock: Result<string, string>)
    requires InputsValid(s)
    requires Respond(q, s, metal, stock).Success?
    ensures var response := Respond(q, s, metal, stock).value;
      && (response.file.Some? <==>
            ((q.GetPriceList? && FindPricelist(s.pricelists, q.brand, q.keywords).Some?) || q.GetQuotation? || q.GetProformaInvoice?))
      && (q.GetPriceList? && response.file.Some? ==> response.file == FindPricelist(s.pricelists, q.brand, q.keywords))
      && (q.GetQuotation? || q.GetProformaInvoice? ==>
            StartsWith(response.file.value, "artifacts/") && EndsWith(response.file.value, ".pdf"))
  {
  }

  /** `fulfil_query`'s handler table, calling each service. */
  method DispatchQuery(q: Query, s: Inputs, prices: PriceService, stock: StockService)
    returns (r: Result<Response, QueryError>)
    requires InputsValid(s)
    requires stock.Valid() && s.stockId !in stock.pending && s.stockId !in stock.delivered
    modifies prices, stock
    ensures r == Respond(q, s,
                         BothPrices(old(prices.priceCache), prices.urlAl, prices.urlCu, s.clientBuilds, s.fetch).0,
                         StockOutcome(old(stock.TableOf()), old(stock.tallySender), s.stockId,
                                      ParsedReplies(s.tallyReplies, s.parseJson)))
    ensures prices.priceCache == if q.MetalPricing?
                                 then BothPrices(old(prices.priceCache), prices.urlAl, prices.urlCu, s.clientBuilds, s.fetch).1
                                 else old(prices.priceCache)
    ensures prices.lastAlertHour == old(prices.lastAlertHour)
    ensures stock.Valid()
    ensures !q.GetStock? ==> unchanged(stock)
  {
    match q
    case GetPriceList(brand, keywords) =>
      var path := FindPricelist(s.pricelists, brand, keywords);
      if path.Some? {
        r := Success(Response("Pricelist", path, None));
      } else {
        r := Success(TextResponse(NoPricelist));
      }
    case MetalPricing =>
      var prices' := prices.FetchFormattedPrices(s.clientBuilds, s.fetch);
      if prices'.Failure? {
        return Failure(MetalPricingError(PriceErrorText(prices'.error)));
      }
      r := Success(TextResponse(PriceMessage(s.timestamp, prices'.value.0, prices'.value.1, s.money)));
    case GetQuotation(request) =>
      r := CreateDocument(request, s, QuotationDocument);
    case GetProformaInvoice(request) =>
      r := CreateDocument(request, s, ProformaInvoiceDocument);
    case GetPricesOnly(request) =>
      var response := s.pricesOnly(request);
      if response.Some? && |response.value.items| > 0 {
        var text := FormatPriceOnlyResponse(response.value, s.money);
        r := Success(TextResponse(text));
      } else {
        r := Success(TextResponse(NoPricesFound));
      }
    case GetStock(query) =>
      var stockInfo := stock.RequestStock(s.stockId, query, s.tallyReplies, s.parseJson);
      if stockInfo.Success? {
        r := Success(TextResponse(stockInfo.value));
      } else {
        r := Success(TextResponse("Stock check failed: " + stockInfo.error));
      }
    case UnsupportedQuery =>
      r := Success(TextResponse(CannotFulfil));
    case ListAvailablePricelists(_) =>
      r := Success(TextResponse(CannotFulfil));
  }

  /** The quotation and proforma branches: quote the request, then name the document. */
  method CreateDocument(request: QuotationRequest, s: Inputs, kind: DocumentKind) returns (r: Result<Response, QueryError>)
    requires InputsValid(s)
    ensures r == DocumentOutcome(request, s, kind)
  {
    var number := DocumentNumber(s.refPrefix(kind), s.today, s.randomNumber);
    var date := DocumentDate(s.today);
    var quotation := GenerateQuotation(s.quotations, number, date, request, s.norm);
    assert quotation.None? <==> !Quotable(s.quotations, request, s.norm);
    if quotation.None? {
      return Failure(QuotationServiceError);
    }
    var text := if kind == QuotationDocument then QuotationCreated else ProformaCreated;
    r := Success(Response(text, Some(DocumentFile(s, kind)), None));
  }

  /**
   * `fulfil_query`: the legacy model parses the query (a failure is reported as `LLMError` with the
   * failure's text) and the parsed query is dispatched. `parsed` is the parser's outcome.
   */
  method FulfilQuery(db: DatabaseService, query: string, userId: nat, sessionId: nat, legacy: LegacyEnv, s: Inputs,
                     prices: PriceService, stock: StockService)
    returns (r: Result<Response, QueryError>, parsed: Result<LegacyQuery, LLMError>)
    requires InputsValid(s)
    requires stock.Valid() && s.stockId !in stock.pending && s.stockId !in stock.delivered
    modifies db, prices, stock
    ensures parsed == LegacyOutcome(query, legacy)
    ensures parsed.Failure? ==> r == Failure(LLMError(LLMErrorText(parsed.error)))
    ensures parsed.Success? ==>
              r == Respond(Lift(parsed.value), s,
                           BothPrices(old(prices.priceCache), prices.urlAl, prices.urlCu, s.clientBuilds, s.fetch).0,
                           StockOutcome(old(stock.TableOf()), old(stock.tallySender), s.stockId,
                                        ParsedReplies(s.tallyReplies, s.parseJson)))
    ensures stock.Valid()
  {
    var attempts;
    parsed, attempts := LegacyParseQuery(db, query, userId, sessionId, legacy);
    if parsed.Failure? {
      return Failure(LLMError(LLMErrorText(parsed.error))), parsed;
    }
    r := DispatchQuery(Lift(parsed.value), s, prices, stock);
  }

  /**
   * `fulfil_image_query`: OCR first (its failure is reported as `OcrError` with the failure's text),
   * then the combined query is fulfilled.
   */
  method FulfilImageQuery(db: DatabaseService, image: TextractReply, userText: string, userId: nat, sessionId: nat,
                          legacy: LegacyEnv, s: Inputs, prices: PriceService, stock: StockService)
    returns (r: Result<Response, QueryError>, query: Option<string>)
    requires InputsValid(s)
    requires stock.Valid() && s.stockId !in stock.pending && s.stockId !in stock.delivered
    modifies db, prices, stock
    ensures OcrResult(image).Failure? ==> r == Failure(OcrError(OcrErrorText(OcrResult(image).error))) && query.None?
    ensures OcrResult(image).Success? ==> query == Some(CombinedQuery(OcrResult(image).value, userText))
    ensures OcrResult(image).Success? ==>
              var parsed := LegacyOutcome(CombinedQuery(OcrResult(image).value, userText), legacy);
              && (parsed.Failure? ==> r == Failure(LLMError(LLMErrorText(parsed.error))))
              && (parsed.Success? ==>
                    r == Respond(Lift(parsed.value), s,
                                 BothPrices(old(prices.priceCache), prices.urlAl, prices.urlCu, s.clientBuilds, s.fetch).0,
                                 StockOutcome(old(stock.TableOf()), old(stock.tallySender), s.stockId,
                                              ParsedReplies(s.tallyReplies, s.parseJson))))
    ensures stock.Valid()
  {
    var imageText := ExtractTextFromImage(image);
    if imageText.Failure? {
      return Failure(OcrError(OcrErrorText(imageText.error))), None;
    }
    var combined := CombinedQuery(imageText.value, userText);
    query := Some(combined);
    var parsed;
    r, parsed := FulfilQuery(db, combined, userId, sessionId, legacy, s, prices, stock);
  }
}
