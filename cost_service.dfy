/**
 * The cost side of the database service (src/database/services/cost.rs): loading the current
 * token rates, the cost events of WhatsApp messages, Claude calls and Textract pages, and the
 * per-session cost notification. The writes themselves are methods of `Database.DatabaseService`;
 * this module holds what they compute.
 */
module CostService {

  import opened Wrappers
  import opened Text
  import opened Json
  import opened SessionTypes
  import opened CostTypes
  import opened DatabaseErrors

  // ---------------------------------------------------------------- rate loading

  /** The reply to a `cost_rate_history` query: no answer, or a status and the parsed rows. */
  datatype RatesReply =
    | RatesUnreachable(message: string)
    | RatesStatus(code: int, rows: Result<seq<Json>, string>)

  function CostTypeOf(row: Json): string
  {
    AsStr(Index(row, "cost_type")).GetOr("")
  }

  function UnitCostOf(row: Json): real
  {
    AsF64(Index(row, "unit_cost")).GetOr(0.0)
  }

  /** One row of the Claude fold: a known cost type overwrites its rate, any other is ignored. */
  function ApplyClaudeRow(r: ClaudeRates, row: Json): ClaudeRates
  {
    var t := CostTypeOf(row);
    var c := UnitCostOf(row);
    if t == "input_token" then r.(inputToken := c)
    else if t == "output_token" then r.(outputToken := c)
    else if t == "cache_hit_refresh" then r.(cacheHitRefresh := c)
    else if t == "1h_cache_writes" then r.(oneHCacheWrites := c)
    else r
  }

  function FoldClaudeRows(r: ClaudeRates, rows: seq<Json>): ClaudeRates
    decreases |rows|
  {
    if |rows| == 0 then r else FoldClaudeRows(ApplyClaudeRow(r, rows[0]), rows[1..])
  }

  function ApplyGroqRow(r: GroqRates, row: Json): GroqRates
  {
    var t := CostTypeOf(row);
    var c := UnitCostOf(row);
    if t == "input_token" then r.(inputToken := c)
    else if t == "output_token" then r.(outputToken := c)
    else r
  }

  function FoldGroqRows(r: GroqRates, rows: seq<Json>): GroqRates
    decreases |rows|
  {
    if |rows| == 0 then r else FoldGroqRows(ApplyGroqRow(r, rows[0]), rows[1..])
  }

  /** The unit cost of the last row of cost type `t`, if any row has it. */
  function LastRate(rows: seq<Json>, t: string): Option<real>
    decreases |rows|
  {
    if |rows| == 0 then None
    else if CostTypeOf(rows[|rows| - 1]) == t then Some(UnitCostOf(rows[|rows| - 1]))
    else LastRate(rows[..|rows| - 1], t)
  }

  lemma {:induction false} FoldClaudeSnoc(r: ClaudeRates, rows: seq<Json>, row: Json)
    ensures FoldClaudeRows(r, rows + [row]) == ApplyClaudeRow(FoldClaudeRows(r, rows), row)
    decreases |rows|
  {
    if |rows| > 0 {
      assert (rows + [row])[1..] == rows[1..] + [row];
      FoldClaudeSnoc(ApplyClaudeRow(r, rows[0]), rows[1..], row);
    } else {
      assert (rows + [row])[1..] == [];
    }
  }

  /**
   * The loaded Claude rates: each rate is the unit cost of the last row of its cost type, or
   * the starting value when no row has that type; rows of other types change nothing.
   */
  lemma {:induction false} ClaudeRatesLastRowWins(r: ClaudeRates, rows: seq<Json>)
    ensures FoldClaudeRows(r, rows).inputToken == LastRate(rows, "input_token").GetOr(r.inputToken)
    ensures FoldClaudeRows(r, rows).outputToken == LastRate(rows, "output_token").GetOr(r.outputToken)
    ensures FoldClaudeRows(r, rows).cacheHitRefresh == LastRate(rows, "cache_hit_refresh").GetOr(r.cacheHitRefresh)
    ensures FoldClaudeRows(r, rows).oneHCacheWrites == LastRate(rows, "1h_cache_writes").GetOr(r.oneHCacheWrites)
    decreases |rows|
  {
    if |rows| > 0 {
      var init := rows[..|rows| - 1];
      assert rows == init + [rows[|rows| - 1]];
      FoldClaudeSnoc(r, init, rows[|rows| - 1]);
      ClaudeRatesLastRowWins(r, init);
    }
  }

  lemma {:induction false} FoldGroqSnoc(r: GroqRates, rows: seq<Json>, row: Json)
    ensures FoldGroqRows(r, rows + [row]) == ApplyGroqRow(FoldGroqRows(r, rows), row)
    decreases |rows|
  {
    if |rows| > 0 {
      assert (rows + [row])[1..] == rows[1..] + [row];
      FoldGroqSnoc(ApplyGroqRow(r, rows[0]), rows[1..], row);
    } else {
      assert (rows + [row])[1..] == [];
    }
  }

  /** The same for the Groq rates, which know only input and output tokens. */
  lemma {:induction false} GroqRatesLastRowWins(r: GroqRates, rows: seq<Json>)
    ensures FoldGroqRows(r, rows).inputToken == LastRate(rows, "input_token").GetOr(r.inputToken)
    ensures FoldGroqRows(r, rows).outputToken == LastRate(rows, "output_token").GetOr(r.outputToken)
    decreases |rows|
  {
    if |rows| > 0 {
      var init := rows[..|rows| - 1];
      assert rows == init + [rows[|rows| - 1]];
      FoldGroqSnoc(r, init, rows[|rows| - 1]);
      GroqRatesLastRowWins(r, init);
    }
  }

  /** `get_claude_rates` given the reply: defaults unless the status is 200 and the rows parse. */
  function ClaudeRatesFrom(reply: RatesReply): Result<ClaudeRates, DatabaseError>
  {
    if reply.RatesStatus? && reply.code == 200 then
      if reply.rows.Failure? then Failure(QueryError(reply.rows.error))
      else Success(FoldClaudeRows(DefaultClaudeRates, reply.rows.value))
    else Success(DefaultClaudeRates)
  }

  function GroqRatesFrom(reply: RatesReply): Result<GroqRates, DatabaseError>
  {
    if reply.RatesStatus? && reply.code == 200 then
      if reply.rows.Failure? then Failure(QueryError(reply.rows.error))
      else Success(FoldGroqRows(DefaultGroqRates, reply.rows.value))
    else Success(DefaultGroqRates)
  }

  /** No answer, or an answer other than 200, gives the default rates; so do no rows. */
  lemma RatesFallBackToDefaults(reply: RatesReply)
    ensures !(reply.RatesStatus? && reply.code == 200) ==>
              ClaudeRatesFrom(reply) == Success(DefaultClaudeRates)
              && GroqRatesFrom(reply) == Success(DefaultGroqRates)
    ensures reply.RatesStatus? && reply.code == 200 && reply.rows == Success([]) ==>
              ClaudeRatesFrom(reply) == Success(ClaudeRates(3.0, 0.3, 15.0, 6.0))
              && GroqRatesFrom(reply) == Success(GroqRates(1.0, 3.0))
  {
  }

  /** The loop of `get_claude_rates`. */
  method GetClaudeRates(reply: RatesReply) returns (r: Result<ClaudeRates, DatabaseError>)
    ensures r == ClaudeRatesFrom(reply)
  {
    if !(reply.RatesStatus? && reply.code == 200) {
      return Success(DefaultClaudeRates);
    }
    if reply.rows.Failure? {
      return Failure(QueryError(reply.rows.error));
    }
    var rows := reply.rows.value;
    var rates := DefaultClaudeRates;
    var i := 0;
    while i < |rows|
      invariant 0 <= i <= |rows|
      invariant FoldClaudeRows(DefaultClaudeRates, rows) == FoldClaudeRows(rates, rows[i..])
    {
      assert rows[i..][1..] == rows[i + 1..];
      var t := CostTypeOf(rows[i]);
      var c := UnitCostOf(rows[i]);
      if t == "input_token" {
        rates := rates.(inputToken := c);
      } else if t == "output_token" {
        rates := rates.(outputToken := c);
      } else if t == "cache_hit_refresh" {
        rates := rates.(cacheHitRefresh := c);
      } else if t == "1h_cache_writes" {
        rates := rates.(oneHCacheWrites := c);
      }
      i := i + 1;
    }
    r := Success(rates);
  }

  /** The loop of `get_groq_rates`. */
  method GetGroqRates(reply: RatesReply) returns (r: Result<GroqRates, DatabaseError>)
    ensures r == GroqRatesFrom(reply)
  {
    if !(reply.RatesStatus? && reply.code == 200) {
      return Success(DefaultGroqRates);
    }
    if reply.rows.Failure? {
      return Failure(QueryError(reply.rows.error));
    }
    var rows := reply.rows.value;
    var rates := DefaultGroqRates;
    var i := 0;
    while i < |rows|
      invariant 0 <= i <= |rows|
      invariant FoldGroqRows(DefaultGroqRates, rows) == FoldGroqRows(rates, rows[i..])
    {
      assert rows[i..][1..] == rows[i + 1..];
      var t := CostTypeOf(rows[i]);
      var c := UnitCostOf(rows[i]);
      if t == "input_token" {
        rates := rates.(inputToken := c);
      } else if t == "output_token" {
        rates := rates.(outputToken := c);
      }
      i := i + 1;
    }
    r := Success(rates);
  }

  // ---------------------------------------------------------------- cost events

  /** `log_whatsapp_message`'s builder. */
  function WhatsappMessageBuilder(context: SessionContext, outgoing: bool, messageLen: nat, hasMedia: bool): (b: CostEventBuilder)
  {
    var eventType := if outgoing then "whatsapp_outgoing" else "whatsapp_incoming";
    var phone := if context.userPhone.Some? then JString(context.userPhone.value) else JNull;
    var metadata := JObject([("message_length", JNumber(messageLen as real)), ("has_media", JBool(hasMedia)),
                             ("phone_number", phone)]);
    WithMetadata(WithCost(NewBuilder(context, eventType), 0.005, "message", 1), metadata)
  }

  /** A WhatsApp message costs 0.005 for one "message", incoming or outgoing as flagged. */
  lemma WhatsappMessageCost(context: SessionContext, outgoing: bool, messageLen: nat, hasMedia: bool, now: int)
    ensures var e := LoggedEvent(WhatsappMessageBuilder(context, outgoing, messageLen, hasMedia), now);
      && e.costAmount == 0.005 && e.unitType == "message" && e.unitsConsumed == 1
      && (e.eventType == "whatsapp_outgoing" <==> outgoing)
      && (e.eventType == "whatsapp_incoming" <==> !outgoing)
      && e.querySessionId == context.sessionId && e.platform == context.platform
  {
  }

  /** The four components of a Claude call's cost, each tokens times rate per million. */
  datatype ClaudeCost = ClaudeCost(inputCost: real, cacheReadCost: real, outputCost: real, cacheWriteCost: real)

  function ClaudeCostOf(rates: ClaudeRates, inputTokens: int, cacheReadTokens: int, cacheWriteTokens: int, outputTokens: int): (c: ClaudeCost)
  {
    ClaudeCost(
      (inputTokens as real * rates.inputToken) / 1000000.0,
      (cacheReadTokens as real * rates.cacheHitRefresh) / 1000000.0,
      (outputTokens as real * rates.outputToken) / 1000000.0,
      (cacheWriteTokens as real * rates.oneHCacheWrites) / 1000000.0)
  }

  /** `log_claude_api_call`'s builder, given the rates it loaded. */
  function ClaudeCallBuilder(context: SessionContext, rates: ClaudeRates, inputTokens: int, cacheReadTokens: int,
                             cacheWriteTokens: int, outputTokens: int, model: string): (b: CostEventBuilder)
  {
    var c := ClaudeCostOf(rates, inputTokens, cacheReadTokens, cacheWriteTokens, outputTokens);
    var metadata := JObject([
      ("model", JString(model)),
      ("input_tokens", JNumber(inputTokens as real)),
      ("cache_read_tokens", JNumber(cacheReadTokens as real)),
      ("cache_write_tokens", JNumber(cacheWriteTokens as real)),
      ("output_tokens", JNumber(outputTokens as real)),
      ("input_cost", JNumber(c.inputCost)),
      ("cache_read_cost", JNumber(c.cacheReadCost)),
      ("output_cost", JNumber(c.outputCost)),
      ("cache_write_cost", JNumber(c.cacheWriteCost))]);
    var total := c.inputCost + c.cacheReadCost + c.cacheWriteCost + c.outputCost;
    var tokens := inputTokens + cacheReadTokens + cacheWriteTokens + outputTokens;
    WithMetadata(WithCost(NewBuilder(context, "claude_api"), total, "per_1m_tokens", tokens), metadata)
  }

  /**
   * The Claude event (written with `log_total_cost`) is charged the rate-weighted token sum per
   * million tokens, and counts all four kinds of token as consumed units.
   */
  lemma ClaudeCallCost(context: SessionContext, rates: ClaudeRates, inputTokens: int, cacheReadTokens: int,
                       cacheWriteTokens: int, outputTokens: int, model: string, now: int)
    ensures var e := LoggedTotalEvent(ClaudeCallBuilder(context, rates, inputTokens, cacheReadTokens,
                                                       cacheWriteTokens, outputTokens, model), now);
      && e.eventType == "claude_api" && e.unitType == "per_1m_tokens"
      && e.costAmount == (inputTokens as real * rates.inputToken + cacheReadTokens as real * rates.cacheHitRefresh
                          + cacheWriteTokens as real * rates.oneHCacheWrites + outputTokens as real * rates.outputToken)
                         / 1000000.0
      && e.unitsConsumed == inputTokens + cacheReadTokens + cacheWriteTokens + outputTokens
  {
  }

  /** `log_textract_usage`'s builder. */
  function TextractBuilder(context: SessionContext, imageSizeBytes: nat): (b: CostEventBuilder)
  {
    WithMetadata(WithCost(NewBuilder(context, "textract_api"), 0.0015, "per_page", 1),
                 JObject([("image_size_bytes", JNumber(imageSizeBytes as real))]))
  }

  /** An OCR call costs 0.0015 for one page, whatever the image size. */
  lemma TextractCost(context: SessionContext, size1: nat, size2: nat, now: int)
    ensures var e := LoggedEvent(TextractBuilder(context, size1), now);
      e.eventType == "textract_api" && e.costAmount == 0.0015 && e.unitType == "per_page" && e.unitsConsumed == 1
    ensures LoggedEvent(TextractBuilder(context, size1), now).costAmount
         == LoggedEvent(TextractBuilder(context, size2), now).costAmount
  {
  }

  // ---------------------------------------------------------------- the query shown in a notification

  /** How many leading characters of `q` fit in `n` UTF-8 bytes. */
  function CharsWithin(q: string, n: nat): (k: nat)
    ensures k <= |q|
    ensures Utf8Len(q[..k]) <= n
    ensures k < |q| ==> Utf8Len(q[..k + 1]) > n
    decreases |q|
  {
    if |q| == 0 || Utf8Width(q[0]) > n then
      assert |q| > 0 ==> q[..1] == [q[0]];
      0
    else
      var rest := q[1..];
      var j := CharsWithin(rest, n - Utf8Width(q[0]));
      assert q[..j + 1] == [q[0]] + rest[..j];
      Utf8LenAppend([q[0]], rest[..j]);
      if j < |rest| then
        assert q[..j + 2] == [q[0]] + rest[..j + 1];
        Utf8LenAppend([q[0]], rest[..j + 1]);
        j + 1
      else
        j + 1
  }

  /** What the notification shows of a query. */
  datatype ShownQuery = Shown(text: string) | Panics

  /**
   * The truncation as written: over 100 bytes, the first 97 bytes and "...". Slicing a Rust
   * string at a byte that is not a character boundary panics; byte 97 is a boundary exactly when
   * the characters that fit in 97 bytes fill them.
   */
  function TruncatedQueryAsWritten(q: string): (r: ShownQuery)
  {
    if Utf8Len(q) > 100 then
      var k := CharsWithin(q, 97);
      if Utf8Len(q[..k]) == 97 then Shown(q[..k] + "...") else Panics
    else Shown(q)
  }

  /** The truncation as intended: cut at the last character boundary within 97 bytes. */
  function TruncatedQuery(q: string): (r: string)
  {
    if Utf8Len(q) > 100 then q[..CharsWithin(q, 97)] + "..." else q
  }

  /** Ninety-six ASCII letters, an 'é' (two bytes) and ten more letters: 108 bytes. */
  function PanicExample(): string
  {
    Repeat('a', 96) + "\U{E9}" + Repeat('a', 10)
  }

  function Repeat(c: char, n: nat): (r: string)
    ensures |r| == n && forall i :: 0 <= i < n ==> r[i] == c
  {
    seq(n, _ => c)
  }

  /** Up to a two-byte character after 96 ASCII ones, each character of the prefix is one byte; after it, one more. */
  lemma {:induction false} PrefixBytesAroundWideChar(a: string, c: char, b: string, k: nat)
    requires |a| == 96 && forall i :: 0 <= i < |a| ==> a[i] as int < 0x80
    requires Utf8Width(c) == 2
    requires k <= |a + [c] + b|
    ensures k <= 96 ==> Utf8Len((a + [c] + b)[..k]) == k
    ensures k > 96 ==> Utf8Len((a + [c] + b)[..k]) == 98 + Utf8Len(b[..k - 97])
  {
    var q := a + [c] + b;
    if k <= 96 {
      assert q[..k] == a[..k];
      Utf8LenAscii(a[..k]);
    } else {
      assert q[..k] == (a + [c]) + b[..k - 97];
      Utf8LenAscii(a);
      Utf8LenAppend(a, [c]);
      Utf8LenAppend(a + [c], b[..k - 97]);
    }
  }

  /**
   * A query of 96 ASCII characters, then a two-byte character, then at least three more bytes
   * is over 100 bytes long, and byte 97 falls inside the two-byte character: the code as written
   * panics, while the corrected truncation shows the 96 characters and "...".
   */
  lemma {:induction false} TruncationPanicsInsideACharacter(a: string, c: char, b: string)
    requires |a| == 96 && forall i :: 0 <= i < |a| ==> a[i] as int < 0x80
    requires Utf8Width(c) == 2
    requires Utf8Len(b) >= 3
    ensures TruncatedQueryAsWritten(a + [c] + b) == Panics
    ensures TruncatedQuery(a + [c] + b) == a + "..."
  {
    var q := a + [c] + b;
    PrefixBytesAroundWideChar(a, c, b, |q|);
    assert q[..|q|] == q;
    assert b[..|q| - 97] == b;
    assert Utf8Len(q) > 100;
    var k := CharsWithin(q, 97);
    PrefixBytesAroundWideChar(a, c, b, k);
    if k < |q| {
      PrefixBytesAroundWideChar(a, c, b, k + 1);
    }
    assert k == 96;
    assert q[..96] == a;
  }

  /** The same for one concrete query: 96 letters 'a', an 'é', and ten more letters 'a'. */
  lemma TruncationPanicExample()
    ensures TruncatedQueryAsWritten(PanicExample()) == Panics
    ensures TruncatedQuery(PanicExample()) == Repeat('a', 96) + "..."
  {
    Utf8LenAscii(Repeat('a', 10));
    assert PanicExample() == Repeat('a', 96) + ['\U{E9}'] + Repeat('a', 10);
    TruncationPanicsInsideACharacter(Repeat('a', 96), '\U{E9}', Repeat('a', 10));
  }

  /**
   * The corrected truncation never fails. A query of at most 100 bytes is shown whole; a longer
   * one is shown as a prefix of 94 to 97 bytes followed by "...", so at most 100 bytes.
   */
  lemma {:induction false} TruncatedQuerySpec(q: string)
    ensures Utf8Len(q) <= 100 ==> TruncatedQuery(q) == q
    ensures Utf8Len(q) > 100 ==>
              exists k :: 0 <= k <= |q| && TruncatedQuery(q) == q[..k] + "..." && 94 <= Utf8Len(q[..k]) <= 97
    ensures Utf8Len(TruncatedQuery(q)) <= 100
  {
    if Utf8Len(q) > 100 {
      assert Utf8Len(q[..|q|]) > 100 by { assert q[..|q|] == q; }
      var k := CharsWithin(q, 97);
      assert k < |q|;
      assert q[..k + 1] == q[..k] + [q[k]];
      Utf8LenAppend(q[..k], [q[k]]);
      Utf8LenAppend(q[..k], "...");
    }
  }

  /**
   * Whenever the code as written does not panic it shows what the corrected truncation shows,
   * and on an ASCII query it never panics.
   */
  lemma {:induction false} TruncationAgreesWhenNoPanic(q: string)
    ensures TruncatedQueryAsWritten(q).Shown? ==> TruncatedQueryAsWritten(q).text == TruncatedQuery(q)
    ensures (forall i :: 0 <= i < |q| ==> q[i] as int < 0x80) ==> TruncatedQueryAsWritten(q).Shown?
  {
    if Utf8Len(q) > 100 && forall i :: 0 <= i < |q| ==> q[i] as int < 0x80 {
      assert Utf8Len(q[..|q|]) > 100 by { assert q[..|q|] == q; }
      var k := CharsWithin(q, 97);
      assert k < |q|;
      Utf8LenAscii(q[..k]);
      Utf8LenAscii(q[..k + 1]);
    }
  }

  // ---------------------------------------------------------------- the cost breakdown

  datatype Bucket = ClaudeBucket | GroqBucket | GroqDecisionBucket | GroqWhisperBucket | TextractBucket | PlatformBucket | NoBucket

  /** The exact event types first; then any type mentioning a messaging platform. */
  function BucketOf(eventType: string): (b: Bucket)
  {
    if eventType == "claude_api" then ClaudeBucket
    else if eventType == "groq_api" then GroqBucket
    else if eventType == "groq_decision" then GroqDecisionBucket
    else if eventType == "groq_whisper" then GroqWhisperBucket
    else if eventType == "textract_api" then TextractBucket
    else if Contains(eventType, "whatsapp") || Contains(eventType, "telegram") then PlatformBucket
    else NoBucket
  }

  datatype CostBuckets = CostBuckets(claude: real, groq: real, groqDecision: real, groqWhisper: real, textract: real, platform: real)

  const NoCosts := CostBuckets(0.0, 0.0, 0.0, 0.0, 0.0, 0.0)

  function AddEvent(b: CostBuckets, e: CostEvent): CostBuckets
  {
    match BucketOf(e.eventType)
    case ClaudeBucket => b.(claude := b.claude + e.costAmount)
    case GroqBucket => b.(groq := b.groq + e.costAmount)
    case GroqDecisionBucket => b.(groqDecision := b.groqDecision + e.costAmount)
    case GroqWhisperBucket => b.(groqWhisper := b.groqWhisper + e.costAmount)
    case TextractBucket => b.(textract := b.textract + e.costAmount)
    case PlatformBucket => b.(platform := b.platform + e.costAmount)
    case NoBucket => b
  }

  function AddEvents(b: CostBuckets, events: seq<CostEvent>): CostBuckets
    decreases |events|
  {
    if |events| == 0 then b else AddEvents(AddEvent(b, events[0]), events[1..])
  }

  function BucketTotal(b: CostBuckets): real
  {
    b.claude + b.groq + b.groqDecision + b.groqWhisper + b.textract + b.platform
  }

  function SumCosts(events: seq<CostEvent>): real
    decreases |events|
  {
    if |events| == 0 then 0.0 else events[0].costAmount + SumCosts(events[1..])
  }

  /** The cost of the events that fall in no bucket. */
  function UnbucketedCosts(events: seq<CostEvent>): real
    decreases |events|
  {
    if |events| == 0 then 0.0
    else (if BucketOf(events[0].eventType) == NoBucket then events[0].costAmount else 0.0) + UnbucketedCosts(events[1..])
  }

  /** Every event's cost lands in exactly one bucket or among the ignored ones: nothing is lost or counted twice. */
  lemma {:induction false} BucketsReconcile(b: CostBuckets, events: seq<CostEvent>)
    ensures BucketTotal(AddEvents(b, events)) + UnbucketedCosts(events) == BucketTotal(b) + SumCosts(events)
    decreases |events|
  {
    if |events| > 0 {
      BucketsReconcile(AddEvent(b, events[0]), events[1..]);
    }
  }

  /** Any event type starting with "whatsapp" or "telegram" is a platform cost. */
  lemma {:induction false} PlatformEventTypes(suffix: string)
    ensures BucketOf("whatsapp" + suffix) == PlatformBucket
    ensures BucketOf("telegram" + suffix) == PlatformBucket
  {
    WhatsappTypeIsPlatform(suffix);
    TelegramTypeIsPlatform(suffix);
  }

  lemma WhatsappTypeIsPlatform(suffix: string)
    ensures BucketOf("whatsapp" + suffix) == PlatformBucket
  {
    var t := "whatsapp" + suffix;
    ContainsInfix("", "whatsapp", suffix);
    assert "" + "whatsapp" + suffix == t;
    assert t[0] == 'w';
  }

  lemma TelegramTypeIsPlatform(suffix: string)
    ensures BucketOf("telegram" + suffix) == PlatformBucket
  {
    var t := "telegram" + suffix;
    ContainsInfix("", "telegram", suffix);
    assert "" + "telegram" + suffix == t;
    assert t[2] == 'l';
  }

  /** The WhatsApp message charges, incoming and outgoing, count as platform costs in the breakdown. */
  lemma WhatsappChargesArePlatformCosts(context: SessionContext, outgoing: bool, messageLen: nat, hasMedia: bool, now: int)
    ensures BucketOf(LoggedEvent(WhatsappMessageBuilder(context, outgoing, messageLen, hasMedia), now).eventType)
         == PlatformBucket
  {
    PlatformEventTypes("_outgoing");
    PlatformEventTypes("_incoming");
  }

  /** The loop of `create_cost_notification` that sums the events into buckets. */
  method SumIntoBuckets(events: seq<CostEvent>) returns (b: CostBuckets)
    ensures b == AddEvents(NoCosts, events)
  {
    b := NoCosts;
    var i := 0;
    while i < |events|
      invariant 0 <= i <= |events|
      invariant AddEvents(NoCosts, events) == AddEvents(b, events[i..])
    {
      assert events[i..][1..] == events[i + 1..];
      var e := events[i];
      var t := e.eventType;
      if t == "claude_api" {
        b := b.(claude := b.claude + e.costAmount);
      } else if t == "groq_api" {
        b := b.(groq := b.groq + e.costAmount);
      } else if t == "groq_decision" {
        b := b.(groqDecision := b.groqDecision + e.costAmount);
      } else if t == "groq_whisper" {
        b := b.(groqWhisper := b.groqWhisper + e.costAmount);
      } else if t == "textract_api" {
        b := b.(textract := b.textract + e.costAmount);
      } else if Contains(t, "whatsapp") || Contains(t, "telegram") {
        b := b.(platform := b.platform + e.costAmount);
      }
      i := i + 1;
    }
  }

  /** Rupees per dollar used in notifications. */
  const ForexRate := 90.0

  datatype BreakdownLine = BreakdownLine(title: string, rupees: real)

  function LineIf(amount: real, title: string): (lines: seq<BreakdownLine>)
    ensures |lines| == if amount > 0.0 then 1 else 0
    ensures forall l :: l in lines ==> l.rupees > 0.0
  {
    if amount > 0.0 then [BreakdownLine(title, amount * ForexRate)] else []
  }

  /** The breakdown: one line per bucket with a positive cost, in a fixed order, in rupees. */
  function Breakdown(b: CostBuckets, platform: string): (lines: seq<BreakdownLine>)
  {
    LineIf(b.claude, "Claude API") + LineIf(b.groq, "Groq API") + LineIf(b.groqDecision, "Groq Decision API")
    + LineIf(b.groqWhisper, "Groq Whisper") + LineIf(b.textract, "Textract") + LineIf(b.platform, Upper(platform))
  }

  /**
   * Only buckets with a positive cost get a line, each line shows a positive amount, and the
   * Claude line comes first exactly when Claude was charged.
   */
  lemma BreakdownShowsPositiveBuckets(b: CostBuckets, platform: string)
    ensures forall l :: l in Breakdown(b, platform) ==> l.rupees > 0.0
    ensures |Breakdown(b, platform)| ==
            (if b.claude > 0.0 then 1 else 0) + (if b.groq > 0.0 then 1 else 0) + (if b.groqDecision > 0.0 then 1 else 0)
            + (if b.groqWhisper > 0.0 then 1 else 0) + (if b.textract > 0.0 then 1 else 0) + (if b.platform > 0.0 then 1 else 0)
    ensures b.claude > 0.0 <==> |Breakdown(b, platform)| > 0 && Breakdown(b, platform)[0] == BreakdownLine("Claude API", b.claude * ForexRate)
    ensures b == NoCosts ==> Breakdown(b, platform) == []
  {
    var first := LineIf(b.claude, "Claude API");
    var rest := LineIf(b.groq, "Groq API") + LineIf(b.groqDecision, "Groq Decision API")
      + LineIf(b.groqWhisper, "Groq Whisper") + LineIf(b.textract, "Textract") + LineIf(b.platform, Upper(platform));
    assert Breakdown(b, platform) == first + rest;
    forall l: BreakdownLine | l in first + rest
      ensures l.rupees > 0.0
    {
      assert l in first || l in rest;
    }
  }

  /** The content of the notification; its text layout and number formatting are not modelled. */
  datatype CostNotification = CostNotification(
    platform: string,
    query: string,
    totalRupees: real,
    processingTimeMs: Option<int>,
    breakdown: Option<seq<BreakdownLine>>)

  /**
   * `create_cost_notification` given the session's events or the error reading them: without
   * events there is no processing time and no breakdown.
   */
  function CostNotificationOf(context: SessionContext, queryText: string, totalCost: real, processingTime: int,
                              events: Result<seq<CostEvent>, DatabaseError>): (n: CostNotification)
  {
    if events.Failure? then
      CostNotification(context.platform, TruncatedQuery(queryText), totalCost * ForexRate, None, None)
    else
      CostNotification(context.platform, TruncatedQuery(queryText), totalCost * ForexRate, Some(processingTime),
                       Some(Breakdown(AddEvents(NoCosts, events.value), context.platform)))
  }

  /**
   * The notification shows the query in at most 100 bytes (whole when it fits), the total in
   * rupees, and a processing time and a breakdown exactly when the events could be read; every
   * breakdown line is a positive amount.
   */
  lemma CostNotificationSpec(context: SessionContext, queryText: string, totalCost: real, processingTime: int,
                             events: Result<seq<CostEvent>, DatabaseError>)
    ensures var n := CostNotificationOf(context, queryText, totalCost, processingTime, events);
      && (n.breakdown.Some? <==> events.Success?)
      && (n.processingTimeMs.Some? <==> events.Success?)
      && Utf8Len(n.query) <= 100
      && (Utf8Len(queryText) <= 100 ==> n.query == queryText)
      && n.totalRupees == totalCost * ForexRate
      && (n.breakdown.Some? ==> forall l :: l in n.breakdown.value ==> l.rupees > 0.0)
  {
    TruncatedQuerySpec(queryText);
    if events.Success? {
      BreakdownShowsPositiveBuckets(AddEvents(NoCosts, events.value), context.platform);
    }
  }
}
