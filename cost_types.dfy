/**
 * Cost events and how they are built (src/database/types/cost.rs): a builder starts with a zero
 * unit cost for one "unit", `with_cost` and `with_metadata` fill it in, and the event written
 * either multiplies the unit cost by the units (`log`) or takes it as the total
 * (`log_total_cost`). The clock is an input.
 */
module CostTypes {

  import opened Wrappers
  import opened Json
  import opened SessionTypes

  /** A row of `cost_events`. */
  datatype CostEvent = CostEvent(
    userId: Uuid,
    querySessionId: Uuid,
    eventType: string,
    unitCost: real,
    unitType: string,
    unitsConsumed: int,
    costAmount: real,
    metadata: Option<Json>,
    platform: string,
    createdAt: int)

  /** Claude prices in dollars per million tokens. */
  datatype ClaudeRates = ClaudeRates(inputToken: real, cacheHitRefresh: real, outputToken: real, oneHCacheWrites: real)

  /** Groq prices in dollars per million tokens. */
  datatype GroqRates = GroqRates(inputToken: real, outputToken: real)

  const DefaultClaudeRates := ClaudeRates(3.0, 0.3, 15.0, 6.0)
  const DefaultGroqRates := GroqRates(1.0, 3.0)

  datatype CostEventBuilder = CostEventBuilder(
    context: SessionContext,
    eventType: string,
    unitCost: real,
    unitType: string,
    unitsConsumed: int,
    metadata: Option<Json>)

  /** `CostEventBuilder::new`. */
  function NewBuilder(context: SessionContext, eventType: string): (b: CostEventBuilder)
  {
    CostEventBuilder(context, eventType, 0.0, "unit", 1, None)
  }

  function WithCost(b: CostEventBuilder, unitCost: real, unitType: string, unitsConsumed: int): (r: CostEventBuilder)
  {
    b.(unitCost := unitCost, unitType := unitType, unitsConsumed := unitsConsumed)
  }

  function WithMetadata(b: CostEventBuilder, metadata: Json): (r: CostEventBuilder)
  {
    b.(metadata := Some(metadata))
  }

  /** The event `log` writes: the amount is the unit cost times the units. */
  function LoggedEvent(b: CostEventBuilder, now: int): (e: CostEvent)
  {
    CostEvent(b.context.userId, b.context.sessionId, b.eventType, b.unitCost, b.unitType,
              b.unitsConsumed, b.unitCost * b.unitsConsumed as real, b.metadata, b.context.platform, now)
  }

  /** The event `log_total_cost` writes: the unit cost is already the total. */
  function LoggedTotalEvent(b: CostEventBuilder, now: int): (e: CostEvent)
  {
    LoggedEvent(b, now).(costAmount := b.unitCost)
  }

  /** A new builder costs nothing: unit cost 0 for one "unit", with no metadata. */
  lemma NewBuilderDefaults(context: SessionContext, eventType: string, now: int)
    ensures var b := NewBuilder(context, eventType);
      && b.unitCost == 0.0 && b.unitType == "unit" && b.unitsConsumed == 1 && b.metadata.None?
      && LoggedEvent(b, now).costAmount == 0.0
      && LoggedTotalEvent(b, now).costAmount == 0.0
  {
  }

  /**
   * `with_cost` changes the three cost fields only and `with_metadata` the metadata only, so the
   * order in which they are applied does not matter.
   */
  lemma BuilderStepsAreIndependent(b: CostEventBuilder, unitCost: real, unitType: string, units: int, metadata: Json)
    ensures var r := WithCost(b, unitCost, unitType, units);
      r.context == b.context && r.eventType == b.eventType && r.metadata == b.metadata
    ensures var r := WithMetadata(b, metadata);
      && r.context == b.context && r.eventType == b.eventType && r.unitCost == b.unitCost
      && r.unitType == b.unitType && r.unitsConsumed == b.unitsConsumed
    ensures WithMetadata(WithCost(b, unitCost, unitType, units), metadata)
         == WithCost(WithMetadata(b, metadata), unitCost, unitType, units)
  {
  }

  /**
   * The written event takes user, session and platform from the context and everything else
   * from the builder; `log` charges unit cost times units and `log_total_cost` the unit cost, so
   * the two agree exactly when one unit is consumed or the unit cost is 0.
   */
  lemma LoggedEventsSpec(b: CostEventBuilder, now: int)
    ensures var e := LoggedEvent(b, now);
      && e.userId == b.context.userId && e.querySessionId == b.context.sessionId
      && e.platform == b.context.platform && e.eventType == b.eventType
      && e.unitsConsumed == b.unitsConsumed && e.metadata == b.metadata && e.createdAt == now
      && e.costAmount == b.unitCost * b.unitsConsumed as real
    ensures LoggedTotalEvent(b, now).costAmount == b.unitCost
    ensures LoggedTotalEvent(b, now) == LoggedEvent(b, now)
        <==> b.unitsConsumed == 1 || b.unitCost == 0.0
  {
    var u, n := b.unitCost, b.unitsConsumed as real;
    assert u * n - u == u * (n - 1.0);
    if u != 0.0 && n != 1.0 {
      NonzeroProduct(u, n - 1.0);
    }
  }

  lemma NonzeroProduct(x: real, y: real)
    requires x != 0.0 && y != 0.0
    ensures x * y != 0.0
  {
    if x > 0.0 && y > 0.0 {
      assert x * y > 0.0;
    } else if x > 0.0 {
      assert x * -y > 0.0;
    } else if y > 0.0 {
      assert -x * y > 0.0;
    } else {
      assert -x * -y > 0.0;
    }
  }
}
