/** When a pending order is placed, as conditions on the figures it was asked with
    (src/modules/trading/pending-order-planner.js). */
module PlacementGates {
  import opened Common
  import opened TradingTypes
  import opened RiskPolicy
  import opened ExecutionPlanner
  import opened PendingPlanner
  import opened TradeGates

  /** The quote is live and has both sides. */
  predicate QuoteShows(m: Market, i: Instrument, bid: real, ask: real) {
    && m.quote.Some?
    && var q := m.quote.value;
       && !q.isStale && q.receivedAtMs.Some?
       && 0 <= i.maxQuoteAgeMs && m.nowMs - q.receivedAtMs.value <= i.maxQuoteAgeMs
       && q.bid == Some(bid) && q.ask == Some(ask)
  }

  /** A LIMIT waits for a better price than the market's; a stop for a worse one; and a STOP_LIMIT
      is filled at its stop or worse, up to its limit. */
  predicate Waits(c: PlaceCommand, bid: real, ask: real) {
    match c.kind
    case MARKET => false
    case LIMIT =>
      c.limitPrice.Some? && (if c.side == BUY then c.limitPrice.value < ask else c.limitPrice.value > bid)
    case STOP =>
      c.stopPrice.Some? && (if c.side == BUY then c.stopPrice.value > ask else c.stopPrice.value < bid)
    case STOP_LIMIT =>
      c.stopPrice.Some? && c.limitPrice.Some?
      && (if c.side == BUY then ask < c.stopPrice.value <= c.limitPrice.value
          else bid > c.stopPrice.value >= c.limitPrice.value)
  }

  /** The price that costs, margin and risk are reckoned at: the limit, or the stop where there is
      none to keep. */
  predicate IsReference(c: PlaceCommand, x: real) {
    if c.kind == STOP then c.stopPrice == Some(x) else c.limitPrice == Some(x)
  }

  predicate EndsLater(t: TimeInForce, nowMs: int) {
    t.SPECIFIED? ==> t.expiresAtMs.Some? && t.expiresAtMs.value > nowMs
  }

  /** Everything that has to hold for a placement with these figures. */
  ghost predicate MayPlace(m: Market, a: Account, c: PlaceCommand, e: Exposure, pending: PendingExposure,
      f: OpenFigures)
    requires c.symbol in m.instruments
  {
    var i := m.instruments[c.symbol];
    && AccountOpens(a, c.symbol) && i.active && i.executionEnabled
    && (exists bid, ask :: QuoteShows(m, i, bid, ask) && Waits(c, bid, ask))
    && VolumeTrades(c.volume, i)
    && PriceTrades(c.limitPrice, i) && PriceTrades(c.stopPrice, i)
    && PriceTrades(c.stopLoss, i) && PriceTrades(c.takeProfit, i)
    && ProtectionTrades(c.side, f.price, c.stopLoss, c.takeProfit)
    && ValidatePreTrade(a, Trade(c.volume, f.risk, f.margin, f.commission, f.closing), e,
                        PENDING_PLACEMENT(pending)).Ok?
    && EndsLater(c.timeInForce, m.nowMs)
  }

  /** Main result on placements: with figures f at the reference price, an order is accepted exactly
      when all of that holds. */
  lemma PlacesIff(m: Market, a: Account, c: PlaceCommand, e: Exposure, pending: PendingExposure, f: OpenFigures)
    requires c.symbol in m.instruments && IsReference(c, f.price)
    requires HasCosts(m, a, m.instruments[c.symbol], c.side, c.volume, c.stopLoss, f)
    ensures PlanPendingOrder(m, a, c, e, pending).Ok? <==> MayPlace(m, a, c, e, pending, f)
  {
    hide ValidateVolume, OptionalPrice, VolumeTrades, PriceTrades, CalculateCommission, CalculateRequiredMargin,
         StopRiskAmount, ValidatePreTrade, ValidateAccountForOpen, AccountOpens, LiveQuote, QuoteShows,
         PlacementFits, Waits;
    var i := m.instruments[c.symbol];
    AccountOpensIff(a, c.symbol);
    VolumeTradesIff(c.volume, i);
    PriceTradesIff(c.limitPrice, i);
    PriceTradesIff(c.stopPrice, i);
    PriceTradesIff(c.stopLoss, i);
    PriceTradesIff(c.takeProfit, i);
    QuoteShowsIff(m, i);
    var q := LiveQuote(m, i);
    if q.Ok? {
      WaitsIff(c, q.value.0, q.value.1);
      forall bid, ask | QuoteShows(m, i, bid, ask) ensures (bid, ask) == q.value { SameQuote(m, i, bid, ask); }
    }
    assert StopRisk(m, a, i, c.side, f.price, c.volume, c.stopLoss) == f.risk;
  }

  lemma QuoteShowsIff(m: Market, i: Instrument)
    ensures LiveQuote(m, i).Ok? ==> QuoteShows(m, i, LiveQuote(m, i).value.0, LiveQuote(m, i).value.1)
    ensures LiveQuote(m, i).Err? ==> forall bid, ask :: !QuoteShows(m, i, bid, ask)
  {
  }

  lemma SameQuote(m: Market, i: Instrument, bid: real, ask: real)
    requires QuoteShows(m, i, bid, ask) && LiveQuote(m, i).Ok?
    ensures LiveQuote(m, i).value == (bid, ask)
  {
  }

  lemma WaitsIff(c: PlaceCommand, bid: real, ask: real)
    ensures Waits(c, bid, ask) <==> c.kind != MARKET && RequirePrices(c).Ok? && PlacementFits(c, bid, ask)
  {
  }

  /** And every accepted order has such figures. */
  lemma PlacesWithFigures(m: Market, a: Account, c: PlaceCommand, e: Exposure, pending: PendingExposure)
    returns (f: OpenFigures)
    requires PlanPendingOrder(m, a, c, e, pending).Ok?
    ensures c.symbol in m.instruments && IsReference(c, f.price)
    ensures HasCosts(m, a, m.instruments[c.symbol], c.side, c.volume, c.stopLoss, f)
  {
    hide ValidateVolume, OptionalPrice, CalculateCommission, CalculateRequiredMargin, StopRiskAmount,
         ValidatePreTrade, ValidateAccountForOpen, LiveQuote, PlacementFits, ProtectionFits;
    var i := m.instruments[c.symbol];
    var reference := if c.kind == STOP then c.stopPrice.value else c.limitPrice.value;
    f := OpenFigures(reference, CalculateCommission(m, i, c.volume, reference, a.currency).value,
           if c.stopLoss.None? then 0.0
           else CalculateCommission(m, i, c.volume, c.stopLoss.value, a.currency).value,
           CalculateRequiredMargin(m, a, i, c.volume, reference).value,
           StopRisk(m, a, i, c.side, reference, c.volume, c.stopLoss));
  }
}
