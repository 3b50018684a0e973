/** src/modules/trading/pending-order-planner.js, with pendingFillRespectsLimit
    of src/modules/trading/pending-order.service.js. */
module PendingPlanner {
  import opened Common
  import opened Conversion
  import opened TradingTypes
  import opened RiskPolicy
  import opened ExecutionPlanner

  /** A market tick: the quote of one symbol. */
  datatype Tick = Tick(symbol: string, quote: Quote)

  datatype PendingAction = EXPIRE | ACTIVATE | FILL

  predicate IsActive(status: OrderStatus) { status == PENDING || status == TRIGGERED }

  predicate IsFinal(status: OrderStatus) { !IsActive(status) }

  /** The price a pending order would execute at: ask to buy, bid to sell. */
  function ExecutableSide(side: Side, q: Quote): (price: Option<real>)
    ensures price.Some? ==> price.value > 0.0
  {
    var raw := if side == BUY then q.ask else q.bid;
    if raw.Some? && raw.value > 0.0 then raw else None
  }

  predicate LimitReached(side: Side, price: real, limit: Option<real>) {
    limit.Some? && (if side == BUY then price <= limit.value else price >= limit.value)
  }

  predicate StopReached(side: Side, price: real, stop: Option<real>) {
    stop.Some? && (if side == BUY then price >= stop.value else price <= stop.value)
  }

  function DetectAction(o: Order, tick: Tick, nowMs: int): (r: Option<PendingAction>) {
    if !IsActive(o.status) then None
    else if o.expiresAtMs.Some? && nowMs >= o.expiresAtMs.value then Some(EXPIRE)
    else if tick.quote.isStale || o.symbol == "" || o.symbol != tick.symbol then None
    else
      match ExecutableSide(o.side, tick.quote)
      case None => None
      case Some(price) =>
        if o.kind == LIMIT && o.status == PENDING && LimitReached(o.side, price, o.limitPrice) then Some(FILL)
        else if o.kind == STOP && o.status == PENDING && StopReached(o.side, price, o.stopPrice) then Some(FILL)
        else if o.kind == STOP_LIMIT && o.status == PENDING
            && StopReached(o.side, price, o.stopPrice) then Some(ACTIVATE)
        else if o.kind == STOP_LIMIT && o.status == TRIGGERED
            && LimitReached(o.side, price, o.limitPrice) then Some(FILL)
        else None
  }

  /** The price an order of this side executes at: what a buyer pays, what a seller gets. */
  predicate HasPrice(side: Side, q: Quote, x: real) {
    x > 0.0 && (side == BUY ==> q.ask == Some(x)) && (side == SELL ==> q.bid == Some(x))
  }

  /** x is no worse for the order than its limit. */
  predicate WithinLimit(o: Order, x: real) {
    o.limitPrice.Some? && (o.side == BUY ==> x <= o.limitPrice.value) && (o.side == SELL ==> x >= o.limitPrice.value)
  }

  /** The market has moved to the order's stop or beyond. */
  predicate AtStop(o: Order, x: real) {
    o.stopPrice.Some? && (o.side == BUY ==> x >= o.stopPrice.value) && (o.side == SELL ==> x <= o.stopPrice.value)
  }

  /** Main result on detection: an order that is PENDING or TRIGGERED expires when its time has
      come. Before that, a fresh quote of its symbol fills a LIMIT within its limit, a STOP at
      its stop and a triggered STOP_LIMIT within its limit, and activates a STOP_LIMIT at its
      stop; and nothing else happens. */
  lemma DetectsIff(o: Order, tick: Tick, nowMs: int, x: real)
    requires HasPrice(o.side, tick.quote, x)
    ensures var r := DetectAction(o, tick, nowMs);
      var waits := o.status == PENDING || o.status == TRIGGERED;
      var expired := o.expiresAtMs.Some? && nowMs >= o.expiresAtMs.value;
      var sees := waits && !expired && !tick.quote.isStale && o.symbol != "" && tick.symbol == o.symbol;
      && (r == Some(EXPIRE) <==> waits && expired)
      && (r == Some(FILL) <==>
            sees && ((o.kind == LIMIT && o.status == PENDING && WithinLimit(o, x))
                     || (o.kind == STOP && o.status == PENDING && AtStop(o, x))
                     || (o.kind == STOP_LIMIT && o.status == TRIGGERED && WithinLimit(o, x))))
      && (r == Some(ACTIVATE) <==> sees && o.kind == STOP_LIMIT && o.status == PENDING && AtStop(o, x))
  {
  }

  /** Without a positive price on its side an order can only expire. */
  lemma NoPriceNoFill(o: Order, tick: Tick, nowMs: int)
    requires forall x :: !HasPrice(o.side, tick.quote, x)
    ensures var r := DetectAction(o, tick, nowMs);
      && (r.Some? ==> r.value == EXPIRE)
      && (r.Some? <==> (o.status == PENDING || o.status == TRIGGERED)
                       && o.expiresAtMs.Some? && nowMs >= o.expiresAtMs.value)
  {
    if o.side == BUY && tick.quote.ask.Some? {
      assert !HasPrice(o.side, tick.quote, tick.quote.ask.value);
    }
    if o.side == SELL && tick.quote.bid.Some? {
      assert !HasPrice(o.side, tick.quote, tick.quote.bid.value);
    }
  }

  /** A LIMIT or STOP_LIMIT never fills at a price worse than its limit. */
  predicate FillRespectsLimit(o: Order, fillPrice: real) {
    o.kind == LIMIT || o.kind == STOP_LIMIT ==> LimitReached(o.side, fillPrice, o.limitPrice)
  }

  // ---- placement -----------------------------------------------------------

  /** `TODAY` carries the next local midnight, which depends on the time zone. */
  datatype TimeInForce = GTC | TODAY(midnightMs: int) | SPECIFIED(expiresAtMs: Option<int>)

  datatype PlaceCommand = PlaceCommand(
    clientOrderId: string, symbol: string, kind: OrderType, side: Side, volume: real,
    limitPrice: Option<real>, stopPrice: Option<real>, stopLoss: Option<real>, takeProfit: Option<real>,
    timeInForce: TimeInForce)

  function RequirePrices(c: PlaceCommand): (r: Result<(), Code>) {
    if c.kind == LIMIT && c.limitPrice.None? then Err(MISSING_PENDING_PRICE)
    else if c.kind == STOP && c.stopPrice.None? then Err(MISSING_PENDING_PRICE)
    else if c.kind == STOP_LIMIT && (c.stopPrice.None? || c.limitPrice.None?) then Err(MISSING_PENDING_PRICE)
    else Ok(())
  }

  /** Away from the market for a LIMIT, beyond it for a stop, and a STOP_LIMIT's
      limit no tighter than its stop. */
  predicate PlacementFits(c: PlaceCommand, bid: real, ask: real)
    requires c.kind != MARKET && RequirePrices(c).Ok?
  {
    && (c.kind == LIMIT ==> if c.side == BUY then c.limitPrice.value < ask else c.limitPrice.value > bid)
    && (c.kind == STOP || c.kind == STOP_LIMIT ==>
        if c.side == BUY then c.stopPrice.value > ask else c.stopPrice.value < bid)
    && (c.kind == STOP_LIMIT ==>
          if c.side == BUY then c.limitPrice.value >= c.stopPrice.value else c.limitPrice.value <= c.stopPrice.value)
  }

  function ResolveExpiry(tif: TimeInForce, nowMs: int): (r: Result<Option<int>, Code>) {
    match tif
    case GTC => Ok(None)
    case TODAY(midnight) => Ok(Some(midnight))
    case SPECIFIED(at) => if at.None? || at.value <= nowMs then Err(INVALID_ORDER_EXPIRY) else Ok(at)
  }

  function LiveQuote(m: Market, i: Instrument): (r: Result<(real, real), Code>) {
    var q :- FreshQuote(m, i);
    if q.bid.None? || q.ask.None? then Err(EXECUTABLE_QUOTE_UNAVAILABLE) else Ok((q.bid.value, q.ask.value))
  }

  /** The accepted order. */
  function PlanPendingOrder(m: Market, a: Account, c: PlaceCommand, e: Exposure,
      pending: PendingExposure): (r: Result<Order, Code>) {
    var _ :- ValidateAccountForOpen(a, c.symbol);
    var i :- ValidateInstrumentForOpen(m, c.symbol);
    var q :- LiveQuote(m, i);
    if c.kind == MARKET then Err(INVALID_PENDING_ORDER_TYPE) else
    var _ :- ValidateVolume(c.volume, i);
    var _ :- OptionalPrice(c.limitPrice, i);
    var _ :- OptionalPrice(c.stopPrice, i);
    var _ :- OptionalPrice(c.stopLoss, i);
    var _ :- OptionalPrice(c.takeProfit, i);
    var _ :- RequirePrices(c);
    if !PlacementFits(c, q.0, q.1) then Err(INVALID_PENDING_PRICE)
    else
      var reference := if c.kind == STOP then c.stopPrice.value else c.limitPrice.value;
      if !ProtectionFits(c.side, reference, c.stopLoss, c.takeProfit) then Err(INVALID_PROTECTION_PRICE)
      else
        var commission :- CalculateCommission(m, i, c.volume, reference, a.currency);
        var closing :- if c.stopLoss.None? then Ok(0.0)
            else CalculateCommission(m, i, c.volume, c.stopLoss.value, a.currency);
        var margin :- CalculateRequiredMargin(m, a, i, c.volume, reference);
        var raw := StopRisk(m, a, i, c.side, reference, c.volume, c.stopLoss);
        var _ :- ValidatePreTrade(a, Trade(c.volume, raw, margin, commission, closing), e, PENDING_PLACEMENT(pending));
        var expiry :- ResolveExpiry(c.timeInForce, m.nowMs);
        Ok(Order(c.clientOrderId, c.symbol, c.side, c.kind, PENDING, c.volume, 0.0, c.limitPrice, c.stopPrice,
                 c.stopLoss, c.takeProfit, expiry, None, None))
  }

  lemma PlacedOrderShape(m: Market, a: Account, c: PlaceCommand, e: Exposure, pending: PendingExposure)
    requires PlanPendingOrder(m, a, c, e, pending).Ok?
    ensures var o := PlanPendingOrder(m, a, c, e, pending).value;
      && o.status == PENDING && o.kind != MARKET && o.filledVolume == 0.0 && o.requestedVolume == c.volume > 0.0
      && o.symbol == c.symbol && o.side == c.side && o.clientOrderId == c.clientOrderId
      && o.targetPosition.None? && o.acceptedPrice.None?
      && o.limitPrice == c.limitPrice && o.stopPrice == c.stopPrice && o.kind == c.kind
      && o.stopLoss == c.stopLoss && o.takeProfit == c.takeProfit
      && (c.timeInForce.GTC? ==> o.expiresAtMs == None)
      && (c.timeInForce.TODAY? ==> o.expiresAtMs == Some(c.timeInForce.midnightMs))
      && (c.timeInForce.SPECIFIED? ==>
            o.expiresAtMs == c.timeInForce.expiresAtMs && o.expiresAtMs.Some? && o.expiresAtMs.value > m.nowMs)
      && (o.kind == LIMIT || o.kind == STOP_LIMIT ==> o.limitPrice.Some?)
      && WithinCount(CountLimit(a.policy.maxPendingOrders, STANDARD_MAX_PENDING_ORDERS),
          pending.currentPendingOrders + 1)
      && WithinCount(CountLimit(a.policy.maxPendingOrdersPerSymbol, STANDARD_MAX_PENDING_ORDERS_PER_SYMBOL),
          pending.currentSymbolPendingOrders + 1)
  {
    hide ValidateAccountForOpen, LiveQuote, OptionalPrice, OnStep, CalculateCommission, CalculateRequiredMargin,
         StopRisk, ValidateMeasuredRisk, ValidateMarginExposure, ValidateVolumeLimits, ProtectionFits;
  }

  /** An accepted LIMIT waits for a better price than the market's, a stop for a worse one, and the
      limit of a STOP_LIMIT is no tighter than its stop. */
  lemma PlacedAwayFromMarket(m: Market, a: Account, c: PlaceCommand, e: Exposure, pending: PendingExposure)
    requires PlanPendingOrder(m, a, c, e, pending).Ok?
    ensures m.quote.Some? && m.quote.value.bid.Some? && m.quote.value.ask.Some?
    ensures var o := PlanPendingOrder(m, a, c, e, pending).value;
      var bid, ask := m.quote.value.bid.value, m.quote.value.ask.value;
      && (o.kind == LIMIT ==>
            && o.limitPrice.Some?
            && (o.side == BUY ==> o.limitPrice.value < ask) && (o.side == SELL ==> o.limitPrice.value > bid))
      && (o.kind == STOP || o.kind == STOP_LIMIT ==>
            && o.stopPrice.Some?
            && (o.side == BUY ==> o.stopPrice.value > ask) && (o.side == SELL ==> o.stopPrice.value < bid))
      && (o.kind == STOP_LIMIT ==>
            && o.limitPrice.Some?
            && (o.side == BUY ==> o.limitPrice.value >= o.stopPrice.value)
            && (o.side == SELL ==> o.limitPrice.value <= o.stopPrice.value))
  {
    hide ValidateAccountForOpen, OptionalPrice, OnStep, CalculateCommission, CalculateRequiredMargin, StopRisk,
         ValidateMeasuredRisk, ValidateMarginExposure, ValidateVolumeLimits, ProtectionFits, ValidateCountLimits;
  }

  /** At the quote it was placed on, a just-placed order does nothing: no fill
      and no activation, whatever its type. */
  lemma PlacedOrderRests(m: Market, a: Account, c: PlaceCommand, e: Exposure, pending: PendingExposure)
    requires PlanPendingOrder(m, a, c, e, pending).Ok? && m.quote.Some?
    ensures var o := PlanPendingOrder(m, a, c, e, pending).value;
      var action := DetectAction(o, Tick(c.symbol, m.quote.value), m.nowMs);
      action.Some? ==> action == Some(EXPIRE)
  {
    hide ValidateAccountForOpen, OptionalPrice, OnStep, CalculateCommission, CalculateRequiredMargin, StopRisk,
         ValidateMeasuredRisk, ValidateMarginExposure, ValidateVolumeLimits, ProtectionFits, ValidateCountLimits;
  }
}
