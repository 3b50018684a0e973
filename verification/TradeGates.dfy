/** When a trade is let through: the policy, an opening and a close, each as the conditions on
    the figures it was asked with (src/modules/trading/firm-risk-policy.js, trading-costs.js and
    execution-planner.js). */
module TradeGates {
  import opened Common
  import opened Decimal
  import opened DecimalDivision
  import opened Conversion
  import opened TradingTypes
  import opened RiskPolicy
  import opened ExecutionPlanner

  /** The answer is r. */
  predicate Gives(x: Option<real>, r: real) { x.Some? && x.value == r }

  predicate Yields(x: Result<real, Code>, r: real) { x.Ok? && x.value == r }

  // ---- money in another currency ---------------------------------------------------

  /** Over the quote from the one currency to the other: a gain at the bid, a loss at the ask. */
  predicate IsDirect(q: Quote, amount: real, r: real) {
    q.bid.Some? && q.ask.Some? && r == if amount >= 0.0 then amount * q.bid.value else amount * q.ask.value
  }

  /** Over the quote the other way round: a gain at the ask, a loss at the bid, to twelve places. */
  predicate IsInverse(q: Quote, amount: real, r: real) {
    && q.bid.Some? && q.ask.Some? && q.bid.value > 0.0 && q.ask.value > 0.0
    && r == RoundAt(if amount >= 0.0 then amount / q.ask.value else amount / q.bid.value, 12, HALF_UP)
  }

  /** The quote may be used: listed, fresh, and with two positive prices. */
  predicate IsUsable(cv: Converter, store: QuoteStore, symbol: string, nowMs: int) {
    && (cv.symbols == {} || symbol in cv.symbols) && symbol in store
    && var q := store[symbol];
       && !q.isStale && q.bid.Some? && q.ask.Some? && q.bid.value > 0.0 && q.ask.value > 0.0
       && q.receivedAtMs.Some? && 0 <= cv.maxQuoteAgeMs && nowMs - q.receivedAtMs.value <= cv.maxQuoteAgeMs
  }

  lemma UsableIff(cv: Converter, store: QuoteStore, symbol: string, nowMs: int)
    ensures LegQuote(cv, store, symbol, nowMs).Some? <==> IsUsable(cv, store, symbol, nowMs)
    ensures LegQuote(cv, store, symbol, nowMs).Some? ==> LegQuote(cv, store, symbol, nowMs).value == store[symbol]
  {
  }

  predicate Leg(cv: Converter, store: QuoteStore, amount: real, from: string, to: string, nowMs: int, r: real) {
    if IsUsable(cv, store, from + to, nowMs) then IsDirect(store[from + to], amount, r)
    else IsUsable(cv, store, to + from, nowMs) && IsInverse(store[to + from], amount, r)
  }

  lemma LegIs(cv: Converter, store: QuoteStore, amount: real, from: string, to: string, nowMs: int, r: real)
    ensures Gives(ConvertLeg(cv, store, amount, from, to, nowMs), r) <==> Leg(cv, store, amount, from, to, nowMs, r)
  {
    hide RoundAt, Usable;
    UsableIff(cv, store, from + to, nowMs);
    UsableIff(cv, store, to + from, nowMs);
  }

  /** Main result on conversion: nothing is converted but between two currency codes; the same
      currency and zero convert to themselves; otherwise over the direct quote, else the inverse
      one, else over the dollar in two such steps. */
  lemma ConvertsAs(cv: Converter, store: QuoteStore, amount: real, from: string, to: string, nowMs: int, r: real)
    ensures Gives(Convert(cv, store, amount, from, to, nowMs), r) <==>
      && IsCurrency(from) && IsCurrency(to)
      && (if from == to || amount == 0.0 then r == amount
          else if HasLeg(cv, store, from, to, nowMs) then Leg(cv, store, amount, from, to, nowMs, r)
          else from != "USD" && to != "USD" && ViaDollar(cv, store, amount, from, to, nowMs, r))
  {
    hide RoundAt, IsUsable;
    LegIs(cv, store, amount, from, to, nowMs, r);
    LegExists(cv, store, amount, from, to, nowMs);
    match ConvertLeg(cv, store, amount, from, "USD", nowMs)
    case None =>
      if ViaDollar(cv, store, amount, from, to, nowMs, r) {
        var usd :| Leg(cv, store, amount, from, "USD", nowMs, usd) && Leg(cv, store, usd, "USD", to, nowMs, r);
        LegIs(cv, store, amount, from, "USD", nowMs, usd);
        assert false;
      }
    case Some(usd) =>
      LegIs(cv, store, amount, from, "USD", nowMs, usd);
      LegIs(cv, store, usd, "USD", to, nowMs, r);
      if ViaDollar(cv, store, amount, from, to, nowMs, r) {
        var other :| Leg(cv, store, amount, from, "USD", nowMs, other) && Leg(cv, store, other, "USD", to, nowMs, r);
        LegIs(cv, store, amount, from, "USD", nowMs, other);
      }
  }

  predicate HasLeg(cv: Converter, store: QuoteStore, from: string, to: string, nowMs: int) {
    IsUsable(cv, store, from + to, nowMs) || IsUsable(cv, store, to + from, nowMs)
  }

  lemma LegExists(cv: Converter, store: QuoteStore, amount: real, from: string, to: string, nowMs: int)
    ensures ConvertLeg(cv, store, amount, from, to, nowMs).Some? <==> HasLeg(cv, store, from, to, nowMs)
  {
    hide RoundAt, Usable;
    UsableIff(cv, store, from + to, nowMs);
    UsableIff(cv, store, to + from, nowMs);
  }

  ghost predicate ViaDollar(cv: Converter, store: QuoteStore, amount: real, from: string, to: string, nowMs: int,
      r: real) {
    exists usd :: Leg(cv, store, amount, from, "USD", nowMs, usd) && Leg(cv, store, usd, "USD", to, nowMs, r)
  }

  // ---- costs -----------------------------------------------------------------------

  /** An amount in an account's currency: its own, or converted. */
  predicate InAccount(m: Market, amount: real, from: string, to: string, r: real) {
    if from != "" && from == to then r == amount else Gives(Convert(m.cv, m.store, amount, from, to, m.nowMs), r)
  }

  lemma InAccountIff(m: Market, amount: real, from: string, to: string, r: real)
    ensures Yields(ConvertTradingCurrency(m, amount, from, to), r) <==> InAccount(m, amount, from, to, r)
  {
    hide Convert;
  }

  /** The commission of a lot: the per-side terms first. */
  predicate IsPerLot(i: Instrument, x: real) {
    && (i.commissionPerLotPerSide.Some? ==> x == i.commissionPerLotPerSide.value)
    && (i.commissionPerLotPerSide.None? && i.commissionPerLot.Some? ==> x == i.commissionPerLot.value)
    && (i.commissionPerLotPerSide.None? && i.commissionPerLot.None? ==> x == 0.0)
  }

  /** The commission: so much a lot, and the rate on the notional in the account's currency. */
  lemma CommissionIs(m: Market, i: Instrument, volume: real, price: real, currency: string, perLot: real, r: real)
    requires IsPerLot(i, perLot)
    ensures Yields(CalculateCommission(m, i, volume, price, currency), perLot * volume + r) <==>
      if i.commissionRate > 0.0
      then InAccount(m, price * i.contractSize * volume * i.commissionRate, i.quoteCurrency, currency, r)
      else r == 0.0
  {
    hide ConvertTradingCurrency, InAccount;
    assert CommissionPerLot(i) == perLot;
    assert RateCharge(i, volume, price) == price * i.contractSize * volume * i.commissionRate;
    InAccountIff(m, RateCharge(i, volume, price), i.quoteCurrency, currency, r);
  }

  /** The margin that is asked for: the leveraged notional in the account's currency. */
  lemma RequiredMarginIs(m: Market, a: Account, i: Instrument, volume: real, price: real, r: real)
    ensures Yields(CalculateRequiredMargin(m, a, i, volume, price), r) <==>
      && RawMargin(a, i, price * i.contractSize * volume).Ok?
      && InAccount(m, RawMargin(a, i, price * i.contractSize * volume).value,
             if i.marginCurrency != "" then i.marginCurrency else i.quoteCurrency, a.currency, r)
  {
    hide ConvertTradingCurrency, InAccount, RawMargin;
    assert Notional(price, i.contractSize, volume) == price * i.contractSize * volume;
    if RawMargin(a, i, price * i.contractSize * volume).Ok? {
      InAccountIff(m, RawMargin(a, i, price * i.contractSize * volume).value,
          if i.marginCurrency != "" then i.marginCurrency else i.quoteCurrency, a.currency, r);
    }
  }

  /** What a stop can cost: nothing when it lies in profit, else the way to it on the volume. */
  lemma StopRiskIs(m: Market, contractSize: real, from: string, to: string, side: Side, entry: real, volume: real,
                   stop: real, r: real)
    ensures Yields(StopRiskAmount(m, contractSize, from, to, side, entry, volume, stop), r) <==>
      && (side == BUY && stop >= entry ==> r == 0.0)
      && (side == BUY && stop < entry ==> InAccount(m, (entry - stop) * contractSize * volume, from, to, r))
      && (side == SELL && stop <= entry ==> r == 0.0)
      && (side == SELL && stop > entry ==> InAccount(m, (stop - entry) * contractSize * volume, from, to, r))
  {
    hide ConvertTradingCurrency, InAccount;
    assert Notional(entry - stop, contractSize, volume) == (entry - stop) * contractSize * volume;
    assert Notional(stop - entry, contractSize, volume) == (stop - entry) * contractSize * volume;
    InAccountIff(m, (entry - stop) * contractSize * volume, from, to, r);
    InAccountIff(m, (stop - entry) * contractSize * volume, from, to, r);
  }

  // ---- the policy --------------------------------------------------------------------

  function Above0(x: real): (y: real) { if x > 0.0 then x else 0.0 }

  /** The limit is set. */
  predicate IsSet(limit: Option<real>) { limit.Some? && limit.value > 0.0 }

  predicate AtMost(limit: Option<real>, x: real) { IsSet(limit) ==> x <= limit.value }

  /** A count within its limit, or the standard one where none is provisioned; none if not positive. */
  predicate Fits(limit: Option<int>, standard: int, count: int) {
    var n := if limit.Some? then limit.value else standard;
    n > 0 ==> count <= n
  }

  predicate VolumesFit(p: TradingTypes.RiskPolicy, volume: real, e: Exposure) {
    && AtMost(p.maxPositionVolume, volume)
    && AtMost(p.maxTotalVolume, e.currentTotalVolume + volume)
    && AtMost(p.maxSymbolVolume, e.currentSymbolVolume + volume)
  }

  predicate CountsFit(p: TradingTypes.RiskPolicy, e: Exposure, kind: OrderKind) {
    match kind
    case OPEN_EXECUTION =>
      Fits(p.maxOpenPositions, 10, e.currentOpenPositions + 1)
      && Fits(p.maxPositionsPerSymbol, 3, e.currentSymbolPositions + 1)
    case PENDING_PLACEMENT(x) =>
      Fits(p.maxPendingOrders, 10, x.currentPendingOrders + 1)
      && Fits(p.maxPendingOrdersPerSymbol, 3, x.currentSymbolPendingOrders + 1)
  }

  /** x is at most its limit per cent of the whole, to eight places. */
  predicate PercentFits(limit: Option<real>, x: real, whole: real) {
    IsSet(limit) ==> whole > 0.0 && RoundAt(x * 100.0 / whole, 8, HALF_UP) <= limit.value
  }

  /** With a risk limit the trade has a stop, and its risk with both commissions fits the trade's
      limit and, with the risk of the open positions, the aggregate one. */
  predicate RiskFits(a: Account, t: Trade, e: Exposure) {
    IsSet(a.policy.maxRiskPerTradePercent) || IsSet(a.policy.maxAggregateRiskPercent) ==>
      && t.rawRisk.Ok? && t.rawRisk.value.Some? && a.equity > 0.0
      && var risk := t.rawRisk.value.value + Above0(t.openingCommission) + Above0(t.closingCommission);
         && PercentFits(a.policy.maxRiskPerTradePercent, risk, a.equity)
         && PercentFits(a.policy.maxAggregateRiskPercent, e.currentOpenRisk + risk, a.equity)
  }

  /** A percentage of an amount, to eight places. */
  function Share(whole: real, percent: real): (x: real) { RoundAt(whole * percent / 100.0, 8, HALF_UP) }

  /** The margin the account may use at all: a share of its equity after the cost, or what is free. */
  function Permitted(a: Account, t: Trade): (x: real) {
    var cost := Above0(t.openingCommission);
    if IsSet(a.policy.maxMarginUsagePercent) then Share(a.equity - cost, a.policy.maxMarginUsagePercent.value)
    else Above0(a.freeMargin - cost)
  }

  predicate MarginFits(a: Account, t: Trade, e: Exposure) {
    var net, permitted := a.equity - Above0(t.openingCommission), Permitted(a, t);
    && a.equity > 0.0 && net > 0.0
    && PercentFits(a.policy.maxMarginUsagePercent, a.usedMargin + t.requiredMargin, net)
    && PercentFits(a.policy.maxSingleOrderMarginPercentOfFree, t.requiredMargin, permitted - a.usedMargin)
    && (IsSet(a.policy.maxMarginUsagePercent) && permitted > 0.0 ==>
          PercentFits(a.policy.maxSymbolMarginPercentOfPermitted, e.currentSymbolMargin + t.requiredMargin, permitted))
  }

  /** Main result on the policy: a trade passes exactly when its volumes, counts, measured risk and
      margins fit. */
  lemma PolicyAcceptsIff(a: Account, t: Trade, e: Exposure, kind: OrderKind)
    ensures ValidatePreTrade(a, t, e, kind).Ok? <==>
      VolumesFit(a.policy, t.volume, e) && CountsFit(a.policy, e, kind) && RiskFits(a, t, e) && MarginFits(a, t, e)
  {
    hide RoundAt, ValidateVolumeLimits, ValidateCountLimits, ValidateMeasuredRisk, ValidateMarginExposure;
    VolumesIff(a.policy, t.volume, e);
    CountsIff(a.policy, e, kind);
    RiskIff(a, t, e);
    MarginIff(a, t, e);
  }

  lemma VolumesIff(p: TradingTypes.RiskPolicy, volume: real, e: Exposure)
    ensures ValidateVolumeLimits(p, volume, e).Ok? <==> VolumesFit(p, volume, e)
  {
  }

  lemma CountsIff(p: TradingTypes.RiskPolicy, e: Exposure, kind: OrderKind)
    ensures ValidateCountLimits(p, e, kind).Ok? <==> CountsFit(p, e, kind)
  {
  }

  lemma RiskIff(a: Account, t: Trade, e: Exposure)
    ensures ValidateMeasuredRisk(a, t, e).Ok? <==> RiskFits(a, t, e)
  {
    hide RoundAt;
  }

  lemma MarginIff(a: Account, t: Trade, e: Exposure)
    ensures ValidateMarginExposure(a, t, e).Ok? <==> MarginFits(a, t, e)
  {
    hide RoundAt, PercentOf, ShareOf, Share, PercentFits;
    var cost, p := Above0(t.openingCommission), a.policy;
    var net, permitted := a.equity - cost, Permitted(a, t);
    if IsSet(p.maxMarginUsagePercent) {
      SameShare(net, p.maxMarginUsagePercent.value);
    }
    PercentIff(p.maxMarginUsagePercent, a.usedMargin + t.requiredMargin, net);
    PercentIff(p.maxSingleOrderMarginPercentOfFree, t.requiredMargin, permitted - a.usedMargin);
    PercentIff(p.maxSymbolMarginPercentOfPermitted, e.currentSymbolMargin + t.requiredMargin, permitted);
  }

  lemma SameShare(whole: real, percent: real)
    ensures ShareOf(whole, percent) == Share(whole, percent)
  {
  }

  lemma PercentIff(limit: Option<real>, x: real, whole: real)
    ensures PercentFits(limit, x, whole) <==> (IsSet(limit) ==> whole > 0.0 && PercentOf(x, whole) <= limit.value)
  {
    hide RoundAt;
  }

  // ---- openings ------------------------------------------------------------------------

  /** The account may open positions on the symbol. A loss limit of zero or less is none. */
  predicate AccountOpens(a: Account, symbol: string) {
    && a.status == ACTIVE && a.tradingEnabled && !a.riskUnresolved
    && (a.policy.dailyLossLimit > 0.0 ==> a.equity > a.dailyStartEquity - a.policy.dailyLossLimit)
    && (a.policy.maxLossLimit > 0.0 ==> a.equity > a.initialBalance - a.policy.maxLossLimit)
    && (a.policy.allowedSymbols == [] || symbol in a.policy.allowedSymbols)
  }

  /** The quote is fresh for the instrument, and its prices are positive and not crossed. */
  predicate QuoteTrades(m: Market, i: Instrument) {
    && m.quote.Some?
    && var q := m.quote.value;
       && !q.isStale && q.receivedAtMs.Some?
       && 0 <= i.maxQuoteAgeMs && m.nowMs - q.receivedAtMs.value <= i.maxQuoteAgeMs
       && q.bid.Some? && q.ask.Some? && 0.0 < q.bid.value <= q.ask.value
  }

  lemma QuoteTradesIff(m: Market, i: Instrument)
    ensures ValidateQuote(m, i).Ok? <==> QuoteTrades(m, i)
  {
  }

  ghost predicate VolumeTrades(volume: real, i: Instrument) {
    volume > 0.0 && i.minVolume <= volume <= i.maxVolume && i.volumeStep > 0.0 && MultipleOf(volume, i.volumeStep)
  }

  lemma VolumeTradesIff(volume: real, i: Instrument)
    ensures ValidateVolume(volume, i).Ok? <==> VolumeTrades(volume, i)
  {
    hide Quantize, MultipleOf;
    if i.volumeStep > 0.0 {
      OnStepIffMultiple(volume, i.volumeStep);
    }
  }

  /** A protection price, if there is one, is positive and on the grid. */
  ghost predicate PriceTrades(price: Option<real>, i: Instrument) {
    price.Some? ==> price.value > 0.0 && i.tickSize > 0.0 && MultipleOf(price.value, i.tickSize)
  }

  lemma PriceTradesIff(price: Option<real>, i: Instrument)
    ensures OptionalPrice(price, i).Ok? <==> PriceTrades(price, i)
  {
    hide Quantize, MultipleOf;
    if price.Some? && i.tickSize > 0.0 {
      OnStepIffMultiple(price.value, i.tickSize);
    }
  }

  /** A stop loss lies where the position loses, a take profit where it gains. */
  predicate ProtectionTrades(side: Side, price: real, stopLoss: Option<real>, takeProfit: Option<real>) {
    && (side == BUY && stopLoss.Some? ==> stopLoss.value < price)
    && (side == SELL && stopLoss.Some? ==> stopLoss.value > price)
    && (side == BUY && takeProfit.Some? ==> takeProfit.value > price)
    && (side == SELL && takeProfit.Some? ==> takeProfit.value < price)
  }

  /** The figures of an opening: its price, its costs at the opening and at its stop, its margin,
      and what its stop can lose. */
  datatype OpenFigures = OpenFigures(
    price: real, commission: real, closing: real, margin: real, risk: Result<Option<real>, Code>)

  predicate HasOpenFigures(m: Market, a: Account, i: Instrument, side: Side, volume: real, stopLoss: Option<real>,
      f: OpenFigures)
  {
    && m.executionPrice > 0.0 && i.tickSize != 0.0 && f.price == Quantize(m.executionPrice, i.tickSize, HALF_UP)
    && HasCosts(m, a, i, side, volume, stopLoss, f)
  }

  /** The costs, the margin and the risk are those at the price. */
  predicate HasCosts(m: Market, a: Account, i: Instrument, side: Side, volume: real, stopLoss: Option<real>,
      f: OpenFigures)
  {
    && Yields(CalculateCommission(m, i, volume, f.price, a.currency), f.commission)
    && (if stopLoss.None? then f.closing == 0.0
        else Yields(CalculateCommission(m, i, volume, stopLoss.value, a.currency), f.closing))
    && Yields(CalculateRequiredMargin(m, a, i, volume, f.price), f.margin)
    && (stopLoss.None? ==> f.risk == Ok(None))
    && (stopLoss.Some? ==>
          var from := if i.pnlCurrency != "" then i.pnlCurrency else i.quoteCurrency;
          var amount := StopRiskAmount(m, i.contractSize, from, a.currency, side, f.price, volume, stopLoss.value);
          if amount.Ok? then f.risk == Ok(Some(amount.value)) else f.risk == Err(amount.error))
  }

  /** Everything that has to hold for an opening with these figures. */
  ghost predicate MayOpen(m: Market, a: Account, e: Exposure, symbol: string, side: Side, volume: real,
      stopLoss: Option<real>, takeProfit: Option<real>, f: OpenFigures)
    requires symbol in m.instruments
  {
    var i := m.instruments[symbol];
    && AccountOpens(a, symbol) && i.active && i.executionEnabled && m.sessionOpen && QuoteTrades(m, i)
    && VolumeTrades(volume, i) && PriceTrades(stopLoss, i) && PriceTrades(takeProfit, i)
    && ProtectionTrades(side, f.price, stopLoss, takeProfit)
    && ValidatePreTrade(a, Trade(volume, f.risk, f.margin, f.commission, f.closing), e, OPEN_EXECUTION).Ok?
    && a.freeMargin >= f.margin + f.commission
  }

  /** Main result on openings: with figures f, one is planned exactly when all of that holds, and
      the plan is of these figures. */
  lemma OpensIff(m: Market, a: Account, e: Exposure, symbol: string, side: Side, volume: real,
      stopLoss: Option<real>, takeProfit: Option<real>, f: OpenFigures)
    requires symbol in m.instruments && HasOpenFigures(m, a, m.instruments[symbol], side, volume, stopLoss, f)
    ensures var r, i := PlanMarketOpen(m, a, e, symbol, side, volume, stopLoss, takeProfit), m.instruments[symbol];
      && (r.Ok? <==> MayOpen(m, a, e, symbol, side, volume, stopLoss, takeProfit, f))
      && (r.Ok? ==>
            var p := r.value;
            && p.symbol == symbol && p.side == side && p.volume == volume && p.fillPrice == f.price
            && p.stopLoss == stopLoss && p.takeProfit == takeProfit && p.commission == f.commission
            && p.requiredMargin == f.margin && p.contractSize == i.contractSize && p.volumeStep == i.volumeStep
            && p.quoteCurrency == i.quoteCurrency)
  {
    hide Quantize, MultipleOf, CalculateCommission, CalculateRequiredMargin, StopRiskAmount, ValidatePreTrade;
    hide ValidateVolume, OptionalPrice, ValidateQuote, VolumeTrades, PriceTrades, QuoteTrades;
    var i := m.instruments[symbol];
    QuoteTradesIff(m, i);
    VolumeTradesIff(volume, i);
    PriceTradesIff(stopLoss, i);
    PriceTradesIff(takeProfit, i);
    AccountOpensIff(a, symbol);
    PricesOpen(m, a, i, symbol, side, volume, stopLoss, takeProfit, f);
    hide PriceOpen, ValidateAccountForOpen, AccountOpens, ProtectionTrades;
  }

  lemma AccountOpensIff(a: Account, symbol: string)
    ensures ValidateAccountForOpen(a, symbol).Ok? <==> AccountOpens(a, symbol)
  {
  }

  lemma PricesOpen(m: Market, a: Account, i: Instrument, symbol: string, side: Side, volume: real,
      stopLoss: Option<real>, takeProfit: Option<real>, f: OpenFigures)
    requires HasOpenFigures(m, a, i, side, volume, stopLoss, f)
    ensures var r := PriceOpen(m, a, i, symbol, side, volume, stopLoss, takeProfit);
      && (r.Ok? <==> OptionalPrice(stopLoss, i).Ok? && OptionalPrice(takeProfit, i).Ok?
                     && ProtectionTrades(side, f.price, stopLoss, takeProfit))
      && (r.Ok? ==>
            var p, t := r.value.0, r.value.1;
            && t == Trade(volume, f.risk, f.margin, f.commission, f.closing)
            && p.symbol == symbol && p.side == side && p.volume == volume && p.fillPrice == f.price
            && p.stopLoss == stopLoss && p.takeProfit == takeProfit && p.commission == f.commission
            && p.requiredMargin == f.margin && p.contractSize == i.contractSize && p.volumeStep == i.volumeStep
            && p.quoteCurrency == i.quoteCurrency)
  {
    hide Quantize, CalculateCommission, CalculateRequiredMargin, StopRiskAmount, OptionalPrice;
    var r := PriceOpen(m, a, i, symbol, side, volume, stopLoss, takeProfit);
    assert ExecutablePrice(m, i).value == f.price;
    if r.Ok? {
      assert r.value.1.rawRisk == f.risk;
    }
  }

  /** Without figures there is nothing to plan: no price, or a cost that cannot be converted. */
  lemma OpensWithFigures(m: Market, a: Account, e: Exposure, symbol: string, side: Side, volume: real,
      stopLoss: Option<real>, takeProfit: Option<real>)
    returns (f: OpenFigures)
    requires PlanMarketOpen(m, a, e, symbol, side, volume, stopLoss, takeProfit).Ok?
    ensures symbol in m.instruments && HasOpenFigures(m, a, m.instruments[symbol], side, volume, stopLoss, f)
  {
    hide Quantize, CalculateCommission, CalculateRequiredMargin, StopRiskAmount, ValidatePreTrade, ValidateVolume,
         OptionalPrice, ValidateQuote, ValidateAccountForOpen, ProtectionFits;
    var i := m.instruments[symbol];
    var priced := PriceOpen(m, a, i, symbol, side, volume, stopLoss, takeProfit).value;
    f := OpenFigures(priced.0.fillPrice, priced.0.commission, priced.1.closingCommission, priced.0.requiredMargin,
           priced.1.rawRisk);
  }

  // ---- closes --------------------------------------------------------------------------

  /** The figures of a close: its volume, its price, what it books and what it costs. */
  datatype CloseFigures = CloseFigures(volume: real, price: real, profit: real, commission: real)

  predicate HasCloseFigures(m: Market, a: Account, p: Position, i: Instrument, requested: Option<real>,
      f: CloseFigures)
  {
    && (requested.Some? ==> f.volume == requested.value) && (requested.None? ==> f.volume == p.openVolume)
    && m.executionPrice > 0.0 && i.tickSize != 0.0 && f.price == Quantize(m.executionPrice, i.tickSize, HALF_UP)
    && var from := if p.quoteCurrency != "" then p.quoteCurrency
                   else if i.pnlCurrency != "" then i.pnlCurrency else i.quoteCurrency;
       var gain := if p.side == BUY then f.price - p.entryPrice else p.entryPrice - f.price;
       && Yields(ConvertTradingCurrency(m, Notional(gain, p.contractSize, f.volume), from, a.currency), f.profit)
       && Yields(CalculateCommission(m, i, f.volume, f.price, a.currency), f.commission)
  }

  /** Everything that has to hold for a close of this volume: the position is open and has it, it
      is on the position's step, and what is left is nothing or enough. */
  ghost predicate MayClose(m: Market, p: Position, i: Instrument, volume: real) {
    && QuoteTrades(m, i) && p.status == OPEN && 0.0 < volume <= p.openVolume
    && p.volumeStep > 0.0 && MultipleOf(volume, p.volumeStep)
    && (p.openVolume - volume == 0.0 || p.openVolume - volume >= i.minVolume)
  }

  /** Main result on closes: with figures f, one is planned exactly when all of that holds, and the
      plan is of these figures. */
  lemma ClosesIff(m: Market, a: Account, p: Position, requested: Option<real>, f: CloseFigures)
    requires p.symbol in m.instruments && HasCloseFigures(m, a, p, m.instruments[p.symbol], requested, f)
    ensures var r, i := PlanMarketClose(m, a, p, requested), m.instruments[p.symbol];
      && (r.Ok? <==> MayClose(m, p, i, f.volume))
      && (r.Ok? ==>
            var plan := r.value;
            && plan.closeSide == (if p.side == BUY then SELL else BUY) && plan.volume == f.volume
            && plan.remainingVolume == p.openVolume - f.volume && (plan.fullClose <==> f.volume == p.openVolume)
            && plan.fillPrice == f.price && plan.realizedPnl == f.profit && plan.commission == f.commission
            && plan.releasedMargin == ReleasedMargin(p.margin, f.volume, p.openVolume))
  {
    hide Quantize, MultipleOf, CalculateCommission, ConvertTradingCurrency, ReleasedMargin, ValidateQuote, QuoteTrades,
         Notional;
    var i := m.instruments[p.symbol];
    QuoteTradesIff(m, i);
    assert ExecutablePrice(m, i).value == f.price;
    if p.volumeStep > 0.0 {
      OnStepIffMultiple(f.volume, p.volumeStep);
    }
    hide OnStep;
  }

  lemma ClosesWithFigures(m: Market, a: Account, p: Position, requested: Option<real>) returns (f: CloseFigures)
    requires PlanMarketClose(m, a, p, requested).Ok?
    ensures p.symbol in m.instruments && HasCloseFigures(m, a, p, m.instruments[p.symbol], requested, f)
  {
    hide Quantize, CalculateCommission, ConvertTradingCurrency, ReleasedMargin, ValidateQuote, OnStep, Notional;
    var plan := PlanMarketClose(m, a, p, requested).value;
    f := CloseFigures(plan.volume, plan.fillPrice, plan.realizedPnl, plan.commission);
  }
}
