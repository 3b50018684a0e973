/** src/modules/trading/execution-planner.js: the plan of a market open and of a
    market close, or the code it is refused with. */
module ExecutionPlanner {
  import opened Common
  import opened Decimal
  import opened DecimalDivision
  import opened Conversion
  import opened TradingTypes
  import opened RiskPolicy

  datatype OpenPlan = OpenPlan(
    symbol: string, side: Side, volume: real, fillPrice: real, stopLoss: Option<real>, takeProfit: Option<real>,
    commission: real, requiredMargin: real, contractSize: real, volumeStep: real, quoteCurrency: string)

  datatype ClosePlan = ClosePlan(
    closeSide: Side, volume: real, remainingVolume: real, fullClose: bool, fillPrice: real,
    realizedPnl: real, commission: real, releasedMargin: real)

  // ---- the risk gate of an opening -----------------------------------------

  /** An explicitly known earlier day is rolled forward in place; an empty day
      key never resets the baseline. */
  function RollRiskDay(a: Account, currentDay: string): (r: Account) {
    if a.riskDayKey != "" && a.riskDayKey != currentDay
    then a.(riskDayKey := currentDay, dailyStartEquity := a.equity, realizedPnlToday := 0.0)
    else a
  }

  /** Runs on the account RollRiskDay has rolled. */
  function ValidateChallengeRisk(a: Account): (r: Result<(), Code>) {
    if a.policy.dailyLossLimit > 0.0 && a.equity <= a.dailyStartEquity - a.policy.dailyLossLimit
    then Err(DAILY_LOSS_LIMIT_REACHED)
    else if a.policy.maxLossLimit > 0.0 && a.equity <= a.initialBalance - a.policy.maxLossLimit
    then Err(MAX_LOSS_LIMIT_REACHED)
    else Ok(())
  }

  function ValidateAccountForOpen(a: Account, symbol: string): (r: Result<(), Code>) {
    if a.status != ACTIVE then Err(ACCOUNT_NOT_ACTIVE)
    else if !a.tradingEnabled then Err(ACCOUNT_TRADING_DISABLED)
    else if a.riskUnresolved then Err(RISK_STATE_UNRESOLVED)
    else
      var _ :- ValidateChallengeRisk(a);
      if a.policy.allowedSymbols != [] && symbol !in a.policy.allowedSymbols then Err(SYMBOL_NOT_ALLOWED) else Ok(())
  }

  function ValidateInstrumentForOpen(m: Market, symbol: string): (r: Result<Instrument, Code>) {
    if symbol !in m.instruments then Err(INSTRUMENT_NOT_FOUND)
    else
      var i := m.instruments[symbol];
      if !i.active then Err(INSTRUMENT_NOT_ACTIVE)
      else if !i.executionEnabled then Err(INSTRUMENT_EXECUTION_DISABLED)
      else Ok(i)
  }

  // ---- quote, volume, prices -----------------------------------------------

  function FreshQuote(m: Market, i: Instrument): (r: Result<Quote, Code>) {
    match m.quote
    case None => Err(QUOTE_UNAVAILABLE)
    case Some(q) =>
      if q.isStale || q.receivedAtMs.None?
          || Max(0, m.nowMs - q.receivedAtMs.value) > i.maxQuoteAgeMs then Err(QUOTE_STALE)
      else Ok(q)
  }

  function ValidateQuote(m: Market, i: Instrument): (r: Result<(), Code>) {
    var q :- FreshQuote(m, i);
    if q.bid.None? || q.ask.None? || q.bid.value <= 0.0 || q.ask.value <= 0.0 || q.ask.value < q.bid.value
    then Err(EXECUTABLE_QUOTE_UNAVAILABLE) else Ok(())
  }

  predicate OnStep(x: real, step: real)
    requires step > 0.0
  {
    Quantize(x, step, FLOOR) == x
  }

  function ValidateVolume(volume: real, i: Instrument): (r: Result<(), Code>) {
    if volume <= 0.0 then Err(INVALID_VOLUME)
    else if volume < i.minVolume || volume > i.maxVolume then Err(INVALID_VOLUME_RANGE)
    else if i.volumeStep <= 0.0 then Err(STEP_NOT_POSITIVE)
    else if !OnStep(volume, i.volumeStep) then Err(INVALID_VOLUME_STEP)
    else Ok(())
  }

  function ExecutablePrice(m: Market, i: Instrument): (r: Result<real, Code>) {
    if m.executionPrice <= 0.0 then Err(EXECUTABLE_QUOTE_UNAVAILABLE)
    else if i.tickSize == 0.0 then Err(STEP_NOT_POSITIVE)
    else Ok(Quantize(m.executionPrice, i.tickSize, HALF_UP))
  }

  function OptionalPrice(price: Option<real>, i: Instrument): (r: Result<(), Code>) {
    if price.None? then Ok(())
    else if price.value <= 0.0 then Err(INVALID_PRICE)
    else if i.tickSize <= 0.0 then Err(STEP_NOT_POSITIVE)
    else if !OnStep(price.value, i.tickSize) then Err(INVALID_PRICE_STEP)
    else Ok(())
  }

  predicate ProtectionFits(side: Side, price: real, stopLoss: Option<real>, takeProfit: Option<real>) {
    if side == BUY then
      (stopLoss.Some? ==> stopLoss.value < price) && (takeProfit.Some? ==> takeProfit.value > price)
    else
      (stopLoss.Some? ==> stopLoss.value > price) && (takeProfit.Some? ==> takeProfit.value < price)
  }

  function RawMargin(a: Account, i: Instrument, notional: real): (r: Result<real, Code>) {
    if i.marginRate.Some? && i.marginRate.value > 0.0 then Ok(notional * i.marginRate.value)
    else
      var leverage := if a.leverage < i.defaultLeverage then a.leverage else i.defaultLeverage;
      if leverage <= 0 then Err(INVALID_LEVERAGE)
      else Ok(RoundAt(notional / leverage as real, 12, HALF_UP))
  }

  /** The margin is the notional at the margin rate, or over the lower of the two leverages. */
  lemma MarginIsLeveraged(a: Account, i: Instrument, notional: real)
    ensures var r := RawMargin(a, i, notional);
      && (i.marginRate.Some? && i.marginRate.value > 0.0 ==> r.Ok? && r.value == notional * i.marginRate.value)
      && (!(i.marginRate.Some? && i.marginRate.value > 0.0) ==>
            && (r.Ok? <==> a.leverage > 0 && i.defaultLeverage > 0)
            && (r.Ok? && a.leverage <= i.defaultLeverage ==>
                  r.value == RoundAt(notional / a.leverage as real, 12, HALF_UP))
            && (r.Ok? && i.defaultLeverage <= a.leverage ==>
                  r.value == RoundAt(notional / i.defaultLeverage as real, 12, HALF_UP))
            && (r.Err? ==> r.error == INVALID_LEVERAGE))
  {
    hide RoundAt;
  }

  function CalculateRequiredMargin(m: Market, a: Account, i: Instrument, volume: real,
      fillPrice: real): (r: Result<real, Code>) {
    var raw :- RawMargin(a, i, Notional(fillPrice, i.contractSize, volume));
    ConvertTradingCurrency(m, raw, FirstCurrency(i.marginCurrency, i.quoteCurrency), a.currency)
  }

  // ---- opening -------------------------------------------------------------

  /** Everything known about an opening before the policy is asked. */
  function PriceOpen(m: Market, a: Account, i: Instrument, symbol: string, side: Side, volume: real,
                     stopLoss: Option<real>, takeProfit: Option<real>): (r: Result<(OpenPlan, Trade), Code>)
  {
    var fillPrice :- ExecutablePrice(m, i);
    var _ :- OptionalPrice(stopLoss, i);
    var _ :- OptionalPrice(takeProfit, i);
    if !ProtectionFits(side, fillPrice, stopLoss, takeProfit) then Err(INVALID_PROTECTION_PRICE)
    else
      var commission :- CalculateCommission(m, i, volume, fillPrice, a.currency);
      var closing :- if stopLoss.None? then Ok(0.0) else CalculateCommission(m, i, volume, stopLoss.value, a.currency);
      var margin :- CalculateRequiredMargin(m, a, i, volume, fillPrice);
      var raw := StopRisk(m, a, i, side, fillPrice, volume, stopLoss);
      Ok((OpenPlan(symbol, side, volume, fillPrice, stopLoss, takeProfit, commission, margin,
                   i.contractSize, i.volumeStep, i.quoteCurrency),
          Trade(volume, raw, margin, commission, closing)))
  }

  function StopRisk(m: Market, a: Account, i: Instrument, side: Side, entry: real, volume: real,
      stop: Option<real>): (r: Result<Option<real>, Code>) {
    if stop.None? then Ok(None)
    else
      var x :- StopRiskAmount(m, i.contractSize, FirstCurrency(i.pnlCurrency, i.quoteCurrency), a.currency, side,
          entry, volume, stop.value);
      Ok(Some(x))
  }

  /** `a` has been rolled by RollRiskDay. */
  function PlanMarketOpen(m: Market, a: Account, e: Exposure, symbol: string, side: Side, volume: real,
                          stopLoss: Option<real>, takeProfit: Option<real>): (r: Result<OpenPlan, Code>)
  {
    var _ :- ValidateAccountForOpen(a, symbol);
    var i :- ValidateInstrumentForOpen(m, symbol);
    if !m.sessionOpen then Err(MARKET_SESSION_CLOSED)
    else
      var _ :- ValidateQuote(m, i);
      var _ :- ValidateVolume(volume, i);
      var priced :- PriceOpen(m, a, i, symbol, side, volume, stopLoss, takeProfit);
      var _ :- ValidatePreTrade(a, priced.1, e, OPEN_EXECUTION);
      if a.freeMargin < priced.0.requiredMargin + priced.0.commission then Err(INSUFFICIENT_MARGIN)
      else Ok(priced.0)
  }

  // ---- closing -------------------------------------------------------------

  /** The share of the margin a close gives back; never more than there is. */
  function ReleasedMargin(margin: real, requested: real, open: real): (r: real)
    requires open > 0.0
    ensures r <= margin
  {
    if requested == open then margin
    else
      var share := RoundAt(margin * requested / open, 12, HALF_UP);
      if share > margin then margin else share
  }

  function PlanMarketClose(m: Market, a: Account, p: Position, requested: Option<real>): (r: Result<ClosePlan, Code>) {
    if p.symbol !in m.instruments then Err(INSTRUMENT_NOT_FOUND)
    else
      var i := m.instruments[p.symbol];
      var _ :- ValidateQuote(m, i);
      if p.status != OPEN || p.openVolume <= 0.0 then Err(POSITION_NOT_OPEN)
      else
        var volume := if requested.Some? then requested.value else p.openVolume;
        if volume <= 0.0 then Err(INVALID_VOLUME)
        else if volume > p.openVolume then Err(INVALID_CLOSE_VOLUME)
        else if p.volumeStep <= 0.0 then Err(STEP_NOT_POSITIVE)
        else if !OnStep(volume, p.volumeStep) then Err(INVALID_CLOSE_VOLUME_STEP)
        else
          var remaining := p.openVolume - volume;
          if 0.0 < remaining < i.minVolume then Err(INVALID_REMAINING_VOLUME)
          else
            var fillPrice :- ExecutablePrice(m, i);
            var difference := if p.side == BUY then fillPrice - p.entryPrice else p.entryPrice - fillPrice;
            var currency := FirstCurrency(p.quoteCurrency, FirstCurrency(i.pnlCurrency, i.quoteCurrency));
            var pnl :- ConvertTradingCurrency(m, Notional(difference, p.contractSize, volume), currency, a.currency);
            var commission :- CalculateCommission(m, i, volume, fillPrice, a.currency);
            Ok(ClosePlan(Opposite(p.side), volume, remaining, volume == p.openVolume, fillPrice, pnl, commission,
                         ReleasedMargin(p.margin, volume, p.openVolume)))
  }

  // ---- what a plan promises ------------------------------------------------

  lemma OnStepIffMultiple(x: real, step: real)
    requires step > 0.0
    ensures OnStep(x, step) <==> MultipleOf(x, step)
  {
    if MultipleOf(x, step) {
      QuantizeFixesMultiples(x, step, FLOOR);
    }
    QuantizeBounds(x, step);
  }

  /** Between nothing and all of a non-negative margin is released. */
  lemma ReleasedMarginBounds(margin: real, requested: real, open: real)
    requires margin >= 0.0 && 0.0 < requested <= open
    ensures 0.0 <= ReleasedMargin(margin, requested, open) <= margin
  {
    hide RoundAt;
    ProductSign(margin, requested);
    QuotientSign(margin * requested, open);
    RoundAtSign(margin * requested / open, 12, HALF_UP);
  }

  /** The released share is within half a unit of the twelfth place of the
      proportional share, clamped at the whole margin. */
  lemma ReleasedMarginShare(margin: real, requested: real, open: real)
    requires margin >= 0.0 && 0.0 < requested <= open
    ensures (ReleasedMargin(margin, requested, open) - margin * requested / open) * PowReal(12) <= 0.5
    ensures ReleasedMargin(margin, requested, open) < margin ==>
      -0.5 <= (ReleasedMargin(margin, requested, open) - margin * requested / open) * PowReal(12)
  {
    hide RoundAt, Pow10, PowReal;
    var x := margin * requested / open;
    RoundAtError(x, 12, HALF_UP);
    var r, y := ReleasedMargin(margin, requested, open), RoundAt(x, 12, HALF_UP);
    if requested == open {
      assert x == margin by { SideOf(x, margin, open, margin * requested, margin * open); }
      assert (r - x) * PowReal(12) == 0.0;
    } else {
      SideOf(r - x, y - x, PowReal(12), (r - x) * PowReal(12), (y - x) * PowReal(12));
    }
  }

  lemma MarginNonNegative(m: Market, a: Account, i: Instrument, volume: real, fillPrice: real)
    requires i.contractSize >= 0.0 && volume >= 0.0 && fillPrice >= 0.0
    requires CalculateRequiredMargin(m, a, i, volume, fillPrice).Ok?
    ensures CalculateRequiredMargin(m, a, i, volume, fillPrice).value >= 0.0
  {
    hide ConvertTradingCurrency, RawMargin, Notional;
    NotionalSign(fillPrice, i.contractSize, volume);
    RawMarginNonNegative(a, i, Notional(fillPrice, i.contractSize, volume));
    var raw := RawMargin(a, i, Notional(fillPrice, i.contractSize, volume)).value;
    TradingConversionSign(m, raw, FirstCurrency(i.marginCurrency, i.quoteCurrency), a.currency);
  }

  lemma RawMarginNonNegative(a: Account, i: Instrument, notional: real)
    requires notional >= 0.0
    ensures RawMargin(a, i, notional).Ok? ==> RawMargin(a, i, notional).value >= 0.0
  {
    hide RoundAt;
    if i.marginRate.Some? && i.marginRate.value > 0.0 {
      ProductSign(notional, i.marginRate.value);
    } else {
      var leverage := if a.leverage < i.defaultLeverage then a.leverage else i.defaultLeverage;
      if leverage > 0 {
        QuotientSign(notional, leverage as real);
        RoundAtSign(notional / leverage as real, 12, HALF_UP);
      }
    }
  }

  /** Applied to an account whose free margin is its equity less its used
      margin, an accepted opening leaves the free margin non-negative and the
      margin usage within its limit. */
  lemma AcceptedOpenIsCovered(m: Market, a: Account, e: Exposure, symbol: string, side: Side, volume: real,
      stopLoss: Option<real>, takeProfit: Option<real>)
    requires PlanMarketOpen(m, a, e, symbol, side, volume, stopLoss, takeProfit).Ok?
    requires a.freeMargin == a.equity - a.usedMargin
    ensures var plan := PlanMarketOpen(m, a, e, symbol, side, volume, stopLoss, takeProfit).value;
      var equity, used := a.equity - plan.commission, a.usedMargin + plan.requiredMargin;
      && equity - used >= 0.0
      && (EnabledLimit(a.policy.maxMarginUsagePercent).Some? ==>
            equity > 0.0 && used * 100.0 <= (a.policy.maxMarginUsagePercent.value + HALF_UNIT_8) * equity)
  {
    hide ValidateAccountForOpen, ValidateQuote, ValidateVolume, PriceOpen, ValidatePreTrade;
    var i := m.instruments[symbol];
    var (plan, trade) := PriceOpen(m, a, i, symbol, side, volume, stopLoss, takeProfit).value;
    PricedTrade(m, a, i, symbol, side, volume, stopLoss, takeProfit);
    if EnabledLimit(a.policy.maxMarginUsagePercent).Some? {
      MarginUsageBound(a, trade, e, OPEN_EXECUTION);
      RebateOnlyHelps(a.policy.maxMarginUsagePercent.value + HALF_UNIT_8, a.equity, plan.commission);
    }
  }

  /** A limit on the equity less the cost also holds on the equity less the commission. */
  lemma RebateOnlyHelps(limit: real, equity: real, commission: real)
    requires limit >= 0.0
    ensures limit * (equity - NonNegativeCost(commission)) <= limit * (equity - commission)
  {
    ProductSign(NonNegativeCost(commission) - commission, limit);
    assert (NonNegativeCost(commission) - commission) * limit
        == limit * (equity - commission) - limit * (equity - NonNegativeCost(commission));
  }

  lemma PricedTrade(m: Market, a: Account, i: Instrument, symbol: string, side: Side, volume: real,
      stopLoss: Option<real>, takeProfit: Option<real>)
    requires PriceOpen(m, a, i, symbol, side, volume, stopLoss, takeProfit).Ok?
    ensures var (plan, trade) := PriceOpen(m, a, i, symbol, side, volume, stopLoss, takeProfit).value;
      plan.requiredMargin == trade.requiredMargin && plan.commission == trade.openingCommission
      && ProtectionFits(side, plan.fillPrice, stopLoss, takeProfit)
  {
    hide CalculateCommission, CalculateRequiredMargin, StopRisk, ExecutablePrice;
  }

  /** Acceptance also means the counts fit with the new position included. */
  lemma AcceptedOpenCounts(m: Market, a: Account, e: Exposure, symbol: string, side: Side, volume: real,
      stopLoss: Option<real>, takeProfit: Option<real>)
    requires PlanMarketOpen(m, a, e, symbol, side, volume, stopLoss, takeProfit).Ok?
    ensures WithinCount(CountLimit(a.policy.maxOpenPositions, STANDARD_MAX_OPEN_POSITIONS), e.currentOpenPositions + 1)
    ensures WithinCount(CountLimit(a.policy.maxPositionsPerSymbol, STANDARD_MAX_POSITIONS_PER_SYMBOL),
        e.currentSymbolPositions + 1)
    ensures a.status == ACTIVE && a.tradingEnabled
  {
    hide ValidateQuote, ValidateVolume, PriceOpen, ValidateMeasuredRisk, ValidateMarginExposure, ValidateVolumeLimits;
  }

  /** No surcharge, no discount: the cost, margin and shape of an accepted plan. */
  lemma AcceptedOpenShape(m: Market, a: Account, e: Exposure, symbol: string, side: Side, volume: real,
      stopLoss: Option<real>, takeProfit: Option<real>)
    requires PlanMarketOpen(m, a, e, symbol, side, volume, stopLoss, takeProfit).Ok?
    ensures symbol in m.instruments
    ensures var i, plan := m.instruments[symbol],
        PlanMarketOpen(m, a, e, symbol, side, volume, stopLoss, takeProfit).value;
      && plan.symbol == symbol && plan.side == side && plan.volume == volume > 0.0
      && plan.contractSize == i.contractSize && plan.volumeStep == i.volumeStep > 0.0
      && plan.stopLoss == stopLoss && plan.takeProfit == takeProfit
      && (CommissionPerLot(i) >= 0.0 && plan.contractSize >= 0.0 && plan.fillPrice >= 0.0 ==>
          plan.commission >= 0.0 && plan.requiredMargin >= 0.0)
  {
    hide ValidateAccountForOpen, ValidateQuote, ValidatePreTrade, CalculateCommission, CalculateRequiredMargin,
         StopRisk, Quantize, OnStep;
    var i := m.instruments[symbol];
    var plan := PlanMarketOpen(m, a, e, symbol, side, volume, stopLoss, takeProfit).value;
    if CommissionPerLot(i) >= 0.0 && plan.contractSize >= 0.0 && plan.fillPrice >= 0.0 {
      CommissionNonNegative(m, i, volume, plan.fillPrice, a.currency);
      MarginNonNegative(m, a, i, volume, plan.fillPrice);
    }
  }

  lemma AcceptedCloseShape(m: Market, a: Account, p: Position, requested: Option<real>)
    requires PlanMarketClose(m, a, p, requested).Ok?
    ensures var plan := PlanMarketClose(m, a, p, requested).value;
      && p.status == OPEN && 0.0 < plan.volume <= p.openVolume
      && plan.remainingVolume == p.openVolume - plan.volume
      && (plan.fullClose <==> plan.volume == p.openVolume)
      && (requested.None? ==> plan.fullClose)
      && plan.releasedMargin == ReleasedMargin(p.margin, plan.volume, p.openVolume)
      && (p.margin >= 0.0 ==> 0.0 <= plan.releasedMargin <= p.margin)
      && (plan.fullClose ==> plan.releasedMargin == p.margin)
  {
    hide ValidateQuote, ConvertTradingCurrency, CalculateCommission, ExecutablePrice, OnStep, RoundAt;
    if p.margin >= 0.0 {
      ReleasedMarginBounds(p.margin, PlanMarketClose(m, a, p, requested).value.volume, p.openVolume);
    }
  }
}
