/** src/modules/trading/firm-risk-policy.js and src/modules/trading/trading-costs.js. */
module RiskPolicy {
  import opened Common
  import opened Decimal
  import opened DecimalDivision
  import opened Conversion
  import opened TradingTypes

  const STANDARD_MAX_OPEN_POSITIONS := 10
  const STANDARD_MAX_POSITIONS_PER_SYMBOL := 3
  const STANDARD_MAX_PENDING_ORDERS := 10
  const STANDARD_MAX_PENDING_ORDERS_PER_SYMBOL := 3

  /** Half a unit in the eighth decimal place. */
  const HALF_UNIT_8: real := 0.000000005

  function EnabledLimit(limit: Option<real>): (l: Option<real>) {
    if limit.Some? && limit.value > 0.0 then limit else None
  }

  /** A count limit that is not provisioned falls back to the standard one. */
  function CountLimit(limit: Option<int>, standard: int): (l: Option<int>)
    ensures l.Some? ==> l.value > 0
  {
    var value := if limit.Some? then limit.value else standard;
    if value > 0 then Some(value) else None
  }

  predicate WithinCount(limit: Option<int>, count: nat) { limit.Some? ==> count <= limit.value }

  datatype Exposure = Exposure(
    currentOpenPositions: nat, currentTotalVolume: real, currentSymbolVolume: real,
    currentSymbolMargin: real, currentSymbolPositions: nat, currentOpenRisk: real, unmeasuredRiskPositions: nat)

  datatype PendingExposure = PendingExposure(currentPendingOrders: nat, currentSymbolPendingOrders: nat)

  datatype OrderKind = OPEN_EXECUTION | PENDING_PLACEMENT(pending: PendingExposure)

  // ---- costs ---------------------------------------------------------------

  function ConvertTradingCurrency(m: Market, amount: real, from: string, to: string): (r: Result<real, Code>) {
    if from != "" && from == to then Ok(amount)
    else
      match Convert(m.cv, m.store, amount, from, to, m.nowMs)
      case Some(x) => Ok(x)
      case None => Err(ACCOUNT_CURRENCY_CONVERSION_UNAVAILABLE)
  }

  function Notional(price: real, contractSize: real, volume: real): (x: real) { price * contractSize * volume }

  function CommissionPerLot(i: Instrument): real {
    if i.commissionPerLotPerSide.Some? then i.commissionPerLotPerSide.value
    else if i.commissionPerLot.Some? then i.commissionPerLot.value
    else 0.0
  }

  function RateCharge(i: Instrument, volume: real, fillPrice: real): (x: real) {
    Notional(fillPrice, i.contractSize, volume) * i.commissionRate
  }

  function CalculateCommission(m: Market, i: Instrument, volume: real, fillPrice: real,
      accountCurrency: string): (r: Result<real, Code>) {
    var total := CommissionPerLot(i) * volume;
    if i.commissionRate > 0.0 then
      var charge :- ConvertTradingCurrency(m, RateCharge(i, volume, fillPrice), i.quoteCurrency, accountCurrency);
      Ok(total + charge)
    else Ok(total)
  }

  function NonNegativeCost(x: real): (y: real)
    ensures y >= 0.0 && y >= x
  {
    if x > 0.0 then x else 0.0
  }

  // ---- measured risk -------------------------------------------------------

  function RiskPercent(amount: real, equity: real): (r: Result<real, Code>) {
    if equity <= 0.0 then Err(RISK_POLICY_EQUITY_UNAVAILABLE)
    else Ok(RoundAt(amount * 100.0 / equity, 8, HALF_UP))
  }

  function StopRiskAmount(m: Market, contractSize: real, pnlCurrency: string, accountCurrency: string,
                          side: Side, entry: real, volume: real, stop: real): (r: Result<real, Code>)
  {
    var distance := if side == BUY then entry - stop else stop - entry;
    if distance <= 0.0 then Ok(0.0)
    else ConvertTradingCurrency(m, Notional(distance, contractSize, volume), pnlCurrency, accountCurrency)
  }

  /** The stop risk of an open position with its closing commission; a position
      without a stop is not measured and adds nothing. */
  function PositionStopRisk(m: Market, accountCurrency: string, p: Position): (r: Result<Option<real>, Code>) {
    if p.stopLoss.None? then Ok(None)
    else
      var closing :- if p.symbol in m.instruments
        then CalculateCommission(m, m.instruments[p.symbol], p.openVolume, p.stopLoss.value, accountCurrency)
        else Ok(0.0);
      var raw :- StopRiskAmount(m, p.contractSize,
                   if p.quoteCurrency != "" || p.symbol !in m.instruments then p.quoteCurrency
                   else FirstCurrency(m.instruments[p.symbol].pnlCurrency, m.instruments[p.symbol].quoteCurrency),
                   accountCurrency, p.side, p.entryPrice, p.openVolume, p.stopLoss.value);
      Ok(Some(raw + NonNegativeCost(closing)))
  }

  /** The order as the policy sees it: `rawRisk` is its stop risk in account
      currency, None when it has no stop loss, or the failed conversion. */
  datatype Trade = Trade(volume: real, rawRisk: Result<Option<real>, Code>,
                         requiredMargin: real, openingCommission: real, closingCommission: real)

  function TradeRiskAmount(t: Trade, raw: real): real {
    raw + NonNegativeCost(t.openingCommission) + NonNegativeCost(t.closingCommission)
  }

  function ValidateMeasuredRisk(a: Account, t: Trade, e: Exposure): (r: Result<(), Code>) {
    var perTrade, aggregate := EnabledLimit(a.policy.maxRiskPerTradePercent),
        EnabledLimit(a.policy.maxAggregateRiskPercent);
    if perTrade.None? && aggregate.None? then Ok(())
    else
      var raw :- t.rawRisk;
      if raw.None? then Err(STOP_LOSS_REQUIRED_FOR_RISK)
      else
        var amount := TradeRiskAmount(t, raw.value);
        var percent :- RiskPercent(amount, a.equity);
        if perTrade.Some? && percent > perTrade.value then Err(MAX_TRADE_RISK)
        else if aggregate.None? then Ok(())
        else
          var projected :- RiskPercent(e.currentOpenRisk + amount, a.equity);
          if projected > aggregate.value then Err(MAX_AGGREGATE_RISK) else Ok(())
  }

  // ---- volumes and counts --------------------------------------------------

  function ValidateVolumeLimits(p: TradingTypes.RiskPolicy, volume: real, e: Exposure): (r: Result<(), Code>) {
    var position, total, symbol := EnabledLimit(p.maxPositionVolume), EnabledLimit(p.maxTotalVolume),
        EnabledLimit(p.maxSymbolVolume);
    if position.Some? && volume > position.value then Err(MAX_POSITION_VOLUME_REACHED)
    else if total.Some? && e.currentTotalVolume + volume > total.value then Err(MAX_TOTAL_VOLUME_REACHED)
    else if symbol.Some? && e.currentSymbolVolume + volume > symbol.value then Err(MAX_SYMBOL_VOLUME_REACHED)
    else Ok(())
  }

  function ValidateCountLimits(p: TradingTypes.RiskPolicy, e: Exposure, kind: OrderKind): (r: Result<(), Code>) {
    match kind
    case OPEN_EXECUTION =>
      var total := CountLimit(p.maxOpenPositions, STANDARD_MAX_OPEN_POSITIONS);
      var onSymbol := CountLimit(p.maxPositionsPerSymbol, STANDARD_MAX_POSITIONS_PER_SYMBOL);
      if !WithinCount(total, e.currentOpenPositions + 1) then Err(MAX_OPEN_POSITIONS)
      else if !WithinCount(onSymbol, e.currentSymbolPositions + 1) then Err(MAX_SYMBOL_POSITIONS)
      else Ok(())
    case PENDING_PLACEMENT(x) =>
      var total := CountLimit(p.maxPendingOrders, STANDARD_MAX_PENDING_ORDERS);
      var onSymbol := CountLimit(p.maxPendingOrdersPerSymbol, STANDARD_MAX_PENDING_ORDERS_PER_SYMBOL);
      if !WithinCount(total, x.currentPendingOrders + 1) then Err(MAX_PENDING_ORDERS)
      else if !WithinCount(onSymbol, x.currentSymbolPendingOrders + 1) then Err(MAX_SYMBOL_PENDING)
      else Ok(())
  }

  // ---- margin --------------------------------------------------------------

  function PercentOf(part: real, whole: real): (p: real)
    requires whole > 0.0
  {
    RoundAt(part * 100.0 / whole, 8, HALF_UP)
  }

  function ShareOf(whole: real, percent: real): (x: real) { RoundAt(whole * percent / 100.0, 8, HALF_UP) }

  function ValidateMarginExposure(a: Account, t: Trade, e: Exposure): (r: Result<(), Code>) {
    if a.equity <= 0.0 then Err(RISK_POLICY_EQUITY_UNAVAILABLE)
    else
      var commission := NonNegativeCost(t.openingCommission);
      var equity := a.equity - commission;
      if equity <= 0.0 then Err(MAX_MARGIN_USAGE)
      else
        var free := if a.freeMargin > commission then a.freeMargin - commission else 0.0;
        var maxUsage := EnabledLimit(a.policy.maxMarginUsagePercent);
        var permitted := if maxUsage.Some? then ShareOf(equity, maxUsage.value) else free;
        var remaining := if permitted > a.usedMargin then permitted - a.usedMargin else 0.0;
        if maxUsage.Some? && PercentOf(a.usedMargin + t.requiredMargin, equity) > maxUsage.value
        then Err(MAX_MARGIN_USAGE)
        else
          var maxSingle := EnabledLimit(a.policy.maxSingleOrderMarginPercentOfFree);
          if maxSingle.Some? && (remaining <= 0.0 || PercentOf(t.requiredMargin, remaining) > maxSingle.value)
          then Err(MAX_SINGLE_ORDER_EXPOSURE)
          else
            var maxSymbol := EnabledLimit(a.policy.maxSymbolMarginPercentOfPermitted);
            if maxUsage.Some? && maxSymbol.Some? && permitted > 0.0
               && PercentOf(e.currentSymbolMargin + t.requiredMargin, permitted) > maxSymbol.value
            then Err(MAX_SYMBOL_EXPOSURE)
            else Ok(())
  }

  function ValidatePreTrade(a: Account, t: Trade, e: Exposure, kind: OrderKind): (r: Result<(), Code>) {
    var _ :- ValidateVolumeLimits(a.policy, t.volume, e);
    var _ :- ValidateCountLimits(a.policy, e, kind);
    var _ :- ValidateMeasuredRisk(a, t, e);
    ValidateMarginExposure(a, t, e)
  }

  // ---- what acceptance bounds ----------------------------------------------

  lemma EighthPlace()
    ensures HALF_UNIT_8 * PowReal(8) == 0.5
  {
    assert Pow10(2) == 100 && Pow10(4) == 10_000 && Pow10(6) == 1_000_000;
    assert Pow10(8) == 100_000_000;
  }

  /** A percentage that passed its limit after rounding is truly at most the
      limit plus half a unit in the eighth place. */
  lemma PercentBound(part: real, whole: real, limit: real)
    requires whole > 0.0 && PercentOf(part, whole) <= limit
    ensures part * 100.0 <= (limit + HALF_UNIT_8) * whole
  {
    var x := part * 100.0 / whole;
    assert x * whole == part * 100.0;
    assert x <= limit + HALF_UNIT_8 by { RoundedLimit(x, limit); }
    SideOf(x, limit + HALF_UNIT_8, whole, part * 100.0, (limit + HALF_UNIT_8) * whole);
  }

  lemma RoundedLimit(x: real, limit: real)
    requires RoundAt(x, 8, HALF_UP) <= limit
    ensures x <= limit + HALF_UNIT_8
  {
    hide RoundAt, Pow10, PowReal;
    RoundAtError(x, 8, HALF_UP);
    EighthPlace();
    var y, s := RoundAt(x, 8, HALF_UP), PowReal(8);
    SideOf(-HALF_UNIT_8, y - x, s, -0.5, (y - x) * s);
  }

  /** Acceptance under a margin-usage limit bounds the margin of the account
      after the trade by the limit on its equity after the opening commission. */
  lemma MarginUsageBound(a: Account, t: Trade, e: Exposure, kind: OrderKind)
    requires ValidatePreTrade(a, t, e, kind).Ok? && EnabledLimit(a.policy.maxMarginUsagePercent).Some?
    ensures a.equity - NonNegativeCost(t.openingCommission) > 0.0
    ensures (a.usedMargin + t.requiredMargin) * 100.0
            <= (a.policy.maxMarginUsagePercent.value + HALF_UNIT_8) * (a.equity - NonNegativeCost(t.openingCommission))
  {
    hide RoundAt, PercentOf, ValidateVolumeLimits, ValidateCountLimits, ValidateMeasuredRisk;
    PercentBound(a.usedMargin + t.requiredMargin, a.equity - NonNegativeCost(t.openingCommission),
        a.policy.maxMarginUsagePercent.value);
  }

  /** The aggregate-risk limit bounds the measured risk of all open positions
      together with the new trade. */
  lemma AggregateRiskBound(a: Account, t: Trade, e: Exposure, kind: OrderKind)
    requires ValidatePreTrade(a, t, e, kind).Ok? && EnabledLimit(a.policy.maxAggregateRiskPercent).Some?
    ensures a.equity > 0.0 && t.rawRisk.Ok? && t.rawRisk.value.Some?
    ensures (e.currentOpenRisk + TradeRiskAmount(t, t.rawRisk.value.value)) * 100.0
            <= (a.policy.maxAggregateRiskPercent.value + HALF_UNIT_8) * a.equity
  {
    hide RoundAt, ValidateVolumeLimits, ValidateCountLimits, ValidateMarginExposure;
    PercentBound(e.currentOpenRisk + TradeRiskAmount(t, t.rawRisk.value.value), a.equity,
        a.policy.maxAggregateRiskPercent.value);
  }

  lemma CommissionNonNegative(m: Market, i: Instrument, volume: real, fillPrice: real, accountCurrency: string)
    requires CommissionPerLot(i) >= 0.0 && i.contractSize >= 0.0 && volume >= 0.0 && fillPrice >= 0.0
    requires CalculateCommission(m, i, volume, fillPrice, accountCurrency).Ok?
    ensures CalculateCommission(m, i, volume, fillPrice, accountCurrency).value >= 0.0
  {
    hide Convert, RateCharge, CommissionPerLot;
    ProductSign(CommissionPerLot(i), volume);
    if i.commissionRate > 0.0 {
      RateChargeSign(i, volume, fillPrice);
      TradingConversionSign(m, RateCharge(i, volume, fillPrice), i.quoteCurrency, accountCurrency);
    }
  }

  lemma RateChargeSign(i: Instrument, volume: real, fillPrice: real)
    requires i.contractSize >= 0.0 && volume >= 0.0 && fillPrice >= 0.0 && i.commissionRate >= 0.0
    ensures RateCharge(i, volume, fillPrice) >= 0.0
  {
    hide Notional;
    NotionalSign(fillPrice, i.contractSize, volume);
    ProductSign(Notional(fillPrice, i.contractSize, volume), i.commissionRate);
  }

  lemma TradingConversionSign(m: Market, amount: real, from: string, to: string)
    requires amount >= 0.0 && ConvertTradingCurrency(m, amount, from, to).Ok?
    ensures ConvertTradingCurrency(m, amount, from, to).value >= 0.0
  {
    hide Convert;
    ConvertSign(m.cv, m.store, amount, from, to, m.nowMs);
  }

  lemma NotionalSign(price: real, contractSize: real, volume: real)
    requires price >= 0.0 && contractSize >= 0.0 && volume >= 0.0
    ensures Notional(price, contractSize, volume) >= 0.0
  {
    ProductSign(price, contractSize);
    ProductSign(price * contractSize, volume);
  }
}
