/** The documents of one trading account. A document's identity is its place in
    the sequence of its collection: documents are only ever appended. */
module TradingTypes {
  import opened Common
  import opened Conversion

  /** Error codes of the source's AppErrors, with the plain RangeErrors of the
      decimal module under their own names. */
  datatype Code =
    | ACCOUNT_NOT_ACTIVE | ACCOUNT_TRADING_DISABLED | RISK_STATE_UNRESOLVED | SYMBOL_NOT_ALLOWED
    | DAILY_LOSS_LIMIT_REACHED | MAX_LOSS_LIMIT_REACHED
    | INSTRUMENT_NOT_FOUND | INSTRUMENT_NOT_ACTIVE | INSTRUMENT_EXECUTION_DISABLED | MARKET_SESSION_CLOSED
    | QUOTE_UNAVAILABLE | QUOTE_STALE | EXECUTABLE_QUOTE_UNAVAILABLE
    | INVALID_VOLUME | INVALID_VOLUME_RANGE | INVALID_VOLUME_STEP | INVALID_PRICE | INVALID_PRICE_STEP
    | INVALID_PROTECTION_PRICE | INVALID_LEVERAGE | INSUFFICIENT_MARGIN | ACCOUNT_CURRENCY_CONVERSION_UNAVAILABLE
    | MAX_OPEN_POSITIONS | MAX_SYMBOL_POSITIONS | MAX_PENDING_ORDERS | MAX_SYMBOL_PENDING
    | MAX_TOTAL_VOLUME_REACHED | MAX_POSITION_VOLUME_REACHED | MAX_SYMBOL_VOLUME_REACHED
    | MAX_TRADE_RISK | MAX_AGGREGATE_RISK | MAX_MARGIN_USAGE | MAX_SINGLE_ORDER_EXPOSURE | MAX_SYMBOL_EXPOSURE
    | STOP_LOSS_REQUIRED_FOR_RISK | RISK_POLICY_EQUITY_UNAVAILABLE
    | POSITION_NOT_FOUND | POSITION_NOT_OPEN | INVALID_CLOSE_VOLUME
    | INVALID_CLOSE_VOLUME_STEP | INVALID_REMAINING_VOLUME
    | ACCOUNT_VALUATION_NOT_LIVE | STEP_NOT_POSITIVE | DOCUMENT_INVALID | TRADING_DUPLICATE
    | MISSING_PENDING_PRICE | INVALID_PENDING_PRICE | INVALID_ORDER_EXPIRY | INVALID_PENDING_ORDER_TYPE
    | ORDER_NOT_FOUND | ORDER_NOT_CANCELLABLE
    | ACCOUNT_CLOSED | INVALID_LEDGER_AMOUNT | INSUFFICIENT_ACCOUNT_BALANCE
    | INSUFFICIENT_FREE_MARGIN | LEDGER_IDEMPOTENCY_CONFLICT
    | ACCOUNT_ACTIVATION_FORBIDDEN | ACCOUNT_RESUME_FORBIDDEN | ACCOUNT_ACTIVATION_REQUIRED

  datatype Side = BUY | SELL

  function Opposite(side: Side): Side { if side == BUY then SELL else BUY }

  datatype AccountStatus = ACTIVE | PAUSED | BREACHED | DISABLED | CLOSED_ACCOUNT

  datatype RiskPolicy = RiskPolicy(
    dailyLossLimit: real, maxLossLimit: real, allowedSymbols: seq<string>,
    maxOpenPositions: Option<int>, maxPositionsPerSymbol: Option<int>,
    maxPendingOrders: Option<int>, maxPendingOrdersPerSymbol: Option<int>,
    maxPositionVolume: Option<real>, maxSymbolVolume: Option<real>, maxTotalVolume: Option<real>,
    maxRiskPerTradePercent: Option<real>, maxAggregateRiskPercent: Option<real>,
    maxMarginUsagePercent: Option<real>, maxSingleOrderMarginPercentOfFree: Option<real>,
    maxSymbolMarginPercentOfPermitted: Option<real>)

  datatype Account = Account(
    status: AccountStatus, tradingEnabled: bool, federationEnabled: bool, riskUnresolved: bool,
    currency: string, leverage: int, policy: RiskPolicy, riskDayKey: string,
    initialBalance: real, dailyStartEquity: real, realizedPnlToday: real,
    balance: real, equity: real, floatingPnl: real, usedMargin: real, freeMargin: real,
    financialRevision: nat)

  datatype Instrument = Instrument(
    active: bool, executionEnabled: bool,
    tickSize: real, contractSize: real, minVolume: real, maxVolume: real, volumeStep: real,
    defaultLeverage: int, marginRate: Option<real>,
    commissionPerLotPerSide: Option<real>, commissionPerLot: Option<real>, commissionRate: real,
    quoteCurrency: string, pnlCurrency: string, marginCurrency: string, maxQuoteAgeMs: int)

  datatype PositionStatus = OPEN | CLOSED

  datatype Position = Position(
    sourceOrder: nat, symbol: string, side: Side, status: PositionStatus,
    initialVolume: real, openVolume: real, entryPrice: real, contractSize: real, volumeStep: real,
    quoteCurrency: string, margin: real, realizedPnl: real, commissionPaid: real,
    stopLoss: Option<real>, takeProfit: Option<real>)

  datatype OrderType = MARKET | LIMIT | STOP | STOP_LIMIT

  datatype OrderStatus = PENDING | TRIGGERED | FILLED | CANCELLED | EXPIRED | REJECTED

  datatype Order = Order(
    clientOrderId: string, symbol: string, side: Side, kind: OrderType, status: OrderStatus,
    requestedVolume: real, filledVolume: real, limitPrice: Option<real>, stopPrice: Option<real>,
    stopLoss: Option<real>, takeProfit: Option<real>, expiresAtMs: Option<int>,
    targetPosition: Option<nat>, acceptedPrice: Option<real>)

  datatype DealType = OPENING | CLOSING | PARTIAL_CLOSING

  datatype Deal = Deal(order: nat, position: nat, kind: DealType, volume: real, price: real, commission: real,
      realizedPnl: real)

  datatype EntryType = DEPOSIT | WITHDRAWAL | ADJUSTMENT | REALIZED_PNL | COMMISSION

  datatype Entry = Entry(kind: EntryType, amount: real, balanceBefore: real, balanceAfter: real,
                         currency: string, idempotencyKey: string, referenceId: string)

  /** What a command reads from outside the account's documents: the instrument
      table, the symbol's quote, the volume-adjusted execution price, the
      conversion quotes, the clock, and whether the session is open. */
  datatype Market = Market(
    instruments: map<string, Instrument>, quote: Option<Quote>, executionPrice: real, sessionOpen: bool,
    cv: Converter, store: QuoteStore, nowMs: int, dayKey: string)

  function FirstCurrency(a: string, b: string): string { if a != "" then a else b }
}
