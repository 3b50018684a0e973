/** The records of one account and what each command does to them. A command is
    one Mongo transaction: Ok is its committed outcome, Err its abort. The
    valuation engine is in step with the committed positions: its projection
    has their margins, and a floating profit when all of them are priced. */
module Books {
  import opened Common
  import opened TradingTypes
  import opened RiskPolicy
  import opened ExecutionPlanner
  import opened PendingPlanner
  import opened DecimalText

  datatype LifecycleEvent = LifecycleEvent(
    fromStatus: Option<AccountStatus>, toStatus: AccountStatus, tradingBefore: Option<bool>, tradingAfter: bool)

  datatype Books = Books(
    account: Account, positions: seq<Position>, orders: seq<Order>, deals: seq<Deal>,
    ledger: seq<Entry>, lifecycle: seq<LifecycleEvent>)

  datatype Valuation = Valuation(floatingPnl: Option<real>, live: bool)

  // ---- sums and counts over the positions -----------------------------------

  function OpenMarginOf(p: Position, k: ()): (x: real) { if p.status == OPEN then p.margin else 0.0 }

  function OpenMargin(ps: seq<Position>): (x: real) { Total(ps, (), OpenMarginOf) }

  predicate IsOpen(p: Position, k: ()) { p.status == OPEN }

  predicate IsOpenOn(p: Position, symbol: string) { p.status == OPEN && p.symbol == symbol }

  /** An open position without a stop, whose risk cannot be measured. */
  predicate IsUnmeasured(p: Position, k: ()) { p.status == OPEN && p.stopLoss.None? }

  predicate IsPending(o: Order, k: ()) { IsActive(o.status) }

  predicate IsPendingOn(o: Order, symbol: string) { IsActive(o.status) && o.symbol == symbol }

  /** loadOpenExposure, position by position. */
  function LoadOpenExposure(ps: seq<Position>, m: Market, currency: string,
      symbol: string): (r: Result<Exposure, Code>) {
    if ps == [] then Ok(Exposure(0, 0.0, 0.0, 0.0, 0, 0.0, 0))
    else
      var e :- LoadOpenExposure(ps[..|ps| - 1], m, currency, symbol);
      AddPosition(e, ps[|ps| - 1], m, currency, symbol)
  }

  function AddPosition(e: Exposure, p: Position, m: Market, currency: string,
      symbol: string): (r: Result<Exposure, Code>) {
    if p.status != OPEN then Ok(e)
    else
      var risk :- PositionStopRisk(m, currency, p);
      var onSymbol := symbol != "" && p.symbol == symbol;
      Ok(Exposure(
        e.currentOpenPositions + 1,
        e.currentTotalVolume + p.openVolume,
        if onSymbol then e.currentSymbolVolume + p.openVolume else e.currentSymbolVolume,
        if onSymbol then e.currentSymbolMargin + p.margin else e.currentSymbolMargin,
        if onSymbol then e.currentSymbolPositions + 1 else e.currentSymbolPositions,
        if risk.Some? then e.currentOpenRisk + risk.value else e.currentOpenRisk,
        if risk.None? then e.unmeasuredRiskPositions + 1 else e.unmeasuredRiskPositions))
  }

  function LoadPendingExposure(os: seq<Order>, symbol: string): (r: PendingExposure) {
    PendingExposure(Tally(os, (), IsPending), Tally(os, symbol, IsPendingOn))
  }

  // ---- the in-place mutations, on values ------------------------------------

  /** applyOpenAccountMutation. */
  function AfterOpen(a: Account, plan: OpenPlan): (r: Account) {
    var equity, used := a.equity - plan.commission, a.usedMargin + plan.requiredMargin;
    a.(financialRevision := a.financialRevision + 1, balance := a.balance - plan.commission,
       equity := equity, usedMargin := used, freeMargin := equity - used)
  }

  /** buildCommissionLedger: written from the balance after the charge. */
  function CommissionEntry(a: Account, amount: real, balanceAfter: real, key: string, reference: string): (e: Entry) {
    Entry(COMMISSION, -amount, balanceAfter + amount, balanceAfter, a.currency, key, reference)
  }

  function OpenEntries(a: Account, plan: OpenPlan, key: string, reference: string): (es: seq<Entry>) {
    if plan.commission > 0.0 then [CommissionEntry(a, plan.commission, AfterOpen(a, plan).balance, key, reference)]
    else []
  }

  function CloseEntries(a: Account, plan: ClosePlan, id: string, reference: string): (es: seq<Entry>) {
    var afterPnl := a.balance + plan.realizedPnl;
    (if plan.realizedPnl != 0.0
     then [Entry(REALIZED_PNL, plan.realizedPnl, a.balance, afterPnl, a.currency, id + ":close:pnl", reference)]
     else [])
    + (if plan.commission > 0.0
       then [Entry(COMMISSION, -plan.commission, afterPnl, afterPnl - plan.commission, a.currency,
                   id + ":close:commission", reference)]
       else [])
  }

  function ClampAtZero(x: real): (y: real) { if x < 0.0 then 0.0 else x }

  /** applyCloseAccountAndPositionMutation, the account half. */
  function AfterClose(a: Account, plan: ClosePlan, valuationComplete: bool): (r: Account) {
    var used := ClampAtZero(a.usedMargin - plan.releasedMargin);
    var equity := a.equity - plan.commission;
    a.(financialRevision := a.financialRevision + 1,
       balance := a.balance + plan.realizedPnl - (if plan.commission > 0.0 then plan.commission else 0.0),
       floatingPnl := if valuationComplete then a.floatingPnl - plan.realizedPnl else a.floatingPnl,
       equity := equity, realizedPnlToday := a.realizedPnlToday + plan.realizedPnl,
       usedMargin := used, freeMargin := equity - used)
  }

  /** applyCloseAccountAndPositionMutation, the position half. */
  function ClosedPosition(p: Position, plan: ClosePlan): (r: Position) {
    var q := p.(realizedPnl := p.realizedPnl + plan.realizedPnl, commissionPaid := p.commissionPaid + plan.commission);
    if plan.fullClose then q.(status := CLOSED, openVolume := 0.0, margin := 0.0)
    else q.(openVolume := plan.remainingVolume, margin := ClampAtZero(p.margin - plan.releasedMargin))
  }

  // ---- what the database refuses ---------------------------------------------

  /** The pre-validate hook of the position schema. */
  predicate PositionValid(p: Position) {
    && p.initialVolume > 0.0 && 0.0 <= p.openVolume <= p.initialVolume
    && p.entryPrice > 0.0 && p.contractSize > 0.0 && p.volumeStep > 0.0 && p.margin >= 0.0
    && (p.status == OPEN ==> p.openVolume > 0.0)
    && (p.status == CLOSED ==> p.openVolume == 0.0 && p.margin == 0.0)
  }

  /** The unique index on an account's ledger keys. */
  predicate FreshKeys(ledger: seq<Entry>, es: seq<Entry>) {
    && (forall i, j :: 0 <= i < |ledger| && 0 <= j < |es| ==> ledger[i].idempotencyKey != es[j].idempotencyKey)
    && (forall i, j :: 0 <= i < j < |es| ==> es[i].idempotencyKey != es[j].idempotencyKey)
  }

  /** The unique index on an account's client order ids. */
  predicate FreshOrder(orders: seq<Order>, id: string) {
    forall i :: 0 <= i < |orders| ==> orders[i].clientOrderId != id
  }

  // ---- valuation overlay -----------------------------------------------------

  /** overlayAccountDocument. */
  function Overlay(b: Books, v: Valuation, requireLive: bool): (r: Result<Account, Code>) {
    if requireLive && !(v.live && v.floatingPnl.Some?) then Err(ACCOUNT_VALUATION_NOT_LIVE)
    else if v.floatingPnl.None? then Ok(b.account)
    else
      var equity, used := b.account.balance + v.floatingPnl.value, OpenMargin(b.positions);
      Ok(b.account.(floatingPnl := v.floatingPnl.value, equity := equity, usedMargin := used,
          freeMargin := equity - used))
  }

  // ---- opening ---------------------------------------------------------------

  datatype Source = NewOrder(clientOrderId: string) | FilledOrder(index: nat)

  /** The account as the plan saw it, with its risk day rolled, and the plan. */
  function PlanOpen(b: Books, a: Account, m: Market, symbol: string, side: Side, volume: real,
                    stopLoss: Option<real>, takeProfit: Option<real>): (r: Result<(Account, OpenPlan), Code>)
  {
    var e :- LoadOpenExposure(b.positions, m, a.currency, symbol);
    var rolled := RollRiskDay(a, m.dayKey);
    var plan :- PlanMarketOpen(m, rolled, e, symbol, side, volume, stopLoss, takeProfit);
    Ok((rolled, plan))
  }

  function OpenedPosition(plan: OpenPlan, order: nat): (p: Position) {
    Position(order, plan.symbol, plan.side, OPEN, plan.volume, plan.volume, plan.fillPrice, plan.contractSize,
        plan.volumeStep, plan.quoteCurrency, plan.requiredMargin, 0.0, plan.commission, plan.stopLoss, plan.takeProfit)
  }

  function FilledMarketOrder(id: string, symbol: string, side: Side, volume: real, price: real,
                             stopLoss: Option<real>, takeProfit: Option<real>, target: Option<nat>): (o: Order)
  {
    Order(id, symbol, side, MARKET, FILLED, volume, volume, None, None, stopLoss, takeProfit, None, target, Some(price))
  }

  /** The order, position, deal, ledger entry and account of one opening. */
  function RecordOpen(b: Books, a: Account, plan: OpenPlan, source: Source, key: string): (r: Result<Books, Code>)
    requires source.FilledOrder? ==> source.index < |b.orders|
  {
    var index := if source.NewOrder? then |b.orders| else source.index;
    var position := OpenedPosition(plan, index);
    var entries := OpenEntries(a, plan, key, DigitsOf(|b.deals|));
    if !PositionValid(position) then Err(DOCUMENT_INVALID)
    else if (source.NewOrder? && !FreshOrder(b.orders, source.clientOrderId)) || !FreshKeys(b.ledger, entries)
    then Err(TRADING_DUPLICATE)
    else
      var orders := match source
        case NewOrder(id) =>
          b.orders + [FilledMarketOrder(id, plan.symbol, plan.side, plan.volume, plan.fillPrice, plan.stopLoss,
                                        plan.takeProfit, None)]
        case FilledOrder(i) =>
          var o := b.orders[i];
          b.orders[i := o.(status := FILLED, filledVolume := plan.volume, acceptedPrice := Some(plan.fillPrice))];
      Ok(b.(account := AfterOpen(a, plan), positions := b.positions + [position], orders := orders,
            deals := b.deals + [Deal(index, |b.positions|, OPENING, plan.volume, plan.fillPrice, plan.commission, 0.0)],
            ledger := b.ledger + entries))
  }

  function OpenMarket(b: Books, m: Market, v: Valuation, id: string, symbol: string, side: Side, volume: real,
                      stopLoss: Option<real>, takeProfit: Option<real>): (r: Result<Books, Code>)
  {
    var a :- Overlay(b, v, true);
    var planned :- PlanOpen(b, a, m, symbol, side, volume, stopLoss, takeProfit);
    RecordOpen(b, planned.0, planned.1, NewOrder(id), id + ":open:commission")
  }

  // ---- closing ---------------------------------------------------------------

  function RecordClose(b: Books, a: Account, index: nat, plan: ClosePlan, id: string,
      valuationComplete: bool): (r: Result<Books, Code>)
    requires index < |b.positions|
  {
    var p := b.positions[index];
    var entries := CloseEntries(a, plan, id, DigitsOf(|b.deals|));
    if plan.fillPrice <= 0.0 || !PositionValid(ClosedPosition(p, plan)) then Err(DOCUMENT_INVALID)
    else if !FreshOrder(b.orders, id) || !FreshKeys(b.ledger, entries) then Err(TRADING_DUPLICATE)
    else
      Ok(b.(account := AfterClose(a, plan, valuationComplete),
            positions := b.positions[index := ClosedPosition(p, plan)],
            orders := b.orders + [FilledMarketOrder(id, p.symbol, plan.closeSide, plan.volume, plan.fillPrice,
                                                    None, None, Some(index))],
            deals := b.deals + [Deal(|b.orders|, index, if plan.fullClose then CLOSING else PARTIAL_CLOSING,
                                     plan.volume, plan.fillPrice, plan.commission, plan.realizedPnl)],
            ledger := b.ledger + entries))
  }

  function CloseCore(b: Books, a: Account, m: Market, index: nat, volume: Option<real>, id: string,
      valuationComplete: bool): (r: Result<Books, Code>) {
    if index >= |b.positions| then Err(POSITION_NOT_FOUND)
    else
      var plan :- PlanMarketClose(m, a, b.positions[index], volume);
      RecordClose(b, a, index, plan, id, valuationComplete)
  }

  function CloseMarket(b: Books, m: Market, v: Valuation, id: string, index: nat,
      volume: Option<real>): (r: Result<Books, Code>) {
    var a :- Overlay(b, v, false);
    CloseCore(b, a, m, index, volume, id, v.floatingPnl.Some?)
  }

  // ---- atomic reverse --------------------------------------------------------

  /** childCommandId, without the digest that keeps shortened ids apart. */
  function ChildId(parent: string, leg: string): (id: string) { parent + ":" + leg }

  /** Close in full and open the opposite side in one transaction: the opening
      sees the records the close has written, and a failure undoes both. */
  function Reverse(b: Books, m: Market, v: Valuation, id: string, index: nat, stopLoss: Option<real>,
      takeProfit: Option<real>): (r: Result<Books, Code>) {
    var a :- Overlay(b, v, false);
    if index >= |b.positions| then Err(POSITION_NOT_FOUND)
    else if b.positions[index].status != OPEN then Err(POSITION_NOT_OPEN)
    else
      var p := b.positions[index];
      var closed :- CloseCore(b, a, m, index, None, ChildId(id, "close"), v.floatingPnl.Some?);
      var planned :- PlanOpen(closed, closed.account, m, p.symbol, Opposite(p.side), p.openVolume, stopLoss,
          takeProfit);
      RecordOpen(closed, planned.0, planned.1, NewOrder(ChildId(id, "open")), ChildId(id, "open") + ":commission")
  }

  // ---- balance mutations -----------------------------------------------------

  function SignedAmount(kind: EntryType, amount: real): (x: real) { if kind == WITHDRAWAL then -amount else amount }

  predicate IsMutation(kind: EntryType) { kind == DEPOSIT || kind == WITHDRAWAL || kind == ADJUSTMENT }

  predicate HasKey(ledger: seq<Entry>, key: string) {
    exists i :: 0 <= i < |ledger| && ledger[i].idempotencyKey == key
  }

  /** assertLedgerReplay against the entry that carries the key. */
  predicate MatchesReplay(ledger: seq<Entry>, key: string, kind: EntryType, amount: real, reference: string) {
    exists i :: 0 <= i < |ledger| && ledger[i].idempotencyKey == key
      && ledger[i].kind == kind && ledger[i].amount == SignedAmount(kind, amount) && ledger[i].referenceId == reference
  }

  function Mutate(b: Books, kind: EntryType, amount: real, key: string, reference: string): (r: Result<Books, Code>)
    requires IsMutation(kind)
  {
    if amount <= 0.0 then Err(INVALID_LEDGER_AMOUNT)
    else if HasKey(b.ledger, key) then
      if MatchesReplay(b.ledger, key, kind, amount, reference) then Ok(b) else Err(LEDGER_IDEMPOTENCY_CONFLICT)
    else if b.account.status == CLOSED_ACCOUNT then Err(ACCOUNT_CLOSED)
    else
      var signed := SignedAmount(kind, amount);
      var after, equity := b.account.balance + signed, b.account.equity + signed;
      if after < 0.0 then Err(INSUFFICIENT_ACCOUNT_BALANCE)
      else if kind == WITHDRAWAL && equity - b.account.usedMargin < 0.0 then Err(INSUFFICIENT_FREE_MARGIN)
      else
        Ok(b.(account := b.account.(financialRevision := b.account.financialRevision + 1, balance := after,
                                    equity := equity, freeMargin := equity - b.account.usedMargin),
              ledger := b.ledger + [Entry(kind, signed, b.account.balance, after, b.account.currency, key, reference)]))
  }

  // ---- pending orders --------------------------------------------------------

  function PlacePending(b: Books, m: Market, v: Valuation, c: PlaceCommand): (r: Result<Books, Code>) {
    var a :- Overlay(b, v, true);
    var e :- LoadOpenExposure(b.positions, m, a.currency, c.symbol);
    var order :- PlanPendingOrder(m, RollRiskDay(a, m.dayKey), c, e, LoadPendingExposure(b.orders, c.symbol));
    if !FreshOrder(b.orders, c.clientOrderId) then Err(TRADING_DUPLICATE)
    else Ok(b.(orders := b.orders + [order]))
  }

  function WithStatus(b: Books, index: nat, status: OrderStatus): (r: Books)
    requires index < |b.orders|
  {
    b.(orders := b.orders[index := b.orders[index].(status := status)])
  }

  function CancelPending(b: Books, index: nat): (r: Result<Books, Code>) {
    if index >= |b.orders| then Err(ORDER_NOT_FOUND)
    else if !IsActive(b.orders[index].status) then Err(ORDER_NOT_CANCELLABLE)
    else Ok(WithStatus(b, index, CANCELLED))
  }

  /** Skipping commits nothing and is not an error. */
  function ActivateStopLimit(b: Books, index: nat, tick: Tick, nowMs: int): (r: Result<Books, Code>) {
    if index >= |b.orders| || b.orders[index].kind != STOP_LIMIT || b.orders[index].status != PENDING then Ok(b)
    else
      match DetectAction(b.orders[index], tick, nowMs)
      case Some(EXPIRE) => Ok(WithStatus(b, index, EXPIRED))
      case Some(ACTIVATE) => Ok(WithStatus(b, index, TRIGGERED))
      case _ => Ok(b)
  }

  /** PERMANENT_TRIGGER_REJECTIONS. */
  predicate IsPermanentRejection(c: Code) {
    c in {ACCOUNT_NOT_ACTIVE, ACCOUNT_TRADING_DISABLED, SYMBOL_NOT_ALLOWED, INSTRUMENT_NOT_FOUND, INSTRUMENT_NOT_ACTIVE,
          INSTRUMENT_EXECUTION_DISABLED, INVALID_VOLUME, INVALID_VOLUME_RANGE, INVALID_VOLUME_STEP,
          INVALID_PROTECTION_PRICE, INVALID_LEVERAGE, INSUFFICIENT_MARGIN, ACCOUNT_CURRENCY_CONVERSION_UNAVAILABLE,
          MAX_OPEN_POSITIONS, MAX_SYMBOL_POSITIONS, MAX_TOTAL_VOLUME_REACHED, MAX_POSITION_VOLUME_REACHED,
          MAX_SYMBOL_VOLUME_REACHED, MAX_TRADE_RISK, MAX_AGGREGATE_RISK, MAX_MARGIN_USAGE, MAX_SINGLE_ORDER_EXPOSURE,
          MAX_SYMBOL_EXPOSURE, RISK_POLICY_EQUITY_UNAVAILABLE}
  }

  /** The tick is the quote the fill is planned on. A planner refusal from the
      permanent list rejects the order; any other failure aborts. */
  function ExecutePending(b: Books, m: Market, v: Valuation, index: nat, tick: Tick): (r: Result<Books, Code>) {
    if index >= |b.orders| || !IsActive(b.orders[index].status) then Ok(b)
    else
      var o := b.orders[index];
      match DetectAction(o, tick, m.nowMs)
      case Some(EXPIRE) => Ok(WithStatus(b, index, EXPIRED))
      case Some(FILL) =>
        var a :- Overlay(b, v, true);
        var e :- LoadOpenExposure(b.positions, m, a.currency, o.symbol);
        var rolled := RollRiskDay(a, m.dayKey);
        (match PlanMarketOpen(m.(quote := Some(tick.quote)), rolled, e, o.symbol, o.side, o.requestedVolume,
                              o.stopLoss, o.takeProfit)
         case Err(code) => if IsPermanentRejection(code) then Ok(WithStatus(b, index, REJECTED)) else Err(code)
         case Ok(plan) =>
           if !FillRespectsLimit(o, plan.fillPrice) then Ok(b)
           else RecordOpen(b, rolled, plan, FilledOrder(index), "pending:" + DigitsOf(index) + ":commission"))
      case _ => Ok(b)
  }

  function ExpirePending(b: Books, index: nat, nowMs: int): (r: Result<Books, Code>) {
    if index >= |b.orders| || !IsActive(b.orders[index].status) then Ok(b)
    else if b.orders[index].expiresAtMs.None? || b.orders[index].expiresAtMs.value > nowMs then Ok(b)
    else Ok(WithStatus(b, index, EXPIRED))
  }

  function CancelAll(os: seq<Order>): (r: seq<Order>)
    ensures |r| == |os|
    ensures forall i :: 0 <= i < |os| ==> r[i] == if IsActive(os[i].status) then os[i].(status := CANCELLED) else os[i]
  {
    seq(|os|, i requires 0 <= i < |os| => if IsActive(os[i].status) then os[i].(status := CANCELLED) else os[i])
  }

  // ---- account control -------------------------------------------------------

  predicate IsRestricted(s: AccountStatus) { s == BREACHED || s == DISABLED || s == CLOSED_ACCOUNT }

  function SetStatus(b: Books, status: AccountStatus, trading: bool, federation: bool): (r: Books) {
    var event := LifecycleEvent(Some(b.account.status), status, Some(b.account.tradingEnabled), trading);
    b.(account := b.account.(status := status, tradingEnabled := trading, federationEnabled := federation),
       lifecycle := b.lifecycle + [event])
  }

  /** #restrict, for pause, stage (federation off), disable, breach and the
      first step of close. A different restricted status is preserved. */
  function Restrict(b: Books, status: AccountStatus, stage: bool, cancelPending: bool): (r: Books)
    requires status == PAUSED || status == DISABLED || status == BREACHED
  {
    var c := if cancelPending then b.(orders := CancelAll(b.orders)) else b;
    if IsRestricted(b.account.status) && b.account.status != status then c
    else
      var applied := b.account.status == status && !b.account.tradingEnabled
          && (stage ==> !b.account.federationEnabled);
      var federation := if stage then false else b.account.federationEnabled;
      if applied then c.(account := c.account.(federationEnabled := federation))
      else SetStatus(c, status, false, federation)
  }

  predicate FullyActive(a: Account) { a.status == ACTIVE && a.tradingEnabled && a.federationEnabled }

  function Activate(b: Books): (r: Result<Books, Code>) {
    if IsRestricted(b.account.status) then Err(ACCOUNT_ACTIVATION_FORBIDDEN)
    else if FullyActive(b.account) then Ok(b)
    else Ok(SetStatus(b, ACTIVE, true, true))
  }

  function Resume(b: Books): (r: Result<Books, Code>) {
    if FullyActive(b.account) then Ok(b)
    else if IsRestricted(b.account.status) then Err(ACCOUNT_RESUME_FORBIDDEN)
    else if !b.account.federationEnabled then Err(ACCOUNT_ACTIVATION_REQUIRED)
    else Ok(SetStatus(b, ACTIVE, true, b.account.federationEnabled))
  }

  /** The last step of close. */
  function FinishClose(b: Books): (r: Books) {
    if b.account.status == CLOSED_ACCOUNT then b
    else SetStatus(b, CLOSED_ACCOUNT, false, b.account.federationEnabled)
  }

  // ---- provisioning ----------------------------------------------------------

  /** The committed records of a provisioned account. */
  function Provisioned(reference: string, initialBalance: real, currency: string, leverage: int,
      policy: TradingTypes.RiskPolicy, riskDayKey: string, activate: bool): (b: Books)
  {
    var status := if activate then ACTIVE else PAUSED;
    Books(
      Account(status, activate, activate, false, currency, leverage, policy, riskDayKey, initialBalance,
          initialBalance, 0.0, initialBalance, initialBalance, 0.0, 0.0, initialBalance, 0),
      [], [], [],
      [Entry(DEPOSIT, initialBalance, 0.0, initialBalance, currency, "provision:" + reference,
          "provision:" + reference)],
      [LifecycleEvent(None, status, None, activate)])
  }

  // ---- runs ------------------------------------------------------------------

  datatype Command =
    | MutateCommand(kind: EntryType, amount: real, key: string, reference: string)
    | OpenCommand(m: Market, v: Valuation, id: string, symbol: string, side: Side, volume: real,
        stopLoss: Option<real>, takeProfit: Option<real>)
    | CloseCommand(m: Market, v: Valuation, id: string, position: nat, closeVolume: Option<real>)
    | ReverseCommand(m: Market, v: Valuation, id: string, position: nat, stopLoss: Option<real>,
        takeProfit: Option<real>)
    | PlacePendingCommand(m: Market, v: Valuation, place: PlaceCommand)
    | CancelCommand(order: nat)
    | ActivateStopLimitCommand(order: nat, tick: Tick, nowMs: int)
    | ExecuteCommand(m: Market, v: Valuation, order: nat, tick: Tick)
    | ExpireCommand(order: nat, nowMs: int)
    | RestrictCommand(status: AccountStatus, stage: bool, cancelPending: bool)
    | ActivateCommand
    | ResumeCommand
    | FinishCloseCommand

  /** What the callers of the services can ask for. */
  predicate WellTyped(c: Command) {
    && (c.MutateCommand? ==> IsMutation(c.kind))
    && (c.RestrictCommand? ==> c.status == PAUSED || c.status == DISABLED || c.status == BREACHED)
  }

  function Outcome(b: Books, c: Command): (r: Result<Books, Code>)
    requires WellTyped(c)
  {
    match c
    case MutateCommand(kind, amount, key, reference) => Mutate(b, kind, amount, key, reference)
    case OpenCommand(m, v, id, symbol, side, volume, sl, tp) => OpenMarket(b, m, v, id, symbol, side, volume, sl, tp)
    case CloseCommand(m, v, id, position, volume) => CloseMarket(b, m, v, id, position, volume)
    case ReverseCommand(m, v, id, position, sl, tp) => Reverse(b, m, v, id, position, sl, tp)
    case PlacePendingCommand(m, v, place) => PlacePending(b, m, v, place)
    case CancelCommand(order) => CancelPending(b, order)
    case ActivateStopLimitCommand(order, tick, nowMs) => ActivateStopLimit(b, order, tick, nowMs)
    case ExecuteCommand(m, v, order, tick) => ExecutePending(b, m, v, order, tick)
    case ExpireCommand(order, nowMs) => ExpirePending(b, order, nowMs)
    case RestrictCommand(status, stage, cancelPending) => Ok(Restrict(b, status, stage, cancelPending))
    case ActivateCommand => Activate(b)
    case ResumeCommand => Resume(b)
    case FinishCloseCommand => Ok(FinishClose(b))
  }

  /** An aborted command leaves the records as they were. */
  function Step(b: Books, c: Command): (r: Books)
    requires WellTyped(c)
  {
    match Outcome(b, c)
    case Ok(next) => next
    case Err(_) => b
  }

  predicate AllWellTyped(cs: seq<Command>) { forall i :: 0 <= i < |cs| ==> WellTyped(cs[i]) }

  function Run(b: Books, cs: seq<Command>): (r: Books)
    requires AllWellTyped(cs)
  {
    if cs == [] then b else Step(Run(b, cs[..|cs| - 1]), cs[|cs| - 1])
  }
}
