/** Concrete inputs on which the services do not do what one would expect of them. Each
    starts from a freshly provisioned account and shows that the failing side of a condition
    proved elsewhere is reached by the services themselves. */
module Counterexamples {
  import opened Common
  import opened Conversion
  import opened DecimalDivision
  import opened TradingTypes
  import opened RiskPolicy
  import opened ExecutionPlanner
  import opened Books
  import opened DecimalText
  import opened Reconciliation
  import opened DealAccounting
  import opened MarginRelease

  // ---- one market, one account ---------------------------------------------------

  const GOLD := "XAUUSD"

  /** 10:40 on that day, in UTC. */
  const TODAY := "2024-01-02"
  const NOW := 1_704_192_000_000

  const MAX_AGE := 30_000

  /** No limits but the standard counts. */
  const LAX := RiskPolicy(0.0, 0.0, [], None, None, None, None, None, None, None, None, None, None, None, None)

  /** Whole lots and whole prices, fully margined, with a commission per lot. */
  function Terms(commissionPerLot: real, currency: string): (i: Instrument) {
    Instrument(true, true, 1.0, 1.0, 1.0, 10.0, 1.0, 1, Some(1.0), None, Some(commissionPerLot), 0.0,
               currency, "", "", MAX_AGE)
  }

  function MarketAt(price: int, commissionPerLot: real, currency: string, store: QuoteStore): (m: Market) {
    Market(map[GOLD := Terms(commissionPerLot, currency)],
           Some(Quote(Some(price as real), Some(price as real), Some(NOW), false)), price as real, true,
           Converter({}, MAX_AGE), store, NOW, TODAY)
  }

  function Dollars(price: int, commissionPerLot: real): (m: Market) { MarketAt(price, commissionPerLot, "USD", map[]) }

  function NewAccount(): (b: Books) { Provisioned("1", 100.0, "USD", 1, LAX, TODAY, true) }

  const LIVE := Valuation(Some(0.0), true)

  function Buy(commissionPerLot: real): (c: Command) {
    OpenCommand(Dollars(10, commissionPerLot), LIVE, "buy", GOLD, BUY, 1.0, None, None)
  }

  lemma WholeOnStep(n: int, mode: Decimal.Rounding)
    ensures Quantize(n as real, 1.0, mode) == n as real
  {
    assert IsTimes(n as real, n, 1.0);
    QuantizeFixesMultiples(n as real, 1.0, mode);
  }

  function OneLot(side: Side, commissionPerLot: real): (plan: OpenPlan) {
    OpenPlan(GOLD, side, 1.0, 10.0, None, None, commissionPerLot, 10.0, 1.0, 1.0, "USD")
  }

  predicate Able(a: Account) {
    && a.status == ACTIVE && a.tradingEnabled && !a.riskUnresolved && a.policy == LAX && a.currency == "USD"
    && a.riskDayKey == TODAY && a.equity >= 50.0 && a.freeMargin >= 50.0
  }

  lemma OpensOneLot(a: Account, e: Exposure, side: Side, commissionPerLot: real)
    requires Able(a) && -1.0 <= commissionPerLot <= 1.0 && e.currentOpenPositions <= 1 && e.currentSymbolPositions <= 1
    ensures PlanMarketOpen(Dollars(10, commissionPerLot), a, e, GOLD, side, 1.0, None, None)
        == Ok(OneLot(side, commissionPerLot))
  {
    hide Quantize, ValidatePreTrade;
    var m := Dollars(10, commissionPerLot);
    var i := m.instruments[GOLD];
    WholeOnStep(1, Decimal.FLOOR);
    WholeOnStep(10, Decimal.HALF_UP);
    assert ExecutablePrice(m, i).value == 10.0;
    assert CalculateCommission(m, i, 1.0, 10.0, "USD").value == commissionPerLot;
    assert CalculateRequiredMargin(m, a, i, 1.0, 10.0).value == 10.0;
    var trade := Trade(1.0, Ok(None), 10.0, commissionPerLot, 0.0);
    Passes(a, trade, e);
    assert PriceOpen(m, a, i, GOLD, side, 1.0, None, None) == Ok((OneLot(side, commissionPerLot), trade));
  }

  lemma Passes(a: Account, t: Trade, e: Exposure)
    requires Able(a) && t.openingCommission <= 1.0 && e.currentOpenPositions <= 1 && e.currentSymbolPositions <= 1
    ensures ValidatePreTrade(a, t, e, OPEN_EXECUTION).Ok?
  {
  }

  // ---- records along the way -----------------------------------------------------

  /** An account with a hundred dollars and no history but its deposit. */
  predicate Flat(b: Books) {
    && Able(b.account) && b.account.balance == 100.0 && b.account.equity == 100.0 && b.account.freeMargin == 100.0
    && b.account.usedMargin == 0.0 && b.account.floatingPnl == 0.0
    && b.positions == [] && b.orders == [] && b.deals == []
    && EndsAt(b.ledger, 100.0) && !HasKey(b.ledger, "sell:close:pnl")
  }

  /** Provisioning makes such accounts. */
  lemma NewAccountIsFlat()
    ensures Flat(NewAccount()) && Sound(NewAccount()) && Accounted(NewAccount())
  {
    hide Sound, Accounted;
    ProvisionedSound("1", 100.0, "USD", 1, LAX, TODAY, true);
    ProvisionedAccounted("1", 100.0, "USD", 1, LAX, TODAY, true);
    assert "provision:" + "1" != "sell:close:pnl";
  }

  /** It holds one lot bought at ten. */
  predicate Holds(b: Books) {
    && Able(b.account) && b.account.balance == 100.0 && b.account.equity == 100.0 && b.account.freeMargin == 90.0
    && b.account.usedMargin == 10.0 && b.account.floatingPnl == 0.0
    && b.positions == [OpenedPosition(OneLot(BUY, 0.0), 0)] && |b.orders| == 1 && b.orders[0].clientOrderId == "buy"
    && |b.deals| == 1 && b.deals[0].kind == OPENING && b.deals[0].commission == 0.0
    && !HasKey(b.ledger, "sell:close:pnl")
  }

  lemma Buys(b: Books, commissionPerLot: real)
    requires Flat(b) && -1.0 <= commissionPerLot <= 0.0
    ensures Outcome(b, Buy(commissionPerLot)).Ok?
    ensures var r := Step(b, Buy(commissionPerLot));
            && (commissionPerLot == 0.0 ==> Holds(r))
            && r.account.balance == 100.0 - commissionPerLot && r.ledger == b.ledger
  {
    var m := Dollars(10, commissionPerLot);
    Overlaid(b, LIVE, true);
    OpensOneLot(b.account, NOTHING, BUY, commissionPerLot);
    hide PlanMarketOpen, Overlay, OpensLot;
    assert LoadOpenExposure(b.positions, m, "USD", GOLD) == Ok(NOTHING);
    assert m.dayKey == TODAY;
    Records(b, OneLot(BUY, commissionPerLot), "buy", "buy" + ":open:commission");
  }

  const NOTHING := Exposure(0, 0.0, 0.0, 0.0, 0, 0.0, 0)

  predicate OpensLot(b: Books, r: Books, plan: OpenPlan, id: string) {
    && r.account == AfterOpen(b.account, plan) && r.ledger == b.ledger && r.lifecycle == b.lifecycle
    && r.positions == b.positions + [OpenedPosition(plan, |b.orders|)]
    && r.orders == b.orders + [FilledMarketOrder(id, GOLD, plan.side, 1.0, 10.0, None, None, None)]
    && r.deals == b.deals + [Deal(|b.orders|, |b.positions|, OPENING, 1.0, 10.0, plan.commission, 0.0)]
  }

  lemma Records(b: Books, plan: OpenPlan, id: string, key: string)
    requires plan.commission <= 0.0 && plan == OneLot(plan.side, plan.commission) && FreshOrder(b.orders, id)
    ensures RecordOpen(b, b.account, plan, NewOrder(id), key).Ok?
    ensures OpensLot(b, RecordOpen(b, b.account, plan, NewOrder(id), key).value, plan, id)
  {
    hide DigitsOf, AfterOpen, FreshOrder;
    assert OpenEntries(b.account, plan, key, DigitsOf(|b.deals|)) == [];
    assert PositionValid(OpenedPosition(plan, |b.orders|));
    assert b.ledger + [] == b.ledger;
  }

  lemma Overlaid(b: Books, v: Valuation, requireLive: bool)
    requires (Flat(b) && v == LIVE) || (Holds(b) && !requireLive && (v == LIVE || v.floatingPnl.None?))
    ensures Overlay(b, v, requireLive) == Ok(b.account)
  {
    if v.floatingPnl.Some? {
      var a := Overlay(b, v, requireLive).value;
      assert OpenMargin(b.positions[..0]) == 0.0;
      assert OpenMargin(b.positions) == b.account.usedMargin;
      assert a.floatingPnl == b.account.floatingPnl && a.equity == b.account.equity;
      assert a.usedMargin == b.account.usedMargin && a.freeMargin == b.account.freeMargin;
      assert a == b.account;
    }
  }

  // ---- a rebate at the opening -----------------------------------------------------

  /** An instrument that pays the client a commission per lot: its opening commits, and the
      reconciliation check has an issue to report. */
  lemma RebatedOpeningIsReported()
    ensures Outcome(NewAccount(), Buy(-1.0)).Ok? && !Reconciled(Step(NewAccount(), Buy(-1.0)))
  {
    hide NewAccount, Outcome, Step, Reconciled, Buy;
    NewAccountIsFlat();
    OpensWithRebate(NewAccount());
  }

  lemma OpensWithRebate(b: Books)
    requires Flat(b)
    ensures Outcome(b, Buy(-1.0)).Ok? && !Reconciled(Step(b, Buy(-1.0)))
  {
    hide Outcome, Step, Chained, FilledOrdersHaveDeals, DealsResolve, OpenMargin, Buy;
    Buys(b, -1.0);
  }

  // ---- a rebate at the close ---------------------------------------------------------

  function WholeClose(commissionPerLot: real): (plan: ClosePlan) {
    ClosePlan(SELL, 1.0, 0.0, true, 10.0, 0.0, commissionPerLot, 10.0)
  }

  lemma PlansClose(a: Account, p: Position, commissionPerLot: real)
    requires a.currency == "USD" && p == OpenedPosition(OneLot(BUY, 0.0), 0)
    ensures PlanMarketClose(Dollars(10, commissionPerLot), a, p, None) == Ok(WholeClose(commissionPerLot))
  {
    hide Quantize;
    var m := Dollars(10, commissionPerLot);
    var i := m.instruments[GOLD];
    WholeOnStep(1, Decimal.FLOOR);
    WholeOnStep(10, Decimal.HALF_UP);
    assert ExecutablePrice(m, i).value == 10.0;
    assert CalculateCommission(m, i, 1.0, 10.0, "USD").value == commissionPerLot;
    assert ConvertTradingCurrency(m, Notional(0.0, 1.0, 1.0), "USD", "USD").value == 0.0;
  }

  /** The lot is sold again. */
  predicate ClosesLot(b: Books, r: Books, id: string, commissionPerLot: real, complete: bool) {
    && r.account == AfterClose(b.account, WholeClose(commissionPerLot), complete) && r.ledger == b.ledger
    && |r.positions| == 1 && r.positions[0].status == CLOSED
    && r.orders == b.orders + [FilledMarketOrder(id, GOLD, SELL, 1.0, 10.0, None, None, Some(0))]
    && r.deals == b.deals + [Deal(|b.orders|, 0, CLOSING, 1.0, 10.0, commissionPerLot, 0.0)]
  }

  lemma Sells(b: Books, m: Market, id: string, commissionPerLot: real, complete: bool)
    requires Holds(b) && m == Dollars(10, commissionPerLot) && id != "buy" && commissionPerLot <= 0.0
    ensures CloseCore(b, b.account, m, 0, None, id, complete).Ok?
    ensures ClosesLot(b, CloseCore(b, b.account, m, 0, None, id, complete).value, id, commissionPerLot, complete)
  {
    var plan := WholeClose(commissionPerLot);
    PlansClose(b.account, b.positions[0], commissionPerLot);
    hide PlanMarketClose, DigitsOf, AfterClose, Dollars, LAX;
    assert CloseEntries(b.account, plan, id, DigitsOf(|b.deals|)) == [];
    assert PositionValid(ClosedPosition(b.positions[0], plan));
    assert b.ledger + [] == b.ledger;
  }

  function Sell(): (c: Command) { CloseCommand(Dollars(10, -1.0), LIVE, "sell", 0, None) }

  lemma SellsWithRebate(b: Books)
    requires Holds(b)
    ensures ClosesLot(b, Step(b, Sell()), "sell", -1.0, true)
    ensures var a := Step(b, Sell()).account; a.equity == 101.0 && a.balance == 100.0 && !EquityIdentity(a)
  {
    Overlaid(b, LIVE, false);
    Sells(b, Dollars(10, -1.0), "sell", -1.0, true);
    hide CloseCore, Overlay, Dollars;
  }

  /** The same terms at a close: it commits, the check has nothing to report, and the deals no
      longer explain the balance. Equity, which got the rebate, is no longer balance plus
      floating profit. */
  lemma RebatedCloseIsUnexplained()
    ensures var r := Run(NewAccount(), [Buy(0.0), Sell()]);
            && |r.deals| == 2 && r.deals[1].kind == CLOSING && Reconciled(r) && !Explained(r)
            && r.account.equity == 101.0 && r.account.balance == 100.0 && !EquityIdentity(r.account)
  {
    hide NewAccount, Run, Sound, Accounted, Reconciled, Explained, Buy, Sell, Flat;
    NewAccountIsFlat();
    ClosesWithRebate(NewAccount());
  }

  lemma ClosesWithRebate(b: Books)
    requires Flat(b) && Sound(b) && Accounted(b)
    ensures AllWellTyped([Buy(0.0), Sell()])
    ensures var r := Run(b, [Buy(0.0), Sell()]);
            && |r.deals| == 2 && r.deals[1].kind == CLOSING && Reconciled(r) && !Explained(r)
            && r.account.equity == 101.0 && r.account.balance == 100.0 && !EquityIdentity(r.account)
  {
    hide Run, InOrder, LedgerAgrees, Skewed, Accounted, Reconciled, Explained, Buy, Sell, Flat;
    var cs := [Buy(0.0), Sell()];
    BuysAndSells(b, cs);
    RunKeeps(b, cs);
    RunIsAccounted(b, cs);
    ReconciledIff(Run(b, cs));
    ExplainedIff(Run(b, cs));
  }

  lemma BuysAndSells(b: Books, cs: seq<Command>)
    requires Flat(b) && cs == [Buy(0.0), Sell()]
    ensures AllWellTyped(cs)
    ensures var deals := Run(b, cs).deals;
            && b.deals == [] && |deals| == 2 && deals[1].kind == CLOSING
            && OpeningsCharged(deals, 0) && !ClosesCharged(deals)
    ensures var a := Run(b, cs).account; a.equity == 101.0 && a.balance == 100.0 && !EquityIdentity(a)
  {
    Buys(b, 0.0);
    hide Step, Run, Dollars, AfterClose, EquityIdentity, Flat;
    TwoSteps(b, cs);
    SellsWithRebate(Step(b, cs[0]));
    SecondDealIsRebated(b, Step(b, cs[0]), Run(b, cs));
  }

  lemma SecondDealIsRebated(b: Books, h: Books, r: Books)
    requires b.deals == [] && Holds(h) && ClosesLot(h, r, "sell", -1.0, true)
    ensures |r.deals| == 2 && r.deals[1].kind == CLOSING
    ensures OpeningsCharged(r.deals, 0) && !ClosesCharged(r.deals)
  {
    hide AfterClose, WholeClose, Able;
    assert r.deals[0] == h.deals[0] && r.deals[1].commission == -1.0;
  }

  // ---- a close under an incomplete valuation ----------------------------------------

  function SellHigher(): (c: Command) { CloseCommand(Dollars(12, 0.0), UNVALUED, "sell", 0, None) }

  function HigherClose(): (plan: ClosePlan) { ClosePlan(SELL, 1.0, 0.0, true, 12.0, 2.0, 0.0, 10.0) }

  /** A profit booked while the valuation is incomplete goes to the balance and not to equity. */
  lemma UnvaluedCloseBreaksIdentity()
    ensures var r := Run(NewAccount(), [Buy(0.0), SellHigher()]);
            && |r.positions| == 1 && r.positions[0].status == CLOSED
            && r.account.balance == 102.0 && r.account.equity == 100.0 && !EquityIdentity(r.account)
  {
    hide NewAccount, Run, Step, Dollars, Flat, Sound, Accounted;
    NewAccountIsFlat();
    TwoSteps(NewAccount(), [Buy(0.0), SellHigher()]);
    Buys(NewAccount(), 0.0);
    SellsHigher(Step(NewAccount(), Buy(0.0)));
  }

  lemma SellsHigher(b: Books)
    requires Holds(b)
    ensures var r := Step(b, SellHigher());
            && |r.positions| == 1 && r.positions[0].status == CLOSED
            && r.account.balance == 102.0 && r.account.equity == 100.0 && !EquityIdentity(r.account)
  {
    Overlaid(b, UNVALUED, false);
    PlansHigher(b.account, b.positions[0]);
    RecordsHigher(b);
    hide PlanMarketClose, RecordClose, Overlay, Dollars;
  }

  lemma PlansHigher(a: Account, p: Position)
    requires a.currency == "USD" && p == OpenedPosition(OneLot(BUY, 0.0), 0)
    ensures PlanMarketClose(Dollars(12, 0.0), a, p, None) == Ok(HigherClose())
  {
    hide Quantize;
    var m := Dollars(12, 0.0);
    var i := m.instruments[GOLD];
    WholeOnStep(1, Decimal.FLOOR);
    WholeOnStep(12, Decimal.HALF_UP);
    assert ExecutablePrice(m, i).value == 12.0;
    assert CalculateCommission(m, i, 1.0, 12.0, "USD").value == 0.0;
    assert ConvertTradingCurrency(m, Notional(2.0, 1.0, 1.0), "USD", "USD").value == 2.0;
  }

  lemma RecordsHigher(b: Books)
    requires Holds(b)
    ensures var r := RecordClose(b, b.account, 0, HigherClose(), "sell", false);
            && r.Ok? && |r.value.positions| == 1 && r.value.positions[0].status == CLOSED
            && r.value.account == AfterClose(b.account, HigherClose(), false)
  {
    hide DigitsOf, AfterClose;
    var reference := DigitsOf(|b.deals|);
    var balance := b.account.balance;
    var entry := Entry(REALIZED_PNL, 2.0, balance, balance + 2.0, "USD", "sell" + ":close:pnl", reference);
    assert "sell" + ":close:pnl" == "sell:close:pnl";
    assert CloseEntries(b.account, HigherClose(), "sell", reference) == [entry];
    assert FreshKeys(b.ledger, [entry]);
    assert PositionValid(ClosedPosition(b.positions[0], HigherClose()));
  }

  lemma TwoSteps(b: Books, cs: seq<Command>)
    requires |cs| == 2 && AllWellTyped(cs)
    ensures Run(b, cs) == Step(Step(b, cs[0]), cs[1])
  {
    hide Step;
    assert cs[..1][..0] == [];
    assert Run(b, cs[..1]) == Step(b, cs[0]);
  }

  lemma ThreeSteps(b: Books, cs: seq<Command>)
    requires |cs| == 3 && AllWellTyped(cs)
    ensures Run(b, cs) == Step(Step(Step(b, cs[0]), cs[1]), cs[2])
  {
    hide Step;
    TwoSteps(b, cs[..2]);
  }

  // ---- a reverse without a live valuation ----------------------------------------------

  const UNVALUED := Valuation(None, false)

  function Turn(): (c: Command) { ReverseCommand(Dollars(10, 0.0), UNVALUED, "turn", 0, None, None) }

  /** A reverse under a valuation that is neither live nor complete commits both of its legs;
      the market order its second leg amounts to is refused under that valuation. */
  lemma ReverseOpensUnvalued()
    ensures var b := Step(NewAccount(), Buy(0.0));
            var r := Step(b, Turn());
            && |r.positions| == 2 && r.positions[0].status == CLOSED && r.positions[1].status == OPEN
            && r.positions[1].side == SELL
            && OpenMarket(b, Dollars(10, 0.0), UNVALUED, "sell", GOLD, SELL, 1.0, None, None)
               == Err(ACCOUNT_VALUATION_NOT_LIVE)
  {
    hide NewAccount, Step, Dollars, PlanOpen, Flat, Holds, Sound, Accounted;
    NewAccountIsFlat();
    Buys(NewAccount(), 0.0);
    Turns(Step(NewAccount(), Buy(0.0)));
  }

  lemma Turns(b: Books)
    requires Holds(b)
    ensures var r := Step(b, Turn());
            |r.positions| == 2 && r.positions[0].status == CLOSED && r.positions[1].status == OPEN
                && r.positions[1].side == SELL
  {
    hide Dollars, CloseCore, Overlay, RecordOpen, PlanOpen, Reverse, ChildId, AfterClose, AfterOpen, Able;
    var m, first, second := Dollars(10, 0.0), ChildId("turn", "close"), ChildId("turn", "open");
    DistinctLegs();
    Overlaid(b, UNVALUED, false);
    Sells(b, m, first, 0.0, false);
    var closed := CloseCore(b, b.account, m, 0, None, first, false).value;
    PlansSecondLeg(b, closed, m);
    assert FreshOrder(closed.orders, second);
    Records(closed, OneLot(SELL, 0.0), second, second + ":commission");
    TurnIs(b, closed, m);
  }

  lemma PlansSecondLeg(b: Books, closed: Books, m: Market)
    requires Holds(b) && m == Dollars(10, 0.0) && ClosesLot(b, closed, ChildId("turn", "close"), 0.0, false)
    ensures PlanOpen(closed, closed.account, m, GOLD, SELL, 1.0, None, None) == Ok((closed.account, OneLot(SELL, 0.0)))
  {
    var a := closed.account;
    assert Able(a);
    OpensOneLot(a, NOTHING, SELL, 0.0);
    assert m.dayKey == TODAY;
    hide PlanMarketOpen, Dollars, ChildId;
    assert closed.positions[..0] == [];
    assert LoadOpenExposure(closed.positions[..0], m, "USD", GOLD) == Ok(NOTHING);
    assert LoadOpenExposure(closed.positions, m, "USD", GOLD) == Ok(NOTHING);
    assert RollRiskDay(a, m.dayKey) == a;
  }

  lemma TurnIs(b: Books, closed: Books, m: Market)
    requires Holds(b) && m == Dollars(10, 0.0) && Overlay(b, UNVALUED, false) == Ok(b.account)
    requires CloseCore(b, b.account, m, 0, None, ChildId("turn", "close"), false) == Ok(closed)
    requires PlanOpen(closed, closed.account, m, GOLD, SELL, 1.0, None, None) == Ok((closed.account, OneLot(SELL, 0.0)))
    ensures Outcome(b, Turn())
            == RecordOpen(closed, closed.account, OneLot(SELL, 0.0), NewOrder(ChildId("turn", "open")),
                          ChildId("turn", "open") + ":commission")
  {
    hide CloseCore, PlanOpen, RecordOpen, Dollars, ChildId, Overlay, AfterOpen, Able;
    var p := b.positions[0];
    assert p.status == OPEN && p.openVolume == 1.0 && p.symbol == GOLD && p.side == BUY;
    assert UNVALUED.floatingPnl.None?;
  }

  lemma DistinctLegs()
    ensures ChildId("turn", "close") != "buy" && ChildId("turn", "open") != "buy"
    ensures ChildId("turn", "close") != ChildId("turn", "open")
  {
    assert |ChildId("turn", "close")| == 10 && |ChildId("turn", "open")| == 9;
  }

  // ---- closing an account without liquidation --------------------------------------------

  /** close without liquidation counts the open positions before it restricts the account. An
      order that commits between the two leaves a CLOSED account with an open position. */
  lemma PositionOpenedAfterTheCount()
    ensures NewAccount().positions == []
    ensures var r := Run(NewAccount(), [Buy(0.0), RestrictCommand(DISABLED, false, true), FinishCloseCommand]);
            r.account.status == CLOSED_ACCOUNT && |r.positions| == 1 && r.positions[0].status == OPEN
  {
    hide NewAccount, Run, Flat, Buy, Sound, Accounted;
    NewAccountIsFlat();
    NothingIn(NewAccount());
    OpensThenCloses(NewAccount(), [Buy(0.0), RestrictCommand(DISABLED, false, true), FinishCloseCommand]);
  }

  lemma NothingIn(b: Books)
    requires Flat(b)
    ensures b.positions == []
  {
  }

  lemma OpensThenCloses(b: Books, cs: seq<Command>)
    requires Flat(b) && cs == [Buy(0.0), RestrictCommand(DISABLED, false, true), FinishCloseCommand]
    ensures AllWellTyped(cs)
    ensures var r := Run(b, cs);
            r.account.status == CLOSED_ACCOUNT && |r.positions| == 1 && r.positions[0].status == OPEN
  {
    Buys(b, 0.0);
    hide Step, Run, Dollars, Flat;
    RestrictedThenClosed(Step(b, cs[0]));
    ThreeSteps(b, cs);
  }

  lemma RestrictedThenClosed(b: Books)
    ensures var r := Step(Step(b, RestrictCommand(DISABLED, false, true)), FinishCloseCommand);
            r.account.status == CLOSED_ACCOUNT && r.positions == b.positions
  {
  }

  // ---- stop risk ---------------------------------------------------------------------------

  /** A long lot of one euro a point, bought at 100 with its stop at 90. */
  function EuroLot(): (p: Position) {
    Position(0, GOLD, BUY, OPEN, 1.0, 1.0, 100.0, 1.0, 1.0, "EUR", 100.0, 0.0, 0.0, Some(90.0), None)
  }

  function SpreadMarket(): (m: Market) {
    MarketAt(90, 0.0, "EUR", map["EURUSD" := Quote(Some(1.0), Some(1.1), Some(NOW), false)])
  }

  /** With EURUSD at 1.0 / 1.1 the measured risk of that lot is ten dollars, and the close at
      its stop books a loss of eleven. */
  lemma StopRiskCanBeLess()
    ensures var m, a := SpreadMarket(), NewAccount().account;
            && PositionStopRisk(m, "USD", EuroLot()) == Ok(Some(10.0))
            && PlanMarketClose(m, a, EuroLot(), None).Ok?
            && PlanMarketClose(m, a, EuroLot(), None).value.fillPrice == 90.0
            && PlanMarketClose(m, a, EuroLot(), None).value.realizedPnl == -11.0
            && PlanMarketClose(m, a, EuroLot(), None).value.commission == 0.0
  {
    hide Quantize;
    var m := SpreadMarket();
    var i := m.instruments[GOLD];
    WholeOnStep(1, Decimal.FLOOR);
    WholeOnStep(90, Decimal.HALF_UP);
    assert ExecutablePrice(m, i).value == 90.0;
    assert "EUR" + "USD" == "EURUSD";
    assert Convert(m.cv, m.store, 10.0, "EUR", "USD", NOW).value == 10.0;
    assert Convert(m.cv, m.store, -10.0, "EUR", "USD", NOW).value == -11.0;
    assert CalculateCommission(m, i, 1.0, 90.0, "USD").value == 0.0;
    assert Notional(10.0, 1.0, 1.0) == 10.0 && Notional(-10.0, 1.0, 1.0) == -10.0;
    assert StopRiskAmount(m, 1.0, "EUR", "USD", BUY, 100.0, 1.0, 90.0).value == 10.0;
    assert PositionStopRisk(m, "USD", EuroLot()).value.value == 10.0;
  }
}
