/** What a command leaves in the records, field by field: openings, closes, reverses, pending
    orders and account control (src/modules/trading/market-order.service.js,
    pending-order.service.js, atomic-reverse.service.js and account-control.service.js). */
module TradeRecords {
  import opened Common
  import opened TradingTypes
  import opened RiskPolicy
  import opened ExecutionPlanner
  import opened TradeGates
  import opened PendingPlanner
  import opened Books
  import opened DecimalText
  import opened DecimalDivision
  import opened Conversion

  // ---- the account a command works on ------------------------------------------------

  /** A complete valuation puts the floating profit and the margins of the open positions into the
      account; where it has to be live it has to be complete as well. */
  lemma OverlayIs(b: Books, v: Valuation, requireLive: bool)
    ensures var r, a := Overlay(b, v, requireLive), b.account;
      && (r.Ok? <==> requireLive ==> v.live && v.floatingPnl.Some?)
      && (r.Err? ==> r.error == ACCOUNT_VALUATION_NOT_LIVE)
      && (r.Ok? && v.floatingPnl.None? ==> r.value == a)
      && (r.Ok? && v.floatingPnl.Some? ==>
            var x, used := v.floatingPnl.value, OpenMargin(b.positions);
            r.value == a.(floatingPnl := x, equity := a.balance + x, usedMargin := used,
                          freeMargin := a.balance + x - used))
  {
  }

  /** A known earlier day is rolled to the current one, with the equity as its baseline. */
  lemma RollsDay(a: Account, day: string)
    ensures var r := RollRiskDay(a, day);
      && (a.riskDayKey == "" || a.riskDayKey == day ==> r == a)
      && (a.riskDayKey != "" && a.riskDayKey != day ==>
            r == a.(riskDayKey := day, dailyStartEquity := a.equity, realizedPnlToday := 0.0))
  {
  }

  // ---- openings ------------------------------------------------------------------------

  /** The order, position and deal of an opening agree with its plan and with each other. */
  predicate OpenedAs(b: Books, r: Books, plan: OpenPlan, order: nat) {
    && r.positions == b.positions + [Position(order, plan.symbol, plan.side, OPEN, plan.volume, plan.volume,
         plan.fillPrice, plan.contractSize, plan.volumeStep, plan.quoteCurrency, plan.requiredMargin, 0.0,
         plan.commission, plan.stopLoss, plan.takeProfit)]
    && r.deals == b.deals + [Deal(order, |b.positions|, OPENING, plan.volume, plan.fillPrice, plan.commission, 0.0)]
    && r.lifecycle == b.lifecycle
  }

  /** The account pays the commission and reserves the margin. */
  predicate PaysFor(a: Account, r: Account, commission: real, margin: real) {
    r == a.(financialRevision := a.financialRevision + 1, balance := a.balance - commission,
            equity := a.equity - commission, usedMargin := a.usedMargin + margin,
            freeMargin := (a.equity - commission) - (a.usedMargin + margin))
  }

  /** One ledger entry for a positive commission, and none otherwise. */
  predicate EntersCommission(b: Books, r: Books, a: Account, commission: real, key: string) {
    if commission > 0.0 then
      && |r.ledger| == |b.ledger| + 1 && r.ledger[..|b.ledger|] == b.ledger
      && var e := r.ledger[|b.ledger|];
         && e.kind == COMMISSION && e.amount == -commission && e.balanceBefore == a.balance
         && e.balanceAfter == a.balance - commission && e.currency == a.currency && e.idempotencyKey == key
    else r.ledger == b.ledger
  }

  /** What is recorded for an opening under a new market order, and for one that fills an order. */
  lemma RecordsOpening(b: Books, a: Account, plan: OpenPlan, source: Source, key: string)
    requires source.FilledOrder? ==> source.index < |b.orders|
    requires RecordOpen(b, a, plan, source, key).Ok?
    ensures var r := RecordOpen(b, a, plan, source, key).value;
      && PaysFor(a, r.account, plan.commission, plan.requiredMargin)
      && EntersCommission(b, r, a, plan.commission, key)
      && (source.NewOrder? ==>
            && OpenedAs(b, r, plan, |b.orders|)
            && r.orders == b.orders + [Order(source.clientOrderId, plan.symbol, plan.side, MARKET, FILLED, plan.volume,
                 plan.volume, None, None, plan.stopLoss, plan.takeProfit, None, None, Some(plan.fillPrice))])
      && (source.FilledOrder? ==>
            && OpenedAs(b, r, plan, source.index)
            && r.orders == b.orders[source.index := b.orders[source.index].(status := FILLED,
                 filledVolume := plan.volume, acceptedPrice := Some(plan.fillPrice))])
  {
    hide PositionValid, FreshOrder, FreshKeys;
  }

  /** It is refused when the position could not be stored, and when its order id or its ledger
      key is taken. */
  lemma OpeningRecordedIff(b: Books, a: Account, plan: OpenPlan, source: Source, key: string)
    requires source.FilledOrder? ==> source.index < |b.orders|
    ensures RecordOpen(b, a, plan, source, key).Ok? <==>
      && plan.volume > 0.0 && plan.fillPrice > 0.0 && plan.contractSize > 0.0 && plan.volumeStep > 0.0
      && plan.requiredMargin >= 0.0
      && (source.NewOrder? ==> forall i :: 0 <= i < |b.orders| ==> b.orders[i].clientOrderId != source.clientOrderId)
      && (plan.commission > 0.0 ==> forall i :: 0 <= i < |b.ledger| ==> b.ledger[i].idempotencyKey != key)
  {
    hide DigitsOf, AfterOpen;
    var entries := OpenEntries(a, plan, key, DigitsOf(|b.deals|));
    if plan.commission > 0.0 {
      assert entries[0].idempotencyKey == key;
    }
  }

  /** The account with a floating profit of x and the margins of its open positions. */
  function Revalued(b: Books, x: real): (a: Account) {
    var equity, used := b.account.balance + x, OpenMargin(b.positions);
    b.account.(floatingPnl := x, equity := equity, usedMargin := used, freeMargin := equity - used)
  }

  /** The same on this day: a known earlier day ends, and its equity is the new baseline. */
  function Today(a: Account, day: string): (r: Account) {
    if a.riskDayKey == "" || a.riskDayKey == day then a
    else a.(riskDayKey := day, dailyStartEquity := a.equity, realizedPnlToday := 0.0)
  }

  predicate IsNewOrder(b: Books, id: string) { forall i :: 0 <= i < |b.orders| ==> b.orders[i].clientOrderId != id }

  predicate IsNewKey(b: Books, key: string) { forall i :: 0 <= i < |b.ledger| ==> b.ledger[i].idempotencyKey != key }

  /** Main result on market orders: on the figures f of an account that is valued live, one commits
      exactly when it may open, could be stored, and comes under a new id. The account then pays
      the commission and reserves the margin, and order, position, deal and entry record it. */
  lemma OpenMarketIff(b: Books, m: Market, v: Valuation, id: string, symbol: string, side: Side, volume: real,
                      stopLoss: Option<real>, takeProfit: Option<real>, e: Exposure, f: OpenFigures)
    requires v.live && v.floatingPnl.Some? && symbol in m.instruments
    requires LoadOpenExposure(b.positions, m, b.account.currency, symbol) == Ok(e)
    requires var a := Today(Revalued(b, v.floatingPnl.value), m.dayKey);
      HasOpenFigures(m, a, m.instruments[symbol], side, volume, stopLoss, f)
    ensures var a, i := Today(Revalued(b, v.floatingPnl.value), m.dayKey), m.instruments[symbol];
      var r, key := OpenMarket(b, m, v, id, symbol, side, volume, stopLoss, takeProfit), id + ":open:commission";
      && (r.Ok? <==>
            && MayOpen(m, a, e, symbol, side, volume, stopLoss, takeProfit, f)
            && f.price > 0.0 && i.contractSize > 0.0 && f.margin >= 0.0
            && IsNewOrder(b, id) && (f.commission > 0.0 ==> IsNewKey(b, key)))
      && (r.Ok? ==>
            && PaysFor(a, r.value.account, f.commission, f.margin)
            && EntersCommission(b, r.value, a, f.commission, key)
            && r.value.orders == b.orders + [Order(id, symbol, side, MARKET, FILLED, volume, volume, None, None,
                 stopLoss, takeProfit, None, None, Some(f.price))]
            && r.value.positions == b.positions + [Position(|b.orders|, symbol, side, OPEN, volume, volume, f.price,
                 i.contractSize, i.volumeStep, i.quoteCurrency, f.margin, 0.0, f.commission, stopLoss, takeProfit)]
            && r.value.deals == b.deals
                 + [Deal(|b.orders|, |b.positions|, OPENING, volume, f.price, f.commission, 0.0)]
            && r.value.lifecycle == b.lifecycle)
  {
    hide Overlay, LoadOpenExposure, PlanMarketOpen, RecordOpen, RollRiskDay, HasOpenFigures, MayOpen;
    OverlayIs(b, v, true);
    var live := Overlay(b, v, true).value;
    RollsDay(live, m.dayKey);
    var a, key := RollRiskDay(live, m.dayKey), id + ":open:commission";
    OpensIff(m, a, e, symbol, side, volume, stopLoss, takeProfit, f);
    if PlanMarketOpen(m, a, e, symbol, side, volume, stopLoss, takeProfit).Ok? {
      var plan := PlanMarketOpen(m, a, e, symbol, side, volume, stopLoss, takeProfit).value;
      AcceptedOpenShape(m, a, e, symbol, side, volume, stopLoss, takeProfit);
      OpeningRecordedIff(b, a, plan, NewOrder(id), key);
      if RecordOpen(b, a, plan, NewOrder(id), key).Ok? { RecordsOpening(b, a, plan, NewOrder(id), key); }
    }
  }

  /** And none commits on an account that is not valued live, or whose exposure is not known. */
  lemma OpenMarketNeeds(b: Books, m: Market, v: Valuation, id: string, symbol: string, side: Side, volume: real,
                        stopLoss: Option<real>, takeProfit: Option<real>)
    ensures OpenMarket(b, m, v, id, symbol, side, volume, stopLoss, takeProfit).Ok? ==>
      v.live && v.floatingPnl.Some? && symbol in m.instruments
      && LoadOpenExposure(b.positions, m, b.account.currency, symbol).Ok?
  {
    hide LoadOpenExposure, PlanMarketOpen, RecordOpen, RollRiskDay;
    OverlayIs(b, v, true);
    if OpenMarket(b, m, v, id, symbol, side, volume, stopLoss, takeProfit).Ok? {
      var a := Overlay(b, v, true).value;
      AcceptedOpenShape(m, RollRiskDay(a, m.dayKey), LoadOpenExposure(b.positions, m, a.currency, symbol).value,
          symbol, side, volume, stopLoss, takeProfit);
    }
  }

  // ---- closes --------------------------------------------------------------------------

  /** The account books the profit and pays a positive commission; the profit leaves the floating
      one when the valuation was complete. A negative commission only reaches the equity. */
  predicate SettlesClose(a: Account, r: Account, plan: ClosePlan, complete: bool) {
    && r.balance == a.balance + plan.realizedPnl - (if plan.commission > 0.0 then plan.commission else 0.0)
    && r.equity == a.equity - plan.commission
    && r.floatingPnl == (if complete then a.floatingPnl - plan.realizedPnl else a.floatingPnl)
    && r.realizedPnlToday == a.realizedPnlToday + plan.realizedPnl
    && r.usedMargin == (if plan.releasedMargin > a.usedMargin then 0.0 else a.usedMargin - plan.releasedMargin)
    && r.freeMargin == r.equity - r.usedMargin
    && r == a.(financialRevision := a.financialRevision + 1, balance := r.balance, equity := r.equity,
               floatingPnl := r.floatingPnl, realizedPnlToday := r.realizedPnlToday, usedMargin := r.usedMargin,
               freeMargin := r.freeMargin)
  }

  /** The position books and pays the same; a full close empties it. */
  predicate BooksOn(p: Position, q: Position, plan: ClosePlan) {
    && q.realizedPnl == p.realizedPnl + plan.realizedPnl && q.commissionPaid == p.commissionPaid + plan.commission
    && (plan.fullClose ==> q.status == CLOSED && q.openVolume == 0.0 && q.margin == 0.0)
    && (!plan.fullClose ==>
          && q.status == p.status && q.openVolume == plan.remainingVolume
          && q.margin == if plan.releasedMargin > p.margin then 0.0 else p.margin - plan.releasedMargin)
    && q == p.(realizedPnl := q.realizedPnl, commissionPaid := q.commissionPaid, status := q.status,
               openVolume := q.openVolume, margin := q.margin)
  }

  /** What is recorded for a close: one order, one deal, and an entry each for a profit or loss and
      for a positive commission. */
  lemma RecordsClosing(b: Books, a: Account, index: nat, plan: ClosePlan, id: string, complete: bool)
    requires index < |b.positions| && RecordClose(b, a, index, plan, id, complete).Ok?
    ensures var r, p := RecordClose(b, a, index, plan, id, complete).value, b.positions[index];
      && SettlesClose(a, r.account, plan, complete)
      && |r.positions| == |b.positions| && BooksOn(p, r.positions[index], plan)
      && r.positions == b.positions[index := r.positions[index]]
      && r.orders == b.orders + [Order(id, p.symbol, plan.closeSide, MARKET, FILLED, plan.volume, plan.volume, None,
           None, None, None, None, Some(index), Some(plan.fillPrice))]
      && r.deals == b.deals + [Deal(|b.orders|, index, if plan.fullClose then CLOSING else PARTIAL_CLOSING, plan.volume,
           plan.fillPrice, plan.commission, plan.realizedPnl)]
      && r.lifecycle == b.lifecycle
      && EntersClose(b, r, a, plan, id)
  {
    hide PositionValid, FreshOrder, FreshKeys;
  }

  predicate EntersClose(b: Books, r: Books, a: Account, plan: ClosePlan, id: string) {
    var n, profit := |b.ledger|, plan.realizedPnl != 0.0;
    var k := if profit then 1 else 0;
    && |r.ledger| == n + k + (if plan.commission > 0.0 then 1 else 0) && r.ledger[..n] == b.ledger
    && (profit ==>
          var e := r.ledger[n];
          && e.kind == REALIZED_PNL && e.amount == plan.realizedPnl && e.balanceBefore == a.balance
          && e.balanceAfter == a.balance + plan.realizedPnl && e.idempotencyKey == id + ":close:pnl")
    && (plan.commission > 0.0 ==>
          var e := r.ledger[n + k];
          && e.kind == COMMISSION && e.amount == -plan.commission && e.balanceBefore == a.balance + plan.realizedPnl
          && e.balanceAfter == a.balance + plan.realizedPnl - plan.commission
          && e.idempotencyKey == id + ":close:commission")
  }

  /** A close is refused when the price or what is left of the position could not be stored, and when
      its order id or a ledger key it needs is taken. */
  lemma ClosingRecordedIff(b: Books, a: Account, index: nat, plan: ClosePlan, id: string, complete: bool)
    requires index < |b.positions|
    ensures var p := b.positions[index];
      RecordClose(b, a, index, plan, id, complete).Ok? <==>
        && plan.fillPrice > 0.0 && p.initialVolume > 0.0 && p.entryPrice > 0.0 && p.contractSize > 0.0
        && p.volumeStep > 0.0
        && (!plan.fullClose ==>
              && 0.0 <= plan.remainingVolume <= p.initialVolume && (p.status == OPEN ==> plan.remainingVolume > 0.0)
              && (p.status == CLOSED ==> plan.remainingVolume == 0.0 && p.margin <= plan.releasedMargin))
        && IsNewOrder(b, id) && (plan.realizedPnl != 0.0 ==> IsNewKey(b, id + ":close:pnl"))
        && (plan.commission > 0.0 ==> IsNewKey(b, id + ":close:commission"))
  {
    hide DigitsOf, AfterClose;
    var profit, cost := id + ":close:pnl", id + ":close:commission";
    assert |profit| != |cost|;
    var es := CloseEntries(a, plan, id, DigitsOf(|b.deals|));
    if plan.realizedPnl != 0.0 { assert es[0].idempotencyKey == profit; }
    if plan.commission > 0.0 { assert es[|es| - 1].idempotencyKey == cost; }
  }

  /** What is held of every stored position. */
  predicate IsStored(p: Position) {
    && 0.0 <= p.openVolume <= p.initialVolume && p.initialVolume > 0.0
    && p.entryPrice > 0.0 && p.contractSize > 0.0 && p.volumeStep > 0.0
  }

  /** Main result on closes: on the figures f of the account as it is valued, live or not, a close
      of a stored position commits exactly when it may close and comes under a new id. The account
      settles, the position takes its share, and order, deal and entries record it. */
  lemma CloseMarketIff(b: Books, m: Market, v: Valuation, id: string, index: nat, volume: Option<real>,
                       f: CloseFigures)
    requires index < |b.positions| && IsStored(b.positions[index])
    requires b.positions[index].symbol in m.instruments
    requires var a := if v.floatingPnl.Some? then Revalued(b, v.floatingPnl.value) else b.account;
      HasCloseFigures(m, a, b.positions[index], m.instruments[b.positions[index].symbol], volume, f)
    ensures var a := if v.floatingPnl.Some? then Revalued(b, v.floatingPnl.value) else b.account;
      var r, p := CloseMarket(b, m, v, id, index, volume), b.positions[index];
      && (r.Ok? <==>
            && MayClose(m, p, m.instruments[p.symbol], f.volume) && f.price > 0.0
            && IsNewOrder(b, id) && (f.profit != 0.0 ==> IsNewKey(b, id + ":close:pnl"))
            && (f.commission > 0.0 ==> IsNewKey(b, id + ":close:commission")))
  {
    hide Overlay, PlanMarketClose, RecordClose, HasCloseFigures, MayClose;
    OverlayIs(b, v, false);
    var a, p := Overlay(b, v, false).value, b.positions[index];
    ClosesIff(m, a, p, volume, f);
    if PlanMarketClose(m, a, p, volume).Ok? {
      var plan := PlanMarketClose(m, a, p, volume).value;
      AcceptedCloseShape(m, a, p, volume);
      ClosingRecordedIff(b, a, index, plan, id, v.floatingPnl.Some?);
    }
  }

  /** Which reverses commit: those whose close commits on its own, and whose opening may follow on
      the records that it leaves, on the figures f it has there. */
  lemma ReverseIff(b: Books, m: Market, v: Valuation, id: string, index: nat, stopLoss: Option<real>,
      takeProfit: Option<real>, closed: Books, e: Exposure, f: OpenFigures)
    requires CloseMarket(b, m, v, id + ":close", index, None) == Ok(closed)
    requires index < |b.positions| && b.positions[index].symbol in m.instruments
    requires var p, a := b.positions[index], Today(closed.account, m.dayKey);
      && LoadOpenExposure(closed.positions, m, closed.account.currency, p.symbol) == Ok(e)
      && HasOpenFigures(m, a, m.instruments[p.symbol], if p.side == BUY then SELL else BUY, p.openVolume, stopLoss, f)
    ensures var r, p := Reverse(b, m, v, id, index, stopLoss, takeProfit), b.positions[index];
      var a, side := Today(closed.account, m.dayKey), if p.side == BUY then SELL else BUY;
      var key := id + ":open:commission";
      && (r.Ok? <==>
            && MayOpen(m, a, e, p.symbol, side, p.openVolume, stopLoss, takeProfit, f)
            && f.price > 0.0 && m.instruments[p.symbol].contractSize > 0.0 && f.margin >= 0.0
            && IsNewOrder(closed, id + ":open") && (f.commission > 0.0 ==> IsNewKey(closed, key)))
      && (r.Ok? ==>
            && PaysFor(a, r.value.account, f.commission, f.margin)
            && EntersCommission(closed, r.value, a, f.commission, key))
  {
    hide Overlay, LoadOpenExposure, PlanMarketClose, PlanMarketOpen, RecordOpen, RecordClose, RollRiskDay,
         HasOpenFigures, MayOpen;
    var p, open := b.positions[index], id + ":open";
    ReverseSteps(b, m, v, id, index, stopLoss, takeProfit, closed);
    RollsDay(closed.account, m.dayKey);
    var a, side := RollRiskDay(closed.account, m.dayKey), Opposite(p.side);
    OpensIff(m, a, e, p.symbol, side, p.openVolume, stopLoss, takeProfit, f);
    if PlanMarketOpen(m, a, e, p.symbol, side, p.openVolume, stopLoss, takeProfit).Ok? {
      var plan := PlanMarketOpen(m, a, e, p.symbol, side, p.openVolume, stopLoss, takeProfit).value;
      AcceptedOpenShape(m, a, e, p.symbol, side, p.openVolume, stopLoss, takeProfit);
      var key := id + ":open:commission";
      OpeningRecordedIff(closed, a, plan, NewOrder(open), key);
      if RecordOpen(closed, a, plan, NewOrder(open), key).Ok? { RecordsOpening(closed, a, plan, NewOrder(open), key); }
    }
  }

  lemma ReverseSteps(b: Books, m: Market, v: Valuation, id: string, index: nat, stopLoss: Option<real>,
      takeProfit: Option<real>, closed: Books)
    requires CloseMarket(b, m, v, id + ":close", index, None) == Ok(closed) && index < |b.positions|
    ensures var planned := PlanOpen(closed, closed.account, m, b.positions[index].symbol,
        Opposite(b.positions[index].side), b.positions[index].openVolume, stopLoss, takeProfit);
      Reverse(b, m, v, id, index, stopLoss, takeProfit)
        == if planned.Err? then Err(planned.error)
           else RecordOpen(closed, planned.value.0, planned.value.1, NewOrder(id + ":open"), id + ":open:commission")
  {
    hide Overlay, LoadOpenExposure, PlanMarketClose, PlanMarketOpen, PlanOpen, RecordOpen, RecordClose, RollRiskDay;
    AcceptedCloseShape(m, Overlay(b, v, false).value, b.positions[index], None);
    assert ChildId(id, "close") == id + ":close" && ChildId(id, "open") == id + ":open";
    assert id + ":open" + ":commission" == id + ":open:commission";
  }

  /** A reverse whose close would not commit does not either. */
  lemma ReverseNeedsClose(b: Books, m: Market, v: Valuation, id: string, index: nat, stopLoss: Option<real>,
      takeProfit: Option<real>)
    requires Reverse(b, m, v, id, index, stopLoss, takeProfit).Ok?
    ensures CloseMarket(b, m, v, id + ":close", index, None).Ok?
  {
    hide Overlay, LoadOpenExposure, PlanMarketClose, PlanMarketOpen, RecordOpen, RecordClose, RollRiskDay;
    assert ChildId(id, "close") == id + ":close";
  }

  /** Main result on reverses: one that commits has closed its position in full and opened the
      same volume of it on the other side, with the protection it was given. */
  lemma ReverseTurnsPosition(b: Books, m: Market, v: Valuation, id: string, index: nat, stopLoss: Option<real>,
      takeProfit: Option<real>)
    requires Reverse(b, m, v, id, index, stopLoss, takeProfit).Ok?
    ensures index < |b.positions|
    ensures var r, p, n := Reverse(b, m, v, id, index, stopLoss, takeProfit).value, b.positions[index], |b.positions|;
      && p.status == OPEN && |r.positions| == n + 1
      && r.positions[index].status == CLOSED && r.positions[index].openVolume == 0.0
      && (forall i :: 0 <= i < n && i != index ==> r.positions[i] == b.positions[i])
      && var q := r.positions[n];
         && q.symbol == p.symbol && q.side == (if p.side == BUY then SELL else BUY) && q.status == OPEN
         && q.initialVolume == q.openVolume == p.openVolume && q.stopLoss == stopLoss && q.takeProfit == takeProfit
         && |r.deals| == |b.deals| + 2 && |r.orders| == |b.orders| + 2
         && var c, o := r.deals[|b.deals|], r.deals[|b.deals| + 1];
            && c.kind == CLOSING && c.position == index && c.volume == p.openVolume && c.order == |b.orders|
            && o.kind == OPENING && o.position == n && o.volume == p.openVolume && o.order == |b.orders| + 1
            && r.account.financialRevision == b.account.financialRevision + 2
            && r.orders[|b.orders|].clientOrderId == id + ":close"
            && r.orders[|b.orders| + 1].clientOrderId == id + ":open"
  {
    hide Overlay, LoadOpenExposure, PlanMarketClose, PlanMarketOpen, RecordOpen, RecordClose, RollRiskDay;
    OverlayIs(b, v, false);
    var a, p, complete := Overlay(b, v, false).value, b.positions[index], v.floatingPnl.Some?;
    var plan := PlanMarketClose(m, a, p, None).value;
    AcceptedCloseShape(m, a, p, None);
    RecordsClosing(b, a, index, plan, ChildId(id, "close"), complete);
    var closed := RecordClose(b, a, index, plan, ChildId(id, "close"), complete).value;
    var e := LoadOpenExposure(closed.positions, m, closed.account.currency, p.symbol).value;
    var rolled := RollRiskDay(closed.account, m.dayKey);
    RollsDay(closed.account, m.dayKey);
    AcceptedOpenShape(m, rolled, e, p.symbol, Opposite(p.side), p.openVolume, stopLoss, takeProfit);
    var open := PlanMarketOpen(m, rolled, e, p.symbol, Opposite(p.side), p.openVolume, stopLoss, takeProfit).value;
    RecordsOpening(closed, rolled, open, NewOrder(ChildId(id, "open")), ChildId(id, "open") + ":commission");
  }

  // ---- pending orders --------------------------------------------------------------------

  /** A placement adds its order and changes nothing else. */
  lemma PlacementAddsOrder(b: Books, m: Market, v: Valuation, c: PlaceCommand)
    requires PlacePending(b, m, v, c).Ok?
    ensures var r := PlacePending(b, m, v, c).value;
      && |r.orders| == |b.orders| + 1 && r == b.(orders := b.orders + [r.orders[|b.orders|]])
      && (forall i :: 0 <= i < |b.orders| ==> b.orders[i].clientOrderId != c.clientOrderId)
      && var o := r.orders[|b.orders|];
         && o.status == PENDING && o.clientOrderId == c.clientOrderId && o.symbol == c.symbol && o.side == c.side
         && o.kind == c.kind && o.requestedVolume == c.volume && o.limitPrice == c.limitPrice
         && o.stopPrice == c.stopPrice && o.stopLoss == c.stopLoss && o.takeProfit == c.takeProfit
  {
    hide Overlay, LoadOpenExposure, LoadPendingExposure, PlanPendingOrder, RollRiskDay;
    var a := Overlay(b, v, true).value;
    var e := LoadOpenExposure(b.positions, m, a.currency, c.symbol).value;
    PlacedOrderShape(m, RollRiskDay(a, m.dayKey), c, e, LoadPendingExposure(b.orders, c.symbol));
  }

  /** Only an order that still waits can be cancelled. */
  lemma CancelsIff(b: Books, index: nat)
    ensures var r := CancelPending(b, index);
      && (r.Ok? <==> index < |b.orders| && (b.orders[index].status == PENDING || b.orders[index].status == TRIGGERED))
      && (r.Ok? ==> r.value == b.(orders := b.orders[index := b.orders[index].(status := CANCELLED)]))
  {
  }

  /** An order expires when it still waits and its time has come; otherwise nothing happens. */
  lemma ExpiresIff(b: Books, index: nat, nowMs: int)
    ensures var r := ExpirePending(b, index, nowMs);
      && r.Ok?
      && (if index < |b.orders| && (b.orders[index].status == PENDING || b.orders[index].status == TRIGGERED)
             && b.orders[index].expiresAtMs.Some? && b.orders[index].expiresAtMs.value <= nowMs
          then r.value == b.(orders := b.orders[index := b.orders[index].(status := EXPIRED)])
          else r.value == b)
  {
  }

  /** A stop-limit order is triggered, or expires, as detection says; other orders are left alone. */
  lemma ActivatesIff(b: Books, index: nat, tick: Tick, nowMs: int)
    ensures var r := ActivateStopLimit(b, index, tick, nowMs);
      && r.Ok?
      && (index >= |b.orders| || b.orders[index].kind != STOP_LIMIT || b.orders[index].status != PENDING ==>
            r.value == b)
      && (index < |b.orders| && b.orders[index].kind == STOP_LIMIT && b.orders[index].status == PENDING ==>
            var o, action := b.orders[index], DetectAction(b.orders[index], tick, nowMs);
            && (action == Some(EXPIRE) ==> r.value == b.(orders := b.orders[index := o.(status := EXPIRED)]))
            && (action == Some(ACTIVATE) ==> r.value == b.(orders := b.orders[index := o.(status := TRIGGERED)]))
            && (action != Some(EXPIRE) && action != Some(ACTIVATE) ==> r.value == b))
  {
    hide DetectAction;
  }

  /** A refusal that is not about the moment rejects the order for good. */
  predicate IsOfTheMoment(c: Code) {
    c in {RISK_STATE_UNRESOLVED, DAILY_LOSS_LIMIT_REACHED, MAX_LOSS_LIMIT_REACHED, MARKET_SESSION_CLOSED,
          QUOTE_UNAVAILABLE, QUOTE_STALE, EXECUTABLE_QUOTE_UNAVAILABLE, INVALID_PRICE, INVALID_PRICE_STEP,
          STEP_NOT_POSITIVE, STOP_LOSS_REQUIRED_FOR_RISK}
  }

  /** Main result on fills: where detection says so a waiting order expires, or is planned on the
      live account at the tick's quote. A refusal of the moment aborts, any other rejects the
      order; a plan worse than its limit leaves it waiting; and a plan that is not is recorded. */
  lemma FillIs(b: Books, m: Market, v: Valuation, index: nat, tick: Tick)
    requires index < |b.orders| && (b.orders[index].status == PENDING || b.orders[index].status == TRIGGERED)
    ensures var r, o := ExecutePending(b, m, v, index, tick), b.orders[index];
      var action, a, q := DetectAction(o, tick, m.nowMs), Overlay(b, v, true), m.(quote := Some(tick.quote));
      && (action == Some(EXPIRE) ==> r == Ok(b.(orders := b.orders[index := o.(status := EXPIRED)])))
      && (action != Some(EXPIRE) && action != Some(FILL) ==> r == Ok(b))
      && (action == Some(FILL) && a.Err? ==> r == Err(ACCOUNT_VALUATION_NOT_LIVE))
      && (action == Some(FILL) && a.Ok? ==>
            var e := LoadOpenExposure(b.positions, m, a.value.currency, o.symbol);
            && (e.Err? ==> r.Err?)
            && (e.Ok? ==>
                  var rolled := RollRiskDay(a.value, m.dayKey);
                  var plan := PlanMarketOpen(q, rolled, e.value, o.symbol, o.side, o.requestedVolume, o.stopLoss,
                                o.takeProfit);
                  && (plan.Err? && IsOfTheMoment(plan.error) ==> r == Err(plan.error))
                  && (plan.Err? && !IsOfTheMoment(plan.error) ==>
                        r == Ok(b.(orders := b.orders[index := o.(status := REJECTED)])))
                  && (plan.Ok? && (o.kind == LIMIT || o.kind == STOP_LIMIT) && !WithinLimit(o, plan.value.fillPrice) ==>
                        r == Ok(b))
                  && (plan.Ok?
                      && ((o.kind != LIMIT && o.kind != STOP_LIMIT) || WithinLimit(o, plan.value.fillPrice)) ==>
                        r == RecordOpen(b, rolled, plan.value, FilledOrder(index),
                               "pending:" + DigitsOf(index) + ":commission"))))
  {
    OverlayIs(b, v, true);
    hide Overlay, LoadOpenExposure, RecordOpen, RollRiskDay, DetectAction;
    var live, o := Overlay(b, v, true), b.orders[index];
    if live.Ok? && LoadOpenExposure(b.positions, m, live.value.currency, o.symbol).Ok? {
      var a := live.value;
      OpenRefusals(m.(quote := Some(tick.quote)), RollRiskDay(a, m.dayKey),
          LoadOpenExposure(b.positions, m, a.currency, o.symbol).value, o.symbol, o.side, o.requestedVolume, o.stopLoss,
          o.takeProfit);
    }
    hide PlanMarketOpen;
  }

  /** The codes an opening can be refused with are sorted by the two lists. */
  lemma OpenRefusals(m: Market, a: Account, e: Exposure, symbol: string, side: Side, volume: real,
      stopLoss: Option<real>, takeProfit: Option<real>)
    ensures var r := PlanMarketOpen(m, a, e, symbol, side, volume, stopLoss, takeProfit);
      r.Err? ==> (IsPermanentRejection(r.error) <==> !IsOfTheMoment(r.error))
  {
    hide Quantize, RoundAt, Convert, OnStep, RateCharge, Notional, RollRiskDay;
  }

  /** Something that has stopped waiting is not executed. */
  lemma FinalIsLeftAlone(b: Books, m: Market, v: Valuation, index: nat, tick: Tick)
    requires index >= |b.orders| || (b.orders[index].status != PENDING && b.orders[index].status != TRIGGERED)
    ensures ExecutePending(b, m, v, index, tick) == Ok(b)
  {
  }
}
