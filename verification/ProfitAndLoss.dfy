/** What conversion, valuation, stop risk and closing say about the same money. */
module ProfitAndLoss {
  import opened Common
  import opened Decimal
  import opened DecimalDivision
  import opened Conversion
  import opened TradingTypes
  import opened RiskPolicy
  import opened ExecutionPlanner
  import V = ValuationCalculator

  // ---- rounding half away from zero keeps order and is odd ---------------------

  lemma HalfUpOrder(x: real, y: real)
    ensures x <= y ==> RoundReal(x, HALF_UP) <= RoundReal(y, HALF_UP)
    ensures RoundReal(-x, HALF_UP) == -RoundReal(x, HALF_UP)
  {
  }

  lemma RoundAtOrder(x: real, y: real, scale: nat)
    ensures x <= y ==> RoundAt(x, scale, HALF_UP) <= RoundAt(y, scale, HALF_UP)
    ensures RoundAt(-x, scale, HALF_UP) == -RoundAt(x, scale, HALF_UP)
  {
    hide RoundReal;
    var s := PowReal(scale);
    var xs, ys := x * s, y * s;
    var m, n := RoundReal(xs, HALF_UP), RoundReal(ys, HALF_UP);
    HalfUpOrder(xs, ys);
    SideOf(x, y, s, xs, ys);
    RatioOf(m as real, n as real, s);
    Negated(x, s, xs);
    RoundAtIs(x, scale, s, xs, m);
    RoundAtIs(y, scale, s, ys, n);
    RoundAtIs(-x, scale, s, -xs, -m);
  }

  lemma RoundAtIs(x: real, scale: nat, s: real, xs: real, n: int)
    requires s == PowReal(scale) && xs == x * s && n == RoundReal(xs, HALF_UP)
    ensures RoundAt(x, scale, HALF_UP) == n as real / s
  {
    hide RoundAt, RoundReal, PowReal;
    RoundAtScaled(x, scale, HALF_UP);
    assert x * PowReal(scale) == xs;
    assert RoundAt(x, scale, HALF_UP) * s == n as real;
    DivIs(n as real, s, RoundAt(x, scale, HALF_UP));
  }

  lemma Negated(x: real, s: real, xs: real)
    requires xs == x * s
    ensures (-x) * s == -xs
  {
  }

  lemma RatioOf(m: real, n: real, s: real)
    requires s > 0.0
    ensures m <= n ==> m / s <= n / s
    ensures (-m) / s == -(m / s)
  {
    SideOf(m / s, n / s, s, m, n);
    DivIs(-m, s, -(m / s));
  }

  // ---- the spread of a conversion ----------------------------------------------

  predicate Uncrossed(store: QuoteStore) {
    forall k :: k in store && store[k].bid.Some? && store[k].ask.Some? ==> store[k].bid.value <= store[k].ask.value
  }

  /** A leg pays no more for a gain than it takes for a loss at least as large. */
  lemma LegSpread(cv: Converter, store: QuoteStore, x: real, y: real, from: string, to: string, nowMs: int)
    requires Uncrossed(store) && 0.0 <= x <= y
    ensures var gain, loss := ConvertLeg(cv, store, x, from, to, nowMs), ConvertLeg(cv, store, -y, from, to, nowMs);
            (gain.Some? <==> loss.Some?) && (gain.Some? ==> 0.0 <= gain.value <= -loss.value)
  {
    hide RoundAt;
    LegSign(cv, store, x, from, to, nowMs);
    match LegQuote(cv, store, from + to, nowMs)
    case Some(q) => Products(x, y, q.bid.value, q.ask.value);
    case None =>
      match LegQuote(cv, store, to + from, nowMs)
      case None =>
      case Some(q) =>
        var bid, ask := q.bid.value, q.ask.value;
        Quotients(x, y, bid, ask);
        RoundAtOrder(x / ask, y / bid, 12);
        RoundAtOrder(y / bid, y / bid, 12);
        RatioOf(y, y, bid);
        if y == 0.0 {
          RoundAtSign(0.0 / ask, 12, HALF_UP);
        }
  }

  lemma Products(x: real, y: real, bid: real, ask: real)
    requires 0.0 <= x <= y && 0.0 < bid <= ask
    ensures x * bid <= y * ask && (-y) * ask == -(y * ask) && (y == 0.0 ==> (-y) * bid == 0.0)
  {
    SideOf(x, y, bid, x * bid, y * bid);
    ProductSign(ask - bid, y);
    assert (ask - bid) * y == y * ask - y * bid;
  }

  lemma Quotients(x: real, y: real, bid: real, ask: real)
    requires 0.0 <= x <= y && 0.0 < bid <= ask
    ensures x / ask <= y / bid
  {
    Products(x, y, bid, ask);
    SideOf(x / ask, y / bid, ask * bid, x * bid, y * ask) by {
      assert (x / ask) * ask == x && (y / bid) * bid == y;
      assert (x / ask) * (ask * bid) == ((x / ask) * ask) * bid;
      assert (y / bid) * (ask * bid) == ((y / bid) * bid) * ask;
    }
  }

  /** Main result on conversion: with no crossed quote, an account is never paid
      more for a gain than it pays for an equal loss, over every path of legs. */
  lemma ConvertSpread(cv: Converter, store: QuoteStore, x: real, from: string, to: string, nowMs: int)
    requires Uncrossed(store) && x >= 0.0
    ensures var gain, loss := Convert(cv, store, x, from, to, nowMs), Convert(cv, store, -x, from, to, nowMs);
            (gain.Some? <==> loss.Some?) && (gain.Some? ==> 0.0 <= gain.value <= -loss.value)
  {
    hide ConvertLeg;
    LegSpread(cv, store, x, x, from, to, nowMs);
    LegSpread(cv, store, x, x, from, USD, nowMs);
    match ConvertLeg(cv, store, x, from, USD, nowMs)
    case None =>
    case Some(usd) => LegSpread(cv, store, usd, -ConvertLeg(cv, store, -x, from, USD, nowMs).value, USD, to, nowMs);
  }

  /** The spread can be strict: at 1.0 / 1.1 a gain of ten is worth ten and a loss
      of ten costs eleven. */
  lemma SpreadIsCharged(nowMs: int)
    ensures var store := map["EURUSD" := Quote(Some(1.0), Some(1.1), Some(nowMs), false)];
            var cv := Converter({}, 30_000);
            && Convert(cv, store, 10.0, "EUR", "USD", nowMs) == Some(10.0)
            && Convert(cv, store, -10.0, "EUR", "USD", nowMs) == Some(-11.0)
  {
    assert "EUR" + "USD" == "EURUSD";
  }

  predicate NoSpread(q: Quote) { q.bid == q.ask }

  /** The quotes a conversion can look at have no spread. */
  predicate Spreadless(store: QuoteStore, symbols: set<string>) {
    forall k :: k in symbols && k in store ==> NoSpread(store[k])
  }

  /** Over a direct quote a gain is worth what an equal loss costs exactly when the quote
      has no spread. */
  lemma DirectSpreadIff(cv: Converter, store: QuoteStore, x: real, from: string, to: string, nowMs: int)
    requires IsCurrency(from) && IsCurrency(to) && from != to && LegQuote(cv, store, from + to, nowMs).Some?
    requires x > 0.0
    ensures var gain, loss := Convert(cv, store, x, from, to, nowMs), Convert(cv, store, -x, from, to, nowMs);
            gain.Some? && loss.Some?
            && (gain.value == -loss.value <==> NoSpread(LegQuote(cv, store, from + to, nowMs).value))
  {
    hide RoundAt;
    var q := LegQuote(cv, store, from + to, nowMs).value;
    var bid, ask := q.bid.value, q.ask.value;
    SameProduct(x, bid, ask);
    assert ConvertLeg(cv, store, x, from, to, nowMs).value == x * bid;
    assert ConvertLeg(cv, store, -x, from, to, nowMs).value == (-x) * ask;
  }

  lemma SameProduct(x: real, bid: real, ask: real)
    requires x > 0.0
    ensures (-x) * ask == -(x * ask) && (x * bid == x * ask <==> bid == ask)
  {
    if x * bid == x * ask {
      assert x * (bid - ask) == 0.0;
      assert bid - ask == 0.0;
    }
  }

  /** Without a spread a leg, and so any path of legs, is odd. */
  lemma LegIsOdd(cv: Converter, store: QuoteStore, x: real, from: string, to: string, nowMs: int)
    requires Spreadless(store, {from + to, to + from})
    ensures var there, back := ConvertLeg(cv, store, x, from, to, nowMs), ConvertLeg(cv, store, -x, from, to, nowMs);
            (there.Some? <==> back.Some?) && (there.Some? ==> there.value == -back.value)
  {
    hide RoundAt;
    match LegQuote(cv, store, from + to, nowMs)
    case Some(q) =>
    case None =>
      match LegQuote(cv, store, to + from, nowMs)
      case None =>
      case Some(q) =>
        RatioOf(x, x, q.bid.value);
        RoundAtOrder(x / q.bid.value, 0.0, 12);
  }

  /** With no spread on any quote it can look at, a conversion is odd: directly, over the
      inverse quote and through USD. */
  lemma SpreadlessIsFair(cv: Converter, store: QuoteStore, x: real, from: string, to: string, nowMs: int)
    requires Spreadless(store, ConversionSymbols(from, to))
    ensures var there, back := Convert(cv, store, x, from, to, nowMs), Convert(cv, store, -x, from, to, nowMs);
            (there.Some? <==> back.Some?) && (there.Some? ==> there.value == -back.value)
  {
    hide ConvertLeg;
    if IsCurrency(from) && IsCurrency(to) && from != to {
      LegIsOdd(cv, store, x, from, to, nowMs);
      if from != USD && to != USD {
        LegIsOdd(cv, store, x, from, USD, nowMs);
        match ConvertLeg(cv, store, x, from, USD, nowMs) {
          case None =>
          case Some(usd) => LegIsOdd(cv, store, usd, USD, to, nowMs);
        }
      }
    }
  }

  /** Over the inverse quote twelve places can hide a spread; one worth a unit of the last
      place or more always shows. */
  lemma InverseSpreadShows(cv: Converter, store: QuoteStore, x: real, from: string, to: string, nowMs: int)
    requires IsCurrency(from) && IsCurrency(to) && from != to && x > 0.0
    requires LegQuote(cv, store, from + to, nowMs).None? && LegQuote(cv, store, to + from, nowMs).Some?
    requires var q := LegQuote(cv, store, to + from, nowMs).value;
             x / q.bid.value - x / q.ask.value >= 1.0 / PowReal(12)
    ensures Convert(cv, store, x, from, to, nowMs).Some? && Convert(cv, store, -x, from, to, nowMs).Some?
    ensures Convert(cv, store, x, from, to, nowMs).value < -Convert(cv, store, -x, from, to, nowMs).value
  {
    hide RoundAt, PowReal;
    var q := LegQuote(cv, store, to + from, nowMs).value;
    var low, high := x / q.ask.value, x / q.bid.value;
    RatioOf(x, x, q.bid.value);
    RoundAtOrder(high, high, 12);
    assert ConvertLeg(cv, store, x, from, to, nowMs).value == RoundAt(low, 12, HALF_UP);
    assert ConvertLeg(cv, store, -x, from, to, nowMs).value == RoundAt(-high, 12, HALF_UP);
    UnitApart(low, high, 12);
  }

  lemma UnitApart(x: real, y: real, scale: nat)
    requires y - x >= 1.0 / PowReal(scale)
    ensures RoundAt(x, scale, HALF_UP) < RoundAt(y, scale, HALF_UP)
  {
    hide RoundReal, RoundAt, PowReal;
    var s := PowReal(scale);
    var xs, ys := x * s, y * s;
    ScaledGap(x, y, s, xs, ys);
    HalfUpStep(xs, ys);
    RoundAtIs(x, scale, s, xs, RoundReal(xs, HALF_UP));
    RoundAtIs(y, scale, s, ys, RoundReal(ys, HALF_UP));
    SideOf(RoundAt(x, scale, HALF_UP), RoundAt(y, scale, HALF_UP), s, RoundReal(xs, HALF_UP) as real,
        RoundReal(ys, HALF_UP) as real);
  }

  lemma ScaledGap(x: real, y: real, s: real, xs: real, ys: real)
    requires s > 0.0 && xs == x * s && ys == y * s && y - x >= 1.0 / s
    ensures ys - xs >= 1.0
  {
    assert (y - x) * s == ys - xs;
    assert (1.0 / s) * s == 1.0;
    SideOf(1.0 / s, y - x, s, 1.0, ys - xs);
  }

  lemma HalfUpStep(x: real, y: real)
    requires y - x >= 1.0
    ensures RoundReal(x, HALF_UP) < RoundReal(y, HALF_UP)
  {
  }

  // ---- closing -----------------------------------------------------------------

  /** How far the price has moved in the position's favour. */
  function Favour(side: Side, entry: real, price: real): (d: real) {
    if side == BUY then price - entry else entry - price
  }

  function ProfitCurrency(p: Position, i: Instrument): (c: string) {
    FirstCurrency(p.quoteCurrency, FirstCurrency(i.pnlCurrency, i.quoteCurrency))
  }

  /** A close that fills in the position's favour never books a loss, one that
      fills against it never books a profit, and one at the entry price books nothing. */
  lemma ProfitFollowsPrice(m: Market, a: Account, p: Position, requested: Option<real>)
    requires PlanMarketClose(m, a, p, requested).Ok? && p.contractSize >= 0.0
    ensures var plan := PlanMarketClose(m, a, p, requested).value;
            var favour := Favour(p.side, p.entryPrice, plan.fillPrice);
            (favour >= 0.0 ==> plan.realizedPnl >= 0.0) && (favour <= 0.0 ==> plan.realizedPnl <= 0.0)
  {
    hide Convert, RoundAt, Quantize, CalculateCommission, ValidateQuote, OnStep, ReleasedMargin;
    var plan := PlanMarketClose(m, a, p, requested).value;
    var amount := Notional(Favour(p.side, p.entryPrice, plan.fillPrice), p.contractSize, plan.volume);
    AmountSign(Favour(p.side, p.entryPrice, plan.fillPrice), p.contractSize, plan.volume);
    ConvertSign(m.cv, m.store, amount, ProfitCurrency(p, m.instruments[p.symbol]), a.currency, m.nowMs);
  }

  lemma AmountSign(d: real, contractSize: real, volume: real)
    requires contractSize >= 0.0 && volume >= 0.0
    ensures (d >= 0.0 ==> Notional(d, contractSize, volume) >= 0.0)
    ensures (d <= 0.0 ==> Notional(d, contractSize, volume) <= 0.0)
  {
    ProductSign(d, contractSize);
    ProductSign(d * contractSize, volume);
  }

  function ToValue(p: Position, id: string, accountId: string): (v: V.OpenPosition) {
    V.OpenPosition(id, accountId, p.symbol, p.side, p.openVolume, p.entryPrice, p.contractSize, p.quoteCurrency,
        p.margin)
  }

  lemma ShownProfit(p: Position, q: Quote, id: string, accountId: string, price: real)
    requires price > 0.0 && (if p.side == BUY then q.bid else q.ask) == Some(price)
    ensures V.CalculatePositionValuation(ToValue(p, id, accountId), Some(q)).floatingPnl
            == Some(Notional(Favour(p.side, p.entryPrice, price), p.contractSize, p.openVolume))
  {
    var v := ToValue(p, id, accountId);
    var d := if v.side == BUY then price - v.entryPrice else v.entryPrice - price;
    assert d == Favour(p.side, p.entryPrice, price);
    assert V.CalculatePositionValuation(v, Some(q)).floatingPnl.Some?;
    assert V.CalculatePositionValuation(v, Some(q)).floatingPnl.value == d * v.contractSize * v.openVolume;
    assert V.CalculatePositionValuation(v, Some(q)).floatingPnl == Some(d * v.contractSize * v.openVolume);
    assert Notional(d, v.contractSize, v.openVolume) == d * v.contractSize * v.openVolume;
  }

  /** Closing in full at the price a position is valued at books exactly what the
      valuation showed for it in the account's currency. */
  lemma FullCloseBooksTheValuation(m: Market, a: Account, p: Position, q: Quote, id: string, accountId: string)
    requires PlanMarketClose(m, a, p, None).Ok? && p.quoteCurrency != "" && a.currency != ""
    requires (if p.side == BUY then q.bid else q.ask) == Some(PlanMarketClose(m, a, p, None).value.fillPrice)
    requires PlanMarketClose(m, a, p, None).value.fillPrice > 0.0
    ensures var v := V.CalculatePositionValuation(ToValue(p, id, accountId), Some(q));
            && v.floatingPnl.Some?
            && V.ConvertPnl(m.cv, m.store, v.floatingPnl.value, p.quoteCurrency, a.currency, m.nowMs)
               == Some(PlanMarketClose(m, a, p, None).value.realizedPnl)
  {
    hide Convert, RoundAt, Quantize, CalculateCommission, ValidateQuote, OnStep, ReleasedMargin, ExecutablePrice;
    var plan := PlanMarketClose(m, a, p, None).value;
    var amount := Notional(Favour(p.side, p.entryPrice, plan.fillPrice), p.contractSize, p.openVolume);
    ShownProfit(p, q, id, accountId, plan.fillPrice);
    assert ConvertTradingCurrency(m, amount, p.quoteCurrency, a.currency) == Ok(plan.realizedPnl);
  }

  // ---- stop risk ---------------------------------------------------------------

  /** The risk that is measured for a position is at most what it loses when it is
      closed at its stop, costs included. The two agree when profit is in the
      account's currency; otherwise the spread of the conversion is not measured. */
  lemma StopRiskIsAtMostTheLoss(m: Market, a: Account, p: Position)
    requires PlanMarketClose(m, a, p, None).Ok? && PositionStopRisk(m, a.currency, p).Ok? && p.stopLoss.Some?
    requires PlanMarketClose(m, a, p, None).value.fillPrice == p.stopLoss.value
    requires p.contractSize >= 0.0 && Uncrossed(m.store) && Favour(p.side, p.entryPrice, p.stopLoss.value) < 0.0
    ensures var plan := PlanMarketClose(m, a, p, None).value;
            var risk := PositionStopRisk(m, a.currency, p).value.value;
            && risk <= -plan.realizedPnl + NonNegativeCost(plan.commission)
            && (ProfitCurrency(p, m.instruments[p.symbol]) == a.currency && a.currency != "" ==>
                  risk == -plan.realizedPnl + NonNegativeCost(plan.commission))
  {
    hide Convert, RoundAt, Quantize, CalculateCommission, ValidateQuote, OnStep, ReleasedMargin;
    var i, d := m.instruments[p.symbol], -Favour(p.side, p.entryPrice, p.stopLoss.value);
    var amount := Notional(d, p.contractSize, p.openVolume);
    AmountSign(d, p.contractSize, p.openVolume);
    OppositeAmount(d, p.contractSize, p.openVolume);
    ConvertSpread(m.cv, m.store, amount, ProfitCurrency(p, i), a.currency, m.nowMs);
  }

  /** When the amount can be converted directly, or needs no conversion, the measured risk is
      the loss at the stop with its costs exactly when there is no spread to pay: profit is in
      the account's currency already, the position has no contract size, or bid equals ask. */
  lemma StopRiskIsTheLossIff(m: Market, a: Account, p: Position)
    requires PlanMarketClose(m, a, p, None).Ok? && PositionStopRisk(m, a.currency, p).Ok? && p.stopLoss.Some?
    requires PlanMarketClose(m, a, p, None).value.fillPrice == p.stopLoss.value
    requires p.contractSize >= 0.0 && Favour(p.side, p.entryPrice, p.stopLoss.value) < 0.0
    requires var from := ProfitCurrency(p, m.instruments[p.symbol]);
             from == a.currency || LegQuote(m.cv, m.store, from + a.currency, m.nowMs).Some?
    ensures var plan := PlanMarketClose(m, a, p, None).value;
            var risk := PositionStopRisk(m, a.currency, p).value.value;
            var from := ProfitCurrency(p, m.instruments[p.symbol]);
            risk == -plan.realizedPnl + NonNegativeCost(plan.commission)
            <==> from == a.currency || p.contractSize == 0.0
                 || NoSpread(LegQuote(m.cv, m.store, from + a.currency, m.nowMs).value)
  {
    hide Convert, RoundAt, Quantize, CalculateCommission, ValidateQuote, OnStep, ReleasedMargin, NoSpread;
    var i, d := m.instruments[p.symbol], -Favour(p.side, p.entryPrice, p.stopLoss.value);
    var from := ProfitCurrency(p, i);
    var amount := Notional(d, p.contractSize, p.openVolume);
    OppositeAmount(d, p.contractSize, p.openVolume);
    var plan := PlanMarketClose(m, a, p, None).value;
    assert ConvertTradingCurrency(m, -amount, from, a.currency).value == plan.realizedPnl;
    assert PositionStopRisk(m, a.currency, p).value.value
        == ConvertTradingCurrency(m, amount, from, a.currency).value + NonNegativeCost(plan.commission);
    if p.contractSize > 0.0 {
      AmountPositive(d, p.contractSize, p.openVolume);
    } else {
      NoAmount(d, p.openVolume);
    }
    ConvertedBothWays(m, amount, from, a.currency);
  }

  lemma ConvertedBothWays(m: Market, x: real, from: string, to: string)
    requires x >= 0.0 && ConvertTradingCurrency(m, x, from, to).Ok? && ConvertTradingCurrency(m, -x, from, to).Ok?
    requires from == to || LegQuote(m.cv, m.store, from + to, m.nowMs).Some?
    ensures ConvertTradingCurrency(m, x, from, to).value == -ConvertTradingCurrency(m, -x, from, to).value
            <==> from == to || x == 0.0 || NoSpread(LegQuote(m.cv, m.store, from + to, m.nowMs).value)
  {
    hide Convert, RoundAt, NoSpread, LegQuote;
    if from != to || from == "" {
      assert Convert(m.cv, m.store, x, from, to, m.nowMs).Some?;
      ConvertsCurrencies(m.cv, m.store, x, from, to, m.nowMs);
    }
    if from != to {
      if x > 0.0 {
        DirectSpreadIff(m.cv, m.store, x, from, to, m.nowMs);
      } else {
        ZeroConverts(m.cv, m.store, from, to, m.nowMs);
      }
    }
  }

  /** No spread on any quote the conversion can look at is enough over every path. */
  lemma SpreadlessStopRiskIsTheLoss(m: Market, a: Account, p: Position)
    requires PlanMarketClose(m, a, p, None).Ok? && PositionStopRisk(m, a.currency, p).Ok? && p.stopLoss.Some?
    requires PlanMarketClose(m, a, p, None).value.fillPrice == p.stopLoss.value
    requires Favour(p.side, p.entryPrice, p.stopLoss.value) < 0.0
    requires Spreadless(m.store, ConversionSymbols(ProfitCurrency(p, m.instruments[p.symbol]), a.currency))
    ensures var plan := PlanMarketClose(m, a, p, None).value;
            PositionStopRisk(m, a.currency, p).value.value == -plan.realizedPnl + NonNegativeCost(plan.commission)
  {
    hide Convert, RoundAt, Quantize, CalculateCommission, ValidateQuote, OnStep, ReleasedMargin, Spreadless,
         ConversionSymbols;
    var i, d := m.instruments[p.symbol], -Favour(p.side, p.entryPrice, p.stopLoss.value);
    OppositeAmount(d, p.contractSize, p.openVolume);
    SpreadlessIsFair(m.cv, m.store, Notional(d, p.contractSize, p.openVolume), ProfitCurrency(p, i), a.currency,
        m.nowMs);
  }

  lemma ConvertsCurrencies(cv: Converter, store: QuoteStore, x: real, from: string, to: string, nowMs: int)
    requires Convert(cv, store, x, from, to, nowMs).Some?
    ensures IsCurrency(from) && IsCurrency(to)
  {
  }

  lemma NoAmount(d: real, volume: real)
    ensures Notional(d, 0.0, volume) == 0.0 == Notional(-d, 0.0, volume)
  {
  }

  lemma ZeroConverts(cv: Converter, store: QuoteStore, from: string, to: string, nowMs: int)
    ensures Convert(cv, store, 0.0, from, to, nowMs).Some? ==> Convert(cv, store, 0.0, from, to, nowMs).value == 0.0
  {
  }

  lemma AmountPositive(d: real, contractSize: real, volume: real)
    requires d > 0.0 && contractSize > 0.0 && volume > 0.0
    ensures Notional(d, contractSize, volume) > 0.0
  {
    assert d * contractSize > 0.0;
  }

  lemma OppositeAmount(d: real, contractSize: real, volume: real)
    ensures Notional(-d, contractSize, volume) == -Notional(d, contractSize, volume)
  {
  }
}
