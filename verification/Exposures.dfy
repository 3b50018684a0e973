/** The figures an opening is judged with, as sums over the open positions
    (loadOpenExposure in src/modules/trading/market-order.service.js, and
    calculatePositionStopRiskAmount in firm-risk-policy.js). */
module Exposures {
  import opened Common
  import opened TradingTypes
  import opened RiskPolicy
  import opened Books
  import opened TradeGates

  function VolumeOf(p: Position, k: ()): (x: real) { if p.status == OPEN then p.openVolume else 0.0 }

  function VolumeOn(p: Position, symbol: string): (x: real) {
    if p.status == OPEN && p.symbol == symbol then p.openVolume else 0.0
  }

  function MarginOn(p: Position, symbol: string): (x: real) {
    if p.status == OPEN && p.symbol == symbol then p.margin else 0.0
  }

  /** The measured risk of a position that is open; `k` is the market and the account's currency. */
  function RiskOf(p: Position, k: (Market, string)): (x: real) {
    var risk := PositionStopRisk(k.0, k.1, p);
    if p.status == OPEN && risk.Ok? && risk.value.Some? then risk.value.value else 0.0
  }

  /** An open position with a stop whose risk cannot be expressed in the account's currency. */
  predicate IsInconvertible(p: Position, m: Market, currency: string) {
    p.status == OPEN && p.stopLoss.Some? && PositionStopRisk(m, currency, p).Err?
  }

  /** Main result on exposure: it is given unless the risk of some open position cannot be
      expressed, and its volumes, margin and risk are the sums over the open positions. */
  lemma {:induction false} ExposureSums(ps: seq<Position>, m: Market, currency: string, symbol: string)
    ensures var r := LoadOpenExposure(ps, m, currency, symbol);
      && (r.Ok? <==> forall i :: 0 <= i < |ps| ==> !IsInconvertible(ps[i], m, currency))
      && (r.Ok? ==>
            && r.value.currentTotalVolume == Total(ps, (), VolumeOf)
            && r.value.currentSymbolVolume == (if symbol == "" then 0.0 else Total(ps, symbol, VolumeOn))
            && r.value.currentSymbolMargin == (if symbol == "" then 0.0 else Total(ps, symbol, MarginOn))
            && r.value.currentOpenRisk == Total(ps, (m, currency), RiskOf))
  {
    if ps != [] {
      var n := |ps| - 1;
      ExposureSums(ps[..n], m, currency, symbol);
      MeasuredUnless(m, currency, ps[n]);
      hide PositionStopRisk;
      assert forall i :: 0 <= i < n ==> ps[..n][i] == ps[i];
    }
  }

  lemma MeasuredUnless(m: Market, currency: string, p: Position)
    ensures p.stopLoss.None? ==> PositionStopRisk(m, currency, p) == Ok(None)
  {
  }

  /** The counts, and the margin in use, position by position. */
  lemma OneMorePosition(ps: seq<Position>, p: Position, m: Market, currency: string, symbol: string)
    ensures OpenMargin([]) == 0.0
    ensures OpenMargin(ps + [p]) == OpenMargin(ps) + (if p.status == OPEN then p.margin else 0.0)
    ensures LoadOpenExposure([], m, currency, symbol) == Ok(Exposure(0, 0.0, 0.0, 0.0, 0, 0.0, 0))
    ensures LoadOpenExposure(ps + [p], m, currency, symbol).Ok? ==>
      var e, r := LoadOpenExposure(ps, m, currency, symbol), LoadOpenExposure(ps + [p], m, currency, symbol).value;
      var held, here := p.status == OPEN, p.status == OPEN && symbol != "" && p.symbol == symbol;
      && e.Ok?
      && r.currentOpenPositions == e.value.currentOpenPositions + (if held then 1 else 0)
      && r.currentSymbolPositions == e.value.currentSymbolPositions + (if here then 1 else 0)
      && r.unmeasuredRiskPositions
         == e.value.unmeasuredRiskPositions + (if held && p.stopLoss.None? then 1 else 0)
  {
    assert (ps + [p])[..|ps|] == ps;
    MeasuredIff(m, currency, p);
    hide PositionStopRisk;
  }

  lemma MeasuredIff(m: Market, currency: string, p: Position)
    ensures PositionStopRisk(m, currency, p).Ok? ==>
      (PositionStopRisk(m, currency, p).value.Some? <==> p.stopLoss.Some?)
  {
  }

  /** The counts of the orders that wait, order by order. */
  lemma OneMoreOrder(os: seq<Order>, o: Order, symbol: string)
    ensures LoadPendingExposure([], symbol) == PendingExposure(0, 0)
    ensures var e, r := LoadPendingExposure(os, symbol), LoadPendingExposure(os + [o], symbol);
      var waits := o.status == PENDING || o.status == TRIGGERED;
      && r.currentPendingOrders == e.currentPendingOrders + (if waits then 1 else 0)
      && r.currentSymbolPendingOrders
         == e.currentSymbolPendingOrders + (if waits && o.symbol == symbol then 1 else 0)
  {
    assert (os + [o])[..|os|] == os;
  }

  // ---- the risk of one position --------------------------------------------------------

  /** The currency its profits are in: its own, else its instrument's. */
  predicate IsProfitCurrency(m: Market, p: Position, from: string) {
    if p.quoteCurrency != "" then from == p.quoteCurrency
    else if p.symbol !in m.instruments then from == ""
    else
      var i := m.instruments[p.symbol];
      from == if i.pnlCurrency != "" then i.pnlCurrency else i.quoteCurrency
  }

  /** The commission on closing what is open at the stop; none for an unknown instrument. */
  predicate ClosesFor(m: Market, currency: string, p: Position, commission: real)
    requires p.stopLoss.Some?
  {
    if p.symbol !in m.instruments then commission == 0.0
    else
      Yields(CalculateCommission(m, m.instruments[p.symbol], p.openVolume, p.stopLoss.value, currency), commission)
  }

  /** The way to the stop on the open volume, in the account's currency; none if the stop lies in
      profit. */
  predicate LosesTo(m: Market, currency: string, p: Position, from: string, loss: real)
    requires p.stopLoss.Some?
  {
    var entry, stop := p.entryPrice, p.stopLoss.value;
    match p.side
    case BUY => if stop >= entry then loss == 0.0
                else InAccount(m, Notional(entry - stop, p.contractSize, p.openVolume), from, currency, loss)
    case SELL => if stop <= entry then loss == 0.0
                 else InAccount(m, Notional(stop - entry, p.contractSize, p.openVolume), from, currency, loss)
  }

  lemma LossIs(m: Market, currency: string, p: Position, from: string, loss: real)
    requires p.stopLoss.Some?
    ensures LosesTo(m, currency, p, from, loss) <==>
      Yields(StopRiskAmount(m, p.contractSize, from, currency, p.side, p.entryPrice, p.openVolume, p.stopLoss.value),
             loss)
  {
    hide InAccount, ConvertTradingCurrency, Notional;
    var entry, stop := p.entryPrice, p.stopLoss.value;
    InAccountIff(m, Notional(entry - stop, p.contractSize, p.openVolume), from, currency, loss);
    InAccountIff(m, Notional(stop - entry, p.contractSize, p.openVolume), from, currency, loss);
  }

  /** A stop risks the loss on the way to it and the commission there, where that is a cost. */
  lemma PositionRiskIs(m: Market, currency: string, p: Position, from: string, loss: real, commission: real)
    requires p.stopLoss.Some? && IsProfitCurrency(m, p, from)
    requires ClosesFor(m, currency, p, commission) && LosesTo(m, currency, p, from, loss)
    ensures PositionStopRisk(m, currency, p)
      == Ok(Some(loss + if commission > 0.0 then commission else 0.0))
  {
    hide InAccount, CalculateCommission, StopRiskAmount;
    LossIs(m, currency, p, from, loss);
  }

  /** And it is refused only where the one or the other cannot be had. */
  lemma PositionRiskNeeds(m: Market, currency: string, p: Position, from: string)
    requires p.stopLoss.Some? && IsProfitCurrency(m, p, from)
    requires PositionStopRisk(m, currency, p).Ok?
    ensures exists loss :: LosesTo(m, currency, p, from, loss)
    ensures exists commission :: ClosesFor(m, currency, p, commission)
  {
    hide InAccount, CalculateCommission, StopRiskAmount;
    var loss := StopRiskAmount(m, p.contractSize, from, currency, p.side, p.entryPrice, p.openVolume,
        p.stopLoss.value).value;
    LossIs(m, currency, p, from, loss);
    assert LosesTo(m, currency, p, from, loss);
    var commission := if p.symbol in m.instruments
      then CalculateCommission(m, m.instruments[p.symbol], p.openVolume, p.stopLoss.value, currency).value else 0.0;
    assert ClosesFor(m, currency, p, commission);
  }
}
