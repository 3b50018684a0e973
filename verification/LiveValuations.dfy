/** Which commands ask for a live valuation before they open anything, and the one
    that does not: the opening leg of an atomic reverse
    (src/modules/trading/market-order.service.js, pending-order.service.js). */
module LiveValuations {
  import opened Common
  import opened TradingTypes
  import opened ExecutionPlanner
  import opened PendingPlanner
  import opened Books
  import opened MarginRelease

  predicate LiveAndComplete(v: Valuation) { v.live && v.floatingPnl.Some? }

  lemma OpenNeedsLive(b: Books, m: Market, v: Valuation, id: string, symbol: string, side: Side, volume: real,
                      sl: Option<real>, tp: Option<real>)
    requires OpenMarket(b, m, v, id, symbol, side, volume, sl, tp).Ok?
    ensures LiveAndComplete(v)
  {
    hide PlanOpen, RecordOpen;
  }

  lemma FillNeedsLive(b: Books, m: Market, v: Valuation, index: nat, tick: Tick)
    requires ExecutePending(b, m, v, index, tick).Ok?
    ensures ExecutePending(b, m, v, index, tick).value.positions != b.positions ==> LiveAndComplete(v)
  {
    hide LoadOpenExposure, RecordOpen, PlanMarketOpen, RollRiskDay, DetectAction, FillRespectsLimit;
  }

  lemma PlacementNeedsLive(b: Books, m: Market, v: Valuation, c: PlaceCommand)
    requires PlacePending(b, m, v, c).Ok?
    ensures LiveAndComplete(v)
  {
    hide LoadOpenExposure, PlanPendingOrder;
  }

  lemma CloseAddsNone(b: Books, m: Market, v: Valuation, id: string, index: nat, volume: Option<real>)
    requires CloseMarket(b, m, v, id, index, volume).Ok?
    ensures |CloseMarket(b, m, v, id, index, volume).value.positions| == |b.positions|
  {
    hide Overlay, PlanMarketClose, PositionValid, FreshOrder, FreshKeys, CloseEntries, ClosedPosition, AfterClose;
  }

  /** Whatever adds a position or a pending order, a reverse apart, was planned on a live and
      complete valuation. */
  lemma OpeningNeedsLive(b: Books, c: Command)
    requires WellTyped(c) && !c.ReverseCommand? && Outcome(b, c).Ok?
    requires |Step(b, c).positions| > |b.positions| || c.PlacePendingCommand?
    ensures (c.OpenCommand? || c.ExecuteCommand? || c.PlacePendingCommand?) && LiveAndComplete(c.v)
  {
    hide OpenMarket, CloseMarket, ExecutePending, Mutate, PlacePending, CancelPending, ActivateStopLimit, ExpirePending,
         Restrict, Activate, Resume, FinishClose;
    match c {
      case OpenCommand(m, v, id, symbol, side, volume, sl, tp) =>
        OpenNeedsLive(b, m, v, id, symbol, side, volume, sl, tp);
      case ExecuteCommand(m, v, order, tick) => FillNeedsLive(b, m, v, order, tick);
      case PlacePendingCommand(m, v, place) => PlacementNeedsLive(b, m, v, place);
      case CloseCommand(m, v, id, position, volume) => CloseAddsNone(b, m, v, id, position, volume);
      case _ => OthersAside(b, c);
    }
  }

  /** A reverse does not look at whether the valuation is live, for either of its legs. */
  lemma ReverseIgnoresLive(b: Books, m: Market, v: Valuation, live: bool, id: string, index: nat, sl: Option<real>,
      tp: Option<real>)
    ensures Reverse(b, m, v, id, index, sl, tp) == Reverse(b, m, v.(live := live), id, index, sl, tp)
  {
    hide CloseCore, PlanOpen, RecordOpen;
    assert Overlay(b, v, false) == Overlay(b, v.(live := live), false);
  }
}
