/** When a stop is taken, set or moved, on the figures of the position and the quote
    (src/modules/trading/protection-trigger.js, position-protection-planner.js and
    trailing-stop-planner.js). */
module StopRules {
  import opened Common
  import opened DecimalDivision
  import opened Conversion
  import opened TradingTypes
  import opened ExecutionPlanner
  import opened PendingPlanner
  import opened TrailingStop

  /** A position is closed at the bid when it was bought, else at the ask; none if not positive. */
  predicate ClosesAt(side: Side, q: Quote, price: real) {
    price > 0.0 && (if side == BUY then q.bid else q.ask) == Some(price)
  }

  /** The price has come to the level from the side the position gains on. */
  predicate ReachesStop(side: Side, price: real, level: real) {
    (side == BUY ==> price <= level) && (side == SELL ==> price >= level)
  }

  /** The price has come to the level from the side the position loses on. */
  predicate ReachesTarget(side: Side, price: real, level: real) {
    (side == BUY ==> price >= level) && (side == SELL ==> price <= level)
  }

  /** Main result on triggers: an open position on the tick's symbol closes on a live quote exactly
      when the price it would close at has come to its stop or its target, the stop first. */
  lemma TriggersIff(p: Protected, tick: Tick, level: real, price: real)
    ensures DetectTrigger(p, tick) == Some(STOP_LOSS_HIT(level, price)) <==>
      && p.open && p.symbol != "" && p.symbol == tick.symbol && !tick.quote.isStale
      && ClosesAt(p.side, tick.quote, price) && p.stopLoss == Some(level) && ReachesStop(p.side, price, level)
    ensures DetectTrigger(p, tick) == Some(TAKE_PROFIT_HIT(level, price)) <==>
      && p.open && p.symbol != "" && p.symbol == tick.symbol && !tick.quote.isStale
      && ClosesAt(p.side, tick.quote, price) && p.takeProfit == Some(level) && ReachesTarget(p.side, price, level)
      && (p.stopLoss.Some? ==> !ReachesStop(p.side, price, p.stopLoss.value))
  {
  }

  /** A quote that is live and no older than the age that was set, or five seconds. */
  predicate IsFresh(q: Quote, maxQuoteAgeMs: int, nowMs: int) {
    var age := if maxQuoteAgeMs == 0 then 5000 else maxQuoteAgeMs;
    !q.isStale && q.receivedAtMs.Some? && age >= 0 && nowMs - q.receivedAtMs.value <= age
  }

  /** What a change makes of a level: it stays, is cleared, or is set to a positive multiple of a
      positive tick size. */
  ghost predicate Becomes(before: Option<real>, change: Change, tickSize: real, after: Option<real>) {
    match change
    case Unchanged => after == before
    case SetTo(price) =>
      && after == price
      && (price.Some? ==> price.value > 0.0 && tickSize > 0.0 && MultipleOf(price.value, tickSize))
  }

  /** The levels leave the price strictly between them. */
  predicate Surround(side: Side, price: real, stop: Option<real>, take: Option<real>) {
    (stop.Some? ==> !ReachesStop(side, price, stop.value)) && (take.Some? ==> !ReachesTarget(side, price, take.value))
  }

  /** Main result on protection: what is accepted, and the levels it is accepted with. */
  lemma ProtectsIff(p: Protected, g: Grid, quote: Option<Quote>, stopLoss: Change, takeProfit: Change,
      breakEven: bool, nowMs: int, plan: ProtectionPlan)
    ensures PlanPositionProtection(p, g, quote, stopLoss, takeProfit, breakEven, nowMs) == Ok(plan) <==>
      && p.open && p.openVolume > 0.0 && g.tickSize.Some?
      && quote.Some? && IsFresh(quote.value, g.maxQuoteAgeMs, nowMs)
      && ClosesAt(p.side, quote.value, plan.executablePrice)
      && Surround(p.side, plan.executablePrice, plan.stopLoss, plan.takeProfit)
      && (breakEven ==> plan.stopLoss == Some(p.entryPrice) && plan.takeProfit == p.takeProfit)
      && (!breakEven ==>
            && (stopLoss.SetTo? || takeProfit.SetTo?)
            && Becomes(p.stopLoss, stopLoss, g.tickSize.value, plan.stopLoss)
            && Becomes(p.takeProfit, takeProfit, g.tickSize.value, plan.takeProfit))
  {
    hide OnStep, MultipleOf;
    forall x | g.tickSize.Some? && g.tickSize.value > 0.0
      ensures OnStep(x, g.tickSize.value) <==> MultipleOf(x, g.tickSize.value)
    {
      OnStepIffMultiple(x, g.tickSize.value);
    }
  }

  /** Breaking even is refused for a price that is not better than the entry, by a code of its own. */
  lemma BreakEvenRefused(p: Protected, g: Grid, quote: Option<Quote>, stopLoss: Change, takeProfit: Change,
      nowMs: int, price: real)
    requires p.open && p.openVolume > 0.0 && g.tickSize.Some?
    requires quote.Some? && IsFresh(quote.value, g.maxQuoteAgeMs, nowMs) && ClosesAt(p.side, quote.value, price)
    ensures PlanPositionProtection(p, g, quote, stopLoss, takeProfit, true, nowMs) == Err(BREAK_EVEN_NOT_AVAILABLE)
      <==> ReachesStop(p.side, price, p.entryPrice)
  {
  }

  // ---- trailing ------------------------------------------------------------------------

  /** The tightest level on the grid that keeps the distance from the best price. */
  ghost predicate IsCandidate(side: Side, best: real, distance: real, tickSize: real, stop: real) {
    var limit := if side == BUY then best - distance else best + distance;
    && MultipleOf(stop, tickSize) && AtLeastAsTight(side, limit, stop)
    && forall other :: MultipleOf(other, tickSize) && AtLeastAsTight(side, limit, other) ==>
         AtLeastAsTight(side, stop, other)
  }

  lemma CandidateIs(side: Side, best: real, points: real, tickSize: real)
    requires tickSize > 0.0
    ensures var r := TrailingStopFromBest(side, best, points, tickSize);
      r.Ok? && IsCandidate(side, best, points * tickSize, tickSize, r.value)
  {
    hide Quantize, MultipleOf;
    var limit := if side == BUY then best - points * tickSize else best + points * tickSize;
    QuantizeBounds(limit, tickSize);
    forall other | MultipleOf(other, tickSize) && AtLeastAsTight(side, limit, other)
      ensures AtLeastAsTight(side, TrailingStopFromBest(side, best, points, tickSize).value, other)
    {
      QuantizeBest(limit, tickSize, other);
    }
  }

  /** The level is an improvement on the one there is. */
  predicate Improves(side: Side, before: Option<real>, after: real) {
    before.Some? ==> (side == BUY ==> after > before.value) && (side == SELL ==> after < before.value)
  }

  /** Main result on a tick: the best price is the better of the one there was and the price the
      position closes at. The stop moves to the candidate of that best price exactly when that is
      tighter, and then the tick is refused if it cannot be set; otherwise it stays. */
  lemma AdvanceIs(p: Protected, g: Grid, q: Quote, nowMs: int, price: real, best: real, stop: real)
    requires p.open && p.trailing.enabled && !q.isStale && ClosesAt(p.side, q, price)
    requires p.trailing.distancePoints.Some? && p.trailing.distancePoints.value > 0.0
    requires g.tickSize.Some? && g.tickSize.value > 0.0
    requires best == (if Improves(p.side, p.trailing.bestPrice, price) then price else p.trailing.bestPrice.value)
    requires IsCandidate(p.side, best, p.trailing.distancePoints.value * g.tickSize.value, g.tickSize.value, stop)
    ensures var r := PlanAdvance(p, g, Some(q), nowMs);
      && (Improves(p.side, p.stopLoss, stop) ==>
            var allowed := PlanPositionProtection(p, g, Some(q), SetTo(Some(stop)), Unchanged, false, nowMs);
            r == if allowed.Err? then Err(allowed.error)
                 else Ok(Some(AdvancePlan(best, stop, p.trailing.bestPrice != Some(best), true))))
      && (!Improves(p.side, p.stopLoss, stop) ==>
            r == Ok(Some(AdvancePlan(best, p.stopLoss.value, p.trailing.bestPrice != Some(best), false))))
  {
    hide PlanPositionProtection, TrailingStopFromBest, MultipleOf;
    CandidateIs(p.side, best, p.trailing.distancePoints.value, g.tickSize.value);
    assert stop == TrailingStopFromBest(p.side, best, p.trailing.distancePoints.value, g.tickSize.value).value;
  }

  /** Otherwise nothing is done: without a trail or a live quote quietly, else with an error. */
  lemma AdvanceNeeds(p: Protected, g: Grid, tick: Option<Quote>, nowMs: int)
    ensures PlanAdvance(p, g, tick, nowMs) == Ok(None) <==>
      !(p.open && p.trailing.enabled && tick.Some? && !tick.value.isStale)
    ensures PlanAdvance(p, g, tick, nowMs).Ok? && PlanAdvance(p, g, tick, nowMs).value.Some? ==>
      && p.trailing.distancePoints.Some? && p.trailing.distancePoints.value > 0.0
      && g.tickSize.Some? && g.tickSize.value != 0.0
      && exists price :: ClosesAt(p.side, tick.value, price)
  {
    hide PlanPositionProtection, Quantize;
    if PlanAdvance(p, g, tick, nowMs).Ok? && PlanAdvance(p, g, tick, nowMs).value.Some? {
      assert ClosesAt(p.side, tick.value, ExecutableClose(p.side, tick.value).value);
    }
  }

  /** The records of an advance: the best price and the stop, and nothing else of the position. */
  lemma AdvancedIs(p: Protected, g: Grid, tick: Option<Quote>, nowMs: int)
    requires PlanAdvance(p, g, tick, nowMs).Ok? && PlanAdvance(p, g, tick, nowMs).value.Some?
    ensures var plan := PlanAdvance(p, g, tick, nowMs).value.value;
      Advanced(p, plan) == p.(stopLoss := Some(plan.stopLoss),
                              trailing := Trailing(true, p.trailing.distancePoints, Some(plan.bestPrice)))
  {
    hide PlanPositionProtection, TrailingStopFromBest;
  }

  /** Main result on switching a trail on: it starts at the price the position closes at, with the
      tighter of the stop there is and the candidate, if that can be set. */
  lemma ConfigureIs(p: Protected, g: Grid, q: Quote, points: real, nowMs: int, price: real, candidate: real,
      stop: real)
    requires p.open && points > 0.0 && g.tickSize.Some? && g.tickSize.value > 0.0 && ClosesAt(p.side, q, price)
    requires IsCandidate(p.side, price, points * g.tickSize.value, g.tickSize.value, candidate)
    requires stop == if Improves(p.side, p.stopLoss, candidate) then candidate else p.stopLoss.value
    ensures var r := Configure(p, g, Some(q), true, Some(points), nowMs);
      var allowed := PlanPositionProtection(p, g, Some(q), SetTo(Some(stop)), Unchanged, false, nowMs);
      r == if allowed.Err? then Err(allowed.error)
           else Ok(p.(stopLoss := Some(stop), trailing := Trailing(true, Some(points), Some(price))))
  {
    hide PlanPositionProtection, TrailingStopFromBest, MultipleOf;
    CandidateIs(p.side, price, points, g.tickSize.value);
    assert candidate == TrailingStopFromBest(p.side, price, points, g.tickSize.value).value;
  }

  /** Nothing can be configured on a closed position, and switching a trail off keeps the stop. */
  lemma ConfigureNeeds(p: Protected, g: Grid, quote: Option<Quote>, enabled: bool, points: Option<real>, nowMs: int)
    ensures var r := Configure(p, g, quote, enabled, points, nowMs);
      && (r.Ok? ==> p.open)
      && (r.Ok? && enabled ==>
            && points.Some? && points.value > 0.0 && g.tickSize.Some? && g.tickSize.value > 0.0 && quote.Some?
            && exists price :: ClosesAt(p.side, quote.value, price))
      && (p.open && !enabled ==>
            r == Ok(if p.trailing.enabled then p.(trailing := Trailing(false, None, None)) else p))
  {
    hide Quantize, PlanPositionProtection;
    if Configure(p, g, quote, enabled, points, nowMs).Ok? && enabled {
      assert ClosesAt(p.side, quote.value, ExecutableClose(p.side, quote.value).value);
      AllowedStop(p, g, quote, Configure(p, g, quote, enabled, points, nowMs).value.stopLoss.value, nowMs);
    }
  }
}
