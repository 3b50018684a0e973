/** Position protection and trailing stops: src/modules/trading/
    position-protection-planner.js, protection-trigger.js and
    trailing-stop-planner.js. */
module TrailingStop {
  import opened Common
  import opened Decimal
  import opened DecimalDivision
  import opened Conversion
  import opened TradingTypes
  import opened ExecutionPlanner
  import opened PendingPlanner

  datatype Error =
    | NOT_OPEN | NO_TICK_SIZE | NO_QUOTE | STALE_QUOTE | NO_EXECUTABLE_PRICE | CHANGE_REQUIRED
    | BREAK_EVEN_NOT_AVAILABLE
    | BAD_PRICE | BAD_PRICE_STEP | STEP_NOT_ALLOWED | BAD_DISTANCE

  datatype Trailing = Trailing(enabled: bool, distancePoints: Option<real>, bestPrice: Option<real>)

  datatype Protected = Protected(symbol: string, side: Side, open: bool, openVolume: real, entryPrice: real,
                                 stopLoss: Option<real>, takeProfit: Option<real>, trailing: Trailing)

  datatype Grid = Grid(tickSize: Option<real>, maxQuoteAgeMs: int)

  // ---- protection --------------------------------------------------------------

  /** The side of the quote that a position closes at. */
  function ExecutableClose(side: Side, q: Quote): (r: Result<real, Error>) {
    var raw := if side == BUY then q.bid else q.ask;
    if raw.Some? && raw.value > 0.0 then Ok(raw.value) else Err(NO_EXECUTABLE_PRICE)
  }

  function MaxAge(g: Grid): int { if g.maxQuoteAgeMs == 0 then 5000 else g.maxQuoteAgeMs }

  function CheckFresh(q: Option<Quote>, g: Grid, nowMs: int): (r: Result<Quote, Error>) {
    if q.None? then Err(NO_QUOTE)
    else if q.value.isStale || q.value.receivedAtMs.None? || Max(0, nowMs - q.value.receivedAtMs.value) > MaxAge(g)
    then Err(STALE_QUOTE)
    else Ok(q.value)
  }

  /** A price to be set: absent clears it, and any other is positive and on the grid. */
  function CheckPrice(price: Option<real>, tickSize: real): (r: Result<Option<real>, Error>) {
    if price.None? then Ok(None)
    else if price.value <= 0.0 then Err(BAD_PRICE)
    else if tickSize <= 0.0 then Err(STEP_NOT_ALLOWED)
    else if !OnStep(price.value, tickSize) then Err(BAD_PRICE_STEP)
    else Ok(price)
  }

  datatype Change = Unchanged | SetTo(price: Option<real>)

  datatype ProtectionPlan = ProtectionPlan(stopLoss: Option<real>, takeProfit: Option<real>, executablePrice: real)

  function NextPrice(current: Option<real>, change: Change, tickSize: real): (r: Result<Option<real>, Error>) {
    match change
    case Unchanged => Ok(current)
    case SetTo(price) => CheckPrice(price, tickSize)
  }

  function PlanPositionProtection(p: Protected, g: Grid, quote: Option<Quote>, stopLoss: Change, takeProfit: Change,
      breakEven: bool, nowMs: int)
    : (r: Result<ProtectionPlan, Error>)
  {
    if !p.open || p.openVolume <= 0.0 then Err(NOT_OPEN)
    else if g.tickSize.None? then Err(NO_TICK_SIZE)
    else
      var q :- CheckFresh(quote, g, nowMs);
      var price :- ExecutableClose(p.side, q);
      if breakEven && (if p.side == BUY then price <= p.entryPrice
          else price >= p.entryPrice) then Err(BREAK_EVEN_NOT_AVAILABLE)
      else if !breakEven && stopLoss.Unchanged? && takeProfit.Unchanged? then Err(CHANGE_REQUIRED)
      else
        var stop :- if breakEven then Ok(Some(p.entryPrice)) else NextPrice(p.stopLoss, stopLoss, g.tickSize.value);
        var take :- if breakEven then Ok(p.takeProfit) else NextPrice(p.takeProfit, takeProfit, g.tickSize.value);
        if ProtectionFits(p.side, price, stop, take) then Ok(ProtectionPlan(stop, take, price)) else Err(BAD_PRICE)
  }

  datatype Trigger = STOP_LOSS_HIT(level: real, executablePrice: real) | TAKE_PROFIT_HIT(level: real,
      executablePrice: real)

  function DetectTrigger(p: Protected, tick: Tick): (t: Option<Trigger>) {
    if !p.open || tick.quote.isStale || p.symbol == "" || p.symbol != tick.symbol then None
    else
      var raw := if p.side == BUY then tick.quote.bid else tick.quote.ask;
      if raw.None? || raw.value <= 0.0 then None
      else
        var price := raw.value;
        var crossed := (level: Option<real>, below: bool) => level.Some?
            && (if below then price <= level.value else price >= level.value);
        if crossed(p.stopLoss, p.side == BUY) then Some(STOP_LOSS_HIT(p.stopLoss.value, price))
        else if crossed(p.takeProfit, p.side == SELL) then Some(TAKE_PROFIT_HIT(p.takeProfit.value, price))
        else None
  }

  /** What the planner accepts never triggers on the quote it was accepted on. */
  lemma AcceptedDoesNotTrigger(p: Protected, g: Grid, q: Quote, stopLoss: Change, takeProfit: Change, breakEven: bool,
      nowMs: int, symbol: string)
    requires PlanPositionProtection(p, g, Some(q), stopLoss, takeProfit, breakEven, nowMs).Ok?
    ensures var plan := PlanPositionProtection(p, g, Some(q), stopLoss, takeProfit, breakEven, nowMs).value;
            DetectTrigger(p.(stopLoss := plan.stopLoss, takeProfit := plan.takeProfit), Tick(symbol, q)) == None
  {
    hide CheckPrice;
  }

  /** A break-even stop is the entry price, and is only given when closing now
      would be better than that. */
  lemma BreakEvenIsEarned(p: Protected, g: Grid, quote: Option<Quote>, nowMs: int)
    requires PlanPositionProtection(p, g, quote, Unchanged, Unchanged, true, nowMs).Ok?
    ensures var plan := PlanPositionProtection(p, g, quote, Unchanged, Unchanged, true, nowMs).value;
            && plan.stopLoss == Some(p.entryPrice) && plan.takeProfit == p.takeProfit
            && (if p.side == BUY then plan.executablePrice > p.entryPrice else plan.executablePrice < p.entryPrice)
  {
  }

  // ---- trailing ----------------------------------------------------------------

  function TrailingStopFromBest(side: Side, best: real, distancePoints: real,
      pointSize: real): (r: Result<real, Error>) {
    var distance := distancePoints * pointSize;
    if pointSize == 0.0 then Err(STEP_NOT_ALLOWED)
    else Ok(if side == BUY then Quantize(best - distance, pointSize, FLOOR)
        else Quantize(best + distance, pointSize, CEIL))
  }

  function FavorableBest(side: Side, previous: Option<real>, current: real): (best: real) {
    if previous.None? then current
    else if side == BUY then (if current > previous.value then current else previous.value)
    else (if current < previous.value then current else previous.value)
  }

  function TighterStop(side: Side, existing: Option<real>, candidate: real): (stop: real) {
    if existing.None? then candidate
    else if side == BUY then (if candidate > existing.value then candidate else existing.value)
    else (if candidate < existing.value then candidate else existing.value)
  }

  function CheckDistance(d: Option<real>): (r: Result<real, Error>) {
    if d.Some? && d.value > 0.0 then Ok(d.value) else Err(BAD_DISTANCE)
  }

  datatype AdvancePlan = AdvancePlan(bestPrice: real, stopLoss: real, bestPriceChanged: bool, stopChanged: bool)

  /** planTrailingConfiguration, applied to the position it is about. */
  function Configure(p: Protected, g: Grid, quote: Option<Quote>, enabled: bool, distancePoints: Option<real>,
      nowMs: int): (r: Result<Protected, Error>) {
    if !p.open then Err(NOT_OPEN)
    else if !enabled then Ok(if p.trailing.enabled then p.(trailing := Trailing(false, None, None)) else p)
    else
      var distance :- CheckDistance(distancePoints);
      if g.tickSize.None? then Err(NO_TICK_SIZE)
      else if quote.None? then Err(NO_EXECUTABLE_PRICE)
      else
        var best :- ExecutableClose(p.side, quote.value);
        var candidate :- TrailingStopFromBest(p.side, best, distance, g.tickSize.value);
        var stop := TighterStop(p.side, p.stopLoss, candidate);
        var _ :- PlanPositionProtection(p, g, quote, SetTo(Some(stop)), Unchanged, false, nowMs);
        Ok(p.(stopLoss := Some(stop), trailing := Trailing(true, Some(distance), Some(best))))
  }

  /** planTrailingAdvance: nothing to do for a position that does not trail or a
      stale tick; a stop that would move must also be allowed by the market. */
  function PlanAdvance(p: Protected, g: Grid, tick: Option<Quote>,
      nowMs: int): (r: Result<Option<AdvancePlan>, Error>) {
    if !p.open || !p.trailing.enabled || tick.None? || tick.value.isStale then Ok(None)
    else
      var distance :- CheckDistance(p.trailing.distancePoints);
      if g.tickSize.None? then Err(NO_TICK_SIZE)
      else
        var current :- ExecutableClose(p.side, tick.value);
        var best := FavorableBest(p.side, p.trailing.bestPrice, current);
        var candidate :- TrailingStopFromBest(p.side, best, distance, g.tickSize.value);
        var stop := TighterStop(p.side, p.stopLoss, candidate);
        var moved := p.stopLoss != Some(stop);
        if moved && PlanPositionProtection(p, g, tick, SetTo(Some(stop)), Unchanged, false, nowMs).Err?
        then Err(PlanPositionProtection(p, g, tick, SetTo(Some(stop)), Unchanged, false, nowMs).error)
        else Ok(Some(AdvancePlan(best, stop, p.trailing.bestPrice != Some(best), moved)))
  }

  function Advanced(p: Protected, plan: AdvancePlan): (q: Protected) {
    p.(trailing := if plan.bestPriceChanged then p.trailing.(bestPrice := Some(plan.bestPrice)) else p.trailing,
       stopLoss := if plan.stopChanged then Some(plan.stopLoss) else p.stopLoss)
  }

  // ---- runs --------------------------------------------------------------------

  /** `applied` are the executable prices taken since the last configuration. */
  datatype Trail = Trail(position: Protected, applied: seq<real>)

  datatype Event =
    | ConfigureTrailing(quote: Option<Quote>, maxQuoteAgeMs: int, enabled: bool, distancePoints: Option<real>,
        nowMs: int)
    | Advance(tick: Option<Quote>, maxQuoteAgeMs: int, nowMs: int)

  /** A refused step commits nothing. The tick size is fixed over the run. */
  function Step(tickSize: Option<real>, t: Trail, e: Event): (r: Trail) {
    match e
    case ConfigureTrailing(quote, maxAge, enabled, distance, nowMs) =>
      (match Configure(t.position, Grid(tickSize, maxAge), quote, enabled, distance, nowMs)
       case Err(_) => t
       case Ok(p) => Trail(p, if p.trailing.enabled && enabled then [p.trailing.bestPrice.value] else []))
    case Advance(tick, maxAge, nowMs) =>
      (match PlanAdvance(t.position, Grid(tickSize, maxAge), tick, nowMs)
       case Ok(Some(plan)) =>
         Trail(Advanced(t.position, plan), t.applied + [ExecutableClose(t.position.side, tick.value).value])
       case _ => t)
  }

  function Run(tickSize: Option<real>, t: Trail, es: seq<Event>): (r: Trail) {
    if es == [] then t else Step(tickSize, Run(tickSize, t, es[..|es| - 1]), es[|es| - 1])
  }

  /** At least as favourable to the position's owner. */
  predicate AtLeastAsTight(side: Side, stop: real, other: real) { if side == BUY then stop >= other else stop <= other }

  predicate IsBest(side: Side, best: real, prices: seq<real>) {
    best in prices && forall i :: 0 <= i < |prices| ==> AtLeastAsTight(side, best, prices[i])
  }

  /** No looser than the best price less the distance, rounded away from it by
      less than one tick. */
  predicate Follows(side: Side, stop: real, best: real, distance: real, tickSize: real) {
    if side == BUY then stop > best - distance - tickSize else stop < best + distance + tickSize
  }

  ghost predicate Trailed(tickSize: Option<real>, t: Trail) {
    var p := t.position;
    p.trailing.enabled ==>
      && tickSize.Some? && tickSize.value > 0.0
      && p.trailing.distancePoints.Some? && p.trailing.distancePoints.value > 0.0
      && p.trailing.bestPrice.Some? && IsBest(p.side, p.trailing.bestPrice.value, t.applied)
      && p.stopLoss.Some? && p.stopLoss.value > 0.0 && OnStep(p.stopLoss.value, tickSize.value)
      && AtLeastAsTight(p.side, p.stopLoss.value,
                        TrailingStopFromBest(p.side, p.trailing.bestPrice.value, p.trailing.distancePoints.value,
                                             tickSize.value).value)
  }

  ghost predicate NeverLooser(side: Side, before: Option<real>, after: Option<real>) {
    before.Some? ==> after.Some? && AtLeastAsTight(side, after.value, before.value)
  }

  /** An allowed stop is positive and on a positive grid. */
  lemma AllowedStop(p: Protected, g: Grid, quote: Option<Quote>, stop: real, nowMs: int)
    requires PlanPositionProtection(p, g, quote, SetTo(Some(stop)), Unchanged, false, nowMs).Ok?
    ensures g.tickSize.Some? && g.tickSize.value > 0.0 && stop > 0.0 && OnStep(stop, g.tickSize.value)
  {
  }

  lemma ConfigureTrails(tickSize: Option<real>, t: Trail, e: Event)
    requires e.ConfigureTrailing?
    ensures var r := Step(tickSize, t, e);
            && (r == t || Trailed(tickSize, r)) && r.position.side == t.position.side
            && NeverLooser(t.position.side, t.position.stopLoss, r.position.stopLoss)
  {
    hide Quantize, OnStep, PlanPositionProtection;
    var p, g := t.position, Grid(tickSize, e.maxQuoteAgeMs);
    if Configure(p, g, e.quote, e.enabled, e.distancePoints, e.nowMs).Ok? && e.enabled {
      AllowedStop(p, g, e.quote, Configure(p, g, e.quote, e.enabled, e.distancePoints, e.nowMs).value.stopLoss.value,
          e.nowMs);
    }
  }

  lemma BestOfMore(side: Side, best: real, prices: seq<real>, current: real)
    requires IsBest(side, best, prices)
    ensures IsBest(side, FavorableBest(side, Some(best), current), prices + [current])
  {
    var i :| 0 <= i < |prices| && prices[i] == best;
    assert (prices + [current])[i] == best && (prices + [current])[|prices|] == current;
  }

  /** The candidate stop never falls back as the best price improves. */
  lemma CandidateMonotone(side: Side, best: real, better: real, distance: real, tickSize: real)
    requires tickSize > 0.0 && AtLeastAsTight(side, better, best)
    ensures AtLeastAsTight(side, TrailingStopFromBest(side, better, distance, tickSize).value,
        TrailingStopFromBest(side, best, distance, tickSize).value)
  {
    hide Quantize, MultipleOf;
    var d := distance * tickSize;
    if side == BUY {
      QuantizeBounds(best - d, tickSize);
      QuantizeBest(better - d, tickSize, Quantize(best - d, tickSize, FLOOR));
    } else {
      QuantizeBounds(best + d, tickSize);
      QuantizeBest(better + d, tickSize, Quantize(best + d, tickSize, CEIL));
    }
  }

  /** One tick: the trail is kept, the stop is no looser, and if it moved then the
      tick set a new best price and does not trigger anything on the position. */
  lemma AdvanceTrails(tickSize: Option<real>, t: Trail, e: Event)
    requires e.Advance? && Trailed(tickSize, t)
    ensures var r := Step(tickSize, t, e);
            && Trailed(tickSize, r) && r.position.side == t.position.side
            && NeverLooser(t.position.side, t.position.stopLoss, r.position.stopLoss)
            && (r.position.stopLoss != t.position.stopLoss ==>
                  && e.tick.Some? && r.position.trailing.bestPrice != t.position.trailing.bestPrice
                  && r.position.trailing.bestPrice == Some(ExecutableClose(t.position.side, e.tick.value).value)
                  && forall symbol: string :: DetectTrigger(r.position, Tick(symbol, e.tick.value)) == None)
  {
    hide Quantize, OnStep, PlanPositionProtection, IsBest, DetectTrigger, TrailingStopFromBest;
    var p, g := t.position, Grid(tickSize, e.maxQuoteAgeMs);
    if PlanAdvance(p, g, e.tick, e.nowMs).Ok? && PlanAdvance(p, g, e.tick, e.nowMs).value.Some? {
      AdvanceKeeps(tickSize, t, e);
      if Step(tickSize, t, e).position.stopLoss != t.position.stopLoss {
        AdvanceMoves(tickSize, t, e);
      }
    }
  }

  lemma AdvanceKeeps(tickSize: Option<real>, t: Trail, e: Event)
    requires e.Advance? && Trailed(tickSize, t)
    requires PlanAdvance(t.position, Grid(tickSize, e.maxQuoteAgeMs), e.tick, e.nowMs).Ok?
    requires PlanAdvance(t.position, Grid(tickSize, e.maxQuoteAgeMs), e.tick, e.nowMs).value.Some?
    ensures var r := Step(tickSize, t, e);
            && Trailed(tickSize, r) && r.position.side == t.position.side
            && NeverLooser(t.position.side, t.position.stopLoss, r.position.stopLoss)
            && (r.position.stopLoss != t.position.stopLoss ==>
                r.position.trailing.bestPrice != t.position.trailing.bestPrice)
  {
    hide Quantize, OnStep, PlanPositionProtection, IsBest;
    var p, g := t.position, Grid(tickSize, e.maxQuoteAgeMs);
    var plan := PlanAdvance(p, g, e.tick, e.nowMs).value.value;
    BestOfMore(p.side, p.trailing.bestPrice.value, t.applied, ExecutableClose(p.side, e.tick.value).value);
    if plan.stopChanged {
      AllowedStop(p, g, e.tick, plan.stopLoss, e.nowMs);
    }
  }

  lemma AdvanceMoves(tickSize: Option<real>, t: Trail, e: Event)
    requires e.Advance? && Trailed(tickSize, t)
    requires PlanAdvance(t.position, Grid(tickSize, e.maxQuoteAgeMs), e.tick, e.nowMs).Ok?
    requires PlanAdvance(t.position, Grid(tickSize, e.maxQuoteAgeMs), e.tick, e.nowMs).value.Some?
    requires Step(tickSize, t, e).position.stopLoss != t.position.stopLoss
    ensures var r := Step(tickSize, t, e);
            && (r.position.trailing.bestPrice != t.position.trailing.bestPrice ==>
                  r.position.trailing.bestPrice == Some(ExecutableClose(t.position.side, e.tick.value).value))
            && forall symbol: string :: DetectTrigger(r.position, Tick(symbol, e.tick.value)) == None
  {
    hide Quantize, OnStep, PlanPositionProtection, IsBest, DetectTrigger;
    var p, g, r := t.position, Grid(tickSize, e.maxQuoteAgeMs), Step(tickSize, t, e);
    var plan := PlanAdvance(p, g, e.tick, e.nowMs).value.value;
    var change := SetTo(Some(plan.stopLoss));
    PlanKeepsTakeProfit(p, g, e.tick, plan.stopLoss, e.nowMs);
    var q := p.(stopLoss := Some(plan.stopLoss));
    forall symbol: string ensures DetectTrigger(r.position, Tick(symbol, e.tick.value)) == None {
      AcceptedDoesNotTrigger(p, g, e.tick.value, change, Unchanged, false, e.nowMs, symbol);
      TrailingAside(q, r.position, Tick(symbol, e.tick.value));
    }
  }

  lemma PlanKeepsTakeProfit(p: Protected, g: Grid, quote: Option<Quote>, stop: real, nowMs: int)
    requires PlanPositionProtection(p, g, quote, SetTo(Some(stop)), Unchanged, false, nowMs).Ok?
    ensures var plan := PlanPositionProtection(p, g, quote, SetTo(Some(stop)), Unchanged, false, nowMs).value;
            plan.stopLoss == Some(stop) && plan.takeProfit == p.takeProfit
  {
  }

  lemma TrailingAside(p: Protected, q: Protected, tick: Tick)
    requires q == p.(trailing := q.trailing)
    ensures DetectTrigger(q, tick) == DetectTrigger(p, tick)
  {
  }

  /** Main result: over any run of configurations and ticks on a fixed tick size,
      from a position that does not trail, the best price is the best of the
      prices applied since the last configuration, and the stop is at least as
      tight as that price less the distance on the grid. */
  lemma {:induction false} RunTrails(tickSize: Option<real>, t: Trail, es: seq<Event>)
    requires !t.position.trailing.enabled
    ensures Trailed(tickSize, Run(tickSize, t, es)) && Run(tickSize, t, es).position.side == t.position.side
  {
    if es != [] {
      var s, e := Run(tickSize, t, es[..|es| - 1]), es[|es| - 1];
      RunTrails(tickSize, t, es[..|es| - 1]);
      hide Trailed, Step;
      if e.ConfigureTrailing? { ConfigureTrails(tickSize, s, e); } else { AdvanceTrails(tickSize, s, e); }
    }
  }

  /** Main result: the stop never loosens over such a run. */
  lemma {:induction false} StopNeverLoosens(tickSize: Option<real>, t: Trail, es: seq<Event>)
    requires Trailed(tickSize, t)
    ensures var r := Run(tickSize, t, es);
            && Trailed(tickSize, r) && r.position.side == t.position.side
            && NeverLooser(t.position.side, t.position.stopLoss, r.position.stopLoss)
  {
    if es != [] {
      var s, e := Run(tickSize, t, es[..|es| - 1]), es[|es| - 1];
      StopNeverLoosens(tickSize, t, es[..|es| - 1]);
      hide Trailed, Step;
      if e.ConfigureTrailing? { ConfigureTrails(tickSize, s, e); } else { AdvanceTrails(tickSize, s, e); }
    }
  }

  lemma CandidateFollows(side: Side, best: real, distance: real, tickSize: real)
    requires tickSize > 0.0
    ensures Follows(side, TrailingStopFromBest(side, best, distance, tickSize).value, best, distance * tickSize,
        tickSize)
  {
    hide Quantize, MultipleOf;
    var d := distance * tickSize;
    QuantizeBounds(best - d, tickSize);
    QuantizeBounds(best + d, tickSize);
  }

  /** How far behind the best price the stop can be: less than a tick more than
      the distance. */
  lemma StopFollows(tickSize: Option<real>, t: Trail)
    requires Trailed(tickSize, t) && t.position.trailing.enabled
    ensures var p := t.position;
            Follows(p.side, p.stopLoss.value, p.trailing.bestPrice.value,
                p.trailing.distancePoints.value * tickSize.value, tickSize.value)
  {
    hide TrailingStopFromBest, OnStep, IsBest;
    var p := t.position;
    CandidateFollows(p.side, p.trailing.bestPrice.value, p.trailing.distancePoints.value, tickSize.value);
  }
}
