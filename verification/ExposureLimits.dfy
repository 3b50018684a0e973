/** Pre-trade policy over whole runs: what an accepted opening leaves the account
    with, and the counts no run exceeds. */
module ExposureLimits {
  import opened Common
  import opened TradingTypes
  import opened RiskPolicy
  import opened ExecutionPlanner
  import opened PendingPlanner
  import opened Books
  import opened DecimalText

  // ---- the exposure is a recount ------------------------------------------------

  /** Every query the loop makes in one pass agrees with a recount. */
  lemma {:induction false} ExposureIsCount(ps: seq<Position>, m: Market, currency: string, symbol: string)
    requires LoadOpenExposure(ps, m, currency, symbol).Ok?
    ensures LoadOpenExposure(ps, m, currency, symbol).value.currentOpenPositions == Tally(ps, (), IsOpen)
    ensures symbol != "" ==>
              LoadOpenExposure(ps, m, currency, symbol).value.currentSymbolPositions == Tally(ps, symbol, IsOpenOn)
    ensures LoadOpenExposure(ps, m, currency, symbol).value.unmeasuredRiskPositions == Tally(ps, (), IsUnmeasured)
  {
    hide PositionStopRisk;
    if ps != [] {
      if ps[|ps| - 1].status == OPEN {
        MeasuredIff(m, currency, ps[|ps| - 1]);
      }
      ExposureIsCount(ps[..|ps| - 1], m, currency, symbol);
    }
  }

  lemma MeasuredIff(m: Market, currency: string, p: Position)
    requires PositionStopRisk(m, currency, p).Ok?
    ensures PositionStopRisk(m, currency, p).value.Some? <==> p.stopLoss.Some?
  {
  }

  method LoadExposure(ps: seq<Position>, m: Market, currency: string, symbol: string)
      returns (r: Result<Exposure, Code>)
    ensures r == LoadOpenExposure(ps, m, currency, symbol)
    ensures r.Ok? ==> r.value.currentOpenPositions == Tally(ps, (), IsOpen)
    ensures r.Ok? ==> r.value.unmeasuredRiskPositions == Tally(ps, (), IsUnmeasured)
  {
    hide PositionStopRisk;
    var positions, totalVolume, symbolVolume, symbolMargin, symbolPositions, openRisk := 0, 0.0, 0.0, 0.0, 0, 0.0;
    var unmeasured := 0;
    for i := 0 to |ps|
      invariant LoadOpenExposure(ps[..i], m, currency, symbol)
        == Ok(Exposure(positions, totalVolume, symbolVolume, symbolMargin, symbolPositions, openRisk, unmeasured))
    {
      assert ps[..i + 1][..i] == ps[..i];
      var p := ps[i];
      if p.status == OPEN {
        var risk := PositionStopRisk(m, currency, p);
        if risk.Err? {
          ExposureFails(ps, i + 1, m, currency, symbol);
          return Err(risk.error);
        }
        totalVolume := totalVolume + p.openVolume;
        if symbol != "" && p.symbol == symbol {
          symbolVolume, symbolMargin, symbolPositions := symbolVolume + p.openVolume, symbolMargin + p.margin,
              symbolPositions + 1;
        }
        if risk.value.Some? {
          openRisk := openRisk + risk.value.value;
        } else {
          unmeasured := unmeasured + 1;
        }
        positions := positions + 1;
      }
    }
    assert ps[..|ps|] == ps;
    r := Ok(Exposure(positions, totalVolume, symbolVolume, symbolMargin, symbolPositions, openRisk, unmeasured));
    ExposureIsCount(ps, m, currency, symbol);
  }

  lemma {:induction false} ExposureFails(ps: seq<Position>, n: nat, m: Market, currency: string, symbol: string)
    requires n <= |ps| && LoadOpenExposure(ps[..n], m, currency, symbol).Err?
    ensures LoadOpenExposure(ps, m, currency, symbol) == LoadOpenExposure(ps[..n], m, currency, symbol)
    decreases |ps| - n
  {
    hide AddPosition;
    if n == |ps| {
      assert ps[..n] == ps;
    } else {
      assert ps[..n + 1][..n] == ps[..n];
      ExposureFails(ps, n + 1, m, currency, symbol);
    }
  }

  // ---- an accepted opening is covered --------------------------------------------

  /** After any committed opening, whether a market order, a pending fill or the
      second leg of a reverse, the free margin is non-negative, and with a usage
      limit the used margin is within it up to half a unit of the eighth place. */
  lemma OpeningIsCovered(b: Books, a: Account, m: Market, e: Exposure, symbol: string, side: Side, volume: real,
                         sl: Option<real>, tp: Option<real>, source: Source, key: string)
    requires a.freeMargin == a.equity - a.usedMargin
    requires source.FilledOrder? ==> source.index < |b.orders|
    requires var plan := PlanMarketOpen(m, RollRiskDay(a, m.dayKey), e, symbol, side, volume, sl, tp);
             plan.Ok? && RecordOpen(b, RollRiskDay(a, m.dayKey), plan.value, source, key).Ok?
    ensures var plan := PlanMarketOpen(m, RollRiskDay(a, m.dayKey), e, symbol, side, volume, sl, tp).value;
      var r := RecordOpen(b, RollRiskDay(a, m.dayKey), plan, source, key).value;
      && r.account.freeMargin >= 0.0
      && (EnabledLimit(a.policy.maxMarginUsagePercent).Some? ==>
            r.account.usedMargin * 100.0 <= (a.policy.maxMarginUsagePercent.value + HALF_UNIT_8) * r.account.equity)
  {
    hide PlanMarketOpen, FreshOrder, FreshKeys, OpenEntries;
    AcceptedOpenIsCovered(m, RollRiskDay(a, m.dayKey), e, symbol, side, volume, sl, tp);
  }

  predicate FreeMarginFits(a: Account) { a.freeMargin == a.equity - a.usedMargin }

  /** Free margin that is not negative, and a used margin within its limit. */
  predicate Covered(a: Account) {
    && a.freeMargin >= 0.0
    && (EnabledLimit(a.policy.maxMarginUsagePercent).Some? ==>
          a.usedMargin * 100.0 <= (a.policy.maxMarginUsagePercent.value + HALF_UNIT_8) * a.equity)
  }

  lemma OverlayFits(b: Books, v: Valuation, requireLive: bool)
    requires FreeMarginFits(b.account) && Overlay(b, v, requireLive).Ok?
    ensures FreeMarginFits(Overlay(b, v, requireLive).value)
  {
  }

  lemma RecordOpenFits(b: Books, a: Account, plan: OpenPlan, source: Source, key: string)
    requires source.FilledOrder? ==> source.index < |b.orders|
    requires RecordOpen(b, a, plan, source, key).Ok?
    ensures FreeMarginFits(RecordOpen(b, a, plan, source, key).value.account)
    ensures RecordOpen(b, a, plan, source, key).value.account.policy == a.policy
  {
  }

  lemma PlannedIsCovered(b: Books, a: Account, m: Market, mt: Market, symbol: string, side: Side, volume: real,
                         sl: Option<real>, tp: Option<real>, source: Source, key: string)
    requires FreeMarginFits(a) && mt.dayKey == m.dayKey
    requires source.FilledOrder? ==> source.index < |b.orders|
    requires LoadOpenExposure(b.positions, m, a.currency, symbol).Ok?
    requires var e := LoadOpenExposure(b.positions, m, a.currency, symbol).value;
      var plan := PlanMarketOpen(mt, RollRiskDay(a, m.dayKey), e, symbol, side, volume, sl, tp);
      plan.Ok? && RecordOpen(b, RollRiskDay(a, m.dayKey), plan.value, source, key).Ok?
    ensures var e := LoadOpenExposure(b.positions, m, a.currency, symbol).value;
      var plan := PlanMarketOpen(mt, RollRiskDay(a, m.dayKey), e, symbol, side, volume, sl, tp).value;
      var r := RecordOpen(b, RollRiskDay(a, m.dayKey), plan, source, key).value;
      Covered(r.account) && FreeMarginFits(r.account)
  {
    hide PlanMarketOpen, RecordOpen, LoadOpenExposure;
    var e := LoadOpenExposure(b.positions, m, a.currency, symbol).value;
    var plan := PlanMarketOpen(mt, RollRiskDay(a, m.dayKey), e, symbol, side, volume, sl, tp).value;
    RecordOpenFits(b, RollRiskDay(a, m.dayKey), plan, source, key);
    OpeningIsCovered(b, a, mt, e, symbol, side, volume, sl, tp, source, key);
  }

  lemma CloseCoreFits(b: Books, a: Account, m: Market, index: nat, volume: Option<real>, id: string, complete: bool)
    requires CloseCore(b, a, m, index, volume, id, complete).Ok?
    ensures var r := CloseCore(b, a, m, index, volume, id, complete).value;
            FreeMarginFits(r.account) && |r.positions| == |b.positions|
  {
    hide PlanMarketClose, FreshOrder, FreshKeys, CloseEntries, PositionValid;
  }

  lemma ReverseIsCovered(b: Books, m: Market, v: Valuation, id: string, index: nat, sl: Option<real>, tp: Option<real>)
    requires Reverse(b, m, v, id, index, sl, tp).Ok?
    ensures var r := Reverse(b, m, v, id, index, sl, tp).value; Covered(r.account) && FreeMarginFits(r.account)
  {
    hide Overlay, CloseCore, LoadOpenExposure, PlanMarketOpen, RecordOpen, RollRiskDay, Covered, FreeMarginFits;
    var a, p := Overlay(b, v, false).value, b.positions[index];
    CloseCoreFits(b, a, m, index, None, ChildId(id, "close"), v.floatingPnl.Some?);
    var closed := CloseCore(b, a, m, index, None, ChildId(id, "close"), v.floatingPnl.Some?).value;
    PlannedIsCovered(closed, closed.account, m, m, p.symbol, Opposite(p.side), p.openVolume, sl, tp,
                     NewOrder(ChildId(id, "open")), ChildId(id, "open") + ":commission");
  }

  lemma OpenMarketIsCovered(b: Books, m: Market, v: Valuation, id: string, symbol: string, side: Side, volume: real,
                            sl: Option<real>, tp: Option<real>)
    requires FreeMarginFits(b.account) && OpenMarket(b, m, v, id, symbol, side, volume, sl, tp).Ok?
    ensures var r := OpenMarket(b, m, v, id, symbol, side, volume, sl, tp).value;
            Covered(r.account) && FreeMarginFits(r.account)
  {
    hide Overlay, LoadOpenExposure, PlanMarketOpen, RecordOpen, RollRiskDay, Covered, FreeMarginFits;
    OverlayFits(b, v, true);
    PlannedIsCovered(b, Overlay(b, v, true).value, m, m, symbol, side, volume, sl, tp, NewOrder(id),
        id + ":open:commission");
  }

  lemma ExecuteIsCovered(b: Books, m: Market, v: Valuation, index: nat, tick: Tick)
    requires FreeMarginFits(b.account) && ExecutePending(b, m, v, index, tick).Ok?
    ensures var r := ExecutePending(b, m, v, index, tick).value;
            FreeMarginFits(r.account) && (r.positions != b.positions ==> Covered(r.account))
  {
    hide Overlay, RecordOpen, PlanMarketOpen, LoadOpenExposure, RollRiskDay, DetectAction, FillRespectsLimit, Covered;
    if index < |b.orders| && IsActive(b.orders[index].status)
        && DetectAction(b.orders[index], tick, m.nowMs) == Some(FILL) {
      var o := b.orders[index];
      OverlayFits(b, v, true);
      var a, mt := Overlay(b, v, true).value, m.(quote := Some(tick.quote));
      var e := LoadOpenExposure(b.positions, m, a.currency, o.symbol).value;
      var planned := PlanMarketOpen(mt, RollRiskDay(a, m.dayKey), e, o.symbol, o.side, o.requestedVolume, o.stopLoss,
          o.takeProfit);
      if planned.Ok? && FillRespectsLimit(o, planned.value.fillPrice) {
        PlannedIsCovered(b, a, m, mt, o.symbol, o.side, o.requestedVolume, o.stopLoss, o.takeProfit,
                         FilledOrder(index), "pending:" + DigitsOf(index) + ":commission");
      }
    }
  }

  lemma OtherFits(b: Books, c: Command)
    requires FreeMarginFits(b.account) && WellTyped(c) && Outcome(b, c).Ok?
    requires !c.OpenCommand? && !c.CloseCommand? && !c.ReverseCommand? && !c.ExecuteCommand?
    ensures FreeMarginFits(Outcome(b, c).value.account) && Outcome(b, c).value.positions == b.positions
  {
    hide CancelAll, Overlay, LoadOpenExposure, PlanPendingOrder, DetectAction, RollRiskDay, HasKey, MatchesReplay;
  }

  /** A command that adds a position leaves the account covered. */
  lemma StepIsCovered(b: Books, c: Command)
    requires FreeMarginFits(b.account) && WellTyped(c)
    ensures FreeMarginFits(Step(b, c).account)
    ensures |Step(b, c).positions| > |b.positions| ==>
              (c.OpenCommand? || c.ReverseCommand? || c.ExecuteCommand?) && Covered(Step(b, c).account)
  {
    hide Covered, FreeMarginFits, Overlay, OpenMarket, CloseCore, Reverse, ExecutePending, Mutate, PlacePending,
         CancelPending, ActivateStopLimit, ExpirePending, Restrict, Activate, Resume, FinishClose;
    if Outcome(b, c).Ok? {
      match c {
        case OpenCommand(m, v, id, symbol, side, volume, sl, tp) =>
          OpenMarketIsCovered(b, m, v, id, symbol, side, volume, sl, tp);
        case CloseCommand(m, v, id, position, volume) =>
          CloseCoreFits(b, Overlay(b, v, false).value, m, position, volume, id, v.floatingPnl.Some?);
        case ReverseCommand(m, v, id, position, sl, tp) => ReverseIsCovered(b, m, v, id, position, sl, tp);
        case ExecuteCommand(m, v, order, tick) => ExecuteIsCovered(b, m, v, order, tick);
        case _ => OtherFits(b, c);
      }
    }
  }

  lemma {:induction false} RunFits(b: Books, cs: seq<Command>)
    requires FreeMarginFits(b.account) && AllWellTyped(cs)
    ensures FreeMarginFits(Run(b, cs).account)
  {
    hide Step, FreeMarginFits, WellTyped;
    if cs != [] {
      RunFits(b, cs[..|cs| - 1]);
      StepIsCovered(Run(b, cs[..|cs| - 1]), cs[|cs| - 1]);
    }
  }

  /** Main result: at every step of every run that adds a position the free margin is not
      negative afterwards and the margin usage within its limit. */
  lemma EveryOpeningIsCovered(b: Books, cs: seq<Command>, k: nat)
    requires FreeMarginFits(b.account) && AllWellTyped(cs) && k < |cs|
    requires |Run(b, cs[..k + 1]).positions| > |Run(b, cs[..k]).positions|
    ensures cs[k].OpenCommand? || cs[k].ReverseCommand? || cs[k].ExecuteCommand?
    ensures Covered(Run(b, cs[..k + 1]).account)
  {
    hide Step, FreeMarginFits, WellTyped, Covered;
    RunFits(b, cs[..k]);
    assert cs[..k + 1][..k] == cs[..k];
    StepIsCovered(Run(b, cs[..k]), cs[k]);
  }

  // ---- counts over runs -----------------------------------------------------------

  predicate WithinLimits(b: Books, symbol: string) {
    && WithinCount(CountLimit(b.account.policy.maxOpenPositions, STANDARD_MAX_OPEN_POSITIONS),
        Tally(b.positions, (), IsOpen))
    && WithinCount(CountLimit(b.account.policy.maxPositionsPerSymbol, STANDARD_MAX_POSITIONS_PER_SYMBOL),
        Tally(b.positions, symbol, IsOpenOn))
  }

  /** Every instrument has a symbol. */
  predicate Named(c: Command) {
    && (c.OpenCommand? ==> "" !in c.m.instruments)
    && (c.ReverseCommand? ==> "" !in c.m.instruments)
    && (c.ExecuteCommand? ==> "" !in c.m.instruments)
  }

  /** Positions are unchanged, or one of them was closed or reduced. */
  lemma CloseCounts(b: Books, r: Books, index: nat, symbol: string)
    requires index < |b.positions| == |r.positions| && r.positions == b.positions[index := r.positions[index]]
    requires b.positions[index].status == OPEN && r.positions[index].symbol == b.positions[index].symbol
    ensures Tally(r.positions, (), IsOpen) <= Tally(b.positions, (), IsOpen)
    ensures Tally(r.positions, symbol, IsOpenOn) <= Tally(b.positions, symbol, IsOpenOn)
  {
    TallyUpdate(b.positions, index, r.positions[index], (), IsOpen);
    TallyUpdate(b.positions, index, r.positions[index], symbol, IsOpenOn);
  }

  lemma CloseCoreCounts(b: Books, a: Account, m: Market, index: nat, volume: Option<real>, id: string, complete: bool,
      symbol: string)
    requires a.policy == b.account.policy && CloseCore(b, a, m, index, volume, id, complete).Ok?
    requires WithinLimits(b, symbol)
    ensures WithinLimits(CloseCore(b, a, m, index, volume, id, complete).value, symbol)
    ensures CloseCore(b, a, m, index, volume, id, complete).value.account.policy == b.account.policy
  {
    hide PlanMarketClose, FreshOrder, FreshKeys, CloseEntries, PositionValid;
    var r := CloseCore(b, a, m, index, volume, id, complete).value;
    AcceptedCloseShape(m, a, b.positions[index], volume);
    CloseCounts(b, r, index, symbol);
  }

  lemma OpenCounts(b: Books, a: Account, m: Market, mt: Market, symbol: string, side: Side, volume: real,
                   sl: Option<real>, tp: Option<real>, source: Source, key: string, watched: string)
    requires a.policy == b.account.policy && WithinLimits(b, watched)
    requires mt.instruments == m.instruments && "" !in m.instruments
    requires source.FilledOrder? ==> source.index < |b.orders|
    requires LoadOpenExposure(b.positions, m, a.currency, symbol).Ok?
    requires var e := LoadOpenExposure(b.positions, m, a.currency, symbol).value;
      var plan := PlanMarketOpen(mt, RollRiskDay(a, m.dayKey), e, symbol, side, volume, sl, tp);
      plan.Ok? && RecordOpen(b, RollRiskDay(a, m.dayKey), plan.value, source, key).Ok?
    ensures var e := LoadOpenExposure(b.positions, m, a.currency, symbol).value;
      var plan := PlanMarketOpen(mt, RollRiskDay(a, m.dayKey), e, symbol, side, volume, sl, tp).value;
      var r := RecordOpen(b, RollRiskDay(a, m.dayKey), plan, source, key).value;
      WithinLimits(r, watched) && r.account.policy == b.account.policy
  {
    hide PlanMarketOpen, LoadOpenExposure, PositionValid, FreshOrder, FreshKeys, OpenEntries, CountLimit;
    var rolled, e := RollRiskDay(a, m.dayKey), LoadOpenExposure(b.positions, m, a.currency, symbol).value;
    var plan := PlanMarketOpen(mt, rolled, e, symbol, side, volume, sl, tp).value;
    ExposureIsCount(b.positions, m, a.currency, symbol);
    AcceptedOpenCounts(mt, rolled, e, symbol, side, volume, sl, tp);
    AcceptedOpenShape(mt, rolled, e, symbol, side, volume, sl, tp);
    var position := OpenedPosition(plan, if source.NewOrder? then |b.orders| else source.index);
    TallyAppend(b.positions, position, (), IsOpen);
    TallyAppend(b.positions, position, watched, IsOpenOn);
  }

  lemma StepWithinLimits(b: Books, c: Command, watched: string)
    requires WellTyped(c) && Named(c) && WithinLimits(b, watched)
    ensures WithinLimits(Step(b, c), watched) && Step(b, c).account.policy == b.account.policy
  {
    hide WithinLimits, CloseCore, RecordOpen, PlanMarketOpen, LoadOpenExposure, RollRiskDay, DetectAction,
         PlanPendingOrder, FillRespectsLimit, LoadPendingExposure, HasKey, MatchesReplay, FreshOrder, CancelAll,
         Overlay;
    if Outcome(b, c).Ok? {
      match c {
        case OpenCommand(m, v, id, symbol, side, volume, sl, tp) =>
          OverlayPolicy(b, v, true);
          var a := Overlay(b, v, true).value;
          OpenCounts(b, a, m, m, symbol, side, volume, sl, tp, NewOrder(id), id + ":open:commission", watched);
        case CloseCommand(m, v, id, position, volume) =>
          OverlayPolicy(b, v, false);
          CloseCoreCounts(b, Overlay(b, v, false).value, m, position, volume, id, v.floatingPnl.Some?, watched);
        case ReverseCommand(m, v, id, position, sl, tp) => ReverseCounts(b, m, v, id, position, sl, tp, watched);
        case ExecuteCommand(m, v, order, tick) => ExecuteCounts(b, m, v, order, tick, watched);
        case _ => SameCounts(b, Step(b, c), watched);
      }
    }
  }

  lemma SameCounts(b: Books, r: Books, watched: string)
    requires r.positions == b.positions && r.account.policy == b.account.policy && WithinLimits(b, watched)
    ensures WithinLimits(r, watched)
  {
  }

  lemma OverlayPolicy(b: Books, v: Valuation, requireLive: bool)
    requires Overlay(b, v, requireLive).Ok?
    ensures Overlay(b, v, requireLive).value.policy == b.account.policy
  {
  }

  lemma ReverseCounts(b: Books, m: Market, v: Valuation, id: string, index: nat, sl: Option<real>, tp: Option<real>,
      watched: string)
    requires Reverse(b, m, v, id, index, sl, tp).Ok? && "" !in m.instruments && WithinLimits(b, watched)
    ensures WithinLimits(Reverse(b, m, v, id, index, sl, tp).value, watched)
    ensures Reverse(b, m, v, id, index, sl, tp).value.account.policy == b.account.policy
  {
    hide WithinLimits, CloseCore, RecordOpen, PlanMarketOpen, LoadOpenExposure, RollRiskDay, Overlay;
    OverlayPolicy(b, v, false);
    var a, p := Overlay(b, v, false).value, b.positions[index];
    CloseCoreCounts(b, a, m, index, None, ChildId(id, "close"), v.floatingPnl.Some?, watched);
    var closed := CloseCore(b, a, m, index, None, ChildId(id, "close"), v.floatingPnl.Some?).value;
    OpenCounts(closed, closed.account, m, m, p.symbol, Opposite(p.side), p.openVolume, sl, tp,
               NewOrder(ChildId(id, "open")), ChildId(id, "open") + ":commission", watched);
  }

  lemma ExecuteCounts(b: Books, m: Market, v: Valuation, index: nat, tick: Tick, watched: string)
    requires ExecutePending(b, m, v, index, tick).Ok? && "" !in m.instruments && WithinLimits(b, watched)
    ensures WithinLimits(ExecutePending(b, m, v, index, tick).value, watched)
    ensures ExecutePending(b, m, v, index, tick).value.account.policy == b.account.policy
  {
    hide WithinLimits, RecordOpen, PlanMarketOpen, LoadOpenExposure, RollRiskDay, Overlay, DetectAction,
         FillRespectsLimit;
    SameCounts(b, b, watched);
    if index < |b.orders| && IsActive(b.orders[index].status) {
      SameCounts(b, WithStatus(b, index, EXPIRED), watched);
      SameCounts(b, WithStatus(b, index, REJECTED), watched);
      if DetectAction(b.orders[index], tick, m.nowMs) == Some(FILL) {
        var o := b.orders[index];
        OverlayPolicy(b, v, true);
        var a := Overlay(b, v, true).value;
        var e, mt := LoadOpenExposure(b.positions, m, a.currency, o.symbol).value, m.(quote := Some(tick.quote));
        var planned := PlanMarketOpen(mt, RollRiskDay(a, m.dayKey), e, o.symbol, o.side, o.requestedVolume,
            o.stopLoss, o.takeProfit);
        if planned.Ok? && FillRespectsLimit(o, planned.value.fillPrice) {
          OpenCounts(b, a, m, mt, o.symbol, o.side, o.requestedVolume, o.stopLoss, o.takeProfit,
                     FilledOrder(index), "pending:" + DigitsOf(index) + ":commission", watched);
        }
      }
    }
  }

  /** Over any run under a fixed policy the open positions, in total and per
      symbol, never exceed their limits. */
  lemma {:induction false} RunWithinLimits(b: Books, cs: seq<Command>, watched: string)
    requires AllWellTyped(cs) && (forall i :: 0 <= i < |cs| ==> Named(cs[i])) && WithinLimits(b, watched)
    ensures WithinLimits(Run(b, cs), watched) && Run(b, cs).account.policy == b.account.policy
  {
    hide Step, WithinLimits, WellTyped, Named;
    if cs != [] {
      RunWithinLimits(b, cs[..|cs| - 1], watched);
      StepWithinLimits(Run(b, cs[..|cs| - 1]), cs[|cs| - 1], watched);
    }
  }
}
