/** What a sequence of closes does to the margin of a position and to the
    account's equity identity (src/modules/trading/market-order.service.js). */
module MarginRelease {
  import opened Common
  import opened TradingTypes
  import opened RiskPolicy
  import opened ExecutionPlanner
  import opened Books
  import opened Reconciliation
  import opened PendingPlanner
  import opened DecimalText

  // ---- partial closes ended by a full one ------------------------------------

  /** `plan` is a plan planMarketClose can make for `p`. */
  predicate Closes(p: Position, plan: ClosePlan) {
    && p.status == OPEN && 0.0 < plan.volume <= p.openVolume
    && plan.remainingVolume == p.openVolume - plan.volume
    && (plan.fullClose <==> plan.volume == p.openVolume)
    && plan.releasedMargin == ReleasedMargin(p.margin, plan.volume, p.openVolume)
  }

  predicate CloseSequence(p: Position, plans: seq<ClosePlan>)
    decreases |plans|
  {
    plans == [] || (Closes(p, plans[0]) && CloseSequence(ClosedPosition(p, plans[0]), plans[1..]))
  }

  function AfterCloses(p: Position, plans: seq<ClosePlan>): (q: Position)
    decreases |plans|
  {
    if plans == [] then p else AfterCloses(ClosedPosition(p, plans[0]), plans[1..])
  }

  function TotalReleased(plans: seq<ClosePlan>): (x: real) {
    if plans == [] then 0.0 else plans[0].releasedMargin + TotalReleased(plans[1..])
  }

  function TotalVolume(plans: seq<ClosePlan>): (x: real) {
    if plans == [] then 0.0 else plans[0].volume + TotalVolume(plans[1..])
  }

  lemma PlannedCloses(m: Market, a: Account, p: Position, requested: Option<real>)
    requires PlanMarketClose(m, a, p, requested).Ok?
    ensures Closes(p, PlanMarketClose(m, a, p, requested).value)
  {
    hide PlanMarketClose;
    AcceptedCloseShape(m, a, p, requested);
  }

  /** One close: the clamp never bites, so what the position loses is exactly
      what the plan releases. */
  lemma CloseConservesMargin(p: Position, plan: ClosePlan)
    requires p.margin >= 0.0 && Closes(p, plan)
    ensures 0.0 <= plan.releasedMargin <= p.margin
    ensures ClosedPosition(p, plan).margin == p.margin - plan.releasedMargin
    ensures ClosedPosition(p, plan).openVolume == p.openVolume - plan.volume
    ensures ClosedPosition(p, plan).status == CLOSED <==> plan.fullClose
  {
    ReleasedMarginBounds(p.margin, plan.volume, p.openVolume);
  }

  /** Whatever the roundings did on the way, the margins released by closes that
      end in a full close sum to exactly the margin reserved, and their volumes
      to exactly the volume opened. */
  lemma {:induction false} ReleasedSumsToReserved(p: Position, plans: seq<ClosePlan>)
    requires p.margin >= 0.0 && CloseSequence(p, plans)
    ensures AfterCloses(p, plans).margin == p.margin - TotalReleased(plans)
    ensures AfterCloses(p, plans).openVolume == p.openVolume - TotalVolume(plans)
    ensures p.status == OPEN && AfterCloses(p, plans).status == CLOSED ==>
      TotalReleased(plans) == p.margin && TotalVolume(plans) == p.openVolume
    ensures forall i :: 0 <= i < |plans| && plans[i].fullClose ==> i == |plans| - 1
    decreases |plans|
  {
    if plans != [] {
      CloseConservesMargin(p, plans[0]);
      var q := ClosedPosition(p, plans[0]);
      ReleasedSumsToReserved(q, plans[1..]);
      if plans[0].fullClose {
        assert plans[1..] == [];
      }
      forall i | 0 <= i < |plans| && plans[i].fullClose ensures i == |plans| - 1 {
        if i > 0 {
          assert plans[1..][i - 1] == plans[i];
        }
      }
    }
  }

  // ---- the closes of a run -----------------------------------------------------

  /** The close that a command commits on a position, if it does. */
  function CommittedClose(b: Books, c: Command, index: nat): (plans: seq<ClosePlan>)
    requires WellTyped(c)
  {
    if Outcome(b, c).Err? then []
    else
      match c
      case CloseCommand(m, v, id, position, volume) =>
        if position == index then [ClosingPlan(b, m, v, index, volume)] else []
      case ReverseCommand(m, v, id, position, _, _) =>
        if position == index then [ClosingPlan(b, m, v, index, None)] else []
      case _ => []
  }

  function ClosingPlan(b: Books, m: Market, v: Valuation, index: nat, volume: Option<real>): (plan: ClosePlan)
    requires index < |b.positions| && Overlay(b, v, false).Ok?
    requires PlanMarketClose(m, Overlay(b, v, false).value, b.positions[index], volume).Ok?
  {
    PlanMarketClose(m, Overlay(b, v, false).value, b.positions[index], volume).value
  }

  function ClosesOf(b: Books, cs: seq<Command>, index: nat): (plans: seq<ClosePlan>)
    requires AllWellTyped(cs)
  {
    if cs == [] then []
    else ClosesOf(b, cs[..|cs| - 1], index) + CommittedClose(Run(b, cs[..|cs| - 1]), cs[|cs| - 1], index)
  }

  lemma RecordOpenAside(b: Books, a: Account, plan: OpenPlan, source: Source, key: string, index: nat)
    requires source.FilledOrder? ==> source.index < |b.orders|
    requires index < |b.positions| && RecordOpen(b, a, plan, source, key).Ok?
    ensures var r := RecordOpen(b, a, plan, source, key).value;
            index < |r.positions| && r.positions[index] == b.positions[index]
  {
    hide PositionValid, FreshOrder, FreshKeys, OpenEntries;
  }

  lemma CloseCoreCloses(b: Books, m: Market, v: Valuation, position: nat, volume: Option<real>, id: string, index: nat)
    requires Overlay(b, v, false).Ok? && index < |b.positions|
    requires CloseCore(b, Overlay(b, v, false).value, m, position, volume, id, v.floatingPnl.Some?).Ok?
    ensures position < |b.positions|
    ensures PlanMarketClose(m, Overlay(b, v, false).value, b.positions[position], volume).Ok?
    ensures var r := CloseCore(b, Overlay(b, v, false).value, m, position, volume, id, v.floatingPnl.Some?).value;
            var plan := ClosingPlan(b, m, v, position, volume);
            && |r.positions| == |b.positions| && Closes(b.positions[position], plan)
            && r.positions[index] == if index == position then ClosedPosition(b.positions[index], plan)
                else b.positions[index]
  {
    hide PlanMarketClose, PositionValid, FreshOrder, FreshKeys, CloseEntries, ClosedPosition, AfterClose, Overlay,
         Closes;
    PlannedCloses(m, Overlay(b, v, false).value, b.positions[position], volume);
  }

  /** A position changes by the close that is committed on it and by nothing else. */
  predicate MovesByCloses(b: Books, c: Command, index: nat)
    requires WellTyped(c) && index < |b.positions|
  {
    var plans := CommittedClose(b, c, index);
    && index < |Step(b, c).positions|
    && (plans == [] ==> Step(b, c).positions[index] == b.positions[index])
    && (plans != [] ==> |plans| == 1 && Closes(b.positions[index], plans[0])
                        && Step(b, c).positions[index] == ClosedPosition(b.positions[index], plans[0]))
  }

  lemma ReverseCloses(b: Books, m: Market, v: Valuation, id: string, position: nat, sl: Option<real>, tp: Option<real>,
      index: nat)
    requires index < |b.positions| && Reverse(b, m, v, id, position, sl, tp).Ok?
    ensures position < |b.positions| && Overlay(b, v, false).Ok?
    ensures PlanMarketClose(m, Overlay(b, v, false).value, b.positions[position], None).Ok?
    ensures var r := Reverse(b, m, v, id, position, sl, tp).value;
            var plan := ClosingPlan(b, m, v, position, None);
            && index < |r.positions| && Closes(b.positions[position], plan)
            && r.positions[index] == if index == position then ClosedPosition(b.positions[index], plan)
                else b.positions[index]
  {
    hide Overlay, CloseCore, LoadOpenExposure, PlanMarketOpen, PlanMarketClose, RecordOpen, RollRiskDay, Closes,
         ClosedPosition;
    var a, p := Overlay(b, v, false).value, b.positions[position];
    CloseCoreCloses(b, m, v, position, None, ChildId(id, "close"), index);
    var closed := CloseCore(b, a, m, position, None, ChildId(id, "close"), v.floatingPnl.Some?).value;
    var planned := PlanOpen(closed, closed.account, m, p.symbol, Opposite(p.side), p.openVolume, sl, tp).value;
    RecordOpenAside(closed, planned.0, planned.1, NewOrder(ChildId(id, "open")), ChildId(id, "open") + ":commission",
        index);
  }

  lemma OpenMarketAside(b: Books, m: Market, v: Valuation, id: string, symbol: string, side: Side, volume: real,
                        sl: Option<real>, tp: Option<real>, index: nat)
    requires index < |b.positions| && OpenMarket(b, m, v, id, symbol, side, volume, sl, tp).Ok?
    ensures var r := OpenMarket(b, m, v, id, symbol, side, volume, sl, tp).value;
            index < |r.positions| && r.positions[index] == b.positions[index]
  {
    hide Overlay, PlanOpen, RecordOpen;
    var planned := PlanOpen(b, Overlay(b, v, true).value, m, symbol, side, volume, sl, tp).value;
    RecordOpenAside(b, planned.0, planned.1, NewOrder(id), id + ":open:commission", index);
  }

  lemma ExecuteAside(b: Books, m: Market, v: Valuation, order: nat, tick: Tick, index: nat)
    requires index < |b.positions| && ExecutePending(b, m, v, order, tick).Ok?
    ensures var r := ExecutePending(b, m, v, order, tick).value;
            index < |r.positions| && r.positions[index] == b.positions[index]
  {
    hide LoadOpenExposure, RecordOpen, PlanMarketOpen, RollRiskDay, Overlay, DetectAction, FillRespectsLimit;
    if order < |b.orders| && IsActive(b.orders[order].status)
        && DetectAction(b.orders[order], tick, m.nowMs) == Some(FILL) {
      var o, a := b.orders[order], Overlay(b, v, true).value;
      var e := LoadOpenExposure(b.positions, m, a.currency, o.symbol).value;
      var planned := PlanMarketOpen(m.(quote := Some(tick.quote)), RollRiskDay(a, m.dayKey), e, o.symbol, o.side,
          o.requestedVolume, o.stopLoss, o.takeProfit);
      if planned.Ok? && FillRespectsLimit(o, planned.value.fillPrice) {
        RecordOpenAside(b, RollRiskDay(a, m.dayKey), planned.value, FilledOrder(order),
            "pending:" + DigitsOf(order) + ":commission", index);
      }
    }
  }

  lemma OthersAside(b: Books, c: Command)
    requires WellTyped(c) && Outcome(b, c).Ok?
    requires !c.OpenCommand? && !c.CloseCommand? && !c.ReverseCommand? && !c.ExecuteCommand?
    ensures Outcome(b, c).value.positions == b.positions
  {
    hide CancelAll, Overlay, LoadOpenExposure, PlanPendingOrder, DetectAction, RollRiskDay, HasKey, MatchesReplay;
  }

  lemma StepMovesByCloses(b: Books, c: Command, index: nat)
    requires WellTyped(c) && index < |b.positions|
    ensures MovesByCloses(b, c, index)
  {
    hide Overlay, OpenMarket, CloseCore, Reverse, ExecutePending, Mutate, PlacePending, CancelPending,
         ActivateStopLimit, ExpirePending, Restrict, Activate, Resume, FinishClose, PlanMarketClose, Closes,
         ClosedPosition;
    if Outcome(b, c).Ok? {
      match c {
        case OpenCommand(m, v, id, symbol, side, volume, sl, tp) =>
          OpenMarketAside(b, m, v, id, symbol, side, volume, sl, tp, index);
        case CloseCommand(m, v, id, position, volume) => CloseCoreCloses(b, m, v, position, volume, id, index);
        case ReverseCommand(m, v, id, position, sl, tp) => ReverseCloses(b, m, v, id, position, sl, tp, index);
        case ExecuteCommand(m, v, order, tick) => ExecuteAside(b, m, v, order, tick, index);
        case _ => OthersAside(b, c);
      }
    }
  }

  lemma {:induction false} OneMoreClose(p: Position, plans: seq<ClosePlan>, plan: ClosePlan)
    requires CloseSequence(p, plans) && Closes(AfterCloses(p, plans), plan)
    ensures CloseSequence(p, plans + [plan])
    ensures AfterCloses(p, plans + [plan]) == ClosedPosition(AfterCloses(p, plans), plan)
    decreases |plans|
  {
    hide Closes, ClosedPosition;
    if plans == [] {
      assert [plan][1..] == [];
    } else {
      OneMoreClose(ClosedPosition(p, plans[0]), plans[1..], plan);
      assert (plans + [plan])[1..] == plans[1..] + [plan];
    }
  }

  /** In every run a position is what the closes committed on it have made of it. */
  lemma {:induction false} RunClosesPosition(b: Books, cs: seq<Command>, index: nat)
    requires AllWellTyped(cs) && index < |b.positions|
    ensures index < |Run(b, cs).positions|
    ensures CloseSequence(b.positions[index], ClosesOf(b, cs, index))
    ensures AfterCloses(b.positions[index], ClosesOf(b, cs, index)) == Run(b, cs).positions[index]
  {
    hide Step, WellTyped, CommittedClose, Closes, ClosedPosition;
    if cs != [] {
      var before, c := Run(b, cs[..|cs| - 1]), cs[|cs| - 1];
      var plans, last := ClosesOf(b, cs[..|cs| - 1], index), CommittedClose(before, c, index);
      RunClosesPosition(b, cs[..|cs| - 1], index);
      StepMovesByCloses(before, c, index);
      if last == [] {
        assert plans + last == plans;
      } else {
        assert last == [last[0]];
        OneMoreClose(b.positions[index], plans, last[0]);
      }
    }
  }

  /** Main result: whatever else runs in between, the margins that the committed closes of a
      position release are exactly what it has lost of its margin, and all that was reserved
      for it once it is CLOSED. */
  lemma RunReleasesReserved(b: Books, cs: seq<Command>, index: nat)
    requires AllWellTyped(cs) && index < |b.positions| && b.positions[index].margin >= 0.0
    ensures var plans := ClosesOf(b, cs, index);
            && index < |Run(b, cs).positions|
            && var p, q := b.positions[index], Run(b, cs).positions[index];
            && q.margin == p.margin - TotalReleased(plans) && q.openVolume == p.openVolume - TotalVolume(plans)
            && (p.status == OPEN && q.status == CLOSED ==>
                TotalReleased(plans) == p.margin && TotalVolume(plans) == p.openVolume)
  {
    hide Run, ClosesOf, WellTyped;
    RunClosesPosition(b, cs, index);
    ReleasedSumsToReserved(b.positions[index], ClosesOf(b, cs, index));
  }

  /** The account's half of a committed close: the margin in use falls by what the plan releases. */
  lemma CloseCoreReleases(b: Books, a: Account, m: Market, index: nat, volume: Option<real>, id: string, complete: bool)
    requires InOrder(b) && InStep(b, a) && CloseCore(b, a, m, index, volume, id, complete).Ok?
    ensures index < |b.positions| && PlanMarketClose(m, a, b.positions[index], volume).Ok?
    ensures var plan, p := PlanMarketClose(m, a, b.positions[index], volume).value, b.positions[index];
            var r := CloseCore(b, a, m, index, volume, id, complete).value;
            && 0.0 <= plan.releasedMargin <= p.margin && plan.releasedMargin <= a.usedMargin
            && r.account.usedMargin == a.usedMargin - plan.releasedMargin
  {
    hide PlanMarketClose, RecordClose, InStep;
    assert PositionValid(b.positions[index]);
    AcceptedCloseShape(m, a, b.positions[index], volume);
    CloseInOrder(b, a, index, PlanMarketClose(m, a, b.positions[index], volume).value, id, complete);
  }

  /** Main result: at every committed close of every run, the closing leg of a reverse
      included, neither clamp to zero changes a value. */
  lemma ClampsAreIdle(b: Books, cs: seq<Command>, k: nat, index: nat)
    requires InOrder(b) && AllWellTyped(cs) && k < |cs|
    requires CommittedClose(Run(b, cs[..k]), cs[k], index) != []
    ensures var before, plan := Run(b, cs[..k]), CommittedClose(Run(b, cs[..k]), cs[k], index)[0];
            && index < |before.positions| && Overlay(before, cs[k].v, false).Ok?
            && var a := Overlay(before, cs[k].v, false).value;
               && a.usedMargin == OpenMargin(before.positions)
               && 0.0 <= plan.releasedMargin <= before.positions[index].margin && plan.releasedMargin <= a.usedMargin
               && AfterClose(a, plan, cs[k].v.floatingPnl.Some?).usedMargin == a.usedMargin - plan.releasedMargin
               && (!plan.fullClose ==> ClosedPosition(before.positions[index], plan).margin
                                       == before.positions[index].margin - plan.releasedMargin)
  {
    hide Run, WellTyped, InOrder, CloseCore, Overlay, PlanMarketClose, PlanOpen, RecordOpen, InStep;
    var before, c := Run(b, cs[..k]), cs[k];
    RunInOrder(b, cs[..k]);
    OverlayInStep(before, c.v, false);
    MarginInStep(before, Overlay(before, c.v, false).value);
    match c {
      case CloseCommand(m, v, id, position, volume) =>
        CloseCoreReleases(before, Overlay(before, v, false).value, m, index, volume, id, v.floatingPnl.Some?);
      case ReverseCommand(m, v, id, position, sl, tp) =>
        CloseCoreReleases(before, Overlay(before, v, false).value, m, index, None, ChildId(id, "close"),
            v.floatingPnl.Some?);
    }
  }

  lemma MarginInStep(b: Books, a: Account)
    requires InOrder(b) && InStep(b, a)
    ensures a.usedMargin == OpenMargin(b.positions)
  {
  }

  // ---- equity = balance + floating profit -------------------------------------

  predicate EquityIdentity(a: Account) { a.equity == a.balance + a.floatingPnl }

  /** A close keeps the identity exactly when what it leaves out cancels: a
      rebate, which equity gets and balance does not, against the profit that an
      incomplete valuation does not take out of the floating profit. */
  lemma CloseIdentityIff(a: Account, plan: ClosePlan, complete: bool)
    requires EquityIdentity(a)
    ensures EquityIdentity(AfterClose(a, plan, complete)) <==>
      (if plan.commission < 0.0 then -plan.commission else 0.0) == (if complete then 0.0 else plan.realizedPnl)
  {
  }

  /** Closes are valued in full and cost nothing negative. */
  predicate ClosesValued(c: Command) {
    && (c.CloseCommand? ==> c.v.floatingPnl.Some? && NoRebates(c.m))
    && (c.ReverseCommand? ==> c.v.floatingPnl.Some? && NoRebates(c.m))
  }

  lemma OverlayIdentity(b: Books, v: Valuation, requireLive: bool)
    requires EquityIdentity(b.account) && Overlay(b, v, requireLive).Ok?
    ensures EquityIdentity(Overlay(b, v, requireLive).value)
  {
  }

  lemma RecordOpenIdentity(b: Books, a: Account, m: Market, plan: OpenPlan, source: Source, key: string)
    requires source.FilledOrder? ==> source.index < |b.orders|
    requires EquityIdentity(a) && RecordOpen(b, RollRiskDay(a, m.dayKey), plan, source, key).Ok?
    ensures EquityIdentity(RecordOpen(b, RollRiskDay(a, m.dayKey), plan, source, key).value.account)
  {
  }

  lemma CloseCoreIdentity(b: Books, a: Account, m: Market, index: nat, volume: Option<real>, id: string)
    requires EquityIdentity(a) && NoRebates(m)
    requires CloseCore(b, a, m, index, volume, id, true).Ok?
    ensures EquityIdentity(CloseCore(b, a, m, index, volume, id, true).value.account)
  {
    hide PlanMarketClose, NoRebates, CloseEntries, ClosedPosition, AfterClose, EquityIdentity;
    var plan := PlanMarketClose(m, a, b.positions[index], volume).value;
    ClosingCommission(m, a, b.positions[index], volume);
    CloseIdentityIff(a, plan, true);
  }

  lemma ClosingCommission(m: Market, a: Account, p: Position, volume: Option<real>)
    requires NoRebates(m) && PlanMarketClose(m, a, p, volume).Ok?
    requires PlanMarketClose(m, a, p, volume).value.fillPrice > 0.0
    ensures PlanMarketClose(m, a, p, volume).value.commission >= 0.0
  {
    hide CalculateCommission, ConvertTradingCurrency, ReleasedMargin, ExecutablePrice, ValidateQuote, OnStep, Notional;
    var plan := PlanMarketClose(m, a, p, volume).value;
    CommissionNonNegative(m, m.instruments[p.symbol], plan.volume, plan.fillPrice, a.currency);
  }

  lemma ReverseIdentity(b: Books, m: Market, v: Valuation, id: string, index: nat, sl: Option<real>, tp: Option<real>)
    requires EquityIdentity(b.account) && NoRebates(m) && v.floatingPnl.Some? && Reverse(b, m, v, id, index, sl, tp).Ok?
    ensures EquityIdentity(Reverse(b, m, v, id, index, sl, tp).value.account)
  {
    hide Overlay, CloseCore, LoadOpenExposure, PlanMarketOpen, RecordOpen, RollRiskDay, EquityIdentity, NoRebates;
    OverlayIdentity(b, v, false);
    var a, p := Overlay(b, v, false).value, b.positions[index];
    CloseCoreIdentity(b, a, m, index, None, ChildId(id, "close"));
    var closed := CloseCore(b, a, m, index, None, ChildId(id, "close"), true).value;
    var planned := PlanOpen(closed, closed.account, m, p.symbol, Opposite(p.side), p.openVolume, sl, tp).value;
    RecordOpenIdentity(closed, closed.account, m, planned.1, NewOrder(ChildId(id, "open")),
        ChildId(id, "open") + ":commission");
  }

  lemma OpenIdentity(b: Books, m: Market, v: Valuation, id: string, symbol: string, side: Side, volume: real,
      sl: Option<real>, tp: Option<real>)
    requires EquityIdentity(b.account) && OpenMarket(b, m, v, id, symbol, side, volume, sl, tp).Ok?
    ensures EquityIdentity(OpenMarket(b, m, v, id, symbol, side, volume, sl, tp).value.account)
  {
    hide Overlay, LoadOpenExposure, PlanMarketOpen, RecordOpen, RollRiskDay, EquityIdentity;
    OverlayIdentity(b, v, true);
    var a := Overlay(b, v, true).value;
    var planned := PlanOpen(b, a, m, symbol, side, volume, sl, tp).value;
    RecordOpenIdentity(b, a, m, planned.1, NewOrder(id), id + ":open:commission");
  }

  lemma ExecuteIdentity(b: Books, m: Market, v: Valuation, index: nat, tick: Tick)
    requires EquityIdentity(b.account) && ExecutePending(b, m, v, index, tick).Ok?
    ensures EquityIdentity(ExecutePending(b, m, v, index, tick).value.account)
  {
    hide Overlay, LoadOpenExposure, PlanMarketOpen, RecordOpen, RollRiskDay, DetectAction, FillRespectsLimit;
    if index < |b.orders| && IsActive(b.orders[index].status)
        && DetectAction(b.orders[index], tick, m.nowMs) == Some(FILL) {
      var o := b.orders[index];
      OverlayIdentity(b, v, true);
      var a := Overlay(b, v, true).value;
      var e := LoadOpenExposure(b.positions, m, a.currency, o.symbol).value;
      var planned := PlanMarketOpen(m.(quote := Some(tick.quote)), RollRiskDay(a, m.dayKey), e, o.symbol, o.side,
          o.requestedVolume, o.stopLoss, o.takeProfit);
      if planned.Ok? && FillRespectsLimit(o, planned.value.fillPrice) {
        RecordOpenIdentity(b, a, m, planned.value, FilledOrder(index), "pending:" + DigitsOf(index) + ":commission");
      }
    }
  }

  lemma StepIdentity(b: Books, c: Command)
    requires EquityIdentity(b.account) && WellTyped(c) && ClosesValued(c)
    ensures EquityIdentity(Step(b, c).account)
  {
    hide Overlay, OpenMarket, CloseCore, Reverse, ExecutePending, DetectAction, PlanPendingOrder, LoadOpenExposure,
         NoRebates;
    if Outcome(b, c).Ok? {
      match c {
        case OpenCommand(m, v, id, symbol, side, volume, sl, tp) =>
          OpenIdentity(b, m, v, id, symbol, side, volume, sl, tp);
        case CloseCommand(m, v, id, position, volume) =>
          OverlayIdentity(b, v, false);
          CloseCoreIdentity(b, Overlay(b, v, false).value, m, position, volume, id);
        case ReverseCommand(m, v, id, position, sl, tp) => ReverseIdentity(b, m, v, id, position, sl, tp);
        case ExecuteCommand(m, v, order, tick) => ExecuteIdentity(b, m, v, order, tick);
        case _ =>
      }
    }
  }

  function EquityGap(a: Account): (x: real) { a.equity - a.balance - a.floatingPnl }

  /** What a close leaves in the gap: the rebate that equity gets and the balance does not,
      less the profit that an incomplete valuation leaves in the floating profit. */
  function GapLeft(d: Deal, complete: bool): (x: real) {
    (if d.commission < 0.0 then -d.commission else 0.0) - (if complete then 0.0 else d.realizedPnl)
  }

  lemma CloseCoreGap(b: Books, a: Account, m: Market, index: nat, volume: Option<real>, id: string, complete: bool)
    requires CloseCore(b, a, m, index, volume, id, complete).Ok?
    ensures var r := CloseCore(b, a, m, index, volume, id, complete).value;
            |r.deals| == |b.deals| + 1 && EquityGap(r.account) == EquityGap(a) + GapLeft(r.deals[|b.deals|], complete)
  {
    hide PlanMarketClose, CloseEntries, ClosedPosition, PositionValid;
  }

  lemma OverlayGap(b: Books, v: Valuation, requireLive: bool)
    requires Overlay(b, v, requireLive).Ok?
    ensures EquityGap(Overlay(b, v, requireLive).value) == if v.floatingPnl.Some? then 0.0 else EquityGap(b.account)
  {
  }

  lemma RecordOpenGap(b: Books, a: Account, m: Market, plan: OpenPlan, source: Source, key: string)
    requires source.FilledOrder? ==> source.index < |b.orders|
    requires RecordOpen(b, RollRiskDay(a, m.dayKey), plan, source, key).Ok?
    ensures var r := RecordOpen(b, RollRiskDay(a, m.dayKey), plan, source, key).value;
            EquityGap(r.account) == EquityGap(a) && |r.deals| == |b.deals| + 1 && r.deals[..|b.deals|] == b.deals
  {
    hide PositionValid, FreshOrder, FreshKeys, OpenEntries;
  }

  lemma ReverseGap(b: Books, m: Market, v: Valuation, id: string, index: nat, sl: Option<real>, tp: Option<real>)
    requires Reverse(b, m, v, id, index, sl, tp).Ok?
    ensures var r := Reverse(b, m, v, id, index, sl, tp).value;
            |r.deals| == |b.deals| + 2
            && EquityGap(r.account)
               == (if v.floatingPnl.Some? then 0.0 else EquityGap(b.account))
                   + GapLeft(r.deals[|b.deals|], v.floatingPnl.Some?)
  {
    hide Overlay, CloseCore, LoadOpenExposure, PlanMarketOpen, RecordOpen, RollRiskDay, EquityGap, GapLeft;
    OverlayGap(b, v, false);
    var a, p := Overlay(b, v, false).value, b.positions[index];
    CloseCoreGap(b, a, m, index, None, ChildId(id, "close"), v.floatingPnl.Some?);
    var closed := CloseCore(b, a, m, index, None, ChildId(id, "close"), v.floatingPnl.Some?).value;
    var planned := PlanOpen(closed, closed.account, m, p.symbol, Opposite(p.side), p.openVolume, sl, tp).value;
    var source, key := NewOrder(ChildId(id, "open")), ChildId(id, "open") + ":commission";
    RecordOpenGap(closed, closed.account, m, planned.1, source, key);
    var r := RecordOpen(closed, planned.0, planned.1, source, key).value;
    assert r.deals[|b.deals|] == r.deals[..|closed.deals|][|b.deals|];
  }

  /** Equity stays balance plus floating profit over any command that is not a committed
      close or reverse, and over one of those exactly when nothing is left in the gap. */
  lemma StepIdentityIff(b: Books, c: Command)
    requires EquityIdentity(b.account) && WellTyped(c)
    ensures var r := Step(b, c);
            if (c.CloseCommand? || c.ReverseCommand?) && Outcome(b, c).Ok? then
              |r.deals| > |b.deals|
              && (EquityIdentity(r.account) <==> GapLeft(r.deals[|b.deals|], c.v.floatingPnl.Some?) == 0.0)
            else EquityIdentity(r.account)
  {
    hide Overlay, CloseMarket, CloseCore, Reverse, GapLeft;
    if (c.CloseCommand? || c.ReverseCommand?) && Outcome(b, c).Ok? {
      match c {
        case CloseCommand(m, v, id, position, volume) =>
          CloseMarketGap(b, m, v, id, position, volume);
        case ReverseCommand(m, v, id, position, sl, tp) => ReverseGap(b, m, v, id, position, sl, tp);
      }
    } else if Outcome(b, c).Ok? {
      StepIdentity(b, c);
    }
  }

  lemma CloseMarketGap(b: Books, m: Market, v: Valuation, id: string, index: nat, volume: Option<real>)
    requires CloseMarket(b, m, v, id, index, volume).Ok?
    ensures var r := CloseMarket(b, m, v, id, index, volume).value;
            |r.deals| == |b.deals| + 1
            && EquityGap(r.account)
               == (if v.floatingPnl.Some? then 0.0 else EquityGap(b.account))
                   + GapLeft(r.deals[|b.deals|], v.floatingPnl.Some?)
  {
    hide Overlay, CloseCore, EquityGap, GapLeft;
    OverlayGap(b, v, false);
    CloseCoreGap(b, Overlay(b, v, false).value, m, index, volume, id, v.floatingPnl.Some?);
  }

  /** The command is not a committed close or reverse, or it leaves nothing in the gap. */
  predicate LeavesNoGap(b: Books, c: Command)
    requires WellTyped(c)
  {
    (c.CloseCommand? || c.ReverseCommand?) && Outcome(b, c).Ok? ==>
      |Step(b, c).deals| > |b.deals| && GapLeft(Step(b, c).deals[|b.deals|], c.v.floatingPnl.Some?) == 0.0
  }

  predicate IdentityAt(b: Books, cs: seq<Command>, k: nat)
    requires AllWellTyped(cs)
  {
    k <= |cs| ==> EquityIdentity(Run(b, cs[..k]).account)
  }

  predicate NoGapAt(b: Books, cs: seq<Command>, k: nat)
    requires AllWellTyped(cs)
  {
    k < |cs| ==> LeavesNoGap(Run(b, cs[..k]), cs[k])
  }

  lemma IdentityMovesOn(b: Books, cs: seq<Command>, k: nat)
    requires AllWellTyped(cs) && k < |cs| && IdentityAt(b, cs, k)
    ensures IdentityAt(b, cs, k + 1) <==> NoGapAt(b, cs, k)
  {
    hide Outcome, Step, EquityIdentity, GapLeft, WellTyped;
    assert cs[..k + 1][..k] == cs[..k];
    StepIdentityIff(Run(b, cs[..k]), cs[k]);
  }

  lemma {:induction false} IdentityUpTo(b: Books, cs: seq<Command>, k: nat)
    requires AllWellTyped(cs) && k <= |cs| && EquityIdentity(b.account)
    requires forall i :: 0 <= i < k ==> NoGapAt(b, cs, i)
    ensures IdentityAt(b, cs, k)
  {
    if k == 0 {
      assert cs[..0] == [];
    } else {
      hide NoGapAt, IdentityAt;
      IdentityUpTo(b, cs, k - 1);
      IdentityMovesOn(b, cs, k - 1);
    }
  }

  /** Main result: over a run equity is balance plus floating profit at every moment if and only
      if no committed close or reverse of it leaves anything in the gap. */
  lemma RunIdentityIff(b: Books, cs: seq<Command>)
    requires AllWellTyped(cs) && EquityIdentity(b.account)
    ensures (forall k :: 0 <= k <= |cs| ==> IdentityAt(b, cs, k)) <==> (forall k :: 0 <= k < |cs| ==> NoGapAt(b, cs, k))
  {
    hide IdentityAt, NoGapAt, EquityIdentity;
    if forall k :: 0 <= k <= |cs| ==> IdentityAt(b, cs, k) {
      forall k | 0 <= k < |cs| ensures NoGapAt(b, cs, k) {
        assert IdentityAt(b, cs, k + 1);
        IdentityMovesOn(b, cs, k);
      }
    }
    if forall k :: 0 <= k < |cs| ==> NoGapAt(b, cs, k) {
      forall k | 0 <= k <= |cs| ensures IdentityAt(b, cs, k) {
        IdentityUpTo(b, cs, k);
      }
    }
  }

  /** With complete valuations at every close, equity stays equal to balance
      plus floating profit through any run. */
  lemma {:induction false} RunIdentity(b: Books, cs: seq<Command>)
    requires EquityIdentity(b.account) && AllWellTyped(cs) && forall i :: 0 <= i < |cs| ==> ClosesValued(cs[i])
    ensures EquityIdentity(Run(b, cs).account)
  {
    hide Step, ClosesValued, EquityIdentity, WellTyped;
    if cs != [] {
      RunIdentity(b, cs[..|cs| - 1]);
      StepIdentity(Run(b, cs[..|cs| - 1]), cs[|cs| - 1]);
    }
  }
}
