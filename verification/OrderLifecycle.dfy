/** The life of pending orders through every interleaving of commands
    (src/modules/trading/pending-order.service.js). */
module OrderLifecycle {
  import opened Common
  import opened Conversion
  import opened TradingTypes
  import opened ExecutionPlanner
  import opened PendingPlanner
  import opened Books
  import opened DecimalText

  predicate HasSource(p: Position, order: nat) { p.sourceOrder == order }

  predicate IsOpeningFor(d: Deal, order: nat) { d.kind == OPENING && d.order == order }

  /** One position and one opening deal for a filled opening order, none for any
      other order; a market order with a target position is a closing one. */
  ghost predicate FilledOnce(b: Books) {
    && (forall i: nat :: Tally(b.positions, i, HasSource) == Fills(b.orders, i))
    && (forall i: nat :: Tally(b.deals, i, IsOpeningFor) == Fills(b.orders, i))
  }

  function Fills(orders: seq<Order>, i: nat): (n: nat) {
    if i < |orders| && orders[i].status == FILLED && orders[i].targetPosition.None? then 1 else 0
  }

  predicate StatusesFit(b: Books) {
    forall i :: 0 <= i < |b.orders| ==>
      && (b.orders[i].status == TRIGGERED ==> b.orders[i].kind == STOP_LIMIT)
      && (b.orders[i].kind == MARKET ==> b.orders[i].status == FILLED)
      && (IsActive(b.orders[i].status) ==> b.orders[i].targetPosition.None?)
  }

  /** A position was entered at its order's accepted price, which a limit bounds. */
  predicate EntriesFit(b: Books) {
    forall p :: 0 <= p < |b.positions| ==>
      var o := b.positions[p].sourceOrder;
      && o < |b.orders| && b.orders[o].status == FILLED
      && b.orders[o].acceptedPrice == Some(b.positions[p].entryPrice)
      && b.orders[o].side == b.positions[p].side && b.orders[o].symbol == b.positions[p].symbol
      && FillRespectsLimit(b.orders[o], b.positions[p].entryPrice)
  }

  ghost predicate OrdersSound(b: Books) { FilledOnce(b) && StatusesFit(b) && EntriesFit(b) }

  /** A final status is kept, and nothing about a final order changes. */
  predicate FinalKept(before: seq<Order>, after: seq<Order>) {
    && |before| <= |after|
    && forall i :: 0 <= i < |before| && IsFinal(before[i].status) ==> after[i] == before[i]
  }

  // ---- primitive record changes ----------------------------------------------

  lemma FillsIrrelevant(os: seq<Order>, ps: seq<Order>)
    requires |os| <= |ps|
    requires forall i :: 0 <= i < |os| ==>
        (os[i].status == FILLED <==> ps[i].status == FILLED) && os[i].targetPosition == ps[i].targetPosition
    requires forall i :: |os| <= i < |ps| && ps[i].status == FILLED ==> ps[i].targetPosition.Some?
    ensures forall i: nat :: Fills(os, i) == Fills(ps, i)
  {
  }

  /** Changing only the status of an active order, to anything but FILLED. */
  lemma RestatusKeeps(b: Books, index: nat, status: OrderStatus)
    requires OrdersSound(b) && index < |b.orders| && IsActive(b.orders[index].status)
    requires status != FILLED && (status == TRIGGERED ==> b.orders[index].kind == STOP_LIMIT)
    ensures OrdersSound(WithStatus(b, index, status)) && FinalKept(b.orders, WithStatus(b, index, status).orders)
  {
    FillsIrrelevant(b.orders, WithStatus(b, index, status).orders);
  }

  lemma CancelAllKeeps(b: Books, r: Books)
    requires OrdersSound(b) && r.orders == CancelAll(b.orders) && r.positions == b.positions && r.deals == b.deals
    ensures OrdersSound(r) && FinalKept(b.orders, r.orders)
  {
    FillsIrrelevant(b.orders, r.orders);
  }

  lemma RecordOpenKeeps(b: Books, a: Account, plan: OpenPlan, source: Source, key: string)
    requires OrdersSound(b)
    requires source.FilledOrder? ==>
      (&& source.index < |b.orders| && IsActive(b.orders[source.index].status)
       && b.orders[source.index].side == plan.side && b.orders[source.index].symbol == plan.symbol
       && FillRespectsLimit(b.orders[source.index], plan.fillPrice))
    requires RecordOpen(b, a, plan, source, key).Ok?
    ensures OrdersSound(RecordOpen(b, a, plan, source, key).value)
    ensures FinalKept(b.orders, RecordOpen(b, a, plan, source, key).value.orders)
  {
    hide PositionValid, FreshOrder, FreshKeys, OpenEntries, AfterOpen, Tally;
    var r := RecordOpen(b, a, plan, source, key).value;
    var index := if source.NewOrder? then |b.orders| else source.index;
    assert r.positions == b.positions + [OpenedPosition(plan, index)];
    FilledByOpening(b, r, index, OpenedPosition(plan, index), r.deals[|b.deals|]);
    assert StatusesFit(r);
    assert forall p :: 0 <= p < |b.positions| ==> b.positions[p].sourceOrder != index;
  }

  lemma FilledByOpening(b: Books, r: Books, index: nat, position: Position, deal: Deal)
    requires FilledOnce(b)
    requires r.positions == b.positions + [position] && r.deals == b.deals + [deal]
    requires position.sourceOrder == index && deal.kind == OPENING && deal.order == index
    requires Fills(b.orders, index) == 0 && Fills(r.orders, index) == 1
    requires forall i: nat :: i != index ==> Fills(r.orders, i) == Fills(b.orders, i)
    ensures FilledOnce(r)
  {
    hide Tally, Fills;
    forall i: nat ensures Tally(r.positions, i, HasSource) == Fills(r.orders, i) {
      TallyAppend(b.positions, position, i, HasSource);
    }
    forall i: nat ensures Tally(r.deals, i, IsOpeningFor) == Fills(r.orders, i) {
      TallyAppend(b.deals, deal, i, IsOpeningFor);
    }
  }

  lemma RecordCloseKeeps(b: Books, a: Account, index: nat, plan: ClosePlan, id: string, complete: bool)
    requires OrdersSound(b) && index < |b.positions|
    requires RecordClose(b, a, index, plan, id, complete).Ok?
    ensures OrdersSound(RecordClose(b, a, index, plan, id, complete).value)
    ensures FinalKept(b.orders, RecordClose(b, a, index, plan, id, complete).value.orders)
  {
    hide PositionValid, FreshOrder, FreshKeys, CloseEntries, AfterClose;
    var r := RecordClose(b, a, index, plan, id, complete).value;
    FillsIrrelevant(b.orders, r.orders);
    forall i: nat ensures Tally(r.positions, i, HasSource) == Fills(r.orders, i) {
      TallyUpdate(b.positions, index, r.positions[index], i, HasSource);
    }
    forall i: nat ensures Tally(r.deals, i, IsOpeningFor) == Fills(r.orders, i) {
      TallyAppend(b.deals, r.deals[|b.deals|], i, IsOpeningFor);
    }
    var q := r.positions[index];
    assert q.sourceOrder == b.positions[index].sourceOrder && q.entryPrice == b.positions[index].entryPrice;
    assert q.side == b.positions[index].side && q.symbol == b.positions[index].symbol;
  }

  lemma SameOrders(b: Books, r: Books)
    requires OrdersSound(b) && r.orders == b.orders && r.positions == b.positions && r.deals == b.deals
    ensures OrdersSound(r) && FinalKept(b.orders, r.orders)
  {
  }

  // ---- commands ----------------------------------------------------------------

  lemma OpenKeeps(b: Books, m: Market, v: Valuation, id: string, symbol: string, side: Side, volume: real,
      sl: Option<real>, tp: Option<real>)
    requires OrdersSound(b) && OpenMarket(b, m, v, id, symbol, side, volume, sl, tp).Ok?
    ensures OrdersSound(OpenMarket(b, m, v, id, symbol, side, volume, sl, tp).value)
    ensures FinalKept(b.orders, OpenMarket(b, m, v, id, symbol, side, volume, sl, tp).value.orders)
  {
    hide Overlay, PlanOpen, RecordOpen, OrdersSound, FinalKept;
    var planned := PlanOpen(b, Overlay(b, v, true).value, m, symbol, side, volume, sl, tp).value;
    RecordOpenKeeps(b, planned.0, planned.1, NewOrder(id), id + ":open:commission");
  }

  lemma CloseCoreKeeps(b: Books, a: Account, m: Market, index: nat, volume: Option<real>, id: string, complete: bool)
    requires OrdersSound(b) && CloseCore(b, a, m, index, volume, id, complete).Ok?
    ensures OrdersSound(CloseCore(b, a, m, index, volume, id, complete).value)
    ensures FinalKept(b.orders, CloseCore(b, a, m, index, volume, id, complete).value.orders)
  {
    hide PlanMarketClose, RecordClose, OrdersSound, FinalKept;
    RecordCloseKeeps(b, a, index, PlanMarketClose(m, a, b.positions[index], volume).value, id, complete);
  }

  lemma ReverseKeeps(b: Books, m: Market, v: Valuation, id: string, index: nat, sl: Option<real>, tp: Option<real>)
    requires OrdersSound(b) && Reverse(b, m, v, id, index, sl, tp).Ok?
    ensures OrdersSound(Reverse(b, m, v, id, index, sl, tp).value)
    ensures FinalKept(b.orders, Reverse(b, m, v, id, index, sl, tp).value.orders)
  {
    hide Overlay, CloseCore, PlanOpen, RecordOpen, OrdersSound;
    var a, p := Overlay(b, v, false).value, b.positions[index];
    CloseCoreKeeps(b, a, m, index, None, ChildId(id, "close"), v.floatingPnl.Some?);
    var closed := CloseCore(b, a, m, index, None, ChildId(id, "close"), v.floatingPnl.Some?).value;
    var planned := PlanOpen(closed, closed.account, m, p.symbol, Opposite(p.side), p.openVolume, sl, tp).value;
    RecordOpenKeeps(closed, planned.0, planned.1, NewOrder(ChildId(id, "open")), ChildId(id, "open") + ":commission");
  }

  lemma ExecuteKeeps(b: Books, m: Market, v: Valuation, index: nat, tick: Tick)
    requires OrdersSound(b) && ExecutePending(b, m, v, index, tick).Ok?
    ensures OrdersSound(ExecutePending(b, m, v, index, tick).value)
    ensures FinalKept(b.orders, ExecutePending(b, m, v, index, tick).value.orders)
  {
    hide Overlay, LoadOpenExposure, PlanMarketOpen, RecordOpen, RollRiskDay, DetectAction, FillRespectsLimit,
         OrdersSound, FinalKept, WithStatus;
    SameOrders(b, b);
    if index < |b.orders| && IsActive(b.orders[index].status) {
      RestatusKeeps(b, index, EXPIRED);
      RestatusKeeps(b, index, REJECTED);
      var o := b.orders[index];
      if DetectAction(o, tick, m.nowMs) == Some(FILL) {
        var a := Overlay(b, v, true).value;
        var e := LoadOpenExposure(b.positions, m, a.currency, o.symbol).value;
        var mt, rolled := m.(quote := Some(tick.quote)), RollRiskDay(a, m.dayKey);
        var planned := PlanMarketOpen(mt, rolled, e, o.symbol, o.side, o.requestedVolume, o.stopLoss, o.takeProfit);
        if planned.Ok? && FillRespectsLimit(o, planned.value.fillPrice) {
          AcceptedOpenShape(mt, rolled, e, o.symbol, o.side, o.requestedVolume, o.stopLoss, o.takeProfit);
          RecordOpenKeeps(b, rolled, planned.value, FilledOrder(index), "pending:" + DigitsOf(index) + ":commission");
        }
      }
    }
  }

  lemma PlaceKeeps(b: Books, m: Market, v: Valuation, c: PlaceCommand)
    requires OrdersSound(b) && PlacePending(b, m, v, c).Ok?
    ensures OrdersSound(PlacePending(b, m, v, c).value)
    ensures FinalKept(b.orders, PlacePending(b, m, v, c).value.orders)
  {
    hide LoadOpenExposure, PlanPendingOrder, Overlay, LoadPendingExposure, RollRiskDay;
    var a := Overlay(b, v, true).value;
    var e := LoadOpenExposure(b.positions, m, a.currency, c.symbol).value;
    PlacedOrderShape(m, RollRiskDay(a, m.dayKey), c, e, LoadPendingExposure(b.orders, c.symbol));
    FillsIrrelevant(b.orders, PlacePending(b, m, v, c).value.orders);
  }

  lemma StatusCommandsKeep(b: Books, index: nat, tick: Tick, nowMs: int)
    requires OrdersSound(b)
    ensures CancelPending(b, index).Ok? ==> Kept(b, CancelPending(b, index).value)
    ensures ActivateStopLimit(b, index, tick, nowMs).Ok? ==> Kept(b, ActivateStopLimit(b, index, tick, nowMs).value)
    ensures ExpirePending(b, index, nowMs).Ok? ==> Kept(b, ExpirePending(b, index, nowMs).value)
  {
    hide DetectAction, OrdersSound, FinalKept, WithStatus;
    SameOrders(b, b);
    if index < |b.orders| && IsActive(b.orders[index].status) {
      RestatusKeeps(b, index, CANCELLED);
      RestatusKeeps(b, index, EXPIRED);
      if b.orders[index].kind == STOP_LIMIT {
        RestatusKeeps(b, index, TRIGGERED);
      }
    }
  }

  ghost predicate Kept(b: Books, r: Books) { OrdersSound(r) && FinalKept(b.orders, r.orders) }

  lemma RestrictKeeps(b: Books, status: AccountStatus, stage: bool, cancelPending: bool)
    requires OrdersSound(b) && (status == PAUSED || status == DISABLED || status == BREACHED)
    ensures Kept(b, Restrict(b, status, stage, cancelPending))
  {
    hide OrdersSound, FinalKept, CancelAll;
    if cancelPending {
      CancelAllKeeps(b, Restrict(b, status, stage, cancelPending));
    } else {
      SameOrders(b, Restrict(b, status, stage, cancelPending));
    }
  }

  lemma ControlsKeep(b: Books)
    requires OrdersSound(b)
    ensures Activate(b).Ok? ==> Kept(b, Activate(b).value)
    ensures Resume(b).Ok? ==> Kept(b, Resume(b).value)
    ensures Kept(b, FinishClose(b))
  {
    hide OrdersSound, FinalKept;
    SameOrders(b, b);
    SameOrders(b, SetStatus(b, ACTIVE, true, true));
    SameOrders(b, SetStatus(b, ACTIVE, true, b.account.federationEnabled));
    SameOrders(b, SetStatus(b, CLOSED_ACCOUNT, false, b.account.federationEnabled));
  }

  lemma MutateKeeps(b: Books, kind: EntryType, amount: real, key: string, reference: string)
    requires OrdersSound(b) && IsMutation(kind) && Mutate(b, kind, amount, key, reference).Ok?
    ensures Kept(b, Mutate(b, kind, amount, key, reference).value)
  {
    hide OrdersSound, FinalKept, HasKey, MatchesReplay;
    SameOrders(b, Mutate(b, kind, amount, key, reference).value);
  }

  function AnyTick(): Tick { Tick("", Quote(None, None, None, true)) }

  lemma StepKeepsOrders(b: Books, c: Command)
    requires OrdersSound(b) && WellTyped(c)
    ensures OrdersSound(Step(b, c)) && FinalKept(b.orders, Step(b, c).orders)
  {
    hide OrdersSound, FinalKept, OpenMarket, Reverse, ExecutePending, PlacePending, CloseCore, Overlay,
         Mutate, CancelPending, ActivateStopLimit, ExpirePending, Restrict, Activate, Resume, FinishClose;
    SameOrders(b, b);
    if Outcome(b, c).Ok? {
      match c {
        case OpenCommand(m, v, id, symbol, side, volume, sl, tp) =>
          OpenKeeps(b, m, v, id, symbol, side, volume, sl, tp);
        case CloseCommand(m, v, id, position, volume) => CloseCoreKeeps(b, Overlay(b, v, false).value, m, position,
            volume, id, v.floatingPnl.Some?);
        case ReverseCommand(m, v, id, position, sl, tp) => ReverseKeeps(b, m, v, id, position, sl, tp);
        case ExecuteCommand(m, v, order, tick) => ExecuteKeeps(b, m, v, order, tick);
        case PlacePendingCommand(m, v, place) => PlaceKeeps(b, m, v, place);
        case CancelCommand(order) => StatusCommandsKeep(b, order, AnyTick(), 0);
        case ActivateStopLimitCommand(order, tick, nowMs) => StatusCommandsKeep(b, order, tick, nowMs);
        case ExpireCommand(order, nowMs) => StatusCommandsKeep(b, order, AnyTick(), nowMs);
        case RestrictCommand(status, stage, cancelPending) => RestrictKeeps(b, status, stage, cancelPending);
        case MutateCommand(kind, amount, key, reference) => MutateKeeps(b, kind, amount, key, reference);
        case _ => ControlsKeep(b);
      }
    }
  }

  lemma NoOrders(b: Books)
    requires b.orders == [] && b.positions == [] && b.deals == []
    ensures OrdersSound(b)
  {
  }

  /** In every run: only STOP_LIMIT orders are ever TRIGGERED, a filled order has
      exactly one position and one opening deal and any other has none, and no
      limit order has filled worse than its limit. */
  lemma {:induction false} RunKeepsOrders(b: Books, cs: seq<Command>)
    requires OrdersSound(b) && AllWellTyped(cs)
    ensures OrdersSound(Run(b, cs))
  {
    hide Step, OrdersSound, WellTyped;
    if cs != [] {
      RunKeepsOrders(b, cs[..|cs| - 1]);
      StepKeepsOrders(Run(b, cs[..|cs| - 1]), cs[|cs| - 1]);
    }
  }

  /** An order that has once reached a final status is the same ever after. */
  lemma {:induction false} FinalForever(b: Books, cs: seq<Command>, k: nat, i: nat)
    requires OrdersSound(b) && AllWellTyped(cs) && k <= |cs|
    requires i < |Run(b, cs[..k]).orders| && IsFinal(Run(b, cs[..k]).orders[i].status)
    ensures i < |Run(b, cs).orders| && Run(b, cs).orders[i] == Run(b, cs[..k]).orders[i]
  {
    hide Step, OrdersSound, WellTyped;
    if k == |cs| {
      assert cs[..k] == cs;
    } else {
      var init := cs[..|cs| - 1];
      assert init[..k] == cs[..k];
      FinalForever(b, init, k, i);
      RunKeepsOrders(b, init);
      StepKeepsOrders(Run(b, init), cs[|cs| - 1]);
    }
  }
}
