/** The deals explain the account: its balance, and what every position has
    realised, paid and closed, are sums over the deals recorded for it. The one
    exception is a negative commission of a close: its deal and its position
    record it and the balance does not get it. */
module DealAccounting {
  import opened Common
  import opened TradingTypes
  import opened ExecutionPlanner
  import opened PendingPlanner
  import opened Books
  import opened DecimalText
  import opened Reconciliation
  import opened MarginRelease

  /** What deposits, withdrawals and adjustments brought in. */
  function MutationAmount(e: Entry, k: ()): (x: real) { if IsMutation(e.kind) then e.amount else 0.0 }

  function NetAmount(d: Deal, k: ()): (x: real) { d.realizedPnl - d.commission }

  function PnlOn(d: Deal, position: nat): (x: real) { if d.position == position then d.realizedPnl else 0.0 }

  function CommissionOn(d: Deal, position: nat): (x: real) { if d.position == position then d.commission else 0.0 }

  function ClosedVolumeOn(d: Deal, position: nat): (x: real) {
    if d.position == position && d.kind != OPENING then d.volume else 0.0
  }

  /** What a closing deal records as paid to the client and the balance never gets. */
  function CloseRebate(d: Deal, k: ()): (x: real)
    ensures x >= 0.0
  {
    if d.kind != OPENING && d.commission < 0.0 then -d.commission else 0.0
  }

  predicate ClosesCharged(deals: seq<Deal>) {
    forall d :: 0 <= d < |deals| ==> deals[d].kind != OPENING ==> deals[d].commission >= 0.0
  }

  predicate PositionExplained(p: Position, index: nat, deals: seq<Deal>) {
    && p.realizedPnl == Total(deals, index, PnlOn)
    && p.commissionPaid == Total(deals, index, CommissionOn)
    && p.initialVolume - p.openVolume == Total(deals, index, ClosedVolumeOn)
  }

  predicate AllExplained(ps: seq<Position>, deals: seq<Deal>) {
    forall i :: 0 <= i < |ps| ==> PositionExplained(ps[i], i, deals)
  }

  predicate IsMutationEntry(e: Entry, k: ()) { IsMutation(e.kind) }

  /** Every deal and every balance mutation is one financial revision, the provisioning
      deposit being revision zero, and every position is the sum of its deals. */
  predicate Summed(b: Books) {
    && b.account.financialRevision + 1 == |b.deals| + Tally(b.ledger, (), IsMutationEntry)
    && (forall d :: 0 <= d < |b.deals| ==> b.deals[d].position < |b.positions|)
    && AllExplained(b.positions, b.deals)
  }

  /** What mutations and deals amount to. */
  function Recorded(b: Books): (x: real) { Total(b.ledger, (), MutationAmount) + Total(b.deals, (), NetAmount) }

  predicate Explained(b: Books) { Summed(b) && b.account.balance == Recorded(b) }

  /** Explained up to the rebates of closes. */
  predicate Accounted(b: Books) { Summed(b) && b.account.balance == Recorded(b) - Total(b.deals, (), CloseRebate) }

  lemma {:induction false} NoRebateIff(deals: seq<Deal>)
    ensures Total(deals, (), CloseRebate) >= 0.0
    ensures Total(deals, (), CloseRebate) == 0.0 <==> ClosesCharged(deals)
  {
    if deals != [] {
      var init := deals[..|deals| - 1];
      NoRebateIff(init);
      assert ClosesCharged(deals) ==> ClosesCharged(init);
      if ClosesCharged(init) && CloseRebate(deals[|deals| - 1], ()) == 0.0 {
        assert forall d :: 0 <= d < |init| ==> deals[d] == init[d];
      }
    }
  }

  /** The deals explain the account exactly when no closing deal has paid a rebate. */
  lemma ExplainedIff(b: Books)
    requires Accounted(b)
    ensures Explained(b) <==> ClosesCharged(b.deals)
  {
    hide Total, Summed, ClosesCharged;
    NoRebateIff(b.deals);
  }

  // ---- one deal more -----------------------------------------------------------

  lemma {:induction false} NoDealsYet(deals: seq<Deal>, index: nat)
    requires forall d :: 0 <= d < |deals| ==> deals[d].position != index
    ensures Total(deals, index, PnlOn) == Total(deals, index, CommissionOn) == Total(deals, index, ClosedVolumeOn)
        == 0.0
  {
    if deals != [] {
      NoDealsYet(deals[..|deals| - 1], index);
    }
  }

  /** A deal changes what is summed for its own position and for no other. */
  lemma DealAppend(deals: seq<Deal>, d: Deal, index: nat)
    ensures Total(deals + [d], (), NetAmount) == Total(deals, (), NetAmount) + d.realizedPnl - d.commission
    ensures Total(deals + [d], (), CloseRebate) == Total(deals, (), CloseRebate) + CloseRebate(d, ())
    ensures Total(deals + [d], index, PnlOn) == Total(deals, index, PnlOn) + PnlOn(d, index)
    ensures Total(deals + [d], index, CommissionOn) == Total(deals, index, CommissionOn) + CommissionOn(d, index)
    ensures Total(deals + [d], index, ClosedVolumeOn) == Total(deals, index, ClosedVolumeOn) + ClosedVolumeOn(d, index)
  {
    hide Total;
    TotalAppend(deals, d, (), NetAmount);
    TotalAppend(deals, d, (), CloseRebate);
    TotalAppend(deals, d, index, PnlOn);
    TotalAppend(deals, d, index, CommissionOn);
    TotalAppend(deals, d, index, ClosedVolumeOn);
  }

  /** Ledger entries of trades bring nothing in. */
  lemma {:induction false} TradeEntries(ledger: seq<Entry>, es: seq<Entry>)
    requires forall i :: 0 <= i < |es| ==> !IsMutation(es[i].kind)
    ensures Total(ledger + es, (), MutationAmount) == Total(ledger, (), MutationAmount)
    ensures Tally(ledger + es, (), IsMutationEntry) == Tally(ledger, (), IsMutationEntry)
  {
    if es == [] {
      assert ledger + es == ledger;
    } else {
      TradeEntries(ledger, es[..|es| - 1]);
      assert ledger + es == (ledger + es[..|es| - 1]) + [es[|es| - 1]];
      TotalAppend(ledger + es[..|es| - 1], es[|es| - 1], (), MutationAmount);
      TallyAppend(ledger + es[..|es| - 1], es[|es| - 1], (), IsMutationEntry);
    }
  }

  predicate SameMoney(a: Account, b: Account) { a.balance == b.balance && a.financialRevision == b.financialRevision }

  /** An opening moves the revision, the new position and the balance by what its deal records. */
  lemma OpenSummed(b: Books, a: Account, plan: OpenPlan, source: Source, key: string)
    requires Summed(b) && SameMoney(a, b.account)
    requires source.FilledOrder? ==> source.index < |b.orders|
    requires RecordOpen(b, a, plan, source, key).Ok?
    ensures var r := RecordOpen(b, a, plan, source, key).value;
            && Summed(r) && r.account.balance - Recorded(r) == b.account.balance - Recorded(b)
            && Total(r.deals, (), CloseRebate) == Total(b.deals, (), CloseRebate)
  {
    hide Total, Tally, PositionValid, FreshKeys, FreshOrder, PnlOn, CommissionOn, ClosedVolumeOn;
    var r := RecordOpen(b, a, plan, source, key).value;
    var n := |b.positions|;
    var d := r.deals[|b.deals|];
    TradeEntries(b.ledger, OpenEntries(a, plan, key, DigitsOf(|b.deals|)));
    DealAppend(b.deals, d, n);
    NoDealsYet(b.deals, n);
    OpeningOn(d);
    forall i | 0 <= i < |r.positions| ensures PositionExplained(r.positions[i], i, r.deals) {
      if i < n {
        assert PositionExplained(b.positions[i], i, b.deals);
        DealAppend(b.deals, d, i);
        Elsewhere(d, i);
      }
    }
  }

  lemma OpenExplained(b: Books, a: Account, plan: OpenPlan, source: Source, key: string)
    requires SameMoney(a, b.account)
    requires source.FilledOrder? ==> source.index < |b.orders|
    requires RecordOpen(b, a, plan, source, key).Ok?
    ensures Explained(b) ==> Explained(RecordOpen(b, a, plan, source, key).value)
    ensures Accounted(b) ==> Accounted(RecordOpen(b, a, plan, source, key).value)
  {
    hide Total, Summed, Recorded, RecordOpen;
    if Summed(b) {
      OpenSummed(b, a, plan, source, key);
    }
  }

  lemma OpeningOn(d: Deal)
    requires d.kind == OPENING
    ensures PnlOn(d, d.position) == d.realizedPnl && CommissionOn(d, d.position) == d.commission
    ensures ClosedVolumeOn(d, d.position) == 0.0
  {
  }

  lemma Elsewhere(d: Deal, index: nat)
    requires d.position != index
    ensures PnlOn(d, index) == CommissionOn(d, index) == ClosedVolumeOn(d, index) == 0.0
  {
  }

  lemma ClosingOn(d: Deal)
    requires d.kind != OPENING
    ensures PnlOn(d, d.position) == d.realizedPnl && CommissionOn(d, d.position) == d.commission
    ensures ClosedVolumeOn(d, d.position) == d.volume
  {
  }

  /** A close moves the revision and its position by what its deal records, and the balance by
      that less the rebate. */
  lemma CloseSummed(b: Books, a: Account, index: nat, plan: ClosePlan, id: string, complete: bool)
    requires Summed(b) && SameMoney(a, b.account) && index < |b.positions|
    requires plan.remainingVolume == b.positions[index].openVolume - plan.volume
    requires plan.fullClose <==> plan.volume == b.positions[index].openVolume
    requires RecordClose(b, a, index, plan, id, complete).Ok?
    ensures var r := RecordClose(b, a, index, plan, id, complete).value;
            var rebate := if plan.commission < 0.0 then -plan.commission else 0.0;
            && Summed(r) && r.account.balance - Recorded(r) == b.account.balance - Recorded(b) - rebate
            && Total(r.deals, (), CloseRebate) == Total(b.deals, (), CloseRebate) + rebate
  {
    hide Total, Tally, PositionValid, FreshKeys, FreshOrder, PnlOn, CommissionOn, ClosedVolumeOn;
    var r := RecordClose(b, a, index, plan, id, complete).value;
    var d := r.deals[|b.deals|];
    TradeEntries(b.ledger, CloseEntries(a, plan, id, DigitsOf(|b.deals|)));
    ClosingOn(d);
    DealAppend(b.deals, d, index);
    forall i | 0 <= i < |r.positions| ensures PositionExplained(r.positions[i], i, r.deals) {
      assert PositionExplained(b.positions[i], i, b.deals);
      DealAppend(b.deals, d, i);
      if i != index {
        Elsewhere(d, i);
      }
    }
  }

  /** A close keeps the balance explained exactly when it does not pay the client a
      commission; what it leaves unexplained is that commission. */
  lemma CloseExplainedIff(b: Books, a: Account, index: nat, plan: ClosePlan, id: string, complete: bool)
    requires SameMoney(a, b.account) && index < |b.positions|
    requires plan.remainingVolume == b.positions[index].openVolume - plan.volume
    requires plan.fullClose <==> plan.volume == b.positions[index].openVolume
    requires RecordClose(b, a, index, plan, id, complete).Ok?
    ensures var r := RecordClose(b, a, index, plan, id, complete).value;
            && (Explained(b) ==> (Explained(r) <==> plan.commission >= 0.0))
            && (Accounted(b) ==> Accounted(r))
  {
    hide Total, Summed, Recorded, RecordClose;
    if Summed(b) {
      CloseSummed(b, a, index, plan, id, complete);
    }
  }

  // ---- commands ----------------------------------------------------------------

  lemma OverlayBalance(b: Books, v: Valuation, requireLive: bool)
    ensures Overlay(b, v, requireLive).Ok? ==> SameMoney(Overlay(b, v, requireLive).value, b.account)
  {
  }

  lemma RollBalance(a: Account, dayKey: string)
    ensures SameMoney(RollRiskDay(a, dayKey), a)
  {
  }

  lemma PlannedOpenAccounted(b: Books, a: Account, m: Market, symbol: string, side: Side, volume: real,
                             sl: Option<real>, tp: Option<real>, source: Source, key: string)
    requires Accounted(b) && SameMoney(a, b.account) && PlanOpen(b, a, m, symbol, side, volume, sl, tp).Ok?
    requires source.FilledOrder? ==> source.index < |b.orders|
    ensures var planned := PlanOpen(b, a, m, symbol, side, volume, sl, tp).value;
            var r := RecordOpen(b, planned.0, planned.1, source, key);
            r.Ok? ==> Accounted(r.value)
  {
    hide Accounted, RecordOpen, PlanMarketOpen, LoadOpenExposure, RollRiskDay;
    RollBalance(a, m.dayKey);
    var planned := PlanOpen(b, a, m, symbol, side, volume, sl, tp).value;
    if RecordOpen(b, planned.0, planned.1, source, key).Ok? {
      OpenExplained(b, planned.0, planned.1, source, key);
    }
  }

  lemma CloseCoreAccounted(b: Books, a: Account, m: Market, index: nat, volume: Option<real>, id: string,
      complete: bool)
    requires Accounted(b) && SameMoney(a, b.account)
    requires CloseCore(b, a, m, index, volume, id, complete).Ok?
    ensures Accounted(CloseCore(b, a, m, index, volume, id, complete).value)
  {
    hide Accounted, PlanMarketClose, CloseEntries, ClosedPosition, AfterClose, PositionValid;
    var p := b.positions[index];
    AcceptedCloseShape(m, a, p, volume);
    CloseExplainedIff(b, a, index, PlanMarketClose(m, a, p, volume).value, id, complete);
  }

  lemma OpenMarketAccounted(b: Books, m: Market, v: Valuation, id: string, symbol: string, side: Side, volume: real,
                            sl: Option<real>, tp: Option<real>)
    requires Accounted(b) && OpenMarket(b, m, v, id, symbol, side, volume, sl, tp).Ok?
    ensures Accounted(OpenMarket(b, m, v, id, symbol, side, volume, sl, tp).value)
  {
    hide Accounted, RecordOpen, PlanOpen, Overlay;
    OverlayBalance(b, v, true);
    PlannedOpenAccounted(b, Overlay(b, v, true).value, m, symbol, side, volume, sl, tp, NewOrder(id),
        id + ":open:commission");
  }

  lemma ReverseAccounted(b: Books, m: Market, v: Valuation, id: string, index: nat, sl: Option<real>, tp: Option<real>)
    requires Accounted(b) && Reverse(b, m, v, id, index, sl, tp).Ok?
    ensures Accounted(Reverse(b, m, v, id, index, sl, tp).value)
  {
    hide Accounted, RecordOpen, PlanOpen, Overlay, CloseCore;
    OverlayBalance(b, v, false);
    var a, p := Overlay(b, v, false).value, b.positions[index];
    CloseCoreAccounted(b, a, m, index, None, ChildId(id, "close"), v.floatingPnl.Some?);
    var closed := CloseCore(b, a, m, index, None, ChildId(id, "close"), v.floatingPnl.Some?).value;
    PlannedOpenAccounted(closed, closed.account, m, p.symbol, Opposite(p.side), p.openVolume, sl, tp,
                         NewOrder(ChildId(id, "open")), ChildId(id, "open") + ":commission");
  }

  lemma ExecuteAccounted(b: Books, m: Market, v: Valuation, index: nat, tick: Tick)
    requires Accounted(b) && ExecutePending(b, m, v, index, tick).Ok?
    ensures Accounted(ExecutePending(b, m, v, index, tick).value)
  {
    hide Accounted, LoadOpenExposure, RecordOpen, PlanMarketOpen, RollRiskDay, Overlay, DetectAction, FillRespectsLimit;
    if index < |b.orders| && IsActive(b.orders[index].status) {
      OrdersAside(b, WithStatus(b, index, EXPIRED));
      OrdersAside(b, WithStatus(b, index, REJECTED));
      var o := b.orders[index];
      if DetectAction(o, tick, m.nowMs) == Some(FILL) {
        OverlayBalance(b, v, true);
        var a := Overlay(b, v, true).value;
        var e := LoadOpenExposure(b.positions, m, a.currency, o.symbol).value;
        var planned := PlanMarketOpen(m.(quote := Some(tick.quote)), RollRiskDay(a, m.dayKey), e, o.symbol, o.side,
            o.requestedVolume, o.stopLoss, o.takeProfit);
        if planned.Ok? && FillRespectsLimit(o, planned.value.fillPrice) {
          RollBalance(a, m.dayKey);
          OpenExplained(b, RollRiskDay(a, m.dayKey), planned.value, FilledOrder(index),
              "pending:" + DigitsOf(index) + ":commission");
        }
      }
    }
  }

  /** Orders, statuses and lifecycle events are not summed. */
  lemma OrdersAside(b: Books, r: Books)
    requires SameMoney(r.account, b.account) && r.positions == b.positions && r.deals == b.deals && r.ledger == b.ledger
    ensures Accounted(b) ==> Accounted(r)
  {
  }

  lemma MutateAccounted(b: Books, kind: EntryType, amount: real, key: string, reference: string)
    requires Accounted(b) && IsMutation(kind) && Mutate(b, kind, amount, key, reference).Ok?
    ensures Accounted(Mutate(b, kind, amount, key, reference).value)
  {
    hide Total, Tally, AllExplained, HasKey, MatchesReplay;
    var r := Mutate(b, kind, amount, key, reference).value;
    if r != b {
      TotalAppend(b.ledger, r.ledger[|b.ledger|], (), MutationAmount);
      TallyAppend(b.ledger, r.ledger[|b.ledger|], (), IsMutationEntry);
    }
  }

  /** Commands that trade nothing. */
  lemma OtherAccounted(b: Books, c: Command)
    requires Accounted(b) && WellTyped(c) && Outcome(b, c).Ok?
    requires !c.MutateCommand? && !c.OpenCommand? && !c.CloseCommand? && !c.ReverseCommand? && !c.ExecuteCommand?
    ensures Accounted(Outcome(b, c).value)
  {
    hide Accounted, CancelAll, Overlay, LoadOpenExposure, PlanPendingOrder, DetectAction, RollRiskDay;
    OrdersAside(b, Outcome(b, c).value);
  }

  lemma StepAccounted(b: Books, c: Command)
    requires Accounted(b) && WellTyped(c)
    ensures Accounted(Step(b, c))
  {
    hide Accounted, Mutate, OpenMarket, CloseCore, Reverse, PlacePending, CancelPending, ActivateStopLimit,
         ExecutePending, ExpirePending, Restrict, Activate, Resume, FinishClose, Overlay;
    if Outcome(b, c).Ok? {
      match c {
        case MutateCommand(kind, amount, key, reference) => MutateAccounted(b, kind, amount, key, reference);
        case OpenCommand(m, v, id, symbol, side, volume, sl, tp) =>
          OpenMarketAccounted(b, m, v, id, symbol, side, volume, sl, tp);
        case CloseCommand(m, v, id, position, volume) =>
          OverlayBalance(b, v, false);
          CloseCoreAccounted(b, Overlay(b, v, false).value, m, position, volume, id, v.floatingPnl.Some?);
        case ReverseCommand(m, v, id, position, sl, tp) => ReverseAccounted(b, m, v, id, position, sl, tp);
        case ExecuteCommand(m, v, order, tick) => ExecuteAccounted(b, m, v, order, tick);
        case _ => OtherAccounted(b, c);
      }
    }
  }

  lemma ProvisionedAccounted(reference: string, initialBalance: real, currency: string, leverage: int,
                             policy: TradingTypes.RiskPolicy, riskDayKey: string, activate: bool)
    ensures Accounted(Provisioned(reference, initialBalance, currency, leverage, policy, riskDayKey, activate))
  {
    TotalAppend([], Provisioned(reference, initialBalance, currency, leverage, policy, riskDayKey, activate).ledger[0],
        (), MutationAmount);
    TallyAppend([], Provisioned(reference, initialBalance, currency, leverage, policy, riskDayKey, activate).ledger[0],
        (), IsMutationEntry);
  }

  /** Main result: in every run the balance is what mutations brought in plus the profit less
      the commission of every deal, up to the rebates of closes; each position has realised,
      paid and closed exactly what its deals say, and the revision counts them all. */
  lemma {:induction false} RunIsAccounted(b: Books, cs: seq<Command>)
    requires Accounted(b) && AllWellTyped(cs)
    ensures Accounted(Run(b, cs))
  {
    hide Step, Accounted, WellTyped;
    if cs != [] {
      RunIsAccounted(b, cs[..|cs| - 1]);
      StepAccounted(Run(b, cs[..|cs| - 1]), cs[|cs| - 1]);
    }
  }

  /** And the deals explain the balance without exception exactly when no close of the run
      was recorded with a negative commission. */
  lemma RunIsExplainedIff(reference: string, initialBalance: real, currency: string, leverage: int,
                          policy: TradingTypes.RiskPolicy, riskDayKey: string, activate: bool, cs: seq<Command>)
    requires AllWellTyped(cs)
    ensures var r := Run(Provisioned(reference, initialBalance, currency, leverage, policy, riskDayKey, activate), cs);
            Explained(r) <==> ClosesCharged(r.deals)
  {
    hide Run, Provisioned, Accounted, Explained, ClosesCharged, WellTyped;
    var b := Provisioned(reference, initialBalance, currency, leverage, policy, riskDayKey, activate);
    ProvisionedAccounted(reference, initialBalance, currency, leverage, policy, riskDayKey, activate);
    RunIsAccounted(b, cs);
    ExplainedIff(Run(b, cs));
  }

  // ---- closes that charge ------------------------------------------------------

  /** No close of the command pays a commission to the client. */
  predicate ClosesCharge(c: Command) {
    (c.CloseCommand? ==> NoRebates(c.m)) && (c.ReverseCommand? ==> NoRebates(c.m))
  }

  lemma CloseCoreCharges(b: Books, a: Account, m: Market, index: nat, volume: Option<real>, id: string, complete: bool)
    requires ClosesCharged(b.deals) && NoRebates(m) && CloseCore(b, a, m, index, volume, id, complete).Ok?
    ensures ClosesCharged(CloseCore(b, a, m, index, volume, id, complete).value.deals)
  {
    hide PlanMarketClose, NoRebates, CloseEntries, ClosedPosition, AfterClose;
    ClosingCommission(m, a, b.positions[index], volume);
  }

  lemma RecordOpenCharges(b: Books, a: Account, plan: OpenPlan, source: Source, key: string)
    requires source.FilledOrder? ==> source.index < |b.orders|
    requires ClosesCharged(b.deals) && RecordOpen(b, a, plan, source, key).Ok?
    ensures ClosesCharged(RecordOpen(b, a, plan, source, key).value.deals)
  {
  }

  lemma ReverseCharges(b: Books, m: Market, v: Valuation, id: string, index: nat, sl: Option<real>, tp: Option<real>)
    requires ClosesCharged(b.deals) && NoRebates(m) && Reverse(b, m, v, id, index, sl, tp).Ok?
    ensures ClosesCharged(Reverse(b, m, v, id, index, sl, tp).value.deals)
  {
    hide RecordOpen, PlanOpen, Overlay, CloseCore, NoRebates, ClosesCharged;
    var a, p := Overlay(b, v, false).value, b.positions[index];
    CloseCoreCharges(b, a, m, index, None, ChildId(id, "close"), v.floatingPnl.Some?);
    var closed := CloseCore(b, a, m, index, None, ChildId(id, "close"), v.floatingPnl.Some?).value;
    var planned := PlanOpen(closed, closed.account, m, p.symbol, Opposite(p.side), p.openVolume, sl, tp).value;
    RecordOpenCharges(closed, planned.0, planned.1, NewOrder(ChildId(id, "open")), ChildId(id, "open") + ":commission");
  }

  lemma OpenMarketCharges(b: Books, m: Market, v: Valuation, id: string, symbol: string, side: Side, volume: real,
                          sl: Option<real>, tp: Option<real>)
    requires ClosesCharged(b.deals) && OpenMarket(b, m, v, id, symbol, side, volume, sl, tp).Ok?
    ensures ClosesCharged(OpenMarket(b, m, v, id, symbol, side, volume, sl, tp).value.deals)
  {
    hide RecordOpen, PlanOpen, Overlay, ClosesCharged;
    var planned := PlanOpen(b, Overlay(b, v, true).value, m, symbol, side, volume, sl, tp).value;
    RecordOpenCharges(b, planned.0, planned.1, NewOrder(id), id + ":open:commission");
  }

  lemma ExecuteCharges(b: Books, m: Market, v: Valuation, index: nat, tick: Tick)
    requires ClosesCharged(b.deals) && ExecutePending(b, m, v, index, tick).Ok?
    ensures ClosesCharged(ExecutePending(b, m, v, index, tick).value.deals)
  {
    hide LoadOpenExposure, RecordOpen, PlanMarketOpen, RollRiskDay, Overlay, DetectAction, FillRespectsLimit,
         ClosesCharged;
    var r := ExecutePending(b, m, v, index, tick).value;
    if r.deals != b.deals {
      var o := b.orders[index];
      var a := Overlay(b, v, true).value;
      var e := LoadOpenExposure(b.positions, m, a.currency, o.symbol).value;
      var planned := PlanMarketOpen(m.(quote := Some(tick.quote)), RollRiskDay(a, m.dayKey), e, o.symbol, o.side,
          o.requestedVolume, o.stopLoss, o.takeProfit);
      RecordOpenCharges(b, RollRiskDay(a, m.dayKey), planned.value, FilledOrder(index),
          "pending:" + DigitsOf(index) + ":commission");
    }
  }

  lemma StepCharges(b: Books, c: Command)
    requires ClosesCharged(b.deals) && WellTyped(c) && ClosesCharge(c)
    ensures ClosesCharged(Step(b, c).deals)
  {
    hide ClosesCharged, OpenMarket, CloseCore, Reverse, ExecutePending, Overlay, NoRebates, CancelAll, DetectAction,
         PlanPendingOrder, LoadOpenExposure, RollRiskDay;
    if Outcome(b, c).Ok? {
      match c {
        case OpenCommand(m, v, id, symbol, side, volume, sl, tp) =>
          OpenMarketCharges(b, m, v, id, symbol, side, volume, sl, tp);
        case CloseCommand(m, v, id, position, volume) =>
          CloseCoreCharges(b, Overlay(b, v, false).value, m, position, volume, id, v.floatingPnl.Some?);
        case ReverseCommand(m, v, id, position, sl, tp) => ReverseCharges(b, m, v, id, position, sl, tp);
        case ExecuteCommand(m, v, order, tick) => ExecuteCharges(b, m, v, order, tick);
        case _ =>
      }
    }
  }

  lemma {:induction false} RunCharges(b: Books, cs: seq<Command>)
    requires ClosesCharged(b.deals) && AllWellTyped(cs) && forall i :: 0 <= i < |cs| ==> ClosesCharge(cs[i])
    ensures ClosesCharged(Run(b, cs).deals)
  {
    hide Step, ClosesCharged, ClosesCharge, WellTyped;
    if cs != [] {
      RunCharges(b, cs[..|cs| - 1]);
      StepCharges(Run(b, cs[..|cs| - 1]), cs[|cs| - 1]);
    }
  }

  /** So in markets without rebates every run is explained. */
  lemma RunIsExplained(b: Books, cs: seq<Command>)
    requires Explained(b) && ClosesCharged(b.deals)
    requires AllWellTyped(cs) && forall i :: 0 <= i < |cs| ==> ClosesCharge(cs[i])
    ensures Explained(Run(b, cs))
  {
    hide Run, Summed, Recorded, ClosesCharged, ClosesCharge, WellTyped;
    NoRebateIff(b.deals);
    RunIsAccounted(b, cs);
    RunCharges(b, cs);
    ExplainedIff(Run(b, cs));
  }
}
