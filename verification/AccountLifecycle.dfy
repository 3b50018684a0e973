/** The status of an account through every run of lifecycle and trading commands
    (src/modules/trading/account-control.service.js). */
module AccountLifecycle {
  import opened Common
  import opened TradingTypes
  import opened RiskPolicy
  import opened ExecutionPlanner
  import opened PendingPlanner
  import opened Books

  /** Events chain from status to status and end where the account is. */
  predicate EventsChain(b: Books) {
    && b.lifecycle != [] && b.lifecycle[0].fromStatus.None?
    && (forall i :: 0 < i < |b.lifecycle| ==>
          && b.lifecycle[i].fromStatus == Some(b.lifecycle[i - 1].toStatus)
          && b.lifecycle[i].tradingBefore == Some(b.lifecycle[i - 1].tradingAfter))
    && b.lifecycle[|b.lifecycle| - 1].toStatus == b.account.status
    && b.lifecycle[|b.lifecycle| - 1].tradingAfter == b.account.tradingEnabled
  }

  predicate LifecycleSound(b: Books) {
    && (b.account.tradingEnabled <==> b.account.status == ACTIVE)
    && EventsChain(b)
    && (b.account.status == ACTIVE ==> b.account.federationEnabled)
  }

  /** The statuses an account can have after one more command. */
  predicate Follows(before: AccountStatus, after: AccountStatus) {
    && (before == CLOSED_ACCOUNT ==> after == CLOSED_ACCOUNT)
    && (before == BREACHED || before == DISABLED ==> after == before || after == CLOSED_ACCOUNT)
  }

  predicate SameControl(b: Books, r: Books) {
    && r.lifecycle == b.lifecycle && r.account.status == b.account.status
    && r.account.tradingEnabled == b.account.tradingEnabled
    && r.account.federationEnabled == b.account.federationEnabled
  }

  // ---- trading commands leave the status alone --------------------------------

  lemma OverlaySameControl(b: Books, v: Valuation, requireLive: bool)
    requires Overlay(b, v, requireLive).Ok?
    ensures SameControl(b, b.(account := Overlay(b, v, requireLive).value))
  {
  }

  lemma RecordOpenControl(b: Books, a: Account, m: Market, plan: OpenPlan, source: Source, key: string)
    requires source.FilledOrder? ==> source.index < |b.orders|
    requires SameControl(b, b.(account := a)) && RecordOpen(b, RollRiskDay(a, m.dayKey), plan, source, key).Ok?
    ensures SameControl(b, RecordOpen(b, RollRiskDay(a, m.dayKey), plan, source, key).value)
  {
    hide PositionValid, FreshOrder, FreshKeys, OpenEntries;
  }

  lemma CloseCoreControl(b: Books, a: Account, m: Market, index: nat, volume: Option<real>, id: string, complete: bool)
    requires SameControl(b, b.(account := a)) && CloseCore(b, a, m, index, volume, id, complete).Ok?
    ensures SameControl(b, CloseCore(b, a, m, index, volume, id, complete).value)
    ensures var r := CloseCore(b, a, m, index, volume, id, complete).value;
      index < |b.positions| && |r.positions| == |b.positions| && r.positions == b.positions[index := r.positions[index]]
      && b.positions[index].status == OPEN && (volume.None? ==> r.positions[index].status == CLOSED)
  {
    hide PlanMarketClose, FreshOrder, FreshKeys, CloseEntries, PositionValid;
    AcceptedCloseShape(m, a, b.positions[index], volume);
  }

  lemma TradingControl(b: Books, c: Command)
    requires WellTyped(c)
    requires !c.RestrictCommand? && !c.ActivateCommand? && !c.ResumeCommand? && !c.FinishCloseCommand?
    ensures SameControl(b, Step(b, c))
  {
    hide Overlay, CloseCore, RecordOpen, PlanMarketOpen, LoadOpenExposure, RollRiskDay, DetectAction, PlanPendingOrder,
         FillRespectsLimit, LoadPendingExposure, HasKey, MatchesReplay, FreshOrder;
    if Outcome(b, c).Ok? {
      match c {
        case OpenCommand(m, v, id, symbol, side, volume, sl, tp) =>
          OverlaySameControl(b, v, true);
          var a := Overlay(b, v, true).value;
          RecordOpenControl(b, a, m, PlanOpen(b, a, m, symbol, side, volume, sl, tp).value.1, NewOrder(id),
              id + ":open:commission");
        case CloseCommand(m, v, id, position, volume) =>
          OverlaySameControl(b, v, false);
          CloseCoreControl(b, Overlay(b, v, false).value, m, position, volume, id, v.floatingPnl.Some?);
        case ReverseCommand(m, v, id, position, sl, tp) => ReverseControl(b, m, v, id, position, sl, tp);
        case ExecuteCommand(m, v, order, tick) => ExecuteControl(b, m, v, order, tick);
        case _ =>
      }
    }
  }

  lemma ReverseControl(b: Books, m: Market, v: Valuation, id: string, index: nat, sl: Option<real>, tp: Option<real>)
    requires Reverse(b, m, v, id, index, sl, tp).Ok?
    ensures SameControl(b, Reverse(b, m, v, id, index, sl, tp).value)
  {
    hide Overlay, CloseCore, RecordOpen, PlanMarketOpen, LoadOpenExposure, RollRiskDay;
    OverlaySameControl(b, v, false);
    var a, p := Overlay(b, v, false).value, b.positions[index];
    CloseCoreControl(b, a, m, index, None, ChildId(id, "close"), v.floatingPnl.Some?);
    var closed := CloseCore(b, a, m, index, None, ChildId(id, "close"), v.floatingPnl.Some?).value;
    var planned := PlanOpen(closed, closed.account, m, p.symbol, Opposite(p.side), p.openVolume, sl, tp).value;
    RecordOpenControl(closed, closed.account, m, planned.1, NewOrder(ChildId(id, "open")),
        ChildId(id, "open") + ":commission");
  }

  lemma ExecuteControl(b: Books, m: Market, v: Valuation, index: nat, tick: Tick)
    requires ExecutePending(b, m, v, index, tick).Ok?
    ensures SameControl(b, ExecutePending(b, m, v, index, tick).value)
  {
    hide Overlay, RecordOpen, PlanMarketOpen, LoadOpenExposure, RollRiskDay, DetectAction, FillRespectsLimit;
    if index < |b.orders| && IsActive(b.orders[index].status)
        && DetectAction(b.orders[index], tick, m.nowMs) == Some(FILL) {
      var o := b.orders[index];
      OverlaySameControl(b, v, true);
      var a := Overlay(b, v, true).value;
      var e := LoadOpenExposure(b.positions, m, a.currency, o.symbol).value;
      var planned := PlanMarketOpen(m.(quote := Some(tick.quote)), RollRiskDay(a, m.dayKey), e, o.symbol, o.side,
          o.requestedVolume, o.stopLoss, o.takeProfit);
      if planned.Ok? && FillRespectsLimit(o, planned.value.fillPrice) {
        RecordOpenControl(b, a, m, planned.value, FilledOrder(index),
            "pending:" + DecimalText.DigitsOf(index) + ":commission");
      }
    }
  }

  // ---- every run -----------------------------------------------------------------

  lemma StepKeepsLifecycle(b: Books, c: Command)
    requires LifecycleSound(b) && WellTyped(c)
    ensures LifecycleSound(Step(b, c)) && Follows(b.account.status, Step(b, c).account.status)
  {
    hide LifecycleSound, Mutate, OpenMarket, CloseMarket, Reverse, PlacePending, CancelPending, ActivateStopLimit,
         ExecutePending, ExpirePending, Restrict, Activate, Resume, FinishClose;
    match c {
      case RestrictCommand(status, stage, cancelPending) => RestrictKeepsLifecycle(b, status, stage, cancelPending);
      case ActivateCommand => StatusKeepsLifecycle(b);
      case ResumeCommand => StatusKeepsLifecycle(b);
      case FinishCloseCommand => StatusKeepsLifecycle(b);
      case _ =>
        TradingControl(b, c);
        SameLifecycle(b, Step(b, c));
    }
  }

  lemma SameLifecycle(b: Books, r: Books)
    requires LifecycleSound(b) && SameControl(b, r)
    ensures LifecycleSound(r) && Follows(b.account.status, r.account.status)
  {
  }

  lemma RestrictKeepsLifecycle(b: Books, status: AccountStatus, stage: bool, cancelPending: bool)
    requires LifecycleSound(b) && (status == PAUSED || status == DISABLED || status == BREACHED)
    ensures LifecycleSound(Restrict(b, status, stage, cancelPending))
    ensures Follows(b.account.status, Restrict(b, status, stage, cancelPending).account.status)
  {
    assert b.lifecycle != [];
    hide CancelAll, SetStatus, EventsChain;
    var federation := if stage then false else b.account.federationEnabled;
    var pending := if cancelPending then b.(orders := CancelAll(b.orders)) else b;
    SetStatusKeeps(pending, status, false, federation);
    SameChain(b, pending.(account := pending.account.(federationEnabled := federation)));
    SameChain(b, pending);
  }

  lemma StatusKeepsLifecycle(b: Books)
    requires LifecycleSound(b)
    ensures Activate(b).Ok? ==>
              LifecycleSound(Activate(b).value) && Follows(b.account.status, Activate(b).value.account.status)
    ensures Resume(b).Ok? ==>
              LifecycleSound(Resume(b).value) && Follows(b.account.status, Resume(b).value.account.status)
    ensures LifecycleSound(FinishClose(b)) && Follows(b.account.status, FinishClose(b).account.status)
  {
    assert b.lifecycle != [];
    hide SetStatus, EventsChain;
    SetStatusKeeps(b, CLOSED_ACCOUNT, false, b.account.federationEnabled);
    SetStatusKeeps(b, ACTIVE, true, true);
    SetStatusKeeps(b, ACTIVE, true, b.account.federationEnabled);
  }

  lemma SetStatusKeeps(b: Books, status: AccountStatus, trading: bool, federation: bool)
    requires b.lifecycle != []
    ensures EventsChain(b) ==> EventsChain(SetStatus(b, status, trading, federation))
    ensures var r := SetStatus(b, status, trading, federation).account;
      r.status == status && r.tradingEnabled == trading && r.federationEnabled == federation
  {
  }

  lemma SameChain(b: Books, r: Books)
    requires r.lifecycle == b.lifecycle && r.account.status == b.account.status
    requires r.account.tradingEnabled == b.account.tradingEnabled
    ensures EventsChain(r) == EventsChain(b)
  {
  }

  /** In every run trading is enabled exactly when the account is ACTIVE, the
      lifecycle events chain to the current status, and BREACHED, DISABLED and
      CLOSED are left only towards CLOSED. */
  lemma {:induction false} RunKeepsLifecycle(b: Books, cs: seq<Command>, k: nat)
    requires LifecycleSound(b) && AllWellTyped(cs) && k <= |cs|
    ensures LifecycleSound(Run(b, cs))
    ensures Follows(Run(b, cs[..k]).account.status, Run(b, cs).account.status)
    decreases |cs|
  {
    hide Step, LifecycleSound, WellTyped;
    if |cs| == k {
      assert cs[..k] == cs;
      if cs != [] {
        RunKeepsLifecycle(b, cs[..|cs| - 1], 0);
        StepKeepsLifecycle(Run(b, cs[..|cs| - 1]), cs[|cs| - 1]);
      }
    } else {
      var init := cs[..|cs| - 1];
      assert init[..k] == cs[..k];
      RunKeepsLifecycle(b, init, k);
      StepKeepsLifecycle(Run(b, init), cs[|cs| - 1]);
    }
  }

  lemma ProvisionedLifecycle(reference: string, initialBalance: real, currency: string, leverage: int,
                             policy: TradingTypes.RiskPolicy, riskDayKey: string, activate: bool)
    ensures LifecycleSound(Provisioned(reference, initialBalance, currency, leverage, policy, riskDayKey, activate))
  {
  }

  // ---- closing an account with liquidation ---------------------------------------

  /** No new positions, and closed ones stay closed. */
  predicate OnlyCloses(before: seq<Position>, after: seq<Position>) {
    && |after| == |before|
    && forall i :: 0 <= i < |before| && before[i].status == CLOSED ==> after[i].status == CLOSED
  }

  /** Once an account is restricted no command can open a position on it. */
  lemma RestrictedOnlyCloses(b: Books, c: Command)
    requires WellTyped(c) && IsRestricted(b.account.status)
    ensures OnlyCloses(b.positions, Step(b, c).positions) && IsRestricted(Step(b, c).account.status)
  {
    hide Overlay, CloseCore, RecordOpen, PlanMarketOpen, LoadOpenExposure, DetectAction, PlanPendingOrder,
         FillRespectsLimit, LoadPendingExposure, HasKey, MatchesReplay, FreshOrder, CancelAll;
    if Outcome(b, c).Ok? {
      match c {
        case OpenCommand(m, v, id, symbol, side, volume, sl, tp) =>
          RefusesOpen(b, m, v, true, symbol, side, volume, sl, tp);
        case CloseCommand(m, v, id, position, volume) =>
          OverlaySameControl(b, v, false);
          CloseCoreControl(b, Overlay(b, v, false).value, m, position, volume, id, v.floatingPnl.Some?);
        case ReverseCommand(m, v, id, position, sl, tp) => RefusesReverse(b, m, v, id, position, sl, tp);
        case ExecuteCommand(m, v, order, tick) => RefusesFill(b, m, v, order, tick);
        case _ =>
      }
    }
  }

  lemma RefusesOpen(b: Books, m: Market, v: Valuation, live: bool, symbol: string, side: Side, volume: real,
      sl: Option<real>, tp: Option<real>)
    requires IsRestricted(b.account.status) && Overlay(b, v, live).Ok?
    ensures PlanOpen(b, Overlay(b, v, live).value, m, symbol, side, volume, sl, tp).Err?
  {
    hide PlanMarketOpen, LoadOpenExposure, Overlay;
    OverlaySameControl(b, v, live);
    var a := Overlay(b, v, live).value;
    RefusesPlan(b, a, m, symbol, side, volume, sl, tp);
  }

  lemma RefusesPlan(b: Books, a: Account, m: Market, symbol: string, side: Side, volume: real, sl: Option<real>,
      tp: Option<real>)
    requires a.status != ACTIVE
    ensures PlanOpen(b, a, m, symbol, side, volume, sl, tp).Err?
  {
    hide PlanMarketOpen, LoadOpenExposure;
    var e := LoadOpenExposure(b.positions, m, a.currency, symbol);
    if e.Ok? {
      RefusesPriced(m, a, m.dayKey, e.value, symbol, side, volume, sl, tp);
    }
  }

  lemma RefusesPriced(m: Market, a: Account, dayKey: string, e: Exposure, symbol: string, side: Side, volume: real,
      sl: Option<real>, tp: Option<real>)
    requires a.status != ACTIVE
    ensures PlanMarketOpen(m, RollRiskDay(a, dayKey), e, symbol, side, volume, sl, tp) == Err(ACCOUNT_NOT_ACTIVE)
  {
    hide ValidateQuote, ValidateVolume, PriceOpen, ValidatePreTrade;
  }

  lemma RefusesReverse(b: Books, m: Market, v: Valuation, id: string, index: nat, sl: Option<real>, tp: Option<real>)
    requires IsRestricted(b.account.status)
    ensures Reverse(b, m, v, id, index, sl, tp).Err?
  {
    hide Overlay, CloseCore, RecordOpen, PlanOpen;
    if Overlay(b, v, false).Ok? && index < |b.positions| {
      OverlaySameControl(b, v, false);
      var a, p := Overlay(b, v, false).value, b.positions[index];
      var r := CloseCore(b, a, m, index, None, ChildId(id, "close"), v.floatingPnl.Some?);
      if r.Ok? {
        CloseCoreControl(b, a, m, index, None, ChildId(id, "close"), v.floatingPnl.Some?);
        RefusesPlan(r.value, r.value.account, m, p.symbol, Opposite(p.side), p.openVolume, sl, tp);
      }
    }
  }

  lemma RefusesFill(b: Books, m: Market, v: Valuation, index: nat, tick: Tick)
    requires IsRestricted(b.account.status) && ExecutePending(b, m, v, index, tick).Ok?
    ensures ExecutePending(b, m, v, index, tick).value.positions == b.positions
    ensures SameControl(b, ExecutePending(b, m, v, index, tick).value)
  {
    hide Overlay, RecordOpen, PlanMarketOpen, LoadOpenExposure, DetectAction, FillRespectsLimit, RollRiskDay;
    ExecuteControl(b, m, v, index, tick);
    if index < |b.orders| && IsActive(b.orders[index].status)
        && DetectAction(b.orders[index], tick, m.nowMs) == Some(FILL) {
      var o := b.orders[index];
      OverlaySameControl(b, v, true);
      var a := Overlay(b, v, true).value;
      var e := LoadOpenExposure(b.positions, m, a.currency, o.symbol).value;
      RefusesPriced(m.(quote := Some(tick.quote)), a, m.dayKey, e, o.symbol, o.side, o.requestedVolume, o.stopLoss,
          o.takeProfit);
    }
  }

  lemma {:induction false} RestrictedRunOnlyCloses(b: Books, cs: seq<Command>, k: nat)
    requires AllWellTyped(cs) && IsRestricted(b.account.status) && k <= |cs|
    ensures OnlyCloses(Run(b, cs[..k]).positions, Run(b, cs).positions)
    ensures |Run(b, cs).positions| == |b.positions| && IsRestricted(Run(b, cs).account.status)
    decreases |cs|
  {
    hide Step, WellTyped, IsRestricted;
    if cs == [] {
      assert cs[..k] == cs;
    } else {
      var init := cs[..|cs| - 1];
      RestrictedRunOnlyCloses(b, init, if k < |cs| then k else |init|);
      RestrictedOnlyCloses(Run(b, init), cs[|cs| - 1]);
      if k == |cs| {
        assert cs[..k] == cs;
      } else {
        assert init[..k] == cs[..k];
      }
    }
  }

  /** Positions listed open and later seen closed leave nothing open, whatever other
      commands ran in between. */
  lemma SeenClosedStaysClosed(b: Books, cs: seq<Command>, atList: nat)
    requires AllWellTyped(cs) && IsRestricted(b.account.status) && atList <= |cs|
    requires var listed := Run(b, cs[..atList]).positions;
             forall p :: 0 <= p < |listed| && listed[p].status == OPEN ==> SeenClosed(b, cs, atList, p)
    ensures forall p :: 0 <= p < |Run(b, cs).positions| ==> Run(b, cs).positions[p].status == CLOSED
  {
    hide Run, IsRestricted;
    RestrictedRunOnlyCloses(b, cs, atList);
    forall p | 0 <= p < |Run(b, cs).positions| ensures Run(b, cs).positions[p].status == CLOSED {
      if Run(b, cs[..atList]).positions[p].status == OPEN {
        assert SeenClosed(b, cs, atList, p);
        var k :| atList <= k <= |cs| && ClosedAt(b, cs, atList, p, k);
        RestrictedRunOnlyCloses(b, cs, k);
      }
    }
  }

  /** Position p is closed at some later point. */
  predicate SeenClosed(b: Books, cs: seq<Command>, atList: nat, p: nat)
    requires AllWellTyped(cs)
  {
    exists k :: atList <= k <= |cs| && ClosedAt(b, cs, atList, p, k)
  }

  predicate ClosedAt(b: Books, cs: seq<Command>, atList: nat, p: nat, k: nat)
    requires AllWellTyped(cs)
  {
    atList <= k <= |cs| && p < |Run(b, cs[..k]).positions| && Run(b, cs[..k]).positions[p].status == CLOSED
  }

  /** A liquidating close that commits has closed its position in full. */
  lemma LiquidationCloses(b: Books, m: Market, v: Valuation, id: string, index: nat)
    requires CloseMarket(b, m, v, id, index, None).Ok?
    ensures index < |b.positions| == |CloseMarket(b, m, v, id, index, None).value.positions|
    ensures CloseMarket(b, m, v, id, index, None).value.positions[index].status == CLOSED
  {
    hide CloseCore, Overlay;
    OverlaySameControl(b, v, false);
    CloseCoreControl(b, Overlay(b, v, false).value, m, index, None, id, v.floatingPnl.Some?);
  }

  /** The command at k is a liquidating close of position p, and it commits. */
  predicate Liquidates(b: Books, cs: seq<Command>, p: nat, k: nat)
    requires AllWellTyped(cs)
  {
    && k < |cs| && cs[k].CloseCommand? && cs[k].position == p && cs[k].closeVolume.None?
    && Outcome(Run(b, cs[..k]), cs[k]).Ok?
  }

  predicate Liquidated(b: Books, cs: seq<Command>, atList: nat, p: nat)
    requires AllWellTyped(cs)
  {
    exists k :: atList <= k < |cs| && Liquidates(b, cs, p, k)
  }

  lemma LiquidatedIsSeenClosed(b: Books, cs: seq<Command>, atList: nat, p: nat)
    requires AllWellTyped(cs) && atList <= |cs| && Liquidated(b, cs, atList, p)
    ensures SeenClosed(b, cs, atList, p)
  {
    hide CloseMarket, Run;
    var k :| atList <= k < |cs| && Liquidates(b, cs, p, k);
    var c := cs[k];
    var before := Run(b, cs[..k]);
    assert Outcome(before, c) == CloseMarket(before, c.m, c.v, c.id, p, None);
    LiquidationCloses(before, c.m, c.v, c.id, p);
    OneMoreStep(b, cs, k);
    assert ClosedAt(b, cs, atList, p, k + 1);
  }

  lemma OneMoreStep(b: Books, cs: seq<Command>, k: nat)
    requires AllWellTyped(cs) && k < |cs|
    ensures Run(b, cs[..k + 1]) == Step(Run(b, cs[..k]), cs[k])
  {
    hide Step;
    assert cs[..k + 1][..k] == cs[..k];
  }

  /** Main result on close(): the account is restricted, the open positions are listed, each of
      them gets a liquidating close that commits, and the account becomes CLOSED. Then no
      position is open, whatever other commands ran in between. */
  lemma CloseLeavesNothingOpen(b: Books, cs: seq<Command>, atList: nat)
    requires AllWellTyped(cs) && IsRestricted(b.account.status) && atList <= |cs|
    requires var listed := Run(b, cs[..atList]).positions;
             forall p :: 0 <= p < |listed| && listed[p].status == OPEN ==> Liquidated(b, cs, atList, p)
    ensures var r := FinishClose(Run(b, cs));
            r.account.status == CLOSED_ACCOUNT && forall p :: 0 <= p < |r.positions| ==> r.positions[p].status == CLOSED
  {
    hide Run, IsRestricted, Liquidated, SeenClosed;
    forall p | 0 <= p < |Run(b, cs[..atList]).positions| && Run(b, cs[..atList]).positions[p].status == OPEN
      ensures SeenClosed(b, cs, atList, p)
    {
      LiquidatedIsSeenClosed(b, cs, atList, p);
    }
    SeenClosedStaysClosed(b, cs, atList);
  }

  // ---- closing an account without liquidation -------------------------------------

  predicate NothingOpen(b: Books) { forall i :: 0 <= i < |b.positions| ==> b.positions[i].status == CLOSED }

  /** On a restricted account only a close touches a position. */
  lemma OnlyClosesTouch(b: Books, c: Command)
    requires WellTyped(c) && IsRestricted(b.account.status) && !c.CloseCommand?
    ensures Step(b, c).positions == b.positions && IsRestricted(Step(b, c).account.status)
  {
    RestrictedOnlyCloses(b, c);
    hide Overlay, RecordOpen, PlanOpen, Reverse, ExecutePending, DetectAction, PlanPendingOrder, LoadOpenExposure,
         LoadPendingExposure, HasKey, MatchesReplay, FreshOrder, CancelAll;
    if Outcome(b, c).Ok? {
      match c {
        case OpenCommand(m, v, id, symbol, side, volume, sl, tp) =>
          RefusesOpen(b, m, v, true, symbol, side, volume, sl, tp);
        case ReverseCommand(m, v, id, position, sl, tp) => RefusesReverse(b, m, v, id, position, sl, tp);
        case ExecuteCommand(m, v, order, tick) => RefusesFill(b, m, v, order, tick);
        case _ =>
      }
    }
  }

  lemma {:induction false} RunTouchesNone(b: Books, cs: seq<Command>)
    requires AllWellTyped(cs) && IsRestricted(b.account.status)
    requires forall i :: 0 <= i < |cs| ==> !cs[i].CloseCommand?
    ensures Run(b, cs).positions == b.positions && IsRestricted(Run(b, cs).account.status)
  {
    hide Step, WellTyped, IsRestricted;
    if cs != [] {
      RunTouchesNone(b, cs[..|cs| - 1]);
      OnlyClosesTouch(Run(b, cs[..|cs| - 1]), cs[|cs| - 1]);
    }
  }

  lemma RestrictIsRestricted(b: Books)
    ensures Restrict(b, DISABLED, false, true).positions == b.positions
    ensures IsRestricted(Restrict(b, DISABLED, false, true).account.status)
  {
    hide CancelAll;
  }

  /** Main result on close() without liquidation: whatever runs between the restriction and the
      end, short of a close, the account becomes CLOSED with nothing open if and only if nothing
      was open when it was restricted. The count that is taken has to be of that moment. */
  lemma CloseWithoutLiquidationIff(b: Books, cs: seq<Command>)
    requires AllWellTyped(cs) && forall i :: 0 <= i < |cs| ==> !cs[i].CloseCommand?
    ensures var r := FinishClose(Run(Restrict(b, DISABLED, false, true), cs));
            r.account.status == CLOSED_ACCOUNT && (NothingOpen(r) <==> NothingOpen(b))
  {
    hide Run, Restrict, IsRestricted;
    RestrictIsRestricted(b);
    RunTouchesNone(Restrict(b, DISABLED, false, true), cs);
  }

  /** With closes in between, nothing open at the restriction is still enough. */
  lemma NothingOpenStays(b: Books, cs: seq<Command>)
    requires AllWellTyped(cs) && NothingOpen(b)
    ensures NothingOpen(FinishClose(Run(Restrict(b, DISABLED, false, true), cs)))
  {
    hide Run, Restrict, IsRestricted;
    RestrictIsRestricted(b);
    RestrictedRunOnlyCloses(Restrict(b, DISABLED, false, true), cs, 0);
    assert Run(Restrict(b, DISABLED, false, true), cs[..0]) == Restrict(b, DISABLED, false, true) by {
      RunsNothing(Restrict(b, DISABLED, false, true));
      assert cs[..0] == [];
    }
  }

  lemma RunsNothing(b: Books)
    ensures Run(b, []) == b
  {
  }

  // ---- restricting an account with its orders cancelled ---------------------------

  predicate NothingPending(b: Books) { forall i :: 0 <= i < |b.orders| ==> !IsActive(b.orders[i].status) }

  /** No command brings a pending order to a restricted account without any. */
  lemma StepStaysQuiet(b: Books, c: Command)
    requires WellTyped(c) && IsRestricted(b.account.status) && NothingPending(b)
    ensures NothingPending(Step(b, c))
  {
    hide Overlay, CloseCore, RecordOpen, PlanMarketOpen, LoadOpenExposure, DetectAction, PlanPendingOrder,
         FillRespectsLimit, LoadPendingExposure, HasKey, MatchesReplay, FreshOrder, RollRiskDay;
    if Outcome(b, c).Ok? {
      match c {
        case OpenCommand(m, v, id, symbol, side, volume, sl, tp) =>
          RefusesOpen(b, m, v, true, symbol, side, volume, sl, tp);
        case CloseCommand(m, v, id, position, volume) =>
          CloseCoreQuiet(b, Overlay(b, v, false).value, m, position, volume, id, v.floatingPnl.Some?);
        case ReverseCommand(m, v, id, position, sl, tp) => RefusesReverse(b, m, v, id, position, sl, tp);
        case PlacePendingCommand(m, v, place) => RefusesPlacement(b, m, v, place);
        case _ =>
      }
    }
  }

  lemma CloseCoreQuiet(b: Books, a: Account, m: Market, index: nat, volume: Option<real>, id: string, complete: bool)
    requires NothingPending(b) && CloseCore(b, a, m, index, volume, id, complete).Ok?
    ensures NothingPending(CloseCore(b, a, m, index, volume, id, complete).value)
  {
    hide PlanMarketClose, FreshOrder, FreshKeys, CloseEntries, ClosedPosition, PositionValid, AfterClose;
  }

  lemma RefusesPlacement(b: Books, m: Market, v: Valuation, c: PlaceCommand)
    requires IsRestricted(b.account.status)
    ensures PlacePending(b, m, v, c).Err?
  {
    hide Overlay, LoadOpenExposure, LoadPendingExposure;
    if Overlay(b, v, true).Ok? {
      OverlaySameControl(b, v, true);
      RefusesOrder(m, Overlay(b, v, true).value, c, b);
    }
  }

  lemma RefusesOrder(m: Market, a: Account, c: PlaceCommand, b: Books)
    requires a.status != ACTIVE
    ensures forall e, pending :: PlanPendingOrder(m, RollRiskDay(a, m.dayKey), c, e, pending).Err?
  {
    hide ValidateQuote, ValidateVolume, ValidatePreTrade;
  }

  /** Once a restriction has cancelled the pending orders, none is ever active again. */
  lemma {:induction false} RestrictedStaysQuiet(b: Books, status: AccountStatus, stage: bool, cs: seq<Command>)
    requires status == BREACHED || status == DISABLED
    requires AllWellTyped(cs)
    ensures var r := Run(Restrict(b, status, stage, true), cs);
            NothingPending(r) && IsRestricted(r.account.status)
  {
    hide Step, WellTyped;
    if cs == [] {
      RestrictQuiets(b, status, stage);
    } else {
      hide Restrict, NothingPending, IsRestricted;
      RestrictedStaysQuiet(b, status, stage, cs[..|cs| - 1]);
      var before := Run(Restrict(b, status, stage, true), cs[..|cs| - 1]);
      StepStaysQuiet(before, cs[|cs| - 1]);
      RestrictedOnlyCloses(before, cs[|cs| - 1]);
    }
  }

  lemma RestrictQuiets(b: Books, status: AccountStatus, stage: bool)
    requires status == BREACHED || status == DISABLED
    ensures NothingPending(Restrict(b, status, stage, true))
    ensures IsRestricted(Restrict(b, status, stage, true).account.status)
  {
  }
}
