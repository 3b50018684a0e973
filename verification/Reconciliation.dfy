/** #checkAccount of src/modules/operations/reconciliation.service.js, and the
    proof that it finds nothing to report in any run of the services. */
module Reconciliation {
  import opened Common
  import opened TradingTypes
  import opened RiskPolicy
  import opened ExecutionPlanner
  import opened PendingPlanner
  import opened Books
  import opened DecimalText

  datatype Issue =
    | LEDGER_MISSING | LEDGER_OPENING_BALANCE_NONZERO | LEDGER_CHAIN_BROKEN(entry: nat)
    | LEDGER_MATH_MISMATCH(entry: nat)
    | LEDGER_CURRENCY_MISMATCH(entry: nat) | LEDGER_BALANCE_MISMATCH | USED_MARGIN_MISMATCH
    | FILLED_ORDER_WITHOUT_DEAL(order: nat) | DEAL_ORDER_REFERENCE_MISSING(deal: nat)
    | DEAL_POSITION_REFERENCE_MISSING(deal: nat)

  // ---- what it means for the records to agree --------------------------------

  /** Every entry continues where the one before it ended. */
  predicate Linked(ledger: seq<Entry>) {
    forall i :: 0 < i < |ledger| ==> ledger[i].balanceBefore == ledger[i - 1].balanceAfter
  }

  /** The entries start from zero and add up, each for itself, in the account's currency. */
  predicate AddsUp(ledger: seq<Entry>, currency: string) {
    && (ledger != [] ==> ledger[0].balanceBefore == 0.0)
    && (forall i :: 0 <= i < |ledger| ==> ledger[i].balanceBefore + ledger[i].amount == ledger[i].balanceAfter)
    && (forall i :: 0 <= i < |ledger| ==> ledger[i].currency == currency)
  }

  predicate Chained(ledger: seq<Entry>, currency: string) { Linked(ledger) && AddsUp(ledger, currency) }

  predicate EndsAt(ledger: seq<Entry>, balance: real) {
    ledger != [] && ledger[|ledger| - 1].balanceAfter == balance
  }

  predicate HasDeal(deals: seq<Deal>, order: nat) {
    exists d :: 0 <= d < |deals| && deals[d].order == order
  }

  predicate FilledOrdersHaveDeals(orders: seq<Order>, deals: seq<Deal>) {
    forall i :: 0 <= i < |orders| && orders[i].status == FILLED ==> HasDeal(deals, i)
  }

  predicate DealsResolve(b: Books) {
    forall d :: 0 <= d < |b.deals| ==> b.deals[d].order < |b.orders| && b.deals[d].position < |b.positions|
  }

  predicate Reconciled(b: Books) {
    && Chained(b.ledger, b.account.currency)
    && EndsAt(b.ledger, b.account.balance)
    && b.account.usedMargin == OpenMargin(b.positions)
    && FilledOrdersHaveDeals(b.orders, b.deals)
    && DealsResolve(b)
  }

  predicate PositionsValid(ps: seq<Position>) { forall i :: 0 <= i < |ps| ==> PositionValid(ps[i]) }

  /** All of it but the balance at the end of the ledger: margins, references, and a ledger
      whose entries add up. */
  predicate InOrder(b: Books) {
    && b.account.usedMargin == OpenMargin(b.positions) && PositionsValid(b.positions)
    && b.ledger != [] && AddsUp(b.ledger, b.account.currency)
    && FilledOrdersHaveDeals(b.orders, b.deals) && DealsResolve(b)
  }

  /** The ledger is one chain that ends at the balance. */
  predicate LedgerAgrees(b: Books) { Linked(b.ledger) && EndsAt(b.ledger, b.account.balance) }

  predicate Sound(b: Books) { InOrder(b) && LedgerAgrees(b) }

  lemma ReconciledIff(b: Books)
    ensures Sound(b) ==> Reconciled(b)
    ensures InOrder(b) ==> (Reconciled(b) <==> LedgerAgrees(b))
  {
  }

  // ---- the check --------------------------------------------------------------

  /** The two issues a balance that has run away from its ledger shows up as. */
  predicate IsBalanceIssue(i: Issue) { i.LEDGER_CHAIN_BROKEN? || i.LEDGER_BALANCE_MISMATCH? }

  method CheckAccount(b: Books) returns (issues: seq<Issue>)
    ensures issues == [] <==> Reconciled(b)
    ensures InOrder(b) ==> forall i :: 0 <= i < |issues| ==> IsBalanceIssue(issues[i])
  {
    issues := CheckLedger(b);
    var expectedUsedMargin := 0.0;
    for i := 0 to |b.positions|
      invariant expectedUsedMargin == OpenMargin(b.positions[..i])
    {
      assert b.positions[..i + 1][..i] == b.positions[..i];
      if b.positions[i].status == OPEN {
        expectedUsedMargin := expectedUsedMargin + b.positions[i].margin;
      }
    }
    assert b.positions[..|b.positions|] == b.positions;
    if expectedUsedMargin != b.account.usedMargin {
      issues := issues + [USED_MARGIN_MISMATCH];
    }
    var references := CheckReferences(b);
    issues := issues + references;
  }

  method CheckLedger(b: Books) returns (issues: seq<Issue>)
    ensures issues == [] <==> Chained(b.ledger, b.account.currency) && EndsAt(b.ledger, b.account.balance)
    ensures b.ledger != [] && AddsUp(b.ledger, b.account.currency) ==>
              forall i :: 0 <= i < |issues| ==> IsBalanceIssue(issues[i])
  {
    issues := [];
    if b.ledger == [] {
      return [LEDGER_MISSING];
    }
    var previousAfter: Option<real> := None;
    for i := 0 to |b.ledger|
      invariant issues == [] <==> Chained(b.ledger[..i], b.account.currency)
      invariant previousAfter == if i == 0 then None else Some(b.ledger[i - 1].balanceAfter)
      invariant AddsUp(b.ledger, b.account.currency) ==> forall k :: 0 <= k < |issues| ==> IsBalanceIssue(issues[k])
    {
      ghost var chained := Chained(b.ledger[..i], b.account.currency);
      var entry := b.ledger[i];
      if i == 0 && entry.balanceBefore != 0.0 {
        issues := issues + [LEDGER_OPENING_BALANCE_NONZERO];
      }
      if previousAfter.Some? && entry.balanceBefore != previousAfter.value {
        issues := issues + [LEDGER_CHAIN_BROKEN(i)];
      }
      if entry.balanceBefore + entry.amount != entry.balanceAfter {
        issues := issues + [LEDGER_MATH_MISMATCH(i)];
      }
      if entry.currency != b.account.currency {
        issues := issues + [LEDGER_CURRENCY_MISMATCH(i)];
      }
      previousAfter := Some(entry.balanceAfter);
      ChainedNext(b.ledger, i, b.account.currency);
    }
    assert b.ledger[..|b.ledger|] == b.ledger;
    if previousAfter.Some? && previousAfter.value != b.account.balance {
      issues := issues + [LEDGER_BALANCE_MISMATCH];
    }
  }

  lemma ChainedNext(ledger: seq<Entry>, i: nat, currency: string)
    requires i < |ledger|
    ensures Chained(ledger[..i + 1], currency) <==>
      && Chained(ledger[..i], currency)
      && ledger[i].balanceBefore == (if i == 0 then 0.0 else ledger[i - 1].balanceAfter)
      && ledger[i].balanceBefore + ledger[i].amount == ledger[i].balanceAfter
      && ledger[i].currency == currency
  {
    var s, t := ledger[..i], ledger[..i + 1];
    assert forall k :: 0 <= k < i ==> s[k] == t[k];
    assert t[i] == ledger[i];
    if Chained(t, currency) {
      assert i > 0 ==> s[0] == t[0];
    }
  }

  method CheckReferences(b: Books) returns (issues: seq<Issue>)
    ensures issues == [] <==> FilledOrdersHaveDeals(b.orders, b.deals) && DealsResolve(b)
  {
    issues := [];
    var dealOrderIds := set d | 0 <= d < |b.deals| :: b.deals[d].order;
    for i := 0 to |b.orders|
      invariant issues == [] <==> forall k :: 0 <= k < i && b.orders[k].status == FILLED ==> HasDeal(b.deals, k)
    {
      if b.orders[i].status == FILLED && i !in dealOrderIds {
        issues := issues + [FILLED_ORDER_WITHOUT_DEAL(i)];
      }
    }
    ghost var ordersFine := issues == [];
    for d := 0 to |b.deals|
      invariant issues == [] <==>
        ordersFine && forall k :: 0 <= k < d ==> b.deals[k].order < |b.orders| && b.deals[k].position < |b.positions|
    {
      if b.deals[d].order >= |b.orders| {
        issues := issues + [DEAL_ORDER_REFERENCE_MISSING(d)];
      }
      if b.deals[d].position >= |b.positions| {
        issues := issues + [DEAL_POSITION_REFERENCE_MISSING(d)];
      }
    }
  }

  // ---- what every command keeps ------------------------------------------------

  /** No opening from this deal on pays the client a commission. */
  predicate OpeningsCharged(deals: seq<Deal>, from: nat) {
    forall d :: from <= d < |deals| ==> deals[d].kind == OPENING ==> deals[d].commission >= 0.0
  }

  /** The chain is broken, or the balance has run ahead of it. */
  predicate Skewed(b: Books) {
    b.ledger != [] && (!Linked(b.ledger) || b.ledger[|b.ledger| - 1].balanceAfter < b.account.balance)
  }

  /** What becomes of the ledger: skewed once an opening pays a rebate, and then for good. */
  predicate Settles(b: Books, r: Books) {
    && b.deals <= r.deals
    && (Skewed(b) ==> Skewed(r))
    && (LedgerAgrees(b) ==> if OpeningsCharged(r.deals, |b.deals|) then LedgerAgrees(r) else Skewed(r))
  }

  predicate Keeps(b: Books, r: Books) { (InOrder(b) ==> InOrder(r)) && Settles(b, r) }

  lemma KeepsSelf(b: Books)
    ensures Keeps(b, b)
  {
  }

  lemma KeepsBoth(b: Books, c: Books, r: Books)
    requires Keeps(b, c) && Keeps(c, r)
    ensures Keeps(b, r)
  {
    hide InOrder, LedgerAgrees, Skewed, OpeningsCharged;
    ChargedInParts(b.deals, c.deals, r.deals);
  }

  lemma ChargedInParts(a: seq<Deal>, b: seq<Deal>, c: seq<Deal>)
    requires a <= b <= c
    ensures OpeningsCharged(c, |a|) <==> OpeningsCharged(b, |a|) && OpeningsCharged(c, |b|)
  {
    assert forall d :: 0 <= d < |b| ==> b[d] == c[d];
  }

  /** The account a transaction works on: same balance and currency, and its margin in step
      with the positions. */
  predicate InStep(b: Books, a: Account) {
    && a.balance == b.account.balance && a.currency == b.account.currency
    && (b.account.usedMargin == OpenMargin(b.positions) ==> a.usedMargin == OpenMargin(b.positions))
  }

  lemma OverlayInStep(b: Books, v: Valuation, requireLive: bool)
    ensures Overlay(b, v, requireLive).Ok? ==> InStep(b, Overlay(b, v, requireLive).value)
  {
  }

  lemma RollInStep(b: Books, a: Account, dayKey: string)
    requires InStep(b, a)
    ensures InStep(b, RollRiskDay(a, dayKey))
  {
  }

  lemma LedgerAppend(ledger: seq<Entry>, es: seq<Entry>, currency: string, before: real, after: real)
    requires es == [] ==> after == before
    requires es != [] ==> es[0].balanceBefore == before && es[|es| - 1].balanceAfter == after
    requires Linked(es) && forall i :: 0 <= i < |es| ==>
               es[i].balanceBefore + es[i].amount == es[i].balanceAfter && es[i].currency == currency
    ensures ledger != [] && AddsUp(ledger, currency) ==> AddsUp(ledger + es, currency)
    ensures Linked(ledger) && EndsAt(ledger, before) ==> Linked(ledger + es) && EndsAt(ledger + es, after)
  {
    var t, n := ledger + es, |ledger|;
    if Linked(ledger) && EndsAt(ledger, before) {
      forall i | 0 < i < |t| ensures t[i].balanceBefore == t[i - 1].balanceAfter {
        if i == n {
          assert t[i] == es[0];
        } else if i > n {
          assert t[i] == es[i - n] && t[i - 1] == es[i - n - 1];
        }
      }
    }
  }

  /** A skewed ledger stays skewed: a first new entry starts from the balance it found, and
      without one the balance does not fall. */
  lemma SkewStays(b: Books, r: Books)
    requires Skewed(b) && b.ledger <= r.ledger
    requires |r.ledger| == |b.ledger| ==> r.account.balance >= b.account.balance
    requires |r.ledger| > |b.ledger| ==> r.ledger[|b.ledger|].balanceBefore == b.account.balance
    ensures Skewed(r)
  {
    assert forall i :: 0 <= i < |b.ledger| ==> r.ledger[i] == b.ledger[i];
    assert Linked(r.ledger) ==> Linked(b.ledger);
  }

  lemma DealsAfterAppend(orders: seq<Order>, deals: seq<Deal>, more: seq<Order>, deal: Deal)
    requires FilledOrdersHaveDeals(orders, deals)
    requires |more| >= |orders|
    requires forall i :: 0 <= i < |more| && more[i].status == FILLED ==>
      i == deal.order || (i < |orders| && orders[i].status == FILLED)
    ensures FilledOrdersHaveDeals(more, deals + [deal])
  {
    var t := deals + [deal];
    forall i | 0 <= i < |more| && more[i].status == FILLED ensures HasDeal(t, i) {
      if i == deal.order {
        assert t[|deals|].order == i;
      } else {
        var d :| 0 <= d < |deals| && deals[d].order == i;
        assert t[d].order == i;
      }
    }
  }

  lemma {:induction false} OpenMarginNonNegative(ps: seq<Position>)
    requires forall i :: 0 <= i < |ps| && ps[i].status == OPEN ==> ps[i].margin >= 0.0
    ensures OpenMargin(ps) >= 0.0
  {
    if ps != [] {
      OpenMarginNonNegative(ps[..|ps| - 1]);
    }
  }

  // ---- openings ------------------------------------------------------------------

  lemma OpenInOrder(b: Books, a: Account, plan: OpenPlan, source: Source, key: string)
    requires InOrder(b) && InStep(b, a)
    requires source.FilledOrder? ==> source.index < |b.orders|
    requires RecordOpen(b, a, plan, source, key).Ok?
    ensures InOrder(RecordOpen(b, a, plan, source, key).value)
  {
    hide PositionValid, FreshOrder, FreshKeys, Total, AddsUp, FilledOrdersHaveDeals;
    var r := RecordOpen(b, a, plan, source, key).value;
    var position := OpenedPosition(plan, if source.NewOrder? then |b.orders| else source.index);
    TotalAppend(b.positions, position, (), OpenMarginOf);
    DealsAfterAppend(b.orders, b.deals, r.orders, r.deals[|b.deals|]);
    OpenLedger(b, a, plan, key, DigitsOf(|b.deals|));
  }

  lemma OpenLedger(b: Books, a: Account, plan: OpenPlan, key: string, reference: string)
    requires b.ledger != [] && a.balance == b.account.balance && a.currency == b.account.currency
    ensures var ledger, after := b.ledger + OpenEntries(a, plan, key, reference), AfterOpen(a, plan).balance;
            && (AddsUp(b.ledger, a.currency) ==> AddsUp(ledger, a.currency))
            && (LedgerAgrees(b) && plan.commission >= 0.0 ==> Linked(ledger) && EndsAt(ledger, after))
            && (plan.commission < 0.0 ==> ledger == b.ledger && after > b.account.balance)
  {
    hide Linked, EndsAt, AddsUp;
    var es := OpenEntries(a, plan, key, reference);
    if plan.commission < 0.0 {
      assert b.ledger + [] == b.ledger;
    } else {
      assert Linked(es) by { OneEntry(es); }
      LedgerAppend(b.ledger, es, a.currency, a.balance, AfterOpen(a, plan).balance);
    }
  }

  lemma OneEntry(es: seq<Entry>)
    requires |es| <= 1
    ensures Linked(es)
  {
  }

  lemma OpenSettles(b: Books, a: Account, plan: OpenPlan, source: Source, key: string)
    requires InStep(b, a)
    requires source.FilledOrder? ==> source.index < |b.orders|
    requires RecordOpen(b, a, plan, source, key).Ok?
    ensures var r := RecordOpen(b, a, plan, source, key).value;
            Settles(b, r) && (OpeningsCharged(r.deals, |b.deals|) <==> plan.commission >= 0.0)
  {
    hide PositionValid, FreshOrder, FreshKeys, Linked, AddsUp;
    var r := RecordOpen(b, a, plan, source, key).value;
    assert r.deals[|b.deals|].commission == plan.commission && r.deals[|b.deals|].kind == OPENING;
    if b.ledger != [] {
      OpenLedger(b, a, plan, key, DigitsOf(|b.deals|));
    }
    if Skewed(b) {
      SkewStays(b, r);
    }
  }

  lemma OpenKeeps(b: Books, a: Account, plan: OpenPlan, source: Source, key: string)
    requires InStep(b, a)
    requires source.FilledOrder? ==> source.index < |b.orders|
    requires RecordOpen(b, a, plan, source, key).Ok?
    ensures Keeps(b, RecordOpen(b, a, plan, source, key).value)
  {
    hide InOrder, Settles, InStep, RecordOpen;
    OpenSettles(b, a, plan, source, key);
    if InOrder(b) {
      OpenInOrder(b, a, plan, source, key);
    }
  }

  /** An opening keeps the records reconciled exactly when it does not pay the
      client a commission: a negative one changes the balance unrecorded. */
  lemma OpenReconcilesIff(b: Books, a: Account, plan: OpenPlan, source: Source, key: string)
    requires Sound(b) && InStep(b, a)
    requires source.FilledOrder? ==> source.index < |b.orders|
    requires RecordOpen(b, a, plan, source, key).Ok?
    ensures var r := RecordOpen(b, a, plan, source, key).value;
            InOrder(r) && (Reconciled(r) <==> plan.commission >= 0.0)
  {
    hide InOrder, InStep, RecordOpen, Reconciled, OpeningsCharged;
    var r := RecordOpen(b, a, plan, source, key).value;
    OpenInOrder(b, a, plan, source, key);
    OpenSettles(b, a, plan, source, key);
    ReconciledIff(r);
  }

  // ---- closes --------------------------------------------------------------------

  /** A close keeps margins and references in order, and the clamp to zero changes nothing:
      the account's margin falls by exactly what the plan releases. */
  lemma CloseInOrder(b: Books, a: Account, index: nat, plan: ClosePlan, id: string, complete: bool)
    requires InOrder(b) && InStep(b, a) && index < |b.positions|
    requires 0.0 <= plan.releasedMargin <= b.positions[index].margin && b.positions[index].status == OPEN
    requires plan.fullClose ==> plan.releasedMargin == b.positions[index].margin
    requires RecordClose(b, a, index, plan, id, complete).Ok?
    ensures var r := RecordClose(b, a, index, plan, id, complete).value;
            InOrder(r) && r.account.usedMargin == a.usedMargin - plan.releasedMargin >= 0.0
  {
    hide FreshOrder, FreshKeys, Total, CloseEntries, AddsUp, FilledOrdersHaveDeals;
    var r := RecordClose(b, a, index, plan, id, complete).value;
    var q := ClosedPosition(b.positions[index], plan);
    TotalUpdate(b.positions, index, q, (), OpenMarginOf);
    OpenMarginNonNegative(b.positions[index := q]);
    DealsAfterAppend(b.orders, b.deals, r.orders, r.deals[|b.deals|]);
    CloseLedger(b, a, plan, id, DigitsOf(|b.deals|), complete);
  }

  lemma CloseLedger(b: Books, a: Account, plan: ClosePlan, id: string, reference: string, complete: bool)
    requires b.ledger != [] && a.balance == b.account.balance && a.currency == b.account.currency
    ensures var ledger, after := b.ledger + CloseEntries(a, plan, id, reference), AfterClose(a, plan, complete).balance;
            && (AddsUp(b.ledger, a.currency) ==> AddsUp(ledger, a.currency))
            && (LedgerAgrees(b) ==> Linked(ledger) && EndsAt(ledger, after))
  {
    LedgerAppend(b.ledger, CloseEntries(a, plan, id, reference), a.currency, a.balance,
        AfterClose(a, plan, complete).balance);
  }

  lemma CloseSettles(b: Books, a: Account, index: nat, plan: ClosePlan, id: string, complete: bool)
    requires InStep(b, a) && index < |b.positions|
    requires RecordClose(b, a, index, plan, id, complete).Ok?
    ensures Settles(b, RecordClose(b, a, index, plan, id, complete).value)
  {
    hide PositionValid, FreshOrder, FreshKeys, ClosedPosition, Linked, AddsUp;
    var r := RecordClose(b, a, index, plan, id, complete).value;
    if b.ledger != [] {
      CloseLedger(b, a, plan, id, DigitsOf(|b.deals|), complete);
    }
    if Skewed(b) {
      SkewStays(b, r);
    }
  }

  lemma CloseCoreKeeps(b: Books, a: Account, m: Market, index: nat, volume: Option<real>, id: string, complete: bool)
    requires InStep(b, a)
    requires CloseCore(b, a, m, index, volume, id, complete).Ok?
    ensures Keeps(b, CloseCore(b, a, m, index, volume, id, complete).value)
  {
    hide PlanMarketClose, RecordClose, Settles, InStep;
    var p := b.positions[index];
    var plan := PlanMarketClose(m, a, p, volume).value;
    AcceptedCloseShape(m, a, p, volume);
    CloseSettles(b, a, index, plan, id, complete);
    if InOrder(b) {
      assert PositionValid(p);
      CloseInOrder(b, a, index, plan, id, complete);
    }
  }

  /** A close keeps the records reconciled whatever it charges. */
  lemma CloseReconciles(b: Books, a: Account, m: Market, index: nat, volume: Option<real>, id: string, complete: bool)
    requires Sound(b) && InStep(b, a)
    requires CloseCore(b, a, m, index, volume, id, complete).Ok?
    ensures Sound(CloseCore(b, a, m, index, volume, id, complete).value)
    ensures Reconciled(CloseCore(b, a, m, index, volume, id, complete).value)
  {
    var r := CloseCore(b, a, m, index, volume, id, complete).value;
    CloseCoreKeeps(b, a, m, index, volume, id, complete);
    CloseOpensNone(b, a, m, index, volume, id, complete);
    hide CloseCore, InOrder, LedgerAgrees, Reconciled, OpeningsCharged, InStep;
    ReconciledIff(r);
  }

  lemma CloseOpensNone(b: Books, a: Account, m: Market, index: nat, volume: Option<real>, id: string, complete: bool)
    requires CloseCore(b, a, m, index, volume, id, complete).Ok?
    ensures OpeningsCharged(CloseCore(b, a, m, index, volume, id, complete).value.deals, |b.deals|)
  {
    hide PlanMarketClose, CloseEntries, ClosedPosition, AfterClose, PositionValid, FreshOrder, FreshKeys;
  }

  // ---- commands ------------------------------------------------------------------

  lemma PlannedKeeps(b: Books, a: Account, m: Market, symbol: string, side: Side, volume: real,
                     sl: Option<real>, tp: Option<real>, source: Source, key: string)
    requires InStep(b, a) && PlanOpen(b, a, m, symbol, side, volume, sl, tp).Ok?
    requires source.FilledOrder? ==> source.index < |b.orders|
    ensures var planned := PlanOpen(b, a, m, symbol, side, volume, sl, tp).value;
            var r := RecordOpen(b, planned.0, planned.1, source, key);
            r.Ok? ==> Keeps(b, r.value)
  {
    hide Keeps, InStep, RecordOpen, LoadOpenExposure, PlanMarketOpen, RollRiskDay;
    var planned := PlanOpen(b, a, m, symbol, side, volume, sl, tp).value;
    RollInStep(b, a, m.dayKey);
    if RecordOpen(b, planned.0, planned.1, source, key).Ok? {
      OpenKeeps(b, planned.0, planned.1, source, key);
    }
  }

  lemma OpenMarketKeeps(b: Books, m: Market, v: Valuation, id: string, symbol: string, side: Side, volume: real,
                        sl: Option<real>, tp: Option<real>)
    requires OpenMarket(b, m, v, id, symbol, side, volume, sl, tp).Ok?
    ensures Keeps(b, OpenMarket(b, m, v, id, symbol, side, volume, sl, tp).value)
  {
    hide Keeps, InStep, RecordOpen, PlanOpen, Overlay;
    OverlayInStep(b, v, true);
    PlannedKeeps(b, Overlay(b, v, true).value, m, symbol, side, volume, sl, tp, NewOrder(id), id + ":open:commission");
  }

  lemma ReverseKeeps(b: Books, m: Market, v: Valuation, id: string, index: nat, sl: Option<real>, tp: Option<real>)
    requires Reverse(b, m, v, id, index, sl, tp).Ok?
    ensures Keeps(b, Reverse(b, m, v, id, index, sl, tp).value)
  {
    hide Keeps, InStep, RecordOpen, PlanOpen, Overlay, CloseCore;
    OverlayInStep(b, v, false);
    var a, p := Overlay(b, v, false).value, b.positions[index];
    CloseCoreKeeps(b, a, m, index, None, ChildId(id, "close"), v.floatingPnl.Some?);
    var closed := CloseCore(b, a, m, index, None, ChildId(id, "close"), v.floatingPnl.Some?).value;
    SelfInStep(closed);
    PlannedKeeps(closed, closed.account, m, p.symbol, Opposite(p.side), p.openVolume, sl, tp,
                 NewOrder(ChildId(id, "open")), ChildId(id, "open") + ":commission");
    KeepsBoth(b, closed, Reverse(b, m, v, id, index, sl, tp).value);
  }

  lemma SelfInStep(b: Books)
    ensures InStep(b, b.account)
  {
  }

  lemma ExecuteKeeps(b: Books, m: Market, v: Valuation, index: nat, tick: Tick)
    requires ExecutePending(b, m, v, index, tick).Ok?
    ensures Keeps(b, ExecutePending(b, m, v, index, tick).value)
  {
    hide Keeps, InStep, LoadOpenExposure, RecordOpen, PlanMarketOpen, RollRiskDay, Overlay, DetectAction,
         FillRespectsLimit, WithStatus;
    KeepsSelf(b);
    if index < |b.orders| && IsActive(b.orders[index].status) {
      RestatusKeeps(b, index, EXPIRED);
      RestatusKeeps(b, index, REJECTED);
      var o := b.orders[index];
      if DetectAction(o, tick, m.nowMs) == Some(FILL) {
        OverlayInStep(b, v, true);
        var a := Overlay(b, v, true).value;
        var e := LoadOpenExposure(b.positions, m, a.currency, o.symbol).value;
        var rolled := RollRiskDay(a, m.dayKey);
        var planned := PlanMarketOpen(m.(quote := Some(tick.quote)), rolled, e, o.symbol, o.side, o.requestedVolume,
            o.stopLoss, o.takeProfit);
        if planned.Ok? && FillRespectsLimit(o, planned.value.fillPrice) {
          RollInStep(b, a, m.dayKey);
          OpenKeeps(b, rolled, planned.value, FilledOrder(index), "pending:" + DigitsOf(index) + ":commission");
        }
      }
    }
  }

  /** Orders that are placed or change, but do not fill, and an account whose money stays. */
  lemma OrdersAside(b: Books, r: Books)
    requires r.account.balance == b.account.balance && r.account.currency == b.account.currency
    requires r.account.usedMargin == b.account.usedMargin
    requires r.positions == b.positions && r.deals == b.deals && r.ledger == b.ledger && |r.orders| >= |b.orders|
    requires forall i :: 0 <= i < |r.orders| && r.orders[i].status == FILLED ==>
        i < |b.orders| && b.orders[i].status == FILLED
    ensures Keeps(b, r)
  {
  }

  lemma RestatusKeeps(b: Books, index: nat, status: OrderStatus)
    requires index < |b.orders| && status != FILLED
    ensures Keeps(b, WithStatus(b, index, status))
  {
    hide Keeps;
    OrdersAside(b, WithStatus(b, index, status));
  }

  lemma PlaceKeeps(b: Books, m: Market, v: Valuation, c: PlaceCommand)
    requires PlacePending(b, m, v, c).Ok?
    ensures Keeps(b, PlacePending(b, m, v, c).value)
  {
    hide LoadOpenExposure, PlanPendingOrder, Overlay, LoadPendingExposure, RollRiskDay, Keeps;
    var a := Overlay(b, v, true).value;
    var e := LoadOpenExposure(b.positions, m, a.currency, c.symbol).value;
    PlacedOrderShape(m, RollRiskDay(a, m.dayKey), c, e, LoadPendingExposure(b.orders, c.symbol));
    OrdersAside(b, PlacePending(b, m, v, c).value);
  }

  lemma MutateKeeps(b: Books, kind: EntryType, amount: real, key: string, reference: string)
    requires IsMutation(kind) && Mutate(b, kind, amount, key, reference).Ok?
    ensures Keeps(b, Mutate(b, kind, amount, key, reference).value)
  {
    var r := Mutate(b, kind, amount, key, reference).value;
    KeepsSelf(b);
    if r != b {
      hide AddsUp, Linked, HasKey, MatchesReplay, FilledOrdersHaveDeals;
      var entry := r.ledger[|b.ledger|];
      OneEntry([entry]);
      LedgerAppend(b.ledger, [entry], b.account.currency, b.account.balance, r.account.balance);
      if Skewed(b) {
        SkewStays(b, r);
      }
    }
  }

  lemma RestrictKeeps(b: Books, status: AccountStatus, stage: bool, cancelPending: bool)
    requires status == PAUSED || status == DISABLED || status == BREACHED
    ensures Keeps(b, Restrict(b, status, stage, cancelPending))
  {
    hide Keeps, CancelAll;
    OrdersAside(b, Restrict(b, status, stage, cancelPending));
  }

  /** Commands about the account's status and about orders that do not fill. */
  lemma OthersKeep(b: Books, c: Command)
    requires WellTyped(c) && Outcome(b, c).Ok?
    requires !c.MutateCommand? && !c.OpenCommand? && !c.CloseCommand? && !c.ReverseCommand?
    requires !c.PlacePendingCommand? && !c.ExecuteCommand? && !c.RestrictCommand?
    ensures Keeps(b, Outcome(b, c).value)
  {
    hide Keeps, Restrict, DetectAction;
    OrdersAside(b, Outcome(b, c).value);
  }

  /** Every command keeps the records in order, and leaves the ledger in agreement unless it
      records an opening with a negative commission, which skews it for good. */
  lemma StepKeeps(b: Books, c: Command)
    requires WellTyped(c)
    ensures Keeps(b, Step(b, c))
  {
    hide Keeps, Mutate, OpenMarket, CloseCore, Reverse, PlacePending, CancelPending, ActivateStopLimit, ExecutePending,
         ExpirePending, Restrict, Activate, Resume, FinishClose, Overlay, InStep;
    KeepsSelf(b);
    if Outcome(b, c).Ok? {
      match c {
        case MutateCommand(kind, amount, key, reference) => MutateKeeps(b, kind, amount, key, reference);
        case OpenCommand(m, v, id, symbol, side, volume, sl, tp) =>
          OpenMarketKeeps(b, m, v, id, symbol, side, volume, sl, tp);
        case CloseCommand(m, v, id, position, volume) =>
          OverlayInStep(b, v, false);
          CloseCoreKeeps(b, Overlay(b, v, false).value, m, position, volume, id, v.floatingPnl.Some?);
        case ReverseCommand(m, v, id, position, sl, tp) => ReverseKeeps(b, m, v, id, position, sl, tp);
        case PlacePendingCommand(m, v, place) => PlaceKeeps(b, m, v, place);
        case ExecuteCommand(m, v, order, tick) => ExecuteKeeps(b, m, v, order, tick);
        case RestrictCommand(status, stage, cancelPending) => RestrictKeeps(b, status, stage, cancelPending);
        case _ => OthersKeep(b, c);
      }
    }
  }

  // ---- runs ----------------------------------------------------------------------

  lemma {:induction false} RunKeeps(b: Books, cs: seq<Command>)
    requires AllWellTyped(cs)
    ensures Keeps(b, Run(b, cs))
  {
    hide Step, Keeps, WellTyped;
    if cs == [] {
      KeepsSelf(b);
    } else {
      RunKeeps(b, cs[..|cs| - 1]);
      StepKeeps(Run(b, cs[..|cs| - 1]), cs[|cs| - 1]);
      KeepsBoth(b, Run(b, cs[..|cs| - 1]), Run(b, cs));
    }
  }

  /** Provisioning starts from reconciled records. */
  lemma ProvisionedSound(reference: string, initialBalance: real, currency: string, leverage: int,
                         policy: TradingTypes.RiskPolicy, riskDayKey: string, activate: bool)
    ensures Sound(Provisioned(reference, initialBalance, currency, leverage, policy, riskDayKey, activate))
  {
  }

  /** Margins and references stay in order over every run, whatever anything costs. */
  lemma RunInOrder(b: Books, cs: seq<Command>)
    requires InOrder(b) && AllWellTyped(cs)
    ensures InOrder(Run(b, cs))
  {
    hide Run, InOrder, Settles, WellTyped;
    RunKeeps(b, cs);
  }

  /** Main result: from provisioning on, margins and references stay in order over every run,
      and the reconciliation check finds nothing to report if and only if no opening of the run
      was recorded with a negative commission. */
  lemma RunReconcilesIff(reference: string, initialBalance: real, currency: string, leverage: int,
                         policy: TradingTypes.RiskPolicy, riskDayKey: string, activate: bool, cs: seq<Command>)
    requires AllWellTyped(cs)
    ensures var r := Run(Provisioned(reference, initialBalance, currency, leverage, policy, riskDayKey, activate), cs);
            InOrder(r) && (Reconciled(r) <==> OpeningsCharged(r.deals, 0))
  {
    hide Run, InOrder, LedgerAgrees, Skewed, Reconciled, OpeningsCharged, WellTyped;
    var b := Provisioned(reference, initialBalance, currency, leverage, policy, riskDayKey, activate);
    ProvisionedSound(reference, initialBalance, currency, leverage, policy, riskDayKey, activate);
    RunKeeps(b, cs);
    ReconciledIff(Run(b, cs));
    SkewedDisagrees(Run(b, cs));
  }

  lemma SkewedDisagrees(b: Books)
    ensures Skewed(b) ==> !LedgerAgrees(b)
  {
  }

  // ---- markets without rebates -----------------------------------------------------

  /** No instrument of the market pays a per-lot rebate or has a negative size. */
  predicate NoRebates(m: Market) {
    forall s :: s in m.instruments ==> CommissionPerLot(m.instruments[s]) >= 0.0 && m.instruments[s].contractSize >= 0.0
  }

  predicate Rebateless(c: Command) {
    && (c.OpenCommand? ==> NoRebates(c.m))
    && (c.ReverseCommand? ==> NoRebates(c.m))
    && (c.ExecuteCommand? ==> NoRebates(c.m))
  }

  lemma PlannedCharges(b: Books, a: Account, m: Market, e: Exposure, symbol: string, side: Side, volume: real,
                       sl: Option<real>, tp: Option<real>, source: Source, key: string)
    requires NoRebates(m)
    requires source.FilledOrder? ==> source.index < |b.orders|
    requires PlanMarketOpen(m, a, e, symbol, side, volume, sl, tp).Ok?
    ensures var plan := PlanMarketOpen(m, a, e, symbol, side, volume, sl, tp).value;
            var r := RecordOpen(b, a, plan, source, key);
            r.Ok? ==> b.deals <= r.value.deals && OpeningsCharged(r.value.deals, |b.deals|)
  {
    hide PlanMarketOpen, FreshOrder, FreshKeys, OpenEntries, AfterOpen;
    AcceptedOpenShape(m, a, e, symbol, side, volume, sl, tp);
  }

  lemma OpenMarketCharges(b: Books, m: Market, v: Valuation, id: string, symbol: string, side: Side, volume: real,
                          sl: Option<real>, tp: Option<real>)
    requires NoRebates(m) && OpenMarket(b, m, v, id, symbol, side, volume, sl, tp).Ok?
    ensures OpeningsCharged(OpenMarket(b, m, v, id, symbol, side, volume, sl, tp).value.deals, |b.deals|)
  {
    hide OpeningsCharged, NoRebates, RecordOpen, LoadOpenExposure, PlanMarketOpen, RollRiskDay, Overlay;
    var a := Overlay(b, v, true).value;
    var e := LoadOpenExposure(b.positions, m, a.currency, symbol).value;
    PlannedCharges(b, RollRiskDay(a, m.dayKey), m, e, symbol, side, volume, sl, tp, NewOrder(id),
        id + ":open:commission");
  }

  lemma ReverseCharges(b: Books, m: Market, v: Valuation, id: string, index: nat, sl: Option<real>, tp: Option<real>)
    requires NoRebates(m) && Reverse(b, m, v, id, index, sl, tp).Ok?
    ensures OpeningsCharged(Reverse(b, m, v, id, index, sl, tp).value.deals, |b.deals|)
  {
    hide OpeningsCharged, NoRebates, RecordOpen, LoadOpenExposure, PlanMarketOpen, RollRiskDay, Overlay, CloseCore,
         Keeps, InStep;
    OverlayInStep(b, v, false);
    var a, p := Overlay(b, v, false).value, b.positions[index];
    CloseOpensNone(b, a, m, index, None, ChildId(id, "close"), v.floatingPnl.Some?);
    CloseCoreKeeps(b, a, m, index, None, ChildId(id, "close"), v.floatingPnl.Some?);
    var closed := CloseCore(b, a, m, index, None, ChildId(id, "close"), v.floatingPnl.Some?).value;
    KeepsDeals(b, closed);
    var e := LoadOpenExposure(closed.positions, m, closed.account.currency, p.symbol).value;
    PlannedCharges(closed, RollRiskDay(closed.account, m.dayKey), m, e, p.symbol, Opposite(p.side), p.openVolume,
                   sl, tp, NewOrder(ChildId(id, "open")), ChildId(id, "open") + ":commission");
    ChargedInParts(b.deals, closed.deals, Reverse(b, m, v, id, index, sl, tp).value.deals);
  }

  lemma KeepsDeals(b: Books, r: Books)
    requires Keeps(b, r)
    ensures b.deals <= r.deals
  {
  }

  lemma ExecuteCharges(b: Books, m: Market, v: Valuation, index: nat, tick: Tick)
    requires NoRebates(m) && ExecutePending(b, m, v, index, tick).Ok?
    ensures OpeningsCharged(ExecutePending(b, m, v, index, tick).value.deals, |b.deals|)
  {
    hide OpeningsCharged, LoadOpenExposure, RecordOpen, PlanMarketOpen, RollRiskDay, Overlay, DetectAction,
         FillRespectsLimit;
    var r := ExecutePending(b, m, v, index, tick).value;
    NoneAdded(b.deals);
    if r.deals != b.deals {
      var o, a := b.orders[index], Overlay(b, v, true).value;
      var e := LoadOpenExposure(b.positions, m, a.currency, o.symbol).value;
      PlannedCharges(b, RollRiskDay(a, m.dayKey), m.(quote := Some(tick.quote)), e, o.symbol, o.side, o.requestedVolume,
                     o.stopLoss, o.takeProfit, FilledOrder(index), "pending:" + DigitsOf(index) + ":commission");
    }
  }

  lemma NoneAdded(deals: seq<Deal>)
    ensures OpeningsCharged(deals, |deals|)
  {
  }

  lemma OthersOpenNone(b: Books, c: Command)
    requires WellTyped(c) && Outcome(b, c).Ok?
    requires !c.OpenCommand? && !c.CloseCommand? && !c.ReverseCommand? && !c.ExecuteCommand?
    ensures Outcome(b, c).value.deals == b.deals
  {
    hide CancelAll, Overlay, LoadOpenExposure, PlanPendingOrder, DetectAction, RollRiskDay, HasKey, MatchesReplay;
  }

  lemma StepCharges(b: Books, c: Command)
    requires WellTyped(c) && Rebateless(c)
    ensures OpeningsCharged(Step(b, c).deals, |b.deals|)
  {
    hide OpeningsCharged, NoRebates, Mutate, OpenMarket, CloseCore, Reverse, PlacePending, CancelPending,
         ActivateStopLimit, ExecutePending, ExpirePending, Restrict, Activate, Resume, FinishClose, Overlay;
    NoneAdded(b.deals);
    if Outcome(b, c).Ok? {
      match c {
        case OpenCommand(m, v, id, symbol, side, volume, sl, tp) =>
          OpenMarketCharges(b, m, v, id, symbol, side, volume, sl, tp);
        case CloseCommand(m, v, id, position, volume) =>
          CloseOpensNone(b, Overlay(b, v, false).value, m, position, volume, id, v.floatingPnl.Some?);
        case ReverseCommand(m, v, id, position, sl, tp) => ReverseCharges(b, m, v, id, position, sl, tp);
        case ExecuteCommand(m, v, order, tick) => ExecuteCharges(b, m, v, order, tick);
        case _ => OthersOpenNone(b, c);
      }
    }
  }

  /** So in markets without rebates the check reports no issue in any run. */
  lemma {:induction false} RunReconciles(b: Books, cs: seq<Command>)
    requires Sound(b) && AllWellTyped(cs) && forall i :: 0 <= i < |cs| ==> Rebateless(cs[i])
    ensures Sound(Run(b, cs)) && Reconciled(Run(b, cs))
  {
    hide Step, InOrder, LedgerAgrees, Skewed, Reconciled, OpeningsCharged, Rebateless, WellTyped;
    if cs != [] {
      RunReconciles(b, cs[..|cs| - 1]);
      StepKeeps(Run(b, cs[..|cs| - 1]), cs[|cs| - 1]);
      StepCharges(Run(b, cs[..|cs| - 1]), cs[|cs| - 1]);
    }
    ReconciledIff(Run(b, cs));
  }
}
