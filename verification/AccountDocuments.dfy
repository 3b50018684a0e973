/** The account and position documents that a trade updates in place, and the
    two mutations proved against the functions the run-wide results are about. */
module AccountDocuments {
  import opened TradingTypes
  import opened ExecutionPlanner
  import opened Books

  class AccountDocument {
    const created: Account
    var financialRevision: nat
    var balance: real
    var equity: real
    var floatingPnl: real
    var realizedPnlToday: real
    var usedMargin: real
    var freeMargin: real

    constructor (account: Account)
      ensures Value() == account
    {
      created := account;
      financialRevision := account.financialRevision;
      balance, equity, floatingPnl := account.balance, account.equity, account.floatingPnl;
      realizedPnlToday, usedMargin, freeMargin := account.realizedPnlToday, account.usedMargin, account.freeMargin;
    }

    function Value(): (a: Account)
      reads this
    {
      created.(financialRevision := financialRevision, balance := balance, equity := equity, floatingPnl := floatingPnl,
               realizedPnlToday := realizedPnlToday, usedMargin := usedMargin, freeMargin := freeMargin)
    }

    /** applyOpenAccountMutation. */
    method ApplyOpen(plan: OpenPlan)
      modifies this
      ensures Value() == AfterOpen(old(Value()), plan)
    {
      financialRevision := financialRevision + 1;
      var nextBalance := balance - plan.commission;
      var nextEquity := equity - plan.commission;
      var nextUsed := usedMargin + plan.requiredMargin;
      balance := nextBalance;
      equity := nextEquity;
      usedMargin := nextUsed;
      freeMargin := nextEquity - nextUsed;
    }

    /** The account half of a close. The entries it writes carry the balance
        from before the close to after it, profit first and commission second. */
    method ApplyClose(plan: ClosePlan, clientOrderId: string, dealId: string,
        valuationComplete: bool) returns (ledgers: seq<Entry>)
      modifies this
      ensures Value() == AfterClose(old(Value()), plan, valuationComplete)
      ensures ledgers == CloseEntries(old(Value()), plan, clientOrderId, dealId)
    {
      financialRevision := financialRevision + 1;
      ledgers := [];
      var running := balance;
      if plan.realizedPnl != 0.0 {
        var next := running + plan.realizedPnl;
        ledgers := [Entry(REALIZED_PNL, plan.realizedPnl, running, next, created.currency,
            clientOrderId + ":close:pnl", dealId)];
        running := next;
      }
      if plan.commission > 0.0 {
        var next := running - plan.commission;
        ledgers := ledgers + [Entry(COMMISSION, -plan.commission, running, next, created.currency,
            clientOrderId + ":close:commission", dealId)];
        running := next;
      }
      balance := running;
      if valuationComplete {
        floatingPnl := floatingPnl - plan.realizedPnl;
      }
      equity := equity - plan.commission;
      realizedPnlToday := realizedPnlToday + plan.realizedPnl;
      var used := usedMargin - plan.releasedMargin;
      if used < 0.0 { used := 0.0; }
      usedMargin := used;
      freeMargin := equity - used;
    }
  }

  class PositionDocument {
    const created: Position
    var status: PositionStatus
    var openVolume: real
    var margin: real
    var realizedPnl: real
    var commissionPaid: real

    constructor (position: Position)
      ensures Value() == position
    {
      created := position;
      status, openVolume, margin := position.status, position.openVolume, position.margin;
      realizedPnl, commissionPaid := position.realizedPnl, position.commissionPaid;
    }

    function Value(): (p: Position)
      reads this
    {
      created.(status := status, openVolume := openVolume, margin := margin, realizedPnl := realizedPnl,
          commissionPaid := commissionPaid)
    }

    /** The position half of a close. */
    method ApplyClose(plan: ClosePlan)
      modifies this
      ensures Value() == ClosedPosition(old(Value()), plan)
    {
      openVolume := plan.remainingVolume;
      margin := margin - plan.releasedMargin;
      if margin < 0.0 { margin := 0.0; }
      realizedPnl := realizedPnl + plan.realizedPnl;
      commissionPaid := commissionPaid + plan.commission;
      if plan.fullClose {
        status := CLOSED;
        openVolume := 0.0;
        margin := 0.0;
      }
    }
  }

  /** applyCloseAccountAndPositionMutation: both halves, on two documents. */
  method ApplyClose(account: AccountDocument, position: PositionDocument, plan: ClosePlan,
                    clientOrderId: string, dealId: string, valuationComplete: bool)
    returns (ledgers: seq<Entry>)
    modifies account, position
    ensures account.Value() == AfterClose(old(account.Value()), plan, valuationComplete)
    ensures position.Value() == ClosedPosition(old(position.Value()), plan)
    ensures ledgers == CloseEntries(old(account.Value()), plan, clientOrderId, dealId)
  {
    hide AfterClose, ClosedPosition, CloseEntries;
    ledgers := account.ApplyClose(plan, clientOrderId, dealId, valuationComplete);
    position.ApplyClose(plan);
  }
}
