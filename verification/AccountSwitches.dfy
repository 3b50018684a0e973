/** What each control of an account leaves it with
    (src/modules/trading/account-control.service.js). */
module AccountSwitches {
  import opened Common
  import opened TradingTypes
  import opened Books

  /** The account has these switches and nothing else of it has changed, and an event is recorded
      exactly when one of them changed. */
  predicate Switched(b: Books, r: Books, status: AccountStatus, trading: bool, federation: bool) {
    var a := b.account;
    && r.account == a.(status := status, tradingEnabled := trading, federationEnabled := federation)
    && r.positions == b.positions && r.deals == b.deals && r.ledger == b.ledger
    && r.lifecycle == b.lifecycle + if r.account == a then []
                                    else [LifecycleEvent(Some(a.status), status, Some(a.tradingEnabled), trading)]
  }

  /** The orders that wait are cancelled and the others kept. */
  predicate Cancelled(os: seq<Order>, rs: seq<Order>) {
    |rs| == |os| && forall i :: 0 <= i < |os| ==>
      rs[i] == if os[i].status == PENDING || os[i].status == TRIGGERED then os[i].(status := CANCELLED) else os[i]
  }

  /** A restriction stops trading, under its own status unless another restriction came first,
      which it leaves as it is. Staging also takes the federation away. */
  lemma RestrictSwitches(b: Books, status: AccountStatus, stage: bool, cancelPending: bool)
    requires status == PAUSED || status == DISABLED || status == BREACHED
    ensures var r, a := Restrict(b, status, stage, cancelPending), b.account;
      && (if cancelPending then Cancelled(b.orders, r.orders) else r.orders == b.orders)
      && (a.status == ACTIVE || a.status == PAUSED || a.status == status ==>
            Switched(b, r, status, false, a.federationEnabled && !stage))
      && (a.status != ACTIVE && a.status != PAUSED && a.status != status ==>
            r == b.(orders := r.orders))
  {
  }

  /** Activating turns everything on, and is refused exactly for a restricted account. */
  lemma ActivatesAccountIff(b: Books)
    ensures Activate(b).Ok? <==> b.account.status == ACTIVE || b.account.status == PAUSED
    ensures Activate(b).Ok? ==>
      Switched(b, Activate(b).value, ACTIVE, true, true) && Activate(b).value.orders == b.orders
  {
  }

  /** Resuming turns trading back on, and needs the federation as well. */
  lemma ResumesIff(b: Books)
    ensures Resume(b).Ok? <==>
      (b.account.status == ACTIVE || b.account.status == PAUSED) && b.account.federationEnabled
    ensures Resume(b).Ok? ==>
      Switched(b, Resume(b).value, ACTIVE, true, true) && Resume(b).value.orders == b.orders
  {
  }

  /** A closed account no longer trades, and one that was closed is not touched again. */
  lemma ClosingSwitches(b: Books)
    ensures var r := FinishClose(b);
      && r.orders == b.orders
      && (b.account.status != CLOSED_ACCOUNT ==>
            Switched(b, r, CLOSED_ACCOUNT, false, b.account.federationEnabled))
      && (b.account.status == CLOSED_ACCOUNT ==> r == b)
  {
  }

  /** A restriction undone: a pause keeps nothing back when the account is resumed, and a staged
      account can be activated but not resumed. */
  lemma PauseIsUndone(b: Books, stage: bool)
    requires b.account.status == ACTIVE && b.account.tradingEnabled && b.account.federationEnabled
    ensures var paused := Restrict(b, PAUSED, stage, false);
      && (Resume(paused).Ok? <==> !stage)
      && (!stage ==> Resume(paused).value.account == b.account)
      && Activate(paused).Ok? && Activate(paused).value.account == b.account
      && |Activate(paused).value.lifecycle| == |b.lifecycle| + 2
  {
  }

  /** A disabled, breached or closed account is never switched on again. */
  lemma RestrictionIsFinal(b: Books)
    requires b.account.status != ACTIVE && b.account.status != PAUSED
    ensures Activate(b) == Err(ACCOUNT_ACTIVATION_FORBIDDEN) && Resume(b) == Err(ACCOUNT_RESUME_FORBIDDEN)
    ensures forall status, stage, cancel :: status == PAUSED || status == DISABLED || status == BREACHED ==>
      Restrict(b, status, stage, cancel).account.status == b.account.status
  {
  }

  /** A new account holds the amount it was given, in one deposit, and nothing else. */
  lemma ProvisionedHolds(reference: string, amount: real, currency: string, leverage: int,
      policy: TradingTypes.RiskPolicy, riskDayKey: string, activate: bool)
    ensures var b := Provisioned(reference, amount, currency, leverage, policy, riskDayKey, activate);
      var a := b.account;
      && a.balance == a.equity == a.freeMargin == a.initialBalance == a.dailyStartEquity == amount
      && a.usedMargin == a.floatingPnl == a.realizedPnlToday == 0.0
      && a.status == (if activate then ACTIVE else PAUSED) && a.tradingEnabled == a.federationEnabled == activate
      && a.currency == currency && a.leverage == leverage && a.policy == policy && a.riskDayKey == riskDayKey
      && |b.ledger| == 1 && b.ledger[0].kind == DEPOSIT && b.ledger[0].amount == b.ledger[0].balanceAfter == amount
      && b.ledger[0].balanceBefore == 0.0
      && b.positions == [] && b.orders == [] && b.deals == [] && |b.lifecycle| == 1
  {
  }
}
