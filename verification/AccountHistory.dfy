/** Every account from its provisioning on: the invariants of the other modules, together,
    over the runs the services can make. */
module AccountHistory {
  import opened TradingTypes
  import opened Books
  import opened Reconciliation
  import opened DealAccounting
  import opened OrderLifecycle
  import opened AccountLifecycle
  import opened ExposureLimits

  /** What holds of every account at every moment, with no assumption on markets or valuations. */
  ghost predicate Consistent(b: Books) {
    LifecycleSound(b) && OrdersSound(b) && InOrder(b) && Accounted(b) && FreeMarginFits(b.account)
  }

  lemma ProvisionedIsConsistent(reference: string, initialBalance: real, currency: string, leverage: int,
                                policy: TradingTypes.RiskPolicy, riskDayKey: string, activate: bool)
    ensures Consistent(Provisioned(reference, initialBalance, currency, leverage, policy, riskDayKey, activate))
  {
    hide LifecycleSound, OrdersSound, InOrder, LedgerAgrees, Accounted;
    ProvisionedSound(reference, initialBalance, currency, leverage, policy, riskDayKey, activate);
    ProvisionedLifecycle(reference, initialBalance, currency, leverage, policy, riskDayKey, activate);
    NoOrders(Provisioned(reference, initialBalance, currency, leverage, policy, riskDayKey, activate));
    ProvisionedAccounted(reference, initialBalance, currency, leverage, policy, riskDayKey, activate);
  }

  lemma RunStaysConsistent(b: Books, cs: seq<Command>)
    requires Consistent(b) && AllWellTyped(cs)
    ensures Consistent(Run(b, cs))
  {
    hide LifecycleSound, OrdersSound, InOrder, Accounted, FreeMarginFits, Run, WellTyped;
    RunInOrder(b, cs);
    RunKeepsLifecycle(b, cs, 0);
    RunKeepsOrders(b, cs);
    RunIsAccounted(b, cs);
    RunFits(b, cs);
  }

  /** The money of every account is in order, from its provisioning on, exactly as far as no deal
      carries a negative commission: an opening with one is what the reconciliation check
      reports, and a close with one is what the deals do not explain. */
  lemma EveryAccount(reference: string, initialBalance: real, currency: string, leverage: int,
                     policy: TradingTypes.RiskPolicy, riskDayKey: string, activate: bool, cs: seq<Command>)
    requires AllWellTyped(cs)
    ensures var r := Run(Provisioned(reference, initialBalance, currency, leverage, policy, riskDayKey, activate), cs);
            && Consistent(r)
            && (Reconciled(r) && Explained(r) <==> forall d :: 0 <= d < |r.deals| ==> r.deals[d].commission >= 0.0)
  {
    hide Provisioned, Run, Consistent, Reconciled, Explained, WellTyped;
    var b := Provisioned(reference, initialBalance, currency, leverage, policy, riskDayKey, activate);
    ProvisionedIsConsistent(reference, initialBalance, currency, leverage, policy, riskDayKey, activate);
    RunStaysConsistent(b, cs);
    RunReconcilesIff(reference, initialBalance, currency, leverage, policy, riskDayKey, activate, cs);
    RunIsExplainedIff(reference, initialBalance, currency, leverage, policy, riskDayKey, activate, cs);
  }
}
