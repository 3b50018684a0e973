/** What deposits, withdrawals and adjustments do to an account, when they are refused, and
    what a repeated one answers (src/modules/accounts/account-ledger.service.js). */
module BalanceMutations {
  import opened Common
  import opened TradingTypes
  import opened Books

  predicate IsUnused(ledger: seq<Entry>, key: string) {
    forall i :: 0 <= i < |ledger| ==> ledger[i].idempotencyKey != key
  }

  /** The amount with the sign it has on the balance. */
  predicate IsSigned(kind: EntryType, amount: real, x: real) {
    (kind == WITHDRAWAL ==> x == -amount) && (kind == DEPOSIT || kind == ADJUSTMENT ==> x == amount)
  }

  /** Main result: under a new key a mutation commits exactly when its amount is positive, the
      account is not closed, the balance stays non-negative, and a withdrawal leaves the free
      margin non-negative. It then moves balance and equity by the signed amount, recomputes the
      free margin, counts a revision and appends one entry; nothing else changes. */
  lemma MutationCommitsIff(b: Books, kind: EntryType, amount: real, key: string, reference: string, x: real)
    requires IsMutation(kind) && IsUnused(b.ledger, key) && IsSigned(kind, amount, x)
    ensures var r, a := Mutate(b, kind, amount, key, reference), b.account;
            && (r.Ok? <==>
                  && amount > 0.0 && a.status != CLOSED_ACCOUNT && a.balance + x >= 0.0
                  && (kind == WITHDRAWAL ==> a.equity - amount >= a.usedMargin))
            && (r.Ok? ==>
                  && r.value.account
                     == a.(financialRevision := a.financialRevision + 1, balance := a.balance + x,
                           equity := a.equity + x, freeMargin := a.equity + x - a.usedMargin)
                  && r.value.ledger
                     == b.ledger + [Entry(kind, x, a.balance, a.balance + x, a.currency, key, reference)]
                  && r.value.positions == b.positions && r.value.orders == b.orders && r.value.deals == b.deals
                  && r.value.lifecycle == b.lifecycle)
  {
  }

  /** Why it is refused, the first reason that applies. */
  lemma MutationRefusals(b: Books, kind: EntryType, amount: real, key: string, reference: string, x: real)
    requires IsMutation(kind) && IsUnused(b.ledger, key) && IsSigned(kind, amount, x)
    requires Mutate(b, kind, amount, key, reference).Err?
    ensures var code, a := Mutate(b, kind, amount, key, reference).error, b.account;
            && (code == INVALID_LEDGER_AMOUNT <==> amount <= 0.0)
            && (code == ACCOUNT_CLOSED <==> amount > 0.0 && a.status == CLOSED_ACCOUNT)
            && (code == INSUFFICIENT_ACCOUNT_BALANCE <==>
                  amount > 0.0 && a.status != CLOSED_ACCOUNT && a.balance + x < 0.0)
            && (code == INSUFFICIENT_FREE_MARGIN <==>
                  && amount > 0.0 && a.status != CLOSED_ACCOUNT && a.balance + x >= 0.0
                  && kind == WITHDRAWAL && a.equity - amount < a.usedMargin)
  {
  }

  /** The ledger has an entry under the key, of this kind, signed amount and reference. */
  predicate HasEntry(ledger: seq<Entry>, key: string, kind: EntryType, x: real, reference: string) {
    exists i :: 0 <= i < |ledger| && ledger[i].idempotencyKey == key
      && ledger[i].kind == kind && ledger[i].amount == x && ledger[i].referenceId == reference
  }

  /** Under a key that is there already nothing changes: the answer is the replay of the same
      kind, amount and reference, and a conflict for anything else. */
  lemma MutationReplaysIff(b: Books, kind: EntryType, amount: real, key: string, reference: string, x: real)
    requires IsMutation(kind) && !IsUnused(b.ledger, key) && IsSigned(kind, amount, x)
    ensures var r := Mutate(b, kind, amount, key, reference);
            && (r.Ok? ==> r.value == b)
            && (r.Ok? <==> amount > 0.0 && HasEntry(b.ledger, key, kind, x, reference))
            && (amount > 0.0 && r.Err? ==> r.error == LEDGER_IDEMPOTENCY_CONFLICT)
  {
  }

  /** So a mutation that is sent twice moves the money once. */
  lemma MutatedTwiceIsOnce(b: Books, kind: EntryType, amount: real, key: string, reference: string)
    requires IsMutation(kind) && Mutate(b, kind, amount, key, reference).Ok?
    ensures var r := Mutate(b, kind, amount, key, reference).value;
            Mutate(r, kind, amount, key, reference) == Ok(r)
  {
    var r := Mutate(b, kind, amount, key, reference).value;
    if r != b {
      var entry := r.ledger[|b.ledger|];
      assert entry.idempotencyKey == key && entry.kind == kind && entry.referenceId == reference;
    }
  }
}
