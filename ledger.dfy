/**
  The ledger's integrity conditions: every wallet balance is the materialised sum
  of its log, no balance is negative, and an idempotency key is used by at most
  one row of a tenant.

  A `PIX` row is written as a pending charge without touching the balance and
  credits the balance only when the payment webhook marks its meta `paid`, so a
  PIX row counts towards the sum only once paid; every other row counts from the
  moment it is appended.
*/
module Ledger {
  import opened Schema

  /** The JSON meta is an object whose `status` is `"paid"`. */
  predicate IsPaid(meta: Meta) {
    meta.Some? && "status" in meta.value && meta.value["status"] == "paid"
  }

  /** How far a row has moved its wallet's balance. */
  function Effect(t: Tx): int {
    match t.kind
    case TOPUP => t.amountCents
    case REFUND => t.amountCents
    case DEBIT => -t.amountCents
    case PIX => if IsPaid(t.meta) then t.amountCents else 0
  }

  function Contribution(t: Tx, key: WalletKey): int {
    if t.walletId == key then Effect(t) else 0
  }

  /** The signed sum of the log of wallet `key`. */
  function LedgerSum(txs: seq<Tx>, key: WalletKey): int {
    if |txs| == 0 then 0 else Contribution(txs[0], key) + LedgerSum(txs[1..], key)
  }

  /** Every balance equals the signed sum of its wallet's rows. */
  predicate Reconciled(s: State) {
    forall k :: k in s.wallets ==> s.wallets[k] == LedgerSum(s.txs, k)
  }

  /** Within a tenant, a non-empty request id is carried by at most one row. */
  predicate KeysUnique(txs: seq<Tx>) {
    forall i, j ::
      0 <= i < j < |txs| && txs[i].tenantId == txs[j].tenantId && txs[i].requestId == txs[j].requestId
      ==> txs[i].requestId.None? || txs[i].requestId == Some("")
  }

  /** Some row of `tenant` already carries the key `key`. */
  predicate KeyUsed(txs: seq<Tx>, tenant: TenantId, key: string) {
    exists i :: 0 <= i < |txs| && txs[i].tenantId == tenant && txs[i].requestId == Some(key)
  }

  /** No row records a negative amount: the direction is carried by the row's type. */
  predicate AmountsNonNegative(txs: seq<Tx>) {
    forall i :: 0 <= i < |txs| ==> txs[i].amountCents >= 0
  }

  /** Catalog prices are never negative, as the catalog's input validation demands. */
  predicate PricesNonNegative(catalog: map<ItemId, CatalogItem>) {
    forall id :: id in catalog ==> catalog[id].priceCents >= 0
  }

  predicate Valid(s: State) {
    && NonNegative(s.wallets) && Reconciled(s) && KeysUnique(s.txs)
    && AmountsNonNegative(s.txs) && PricesNonNegative(s.catalog)
  }

  lemma {:induction false} LedgerSumAppend(txs: seq<Tx>, t: Tx, key: WalletKey)
    ensures LedgerSum(txs + [t], key) == LedgerSum(txs, key) + Contribution(t, key)
  {
    if |txs| == 0 {
      assert (txs + [t])[1..] == [];
    } else {
      assert (txs + [t])[1..] == txs[1..] + [t];
      LedgerSumAppend(txs[1..], t, key);
    }
  }

  lemma {:induction false} LedgerSumUpdate(txs: seq<Tx>, i: nat, t: Tx, key: WalletKey)
    requires i < |txs|
    ensures LedgerSum(txs[i := t], key)
         == LedgerSum(txs, key) - Contribution(txs[i], key) + Contribution(t, key)
  {
    if i == 0 {
      assert txs[i := t][1..] == txs[1..];
    } else {
      assert txs[i := t][1..] == txs[1..][i - 1 := t];
      LedgerSumUpdate(txs[1..], i - 1, t, key);
    }
  }

  /**
    Appending a row and moving its wallet by the row's effect, as every ledger
    mutation does in one transaction, keeps balances and log reconciled.
  */
  lemma AppendKeepsReconciled(s: State, t: Tx)
    requires Reconciled(s)
    requires t.walletId in s.wallets
    ensures Reconciled(s.(wallets := s.wallets[t.walletId := s.wallets[t.walletId] + Effect(t)],
                          txs := s.txs + [t]))
  {
    forall k | k in s.wallets
      ensures LedgerSum(s.txs + [t], k) == LedgerSum(s.txs, k) + Contribution(t, k)
    {
      LedgerSumAppend(s.txs, t, k);
    }
  }

  /** A row whose key is absent, empty or not yet used in its tenant keeps keys unique. */
  lemma AppendKeepsKeysUnique(txs: seq<Tx>, t: Tx)
    requires KeysUnique(txs)
    requires t.requestId.None? || t.requestId == Some("") || !KeyUsed(txs, t.tenantId, t.requestId.value)
    ensures KeysUnique(txs + [t])
  {
    var txs' := txs + [t];
    forall i, j | 0 <= i < j < |txs'| && txs'[i].tenantId == txs'[j].tenantId
                  && txs'[i].requestId == txs'[j].requestId
      ensures txs'[i].requestId.None? || txs'[i].requestId == Some("")
    {
      if j < |txs| {
        assert txs'[i] == txs[i] && txs'[j] == txs[j];
      }
    }
  }

  /** Rewriting a row's meta changes neither its tenant nor its key. */
  lemma MetaUpdateKeepsKeysUnique(txs: seq<Tx>, i: nat, meta: Meta)
    requires KeysUnique(txs) && i < |txs|
    ensures KeysUnique(txs[i := txs[i].(meta := meta)])
  {
  }
}
