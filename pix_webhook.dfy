/**
  The PIX payment webhook: the payment provider confirms a charge by its id,
  and the pending transaction row carrying that id as its request id is marked
  `paid` while its wallet is credited with the row's amount, once.

  `Confirmation` is the controller's flow with the row query as a parameter:
  `Webhook` is the flow as the controller runs it (any row carrying the charge
  id); `ConfirmPix` restricts the query to PIX rows.
*/
module PixWebhook {
  import opened Schema
  import opened Ledger

  const InvalidSecret := "Invalid Pix webhook secret"
  const ChargeIdRequired := "chargeId is required"

  /** The acknowledgements the controller returns with `ok: true`. */
  datatype Ack = Done | Skipped | AlreadyProcessed | WalletMissing

  /** A secret is configured (non-empty) and the request's header does not match it. */
  predicate SecretRejects(expected: Option<string>, header: Option<string>) {
    expected.Some? && expected.value != "" && header != expected
  }

  predicate ChargeIdMissing(chargeId: Option<string>) {
    chargeId.None? || chargeId.value == ""
  }

  /** The row the webhook acts on carries the charge id (and, if `pixOnly`, is a PIX row). */
  predicate Matches(t: Tx, chargeId: string, pixOnly: bool) {
    t.requestId == Some(chargeId) && (pixOnly ==> t.kind == PIX)
  }

  /**
    The first matching row, in any tenant. The store's `findFirst` has no
    `orderBy`, so which of several matching rows it picks is not defined; the
    model picks the lowest log position.
  */
  function Target(txs: seq<Tx>, chargeId: string, pixOnly: bool): (r: Option<nat>)
    ensures r.Some? ==> r.value < |txs| && Matches(txs[r.value], chargeId, pixOnly)
    ensures r.Some? ==> forall j :: 0 <= j < r.value ==> !Matches(txs[j], chargeId, pixOnly)
    ensures r.None? <==> forall j :: 0 <= j < |txs| ==> !Matches(txs[j], chargeId, pixOnly)
  {
    FirstWhere(txs, (t: Tx) => Matches(t, chargeId, pixOnly))
  }

  /** The meta with its `status` key set to `paid`; every other key keeps its value. */
  function MarkPaid(meta: Meta): (m: Meta)
    ensures IsPaid(m)
    ensures meta.Some? ==> forall k :: k in meta.value && k != "status" ==> k in m.value && m.value[k] == meta.value[k]
    ensures m.value.Keys == (if meta.Some? then meta.value.Keys else {}) + {"status"}
  {
    Some((if meta.Some? then meta.value else map[])["status" := "paid"])
  }

  /** The store after confirming row `i`: the row is marked paid and its wallet credited. */
  function Credited(s: State, i: nat): State
    requires i < |s.txs| && s.txs[i].walletId in s.wallets
  {
    var t := s.txs[i];
    s.(txs := s.txs[i := t.(meta := MarkPaid(t.meta))],
       wallets := s.wallets[t.walletId := s.wallets[t.walletId] + t.amountCents])
  }

  /**
    `handleWebhook`: check the secret and the charge id, find the row, skip it
    when absent, already paid or walletless, otherwise mark it paid and credit
    its wallet by its amount.
  */
  function Confirmation(s: State, expected: Option<string>, header: Option<string>,
                        chargeId: Option<string>, pixOnly: bool): (o: (Result<Ack>, State))
    ensures SecretRejects(expected, header) ==> o == (Err(Unauthorized(InvalidSecret)), s)
    ensures !SecretRejects(expected, header) && ChargeIdMissing(chargeId) ==>
      o == (Err(BadRequest(ChargeIdRequired)), s)
    ensures o.0.Ok? <==> !SecretRejects(expected, header) && !ChargeIdMissing(chargeId)
    ensures o.0 != Ok(Done) ==> o.1 == s
    ensures o.0 == Ok(Skipped) <==>
      (&& o.0.Ok?
       && forall i :: 0 <= i < |s.txs| ==> !Matches(s.txs[i], chargeId.value, pixOnly))
    ensures o.0 == Ok(AlreadyProcessed) ==>
      var i := Target(s.txs, chargeId.value, pixOnly);
      i.Some? && IsPaid(s.txs[i.value].meta)
    ensures o.0 == Ok(Done) ==>
      var i := Target(s.txs, chargeId.value, pixOnly);
      && i.Some? && Matches(s.txs[i.value], chargeId.value, pixOnly)
      && !IsPaid(s.txs[i.value].meta) && s.txs[i.value].walletId in s.wallets
      && o.1 == Credited(s, i.value)
    // a matching row decides the outcome: paid, walletless, or credited
    ensures (!SecretRejects(expected, header) && !ChargeIdMissing(chargeId)
             && Target(s.txs, chargeId.value, pixOnly).Some?) ==>
      var i := Target(s.txs, chargeId.value, pixOnly).value;
      && (IsPaid(s.txs[i].meta) ==> o == (Ok(AlreadyProcessed), s))
      && (!IsPaid(s.txs[i].meta) && s.txs[i].walletId !in s.wallets ==> o == (Ok(WalletMissing), s))
      && (!IsPaid(s.txs[i].meta) && s.txs[i].walletId in s.wallets ==> o == (Ok(Done), Credited(s, i)))
  {
    if SecretRejects(expected, header) then (Err(Unauthorized(InvalidSecret)), s)
    else if ChargeIdMissing(chargeId) then (Err(BadRequest(ChargeIdRequired)), s)
    else
      match Target(s.txs, chargeId.value, pixOnly)
      case None => (Ok(Skipped), s)
      case Some(i) =>
        if IsPaid(s.txs[i].meta) then (Ok(AlreadyProcessed), s)
        else if s.txs[i].walletId !in s.wallets then (Ok(WalletMissing), s)
        else (Ok(Done), Credited(s, i))
  }

  /**
    The webhook as the controller runs it: the row query does not look at the
    row's type, so a credit may land on any unpaid row carrying the charge id.
  */
  function Webhook(s: State, expected: Option<string>, header: Option<string>,
                   chargeId: Option<string>): (o: (Result<Ack>, State))
    ensures o.0 != Ok(Done) ==> o.1 == s
    ensures o.0 == Ok(Done) ==>
      exists i :: 0 <= i < |s.txs| && s.txs[i].requestId == chargeId
        && !IsPaid(s.txs[i].meta) && s.txs[i].walletId in s.wallets && o.1 == Credited(s, i)
  {
    Confirmation(s, expected, header, chargeId, false)
  }

  /** The webhook confirming PIX charges only: a credit lands on an unpaid PIX row alone. */
  function ConfirmPix(s: State, expected: Option<string>, header: Option<string>,
                      chargeId: Option<string>): (o: (Result<Ack>, State))
    ensures o.0 != Ok(Done) ==> o.1 == s
    ensures o.0 == Ok(Done) ==>
      exists i :: 0 <= i < |s.txs| && s.txs[i].requestId == chargeId && s.txs[i].kind == PIX
        && !IsPaid(s.txs[i].meta) && s.txs[i].walletId in s.wallets && o.1 == Credited(s, i)
  {
    Confirmation(s, expected, header, chargeId, true)
  }

  /**
    When a single row carries the charge id, that row is the one found, so the
    lookup's order does not matter.
  */
  lemma OnlyMatchIsTarget(txs: seq<Tx>, chargeId: string, pixOnly: bool, i: nat)
    requires i < |txs| && Matches(txs[i], chargeId, pixOnly)
    requires forall j :: 0 <= j < |txs| && Matches(txs[j], chargeId, pixOnly) ==> j == i
    ensures Target(txs, chargeId, pixOnly) == Some(i)
  {
  }

  /** Marking a row paid does not change which row a charge id finds first. */
  lemma TargetAfterCredit(s: State, i: nat, chargeId: string, pixOnly: bool)
    requires i < |s.txs| && s.txs[i].walletId in s.wallets
    requires Target(s.txs, chargeId, pixOnly) == Some(i)
    ensures Target(Credited(s, i).txs, chargeId, pixOnly) == Some(i)
  {
    var txs' := Credited(s, i).txs;
    assert Matches(txs'[i], chargeId, pixOnly);
    assert forall j :: 0 <= j < |txs'| ==>
      (Matches(txs'[j], chargeId, pixOnly) <==> Matches(s.txs[j], chargeId, pixOnly));
  }

  /** A repeated delivery of a confirmed charge changes nothing, whatever its headers. */
  lemma SecondDeliveryIsNoOp(s: State, expected: Option<string>, header: Option<string>,
                             chargeId: Option<string>, pixOnly: bool, header2: Option<string>)
    requires Confirmation(s, expected, header, chargeId, pixOnly).0 == Ok(Done)
    ensures var s1 := Confirmation(s, expected, header, chargeId, pixOnly).1;
      Confirmation(s1, expected, header2, chargeId, pixOnly).1 == s1
    ensures var s1 := Confirmation(s, expected, header, chargeId, pixOnly).1;
      Confirmation(s1, expected, header, chargeId, pixOnly).0 == Ok(AlreadyProcessed)
  {
    var i := Target(s.txs, chargeId.value, pixOnly).value;
    TargetAfterCredit(s, i, chargeId.value, pixOnly);
  }

  /**
    Confirming a pending PIX charge keeps the store consistent: the row starts
    counting towards its wallet's sum exactly when the wallet is credited.
  */
  lemma ConfirmPixKeepsValid(s: State, expected: Option<string>, header: Option<string>, chargeId: Option<string>)
    requires Valid(s)
    ensures Valid(ConfirmPix(s, expected, header, chargeId).1)
  {
    var (r, s') := ConfirmPix(s, expected, header, chargeId);
    if r == Ok(Done) {
      var i := Target(s.txs, chargeId.value, true).value;
      var t := s.txs[i];
      var t' := t.(meta := MarkPaid(t.meta));
      assert s' == Credited(s, i);
      assert Effect(t') == Effect(t) + t.amountCents;
      forall k | k in s'.wallets
        ensures s'.wallets[k] == LedgerSum(s'.txs, k)
      {
        LedgerSumUpdate(s.txs, i, t', k);
      }
      MetaUpdateKeepsKeysUnique(s.txs, i, MarkPaid(t.meta));
    }
  }

  /**
    The webhook as written credits a TOPUP, REFUND or DEBIT row that happens to
    carry the charge id as its request id, although that row has already moved
    the balance: the wallet is credited a second time and no longer matches its
    log.
  */
  lemma WebhookRecreditsNonPixRow(s: State, chargeId: string)
    requires Valid(s) && chargeId != ""
    requires Target(s.txs, chargeId, false).Some?
    requires var t := s.txs[Target(s.txs, chargeId, false).value];
      t.kind != PIX && !IsPaid(t.meta) && t.walletId in s.wallets && t.amountCents > 0
    ensures Webhook(s, None, None, Some(chargeId)).0 == Ok(Done)
    ensures !Reconciled(Webhook(s, None, None, Some(chargeId)).1)
  {
    var i := Target(s.txs, chargeId, false).value;
    var t := s.txs[i];
    var t' := t.(meta := MarkPaid(t.meta));
    var s' := Webhook(s, None, None, Some(chargeId)).1;
    assert s' == Credited(s, i);
    assert Effect(t') == Effect(t);
    LedgerSumUpdate(s.txs, i, t', t.walletId);
    assert s'.wallets[t.walletId] == LedgerSum(s'.txs, t.walletId) + t.amountCents;
  }

  /** A concrete store showing it: a topup of 100 with request id "r1", then a webhook for "r1". */
  lemma WebhookRecreditsTopupExample()
    ensures var w := WalletKey("t1", "s1");
      var s := State(map[w := 100], [Tx(w, "t1", TOPUP, 100, Some("r1"), None)], map[], map[]);
      && Valid(s)
      && Webhook(s, None, None, Some("r1")).0 == Ok(Done)
      && Webhook(s, None, None, Some("r1")).1.wallets[w] == 200
      && LedgerSum(Webhook(s, None, None, Some("r1")).1.txs, w) == 100
  {
    var w := WalletKey("t1", "s1");
    var s := State(map[w := 100], [Tx(w, "t1", TOPUP, 100, Some("r1"), None)], map[], map[]);
    assert LedgerSum(s.txs, w) == 100 by {
      assert s.txs[1..] == [];
    }
    assert Target(s.txs, "r1", false) == Some(0);
    var s' := Webhook(s, None, None, Some("r1")).1;
    assert LedgerSum(s'.txs, w) == 100 by {
      assert s'.txs[1..] == [];
    }
  }

  /** The webhook controller; its flow is the webhook as written. */
  class PixWebhookController {
    const db: Db

    constructor (db: Db)
      ensures this.db == db
    {
      this.db := db;
    }

    /**
      `expected` is the configured PIX_WEBHOOK_SECRET, `header` the request's
      x-pix-secret header and `chargeId` the body's charge id.
    */
    method HandleWebhook(chargeId: Option<string>, header: Option<string>, expected: Option<string>)
      returns (r: Result<Ack>)
      modifies db
      ensures (r, db.Snapshot()) == Webhook(old(db.Snapshot()), expected, header, chargeId)
    {
      ghost var s := db.Snapshot();
      if expected.Some? && expected.value != "" && header != expected {
        return Err(Unauthorized(InvalidSecret));
      }
      if chargeId.None? || chargeId.value == "" {
        return Err(BadRequest(ChargeIdRequired));
      }
      var found := Target(db.txs, chargeId.value, false);
      if found.None? {
        return Ok(Skipped);
      }
      var i := found.value;
      var tx := db.txs[i];
      if IsPaid(tx.meta) {
        return Ok(AlreadyProcessed);
      }
      if tx.walletId !in db.wallets {
        return Ok(WalletMissing);
      }
      db.txs := db.txs[i := tx.(meta := MarkPaid(tx.meta))];
      db.wallets := db.wallets[tx.walletId := db.wallets[tx.walletId] + tx.amountCents];
      r := Ok(Done);
      assert db.Snapshot() == Credited(s, i);
    }
  }
}
