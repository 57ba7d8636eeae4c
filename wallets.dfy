/**
  The prepaid-wallet ledger: `get`, `topup`, `debit` and `refund` over one
  balance per (tenant, student) and the append-only transaction log.

  Each mutation validates the amount before it opens a serializable store
  transaction; the transaction locates the wallet, short-circuits on a
  replayed request id, checks funds (debit only), moves the balance and
  appends exactly one row. `Mutation` gives the outcome as a value;
  `WalletsService` performs it on the `Db`.
*/
module Wallets {
  import opened Schema
  import opened Ledger

  const AmountNotPositive := "Amount must be positive"
  const WalletNotFound := "Wallet not found"
  const InsufficientFunds := "Insufficient funds"

  /** How many transactions a wallet read includes. */
  const RecentLimit: nat := 20

  /** A stored row: its id (its position in the log) and its contents. */
  datatype Row = Row(id: nat, tx: Tx)

  /** A wallet as the store returns it, with its most recent rows. */
  datatype WalletRecord = WalletRecord(
    tenantId: TenantId,
    studentId: StudentId,
    balanceCents: int,
    transactions: seq<Row>)

  datatype Direction = Credit | Debit

  datatype TxView = TxView(
    id: nat,
    kind: TxType,
    labelText: string,
    direction: Direction,
    amountCents: int,
    requestId: Option<string>,
    meta: Meta)

  /** The API view of a wallet. */
  datatype WalletView = WalletView(
    tenantId: TenantId,
    studentId: StudentId,
    balanceCents: int,
    transactions: seq<TxView>)

  /**
    What a mutation returns: the mapped view after a change, or, on a replayed
    request id, the wallet record exactly as reloaded (the service returns it
    without mapping it).
  */
  datatype Reply = Mapped(view: WalletView) | Raw(record: WalletRecord)

  // ---------------------------------------------------------------------------
  // Reads

  /** Some row of `rows` is the log row `i`. */
  predicate Listed(rows: seq<Row>, i: nat) {
    exists j :: 0 <= j < |rows| && rows[j].id == i
  }

  /** The rows of wallet `key` among the first `n` rows of the log, newest first. */
  function RowsBelow(txs: seq<Tx>, key: WalletKey, n: nat): (rows: seq<Row>)
    requires n <= |txs|
    ensures forall j :: 0 <= j < |rows| ==>
      rows[j].id < n && txs[rows[j].id] == rows[j].tx && rows[j].tx.walletId == key
    ensures forall j, l :: 0 <= j < l < |rows| ==> rows[j].id > rows[l].id
    ensures forall i: nat :: i < n && txs[i].walletId == key ==> Listed(rows, i)
    decreases n
  {
    if n == 0 then []
    else
      var older := RowsBelow(txs, key, n - 1);
      if txs[n - 1].walletId == key then
        var row := Row(n - 1, txs[n - 1]);
        PrependKeepsListed(row, older);
        [row] + older
      else older
  }

  /** Putting a row in front keeps every listed row listed and lists the new one. */
  lemma PrependKeepsListed(row: Row, rows: seq<Row>)
    ensures Listed([row] + rows, row.id)
    ensures forall i: nat :: Listed(rows, i) ==> Listed([row] + rows, i)
  {
    assert ([row] + rows)[0] == row;
    forall i: nat | Listed(rows, i)
      ensures Listed([row] + rows, i)
    {
      var j :| 0 <= j < |rows| && rows[j].id == i;
      assert ([row] + rows)[j + 1] == rows[j];
    }
  }

  /** All rows of wallet `key`, newest first. */
  function RowsNewestFirst(txs: seq<Tx>, key: WalletKey): seq<Row> {
    RowsBelow(txs, key, |txs|)
  }

  /** Cutting a newest-first listing after `m` rows keeps the newest `m`. */
  lemma NewestPrefix(txs: seq<Tx>, key: WalletKey, all: seq<Row>, m: nat)
    requires forall j, l :: 0 <= j < l < |all| ==> all[j].id > all[l].id
    requires forall i: nat :: i < |txs| && txs[i].walletId == key ==> Listed(all, i)
    ensures var rows := if |all| <= m then all else all[..m];
      forall i: nat, j ::
        (i < |txs| && txs[i].walletId == key && !Listed(rows, i) && 0 <= j < |rows|)
        ==> i < rows[j].id
  {
    if |all| > m {
      var rows := all[..m];
      forall i: nat, j | i < |txs| && txs[i].walletId == key && !Listed(rows, i) && 0 <= j < |rows|
        ensures i < rows[j].id
      {
        var p :| 0 <= p < |all| && all[p].id == i;
        assert forall q :: 0 <= q < m ==> rows[q] == all[q];
        assert m <= p;
        assert rows[j] == all[j];
      }
    }
  }

  /**
    The wallet's rows ordered by creation time, descending, and cut at
    `RecentLimit`: fewer rows than the limit means all of them, and every row
    left out is older than every row returned.
  */
  function Recent(txs: seq<Tx>, key: WalletKey): (rows: seq<Row>)
    ensures |rows| <= RecentLimit
    ensures forall j :: 0 <= j < |rows| ==>
      rows[j].id < |txs| && txs[rows[j].id] == rows[j].tx && rows[j].tx.walletId == key
    ensures forall j, l :: 0 <= j < l < |rows| ==> rows[j].id > rows[l].id
    ensures |rows| < RecentLimit ==>
      forall i: nat :: i < |txs| && txs[i].walletId == key ==> Listed(rows, i)
    ensures forall i: nat, j ::
      (i < |txs| && txs[i].walletId == key && !Listed(rows, i) && 0 <= j < |rows|)
      ==> i < rows[j].id
  {
    var all := RowsNewestFirst(txs, key);
    NewestPrefix(txs, key, all, RecentLimit);
    if |all| <= RecentLimit then all else all[..RecentLimit]
  }

  /** `reloadWallet`: the wallet with its recent rows. */
  function Reload(s: State, key: WalletKey): (w: WalletRecord)
    requires key in s.wallets
    ensures w.tenantId == key.tenantId && w.studentId == key.studentId
    ensures w.balanceCents == s.wallets[key]
    ensures w.transactions == Recent(s.txs, key)
  {
    WalletRecord(key.tenantId, key.studentId, s.wallets[key], Recent(s.txs, key))
  }

  /** TOPUP, PIX and REFUND rows are shown as credits, anything else as a debit. */
  function DirectionOf(kind: TxType): Direction {
    if kind == TOPUP || kind == PIX || kind == REFUND then Credit else Debit
  }

  function Label(kind: TxType): string {
    match kind
    case TOPUP => "Recarga manual"
    case PIX => "Recarga Pix"
    case DEBIT => "Débito de consumo"
    case REFUND => "Estorno"
  }

  function MapRow(r: Row): TxView {
    TxView(r.id, r.tx.kind, Label(r.tx.kind), DirectionOf(r.tx.kind),
           r.tx.amountCents, r.tx.requestId, r.tx.meta)
  }

  /** `mapWallet`: the API view, row by row, of a wallet record. */
  function MapWallet(w: WalletRecord): (v: WalletView)
    ensures v.tenantId == w.tenantId && v.studentId == w.studentId
    ensures v.balanceCents == w.balanceCents
    ensures |v.transactions| == |w.transactions|
    ensures forall j :: 0 <= j < |w.transactions| ==>
      var t, r := v.transactions[j], w.transactions[j];
      && t.id == r.id && t.kind == r.tx.kind && t.labelText == Label(r.tx.kind)
      && t.amountCents == r.tx.amountCents
      && t.requestId == r.tx.requestId && t.meta == r.tx.meta
      && (t.direction == Credit <==> r.tx.kind != DEBIT)
  {
    WalletView(w.tenantId, w.studentId, w.balanceCents,
               seq(|w.transactions|, j requires 0 <= j < |w.transactions| => MapRow(w.transactions[j])))
  }

  /** `get`: the mapped wallet, or NotFound. */
  function GetView(s: State, tenant: TenantId, student: StudentId): (r: Result<WalletView>)
    ensures r.Err? <==> WalletKey(tenant, student) !in s.wallets
    ensures r.Err? ==> r.error == NotFound(WalletNotFound)
    ensures r.Ok? ==> r.value == MapWallet(Reload(s, WalletKey(tenant, student)))
    ensures r.Ok? ==> r.value.balanceCents == s.wallets[WalletKey(tenant, student)]
    ensures r.Ok? ==> |r.value.transactions| <= RecentLimit
    ensures r.Ok? ==> forall j, l :: 0 <= j < l < |r.value.transactions| ==>
      r.value.transactions[j].id > r.value.transactions[l].id
    ensures r.Ok? ==> forall j :: 0 <= j < |r.value.transactions| ==>
      var id := r.value.transactions[j].id;
      id < |s.txs| && s.txs[id].walletId == WalletKey(tenant, student)
  {
    var key := WalletKey(tenant, student);
    if key !in s.wallets then Err(NotFound(WalletNotFound))
    else Ok(MapWallet(Reload(s, key)))
  }

  // ---------------------------------------------------------------------------
  // Mutations

  /** The query of `findByRequestId`: a row of the same tenant carrying the key. */
  function RequestQuery(tenant: TenantId, key: string): Tx -> bool {
    (t: Tx) => t.tenantId == tenant && t.requestId == Some(key)
  }

  /**
    `findByRequestId`: a missing or empty request id finds nothing; otherwise
    the first row of the tenant, in any wallet, that carries it.
  */
  function FindByRequestId(txs: seq<Tx>, tenant: TenantId, requestId: Option<string>): (r: Option<nat>)
    ensures requestId.None? || requestId == Some("") ==> r.None?
    ensures r.Some? <==> requestId.Some? && requestId != Some("") && KeyUsed(txs, tenant, requestId.value)
    ensures r.Some? ==> r.value < |txs| && txs[r.value].tenantId == tenant && txs[r.value].requestId == requestId
  {
    if requestId.None? || requestId.value == "" then None
    else FirstWhere(txs, RequestQuery(tenant, requestId.value))
  }

  /** The signed change a mutation of this kind makes to the balance. */
  function Signed(kind: TxType, amountCents: int): int {
    if kind == DEBIT then -amountCents else amountCents
  }

  /** The mutation goes past every guard and changes the store. */
  predicate Applies(s: State, kind: TxType, tenant: TenantId, student: StudentId,
                    amountCents: int, requestId: Option<string>)
  {
    var key := WalletKey(tenant, student);
    && amountCents > 0
    && key in s.wallets
    && FindByRequestId(s.txs, tenant, requestId).None?
    && (kind == DEBIT ==> s.wallets[key] >= amountCents)
  }

  /** The committed store of a mutation that gets past every guard. */
  function Applied(s: State, kind: TxType, tenant: TenantId, student: StudentId,
                   amountCents: int, requestId: Option<string>, meta: Meta): State
    requires WalletKey(tenant, student) in s.wallets
  {
    var key := WalletKey(tenant, student);
    s.(wallets := s.wallets[key := s.wallets[key] + Signed(kind, amountCents)],
       txs := s.txs + [Tx(key, tenant, kind, amountCents, requestId, meta)])
  }

  /**
    One `topup` (kind TOPUP), `debit` (kind DEBIT) or `refund` (kind REFUND):
    the reply and the committed store.
  */
  function Mutation(s: State, kind: TxType, tenant: TenantId, student: StudentId,
                    amountCents: int, requestId: Option<string>, meta: Meta): (o: (Result<Reply>, State))
    requires kind != PIX
    // the amount is checked before anything is read
    ensures amountCents <= 0 ==> o == (Err(BadRequest(AmountNotPositive)), s)
    ensures amountCents > 0 && WalletKey(tenant, student) !in s.wallets ==>
      o == (Err(NotFound(WalletNotFound)), s)
    // a replayed request id changes nothing and returns the current wallet
    ensures (amountCents > 0 && WalletKey(tenant, student) in s.wallets
             && FindByRequestId(s.txs, tenant, requestId).Some?) ==>
      o == (Ok(Raw(Reload(s, WalletKey(tenant, student)))), s)
    ensures (kind == DEBIT && amountCents > 0 && WalletKey(tenant, student) in s.wallets
             && FindByRequestId(s.txs, tenant, requestId).None?
             && s.wallets[WalletKey(tenant, student)] < amountCents) ==>
      o == (Err(BadRequest(InsufficientFunds)), s)
    // otherwise: one wallet moves by the signed amount and exactly one row is appended
    ensures !Applies(s, kind, tenant, student, amountCents, requestId) ==> o.1 == s
    ensures Applies(s, kind, tenant, student, amountCents, requestId) ==>
      var key := WalletKey(tenant, student);
      && o.1.wallets.Keys == s.wallets.Keys
      && o.1.wallets[key] == s.wallets[key] + Signed(kind, amountCents)
      && (forall k :: k in s.wallets && k != key ==> o.1.wallets[k] == s.wallets[k])
      && o.1.txs == s.txs + [Tx(key, tenant, kind, amountCents, requestId, meta)]
      && o.1.orders == s.orders && o.1.catalog == s.catalog
      && o.0 == Ok(Mapped(MapWallet(Reload(o.1, key))))
    ensures NonNegative(s.wallets) ==> NonNegative(o.1.wallets)
  {
    var key := WalletKey(tenant, student);
    if amountCents <= 0 then (Err(BadRequest(AmountNotPositive)), s)
    else if key !in s.wallets then (Err(NotFound(WalletNotFound)), s)
    else if FindByRequestId(s.txs, tenant, requestId).Some? then (Ok(Raw(Reload(s, key))), s)
    else if kind == DEBIT && s.wallets[key] < amountCents then (Err(BadRequest(InsufficientFunds)), s)
    else
      var s' := Applied(s, kind, tenant, student, amountCents, requestId, meta);
      (Ok(Mapped(MapWallet(Reload(s', key)))), s')
  }

  // ---------------------------------------------------------------------------
  // Properties of the ledger operations

  /**
    The direction shown for a TOPUP, DEBIT or REFUND row of positive amount is
    the sign with which it moves the balance. A PIX row is always shown as a
    credit, but it raises the balance only once it is paid: a pending charge is
    displayed as a credit that has not happened.
  */
  lemma DirectionIsSign(t: Tx)
    requires t.amountCents > 0
    ensures t.kind != PIX ==> (DirectionOf(t.kind) == Credit <==> Effect(t) > 0)
    ensures t.kind != PIX ==> Effect(t) == Signed(t.kind, t.amountCents)
    ensures t.kind == PIX ==> DirectionOf(t.kind) == Credit && (Effect(t) > 0 <==> IsPaid(t.meta))
  {
  }

  /** Every mutation keeps balances, log and idempotency keys consistent. */
  lemma MutationKeepsValid(s: State, kind: TxType, tenant: TenantId, student: StudentId,
                           amountCents: int, requestId: Option<string>, meta: Meta)
    requires kind != PIX
    requires Valid(s)
    ensures Valid(Mutation(s, kind, tenant, student, amountCents, requestId, meta).1)
  {
    if Applies(s, kind, tenant, student, amountCents, requestId) {
      var t := Tx(WalletKey(tenant, student), tenant, kind, amountCents, requestId, meta);
      AppendKeepsReconciled(s, t);
      AppendKeepsKeysUnique(s.txs, t);
    }
  }

  /**
    Replaying a request id is a no-op whatever the amount, the kind and even the
    student of the replay, as long as the tenant is the same: the lookup is
    tenant-wide, and a replay that fails an earlier guard changes nothing either.
  */
  lemma ReplayIsNoOp(s: State, kind: TxType, tenant: TenantId, student: StudentId, amountCents: int,
                     requestId: Option<string>, meta: Meta,
                     kind2: TxType, student2: StudentId, amount2: int, meta2: Meta)
    requires kind != PIX && kind2 != PIX
    requires Mutation(s, kind, tenant, student, amountCents, requestId, meta).0.Ok?
    requires requestId.Some? && requestId != Some("")
    ensures var s1 := Mutation(s, kind, tenant, student, amountCents, requestId, meta).1;
      Mutation(s1, kind2, tenant, student2, amount2, requestId, meta2).1 == s1
  {
    var s1 := Mutation(s, kind, tenant, student, amountCents, requestId, meta).1;
    var n := |s1.txs| - 1;
    if amount2 <= 0 || WalletKey(tenant, student2) !in s1.wallets {
      return;
    }
    if !KeyUsed(s.txs, tenant, requestId.value) {
      assert s1.txs[n].tenantId == tenant && s1.txs[n].requestId == requestId;
    } else {
      var i :| 0 <= i < |s.txs| && s.txs[i].tenantId == tenant && s.txs[i].requestId == requestId;
      assert s1.txs[i] == s.txs[i];
    }
  }

  /**
    A topup retried with the same request id reports the balance the first call
    reported, and the second call adds no row.
  */
  lemma RetriedTopupSameBalance(s: State, tenant: TenantId, student: StudentId, amountCents: int,
                                requestId: Option<string>, meta: Meta)
    requires requestId.Some? && requestId != Some("")
    requires Mutation(s, TOPUP, tenant, student, amountCents, requestId, meta).0.Ok?
    ensures var (r1, s1) := Mutation(s, TOPUP, tenant, student, amountCents, requestId, meta);
      var (r2, s2) := Mutation(s1, TOPUP, tenant, student, amountCents, requestId, meta);
      && r2.Ok? && r2.value.Raw?
      && r2.value.record.balanceCents
         == (if r1.value.Mapped? then r1.value.view.balanceCents else r1.value.record.balanceCents)
      && |s2.txs| == |s1.txs|
  {
    ReplayIsNoOp(s, TOPUP, tenant, student, amountCents, requestId, meta, TOPUP, student, amountCents, meta);
    var s1 := Mutation(s, TOPUP, tenant, student, amountCents, requestId, meta).1;
    assert FindByRequestId(s1.txs, tenant, requestId).Some? by {
      if !KeyUsed(s.txs, tenant, requestId.value) {
        assert s1.txs[|s1.txs| - 1].requestId == requestId;
      } else {
        var i :| 0 <= i < |s.txs| && s.txs[i].tenantId == tenant && s.txs[i].requestId == requestId;
        assert s1.txs[i] == s.txs[i];
      }
    }
  }

  /** `debit` of exactly the balance succeeds and leaves zero; one cent more fails and changes nothing. */
  lemma DebitBoundary(s: State, tenant: TenantId, student: StudentId, requestId: Option<string>, meta: Meta)
    requires WalletKey(tenant, student) in s.wallets && s.wallets[WalletKey(tenant, student)] > 0
    requires FindByRequestId(s.txs, tenant, requestId).None?
    ensures var b := s.wallets[WalletKey(tenant, student)];
      var (r, s') := Mutation(s, DEBIT, tenant, student, b, requestId, meta);
      r.Ok? && s'.wallets[WalletKey(tenant, student)] == 0
    ensures var b := s.wallets[WalletKey(tenant, student)];
      Mutation(s, DEBIT, tenant, student, b + 1, requestId, meta)
      == (Err(BadRequest(InsufficientFunds)), s)
  {
  }

  /** The wallet service, whose operations run as transactions on the database. */
  class WalletsService {
    const db: Db

    constructor (db: Db)
      ensures this.db == db
    {
      this.db := db;
    }

    method Get(tenant: TenantId, student: StudentId) returns (r: Result<WalletView>)
      ensures r == GetView(db.Snapshot(), tenant, student)
    {
      var key := WalletKey(tenant, student);
      if key !in db.wallets {
        return Err(NotFound(WalletNotFound));
      }
      r := Ok(MapWallet(Reload(db.Snapshot(), key)));
    }

    method Topup(tenant: TenantId, student: StudentId, amountCents: int,
                 requestId: Option<string>, meta: Meta) returns (r: Result<Reply>)
      modifies db
      ensures (r, db.Snapshot())
           == Mutation(old(db.Snapshot()), TOPUP, tenant, student, amountCents, requestId, meta)
    {
      r := Mutate(TOPUP, tenant, student, amountCents, requestId, meta);
    }

    method Debit(tenant: TenantId, student: StudentId, amountCents: int,
                 requestId: Option<string>, meta: Meta) returns (r: Result<Reply>)
      modifies db
      ensures (r, db.Snapshot())
           == Mutation(old(db.Snapshot()), DEBIT, tenant, student, amountCents, requestId, meta)
    {
      r := Mutate(DEBIT, tenant, student, amountCents, requestId, meta);
    }

    method Refund(tenant: TenantId, student: StudentId, amountCents: int,
                  requestId: Option<string>, meta: Meta) returns (r: Result<Reply>)
      modifies db
      ensures (r, db.Snapshot())
           == Mutation(old(db.Snapshot()), REFUND, tenant, student, amountCents, requestId, meta)
    {
      r := Mutate(REFUND, tenant, student, amountCents, requestId, meta);
    }

    /** The transaction body the three mutations share. */
    method Mutate(kind: TxType, tenant: TenantId, student: StudentId, amountCents: int,
                  requestId: Option<string>, meta: Meta) returns (r: Result<Reply>)
      requires kind != PIX
      modifies db
      ensures (r, db.Snapshot())
           == Mutation(old(db.Snapshot()), kind, tenant, student, amountCents, requestId, meta)
    {
      ghost var s := db.Snapshot();
      if amountCents <= 0 {
        return Err(BadRequest(AmountNotPositive));
      }
      var key := WalletKey(tenant, student);
      if key !in db.wallets {
        return Err(NotFound(WalletNotFound));
      }
      var reused := FindByRequestId(db.txs, tenant, requestId);
      if reused.Some? {
        return Ok(Raw(Reload(db.Snapshot(), key)));
      }
      if kind == DEBIT && db.wallets[key] < amountCents {
        return Err(BadRequest(InsufficientFunds));
      }
      db.wallets := db.wallets[key := db.wallets[key] + Signed(kind, amountCents)];
      db.txs := db.txs + [Tx(key, tenant, kind, amountCents, requestId, meta)];
      assert db.Snapshot() == Applied(s, kind, tenant, student, amountCents, requestId, meta);
      r := Ok(Mapped(MapWallet(Reload(db.Snapshot(), key))));
    }
  }
}
