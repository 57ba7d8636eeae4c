/**
  The tables of the canteen service that the ledger and the order flow touch:
  wallets, the append-only wallet-transaction log, orders with their lines and
  the catalog, plus the error and optional-value wrappers every operation uses.

  Modelling choices that hold throughout:
  - amounts are integer cents (`int`), as the service stores them;
  - a wallet is identified by its (tenant, student) pair, which the store keeps
    unique, so a row's `walletId` is that pair;
  - a transaction row's id is its position in `txs`, so "newest" means "later in
    the sequence";
  - JSON `meta` is an optional string-to-string map.
*/
module Schema {

  type TenantId = string
  type StudentId = string
  type ItemId = string
  type OrderId = string

  datatype Option<+T> = None | Some(value: T)

  /** The HTTP exceptions the services throw, with their messages. */
  datatype Error =
    | BadRequest(message: string)
    | NotFound(message: string)
    | Unauthorized(message: string)
    | Forbidden(message: string)

  datatype Result<+T> = Ok(value: T) | Err(error: Error)

  datatype WalletKey = WalletKey(tenantId: TenantId, studentId: StudentId)

  datatype TxType = TOPUP | DEBIT | REFUND | PIX

  type Meta = Option<map<string, string>>

  /** One row of the wallet-transaction log. */
  datatype Tx = Tx(
    walletId: WalletKey,
    tenantId: TenantId,
    kind: TxType,
    amountCents: int,
    requestId: Option<string>,
    meta: Meta)

  datatype OrderStatus = CREATED | PAID | FULFILLED | CANCELLED

  /** An order line with the unit price frozen when the order was created. */
  datatype OrderLine = OrderLine(itemId: ItemId, qty: int, unitPriceCents: int)

  datatype Order = Order(
    tenantId: TenantId,
    studentId: StudentId,
    status: OrderStatus,
    items: seq<OrderLine>)

  datatype CatalogItem = CatalogItem(tenantId: TenantId, priceCents: int, isActive: bool)

  /** The whole store as one value: what a transaction reads and what it commits. */
  datatype State = State(
    wallets: map<WalletKey, int>,
    txs: seq<Tx>,
    orders: map<OrderId, Order>,
    catalog: map<ItemId, CatalogItem>)

  /** No wallet balance is negative. */
  predicate NonNegative(wallets: map<WalletKey, int>) {
    forall k :: k in wallets ==> wallets[k] >= 0
  }

  /**
    The first row satisfying `p`, as a `findFirst` over the log in insertion
    order returns it.
  */
  function FirstWhere(txs: seq<Tx>, p: Tx -> bool): (r: Option<nat>)
    ensures r.Some? ==> r.value < |txs| && p(txs[r.value])
    ensures r.Some? ==> forall i :: 0 <= i < r.value ==> !p(txs[i])
    ensures r.None? ==> forall i :: 0 <= i < |txs| ==> !p(txs[i])
  {
    if |txs| == 0 then None
    else if p(txs[0]) then Some(0)
    else
      match FirstWhere(txs[1..], p)
      case None => None
      case Some(j) => Some(j + 1)
  }

  /** The database: its tables are fields that the services' transactions reassign. */
  class Db {
    var wallets: map<WalletKey, int>
    var txs: seq<Tx>
    var orders: map<OrderId, Order>
    var catalog: map<ItemId, CatalogItem>

    function Snapshot(): State
      reads this
    {
      State(wallets, txs, orders, catalog)
    }

    constructor (init: State)
      ensures Snapshot() == init
    {
      wallets, txs, orders, catalog := init.wallets, init.txs, init.orders, init.catalog;
    }
  }
}
