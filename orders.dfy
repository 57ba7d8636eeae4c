/**
  The order flow on top of the ledger: `create` prices the requested items from
  the catalog, freezes those prices into the order lines and debits the
  student's wallet in the same transaction; `fulfill` moves a PAID order to
  FULFILLED; `cancel` refunds the stored total at most once, under the
  idempotency key `refund:order:<id>`, and moves the order to CANCELLED.
*/
module Orders {
  import opened Schema
  import opened Ledger

  const ItemsInvalid := "Some items are invalid or inactive for this tenant"
  const StudentWalletNotFound := "Wallet not found for student"
  const InsufficientBalance := "Insufficient balance"
  const OrderNotFound := "Order not found"
  const OnlyPaidFulfillable := "Only PAID orders can be fulfilled"
  const FulfilledNotCancellable := "Cannot cancel a fulfilled order"
  const LinesInvalid := "items must be a non-empty list of lines with qty at least 1"

  datatype ItemRequest = ItemRequest(itemId: ItemId, qty: int)

  datatype CreateOrder = CreateOrder(studentId: StudentId, items: seq<ItemRequest>)

  datatype Created = Created(orderId: OrderId, order: Order, totalCents: int)

  /**
    What the create body's declared constraints ask for: at least one line, and
    every line's quantity at least 1. Only the first is enforced as the code
    stands, because the lines are not validated as nested objects.
  */
  predicate ValidRequest(dto: CreateOrder) {
    && |dto.items| >= 1
    && forall i :: 0 <= i < |dto.items| ==> dto.items[i].qty >= 1
  }

  // ---------------------------------------------------------------------------
  // Pricing

  /** The de-duplicated item ids of a request. */
  function RequestedIds(items: seq<ItemRequest>): set<ItemId> {
    set i | 0 <= i < |items| :: items[i].itemId
  }

  /** The item exists in this tenant's catalog and is active. */
  predicate ActiveFor(catalog: map<ItemId, CatalogItem>, tenant: TenantId, id: ItemId) {
    id in catalog && catalog[id].tenantId == tenant && catalog[id].isActive
  }

  /** What the catalog query returns: the requested ids active for the tenant. */
  function ActiveIds(catalog: map<ItemId, CatalogItem>, tenant: TenantId, ids: set<ItemId>): set<ItemId> {
    set id | id in ids && ActiveFor(catalog, tenant, id)
  }

  predicate AllActive(catalog: map<ItemId, CatalogItem>, tenant: TenantId, items: seq<ItemRequest>) {
    forall i :: 0 <= i < |items| ==> ActiveFor(catalog, tenant, items[i].itemId)
  }

  /**
    Comparing the number of rows the catalog query returns with the number of
    distinct requested ids detects exactly the requests that name an unknown,
    foreign or inactive item.
  */
  lemma CountCheckMeansAllActive(catalog: map<ItemId, CatalogItem>, tenant: TenantId, items: seq<ItemRequest>)
    ensures |ActiveIds(catalog, tenant, RequestedIds(items))| == |RequestedIds(items)|
        <==> AllActive(catalog, tenant, items)
  {
    var ids := RequestedIds(items);
    var active := ActiveIds(catalog, tenant, ids);
    if AllActive(catalog, tenant, items) {
      assert active == ids by {
        forall id | id in ids ensures id in active {
          var i :| 0 <= i < |items| && items[i].itemId == id;
        }
      }
    } else {
      var i :| 0 <= i < |items| && !ActiveFor(catalog, tenant, items[i].itemId);
      assert items[i].itemId in ids - active;
      assert ids == active + (ids - active);
    }
  }

  /** The order lines: each requested line with its item's current catalog price frozen in. */
  function Prepare(catalog: map<ItemId, CatalogItem>, items: seq<ItemRequest>): (lines: seq<OrderLine>)
    requires forall i :: 0 <= i < |items| ==> items[i].itemId in catalog
    ensures |lines| == |items|
    ensures forall i :: 0 <= i < |items| ==>
      lines[i] == OrderLine(items[i].itemId, items[i].qty, catalog[items[i].itemId].priceCents)
  {
    seq(|items|, i requires 0 <= i < |items| =>
      OrderLine(items[i].itemId, items[i].qty, catalog[items[i].itemId].priceCents))
  }

  function LineTotal(line: OrderLine): int {
    line.unitPriceCents * line.qty
  }

  /**
    The order total: price times quantity summed over the lines from the first
    to the last, starting at zero. Lines with non-negative prices and
    quantities never total below zero.
  */
  function Total(lines: seq<OrderLine>): (r: int)
    ensures (forall i :: 0 <= i < |lines| ==> lines[i].qty >= 0 && lines[i].unitPriceCents >= 0) ==> r >= 0
  {
    if |lines| == 0 then 0 else Total(lines[..|lines| - 1]) + LineTotal(lines[|lines| - 1])
  }

  /** The price of a request at current catalog prices: the sum of price times quantity. */
  function RequestTotal(catalog: map<ItemId, CatalogItem>, items: seq<ItemRequest>): int
    requires forall i :: 0 <= i < |items| ==> items[i].itemId in catalog
  {
    if |items| == 0 then 0
    else catalog[items[0].itemId].priceCents * items[0].qty + RequestTotal(catalog, items[1..])
  }

  lemma {:induction false} TotalCons(line: OrderLine, lines: seq<OrderLine>)
    ensures Total([line] + lines) == LineTotal(line) + Total(lines)
    decreases |lines|
  {
    if |lines| > 0 {
      var n := |lines| - 1;
      assert ([line] + lines)[..n + 1] == [line] + lines[..n];
      TotalCons(line, lines[..n]);
    }
  }

  /** The total frozen into the lines is the request's price at catalog prices. */
  lemma {:induction false} TotalOfPrepared(catalog: map<ItemId, CatalogItem>, items: seq<ItemRequest>)
    requires forall i :: 0 <= i < |items| ==> items[i].itemId in catalog
    ensures Total(Prepare(catalog, items)) == RequestTotal(catalog, items)
  {
    if |items| > 0 {
      var lines := Prepare(catalog, items);
      assert lines == [lines[0]] + Prepare(catalog, items[1..]);
      TotalCons(lines[0], Prepare(catalog, items[1..]));
      TotalOfPrepared(catalog, items[1..]);
    }
  }

  // ---------------------------------------------------------------------------
  // Operations

  /** The order-id meta of the DEBIT row that pays for an order. */
  function OrderMeta(orderId: OrderId): Meta {
    Some(map["orderId" := orderId])
  }

  /**
    `create`: validate the items, price them, then in one transaction check the
    wallet and its balance, create the PAID order, debit the wallet and log the
    DEBIT row. `orderId` is the fresh id the store assigns to the new order.
  */
  function Creation(s: State, tenant: TenantId, dto: CreateOrder, orderId: OrderId): (o: (Result<Created>, State))
    requires orderId !in s.orders
    ensures !AllActive(s.catalog, tenant, dto.items) ==> o == (Err(BadRequest(ItemsInvalid)), s)
    ensures AllActive(s.catalog, tenant, dto.items) && WalletKey(tenant, dto.studentId) !in s.wallets ==>
      o == (Err(NotFound(StudentWalletNotFound)), s)
    ensures (AllActive(s.catalog, tenant, dto.items) && WalletKey(tenant, dto.studentId) in s.wallets
             && s.wallets[WalletKey(tenant, dto.studentId)] < RequestTotal(s.catalog, dto.items)) ==>
      o == (Err(BadRequest(InsufficientBalance)), s)
    ensures (AllActive(s.catalog, tenant, dto.items) && WalletKey(tenant, dto.studentId) in s.wallets
             && s.wallets[WalletKey(tenant, dto.studentId)] >= RequestTotal(s.catalog, dto.items)) ==>
      o.0.Ok?
    ensures o.0.Ok? ==>
      var key := WalletKey(tenant, dto.studentId);
      var total := RequestTotal(s.catalog, dto.items);
      var order := o.0.value.order;
      && o.0.value.orderId == orderId && o.0.value.totalCents == total
      && order.tenantId == tenant && order.studentId == dto.studentId && order.status == PAID
      && |order.items| == |dto.items|
      && (forall i :: 0 <= i < |dto.items| ==>
            order.items[i] == OrderLine(dto.items[i].itemId, dto.items[i].qty,
                                        s.catalog[dto.items[i].itemId].priceCents))
      && Total(order.items) == total
      && key in s.wallets && s.wallets[key] >= total
      && o.1.orders == s.orders[orderId := order]
      && o.1.wallets == s.wallets[key := s.wallets[key] - total]
      && o.1.txs == s.txs + [Tx(key, tenant, DEBIT, total, None, OrderMeta(orderId))]
      && o.1.catalog == s.catalog
    ensures o.0.Err? ==> o.1 == s
    ensures NonNegative(s.wallets) ==> NonNegative(o.1.wallets)
  {
    var ids := RequestedIds(dto.items);
    CountCheckMeansAllActive(s.catalog, tenant, dto.items);
    if |ActiveIds(s.catalog, tenant, ids)| != |ids| then (Err(BadRequest(ItemsInvalid)), s)
    else
      var lines := Prepare(s.catalog, dto.items);
      var total := Total(lines);
      TotalOfPrepared(s.catalog, dto.items);
      var key := WalletKey(tenant, dto.studentId);
      if key !in s.wallets then (Err(NotFound(StudentWalletNotFound)), s)
      else if s.wallets[key] < total then (Err(BadRequest(InsufficientBalance)), s)
      else
        var order := Order(tenant, dto.studentId, PAID, lines);
        (Ok(Created(orderId, order, total)),
         State(s.wallets[key := s.wallets[key] - total],
               s.txs + [Tx(key, tenant, DEBIT, total, None, OrderMeta(orderId))],
               s.orders[orderId := order],
               s.catalog))
  }

  /**
    `create` behind a validation that checks every line, as the declared
    `@Min(1)` on `qty` intends: a body with no line or with a quantity below 1
    is refused before anything is read.
  */
  function ValidatedCreation(s: State, tenant: TenantId, dto: CreateOrder, orderId: OrderId)
    : (o: (Result<Created>, State))
    requires orderId !in s.orders
    ensures !ValidRequest(dto) ==> o == (Err(BadRequest(LinesInvalid)), s)
    ensures ValidRequest(dto) ==> o == Creation(s, tenant, dto, orderId)
  {
    if !ValidRequest(dto) then (Err(BadRequest(LinesInvalid)), s)
    else Creation(s, tenant, dto, orderId)
  }

  /** The order exists and belongs to the tenant. */
  predicate Found(s: State, tenant: TenantId, orderId: OrderId) {
    orderId in s.orders && s.orders[orderId].tenantId == tenant
  }

  /** `fulfill`: PAID becomes FULFILLED; any other status is refused. */
  function Fulfilment(s: State, tenant: TenantId, orderId: OrderId): (o: (Result<Order>, State))
    ensures !Found(s, tenant, orderId) ==> o == (Err(NotFound(OrderNotFound)), s)
    ensures Found(s, tenant, orderId) && s.orders[orderId].status != PAID ==>
      o == (Err(BadRequest(OnlyPaidFulfillable)), s)
    ensures o.0.Ok? <==> Found(s, tenant, orderId) && s.orders[orderId].status == PAID
    ensures o.0.Ok? ==>
      && o.0.value == s.orders[orderId].(status := FULFILLED)
      && o.1 == s.(orders := s.orders[orderId := o.0.value])
  {
    if !Found(s, tenant, orderId) then (Err(NotFound(OrderNotFound)), s)
    else if s.orders[orderId].status != PAID then (Err(BadRequest(OnlyPaidFulfillable)), s)
    else
      var updated := s.orders[orderId].(status := FULFILLED);
      (Ok(updated), s.(orders := s.orders[orderId := updated]))
  }

  /** The deterministic idempotency key of an order's refund. */
  function RefundKey(orderId: OrderId): (k: string)
    ensures |k| == 13 + |orderId| && k[..13] == "refund:order:" && k[13..] == orderId
  {
    "refund:order:" + orderId
  }

  function RefundMeta(orderId: OrderId, actor: string): Meta {
    Some(map["reason" := "ORDER_CANCELLED", "orderId" := orderId, "actorUserId" := actor])
  }

  /** `cancel` credits the stored total: no refund row for the order yet and a positive total. */
  predicate RefundDue(s: State, tenant: TenantId, orderId: OrderId)
    requires orderId in s.orders
  {
    !KeyUsed(s.txs, tenant, RefundKey(orderId)) && Total(s.orders[orderId].items) > 0
  }

  /**
    `cancel`: a FULFILLED order is refused, a CANCELLED one is returned as it
    is; otherwise the total recomputed from the stored lines is refunded unless
    the order's refund key is already in the log, and the order becomes
    CANCELLED.
  */
  function Cancellation(s: State, tenant: TenantId, orderId: OrderId, actor: string): (o: (Result<Order>, State))
    ensures !Found(s, tenant, orderId) ==> o == (Err(NotFound(OrderNotFound)), s)
    ensures Found(s, tenant, orderId) && s.orders[orderId].status == FULFILLED ==>
      o == (Err(BadRequest(FulfilledNotCancellable)), s)
    ensures Found(s, tenant, orderId) && s.orders[orderId].status == CANCELLED ==>
      o == (Ok(s.orders[orderId]), s)
    ensures (Found(s, tenant, orderId) && s.orders[orderId].status != FULFILLED
             && s.orders[orderId].status != CANCELLED
             && WalletKey(tenant, s.orders[orderId].studentId) !in s.wallets) ==>
      o == (Err(NotFound(StudentWalletNotFound)), s)
    ensures (Found(s, tenant, orderId) && s.orders[orderId].status != FULFILLED
             && (s.orders[orderId].status == CANCELLED
                 || WalletKey(tenant, s.orders[orderId].studentId) in s.wallets)) ==>
      o.0.Ok?
    ensures (o.0.Ok? && s.orders[orderId].status != CANCELLED) ==>
      var order := s.orders[orderId];
      var key := WalletKey(tenant, order.studentId);
      var total := Total(order.items);
      && order.status != FULFILLED && key in s.wallets
      && o.0.value == order.(status := CANCELLED)
      && o.1.orders == s.orders[orderId := order.(status := CANCELLED)]
      && o.1.catalog == s.catalog
      && (RefundDue(s, tenant, orderId) ==>
            && o.1.wallets == s.wallets[key := s.wallets[key] + total]
            && o.1.txs == s.txs + [Tx(key, tenant, REFUND, total, Some(RefundKey(orderId)),
                                      RefundMeta(orderId, actor))])
      && (!RefundDue(s, tenant, orderId) ==> o.1.wallets == s.wallets && o.1.txs == s.txs)
    ensures o.0.Err? ==> o.1 == s
    ensures NonNegative(s.wallets) ==> NonNegative(o.1.wallets)
  {
    if !Found(s, tenant, orderId) then (Err(NotFound(OrderNotFound)), s)
    else
      var order := s.orders[orderId];
      if order.status == FULFILLED then (Err(BadRequest(FulfilledNotCancellable)), s)
      else if order.status == CANCELLED then (Ok(order), s)
      else
        var total := Total(order.items);
        var requestId := RefundKey(orderId);
        var key := WalletKey(tenant, order.studentId);
        if key !in s.wallets then (Err(NotFound(StudentWalletNotFound)), s)
        else
          var s' :=
            if !KeyUsed(s.txs, tenant, requestId) && total > 0 then
              s.(wallets := s.wallets[key := s.wallets[key] + total],
                 txs := s.txs + [Tx(key, tenant, REFUND, total, Some(requestId), RefundMeta(orderId, actor))])
            else s;
          var updated := order.(status := CANCELLED);
          (Ok(updated), s'.(orders := s'.orders[orderId := updated]))
  }

  function StatusName(status: OrderStatus): string {
    match status
    case CREATED => "CREATED"
    case PAID => "PAID"
    case FULFILLED => "FULFILLED"
    case CANCELLED => "CANCELLED"
  }

  /**
    `list`: the tenant's orders, narrowed to one student and one status when
    those filters are given and non-empty.
  */
  function Listing(orders: map<OrderId, Order>, tenant: TenantId,
                studentId: Option<string>, status: Option<string>): (r: map<OrderId, Order>)
    ensures forall id :: id in r <==>
      && id in orders
      && orders[id].tenantId == tenant
      && (studentId.None? || studentId.value == "" || orders[id].studentId == studentId.value)
      && (status.None? || status.value == "" || StatusName(orders[id].status) == status.value)
    ensures forall id :: id in r ==> r[id] == orders[id]
  {
    map id | id in orders
      && orders[id].tenantId == tenant
      && (studentId.None? || studentId.value == "" || orders[id].studentId == studentId.value)
      && (status.None? || status.value == "" || StatusName(orders[id].status) == status.value)
      :: orders[id]
  }

  // ---------------------------------------------------------------------------
  // Properties of the order flow

  /** A validated create keeps the store consistent; the debit it logs is never negative. */
  lemma CreateKeepsValid(s: State, tenant: TenantId, dto: CreateOrder, orderId: OrderId)
    requires orderId !in s.orders
    requires Valid(s)
    ensures Valid(ValidatedCreation(s, tenant, dto, orderId).1)
  {
    var (r, s') := ValidatedCreation(s, tenant, dto, orderId);
    if r.Ok? {
      var key := WalletKey(tenant, dto.studentId);
      var t := Tx(key, tenant, DEBIT, r.value.totalCents, None, OrderMeta(orderId));
      AppendKeepsReconciled(s, t);
      AppendKeepsKeysUnique(s.txs, t);
    }
  }

  lemma CancelKeepsValid(s: State, tenant: TenantId, orderId: OrderId, actor: string)
    requires Valid(s)
    ensures Valid(Cancellation(s, tenant, orderId, actor).1)
  {
    var (r, s') := Cancellation(s, tenant, orderId, actor);
    if r.Ok? && s.orders[orderId].status != CANCELLED && RefundDue(s, tenant, orderId) {
      var order := s.orders[orderId];
      var t := Tx(WalletKey(tenant, order.studentId), tenant, REFUND, Total(order.items),
                  Some(RefundKey(orderId)), RefundMeta(orderId, actor));
      AppendKeepsReconciled(s, t);
      AppendKeepsKeysUnique(s.txs, t);
    }
  }

  /**
    Without the line checks, a quantity of -1 gives a negative total: the
    balance check passes, the "debit" raises the balance and logs a DEBIT row
    of a negative amount, and a later cancel refunds nothing because the total
    is not positive, so the raised balance stays.
  */
  lemma NegativeQtyRaisesBalance()
    ensures var w := WalletKey("t1", "s1");
      var s := State(map[w := 0], [], map[], map["i1" := CatalogItem("t1", 100, true)]);
      var dto := CreateOrder("s1", [ItemRequest("i1", -1)]);
      var (r1, s1) := Creation(s, "t1", dto, "o1");
      && Valid(s)
      && r1.Ok? && s1.wallets[w] == 100
      && !Valid(s1)
      && Cancellation(s1, "t1", "o1", "a1").0.Ok?
      && Cancellation(s1, "t1", "o1", "a1").1.wallets[w] == 100
  {
    var w := WalletKey("t1", "s1");
    var s := State(map[w := 0], [], map[], map["i1" := CatalogItem("t1", 100, true)]);
    var dto := CreateOrder("s1", [ItemRequest("i1", -1)]);
    assert dto.items[1..] == [];
    assert RequestTotal(s.catalog, dto.items) == -100;
    var (r1, s1) := Creation(s, "t1", dto, "o1");
    assert s1.txs[0].amountCents == -100;
    var lines := s1.orders["o1"].items;
    assert lines[..0] == [];
    assert Total(lines) == -100;
  }

  /** A second `cancel` of the same order returns it unchanged and refunds nothing. */
  lemma CancelIsIdempotent(s: State, tenant: TenantId, orderId: OrderId, actor: string, actor2: string)
    requires Cancellation(s, tenant, orderId, actor).0.Ok?
    ensures var (r1, s1) := Cancellation(s, tenant, orderId, actor);
      Cancellation(s1, tenant, orderId, actor2) == (r1, s1)
  {
  }

  /**
    In a consistent store an order has at most one refund row: the refund key
    is an idempotency key and keys are unique per tenant.
  */
  lemma AtMostOneRefund(s: State, tenant: TenantId, orderId: OrderId, i: nat, j: nat)
    requires KeysUnique(s.txs)
    requires i < |s.txs| && j < |s.txs|
    requires s.txs[i].tenantId == tenant && s.txs[i].requestId == Some(RefundKey(orderId))
    requires s.txs[j].tenantId == tenant && s.txs[j].requestId == Some(RefundKey(orderId))
    ensures i == j
  {
  }

  /**
    Creating an order and cancelling it gives every wallet back its balance,
    provided catalog prices are non-negative and nothing in the tenant's log
    already carries the new order's refund key.
  */
  lemma CreateThenCancelRestoresBalances(s: State, tenant: TenantId, dto: CreateOrder, orderId: OrderId, actor: string)
    requires ValidRequest(dto) && orderId !in s.orders
    requires PricesNonNegative(s.catalog)
    requires !KeyUsed(s.txs, tenant, RefundKey(orderId))
    requires Creation(s, tenant, dto, orderId).0.Ok?
    ensures var s1 := Creation(s, tenant, dto, orderId).1;
      var (r2, s2) := Cancellation(s1, tenant, orderId, actor);
      && r2.Ok? && r2.value.status == CANCELLED
      && s2.wallets == s.wallets
  {
    var (r1, s1) := Creation(s, tenant, dto, orderId);
    var key := WalletKey(tenant, dto.studentId);
    CreationLeavesRefundable(s, tenant, dto, orderId);
    CancelRefundsTotal(s1, tenant, orderId, actor);
    assert s1.wallets[key := s1.wallets[key] + Total(r1.value.order.items)] == s.wallets;
  }

  /** What a successful create leaves behind for a later cancel. */
  lemma CreationLeavesRefundable(s: State, tenant: TenantId, dto: CreateOrder, orderId: OrderId)
    requires ValidRequest(dto) && orderId !in s.orders
    requires PricesNonNegative(s.catalog)
    requires !KeyUsed(s.txs, tenant, RefundKey(orderId))
    requires Creation(s, tenant, dto, orderId).0.Ok?
    ensures var (r1, s1) := Creation(s, tenant, dto, orderId);
      var order := r1.value.order;
      var key := WalletKey(tenant, dto.studentId);
      && Found(s1, tenant, orderId) && s1.orders[orderId] == order && order.status == PAID
      && order.studentId == dto.studentId
      && Total(order.items) >= 0
      && !KeyUsed(s1.txs, tenant, RefundKey(orderId))
      && s1.wallets == s.wallets[key := s.wallets[key] - Total(order.items)]
  {
    var (r1, s1) := Creation(s, tenant, dto, orderId);
    KeyStaysUnused(s.txs, Tx(WalletKey(tenant, dto.studentId), tenant, DEBIT, r1.value.totalCents, None,
                             OrderMeta(orderId)),
                   tenant, RefundKey(orderId));
  }

  /**
    Cancelling a PAID or CREATED order that has no refund yet credits its wallet
    with exactly the order's total (nothing when the total is zero).
  */
  lemma CancelRefundsTotal(s: State, tenant: TenantId, orderId: OrderId, actor: string)
    requires Found(s, tenant, orderId)
    requires s.orders[orderId].status == PAID || s.orders[orderId].status == CREATED
    requires WalletKey(tenant, s.orders[orderId].studentId) in s.wallets
    requires !KeyUsed(s.txs, tenant, RefundKey(orderId)) && Total(s.orders[orderId].items) >= 0
    ensures var (r, s') := Cancellation(s, tenant, orderId, actor);
      var key := WalletKey(tenant, s.orders[orderId].studentId);
      && r == Ok(s.orders[orderId].(status := CANCELLED))
      && s'.wallets == s.wallets[key := s.wallets[key] + Total(s.orders[orderId].items)]
  {
    var key := WalletKey(tenant, s.orders[orderId].studentId);
    if Total(s.orders[orderId].items) == 0 {
      assert s.wallets[key := s.wallets[key] + 0] == s.wallets;
    }
  }

  /** A row without a request id does not use any key. */
  lemma KeyStaysUnused(txs: seq<Tx>, t: Tx, tenant: TenantId, key: string)
    requires t.requestId.None? && !KeyUsed(txs, tenant, key)
    ensures !KeyUsed(txs + [t], tenant, key)
  {
    forall i | 0 <= i < |txs| + 1
      ensures !((txs + [t])[i].tenantId == tenant && (txs + [t])[i].requestId == Some(key))
    {
      if i < |txs| {
        assert (txs + [t])[i] == txs[i];
      }
    }
  }

  /** The order service, whose operations run as transactions on the database. */
  class OrdersService {
    const db: Db

    constructor (db: Db)
      ensures this.db == db
    {
      this.db := db;
    }

    method List(tenant: TenantId, studentId: Option<string>, status: Option<string>)
      returns (r: map<OrderId, Order>)
      ensures r == Listing(db.orders, tenant, studentId, status)
    {
      r := map id | id in db.orders
        && db.orders[id].tenantId == tenant
        && (studentId.None? || studentId.value == "" || db.orders[id].studentId == studentId.value)
        && (status.None? || status.value == "" || StatusName(db.orders[id].status) == status.value)
        :: db.orders[id];
    }

    method Create(tenant: TenantId, dto: CreateOrder, orderId: OrderId) returns (r: Result<Created>)
      requires orderId !in db.orders
      modifies db
      ensures (r, db.Snapshot()) == Creation(old(db.Snapshot()), tenant, dto, orderId)
    {
      ghost var s := db.Snapshot();
      var ids := RequestedIds(dto.items);
      var catalogItems := ActiveIds(db.catalog, tenant, ids);
      if |catalogItems| != |ids| {
        return Err(BadRequest(ItemsInvalid));
      }
      CountCheckMeansAllActive(db.catalog, tenant, dto.items);
      var itemsPrepared := Prepare(db.catalog, dto.items);
      var totalCents := Total(itemsPrepared);
      var key := WalletKey(tenant, dto.studentId);
      if key !in db.wallets {
        return Err(NotFound(StudentWalletNotFound));
      }
      if db.wallets[key] < totalCents {
        return Err(BadRequest(InsufficientBalance));
      }
      var order := Order(tenant, dto.studentId, PAID, itemsPrepared);
      db.orders := db.orders[orderId := order];
      db.wallets := db.wallets[key := db.wallets[key] - totalCents];
      db.txs := db.txs + [Tx(key, tenant, DEBIT, totalCents, None, OrderMeta(orderId))];
      r := Ok(Created(orderId, order, totalCents));
      assert (r, db.Snapshot()) == Creation(s, tenant, dto, orderId);
    }

    method Fulfill(tenant: TenantId, orderId: OrderId) returns (r: Result<Order>)
      modifies db
      ensures (r, db.Snapshot()) == Fulfilment(old(db.Snapshot()), tenant, orderId)
    {
      if orderId !in db.orders || db.orders[orderId].tenantId != tenant {
        return Err(NotFound(OrderNotFound));
      }
      if db.orders[orderId].status != PAID {
        return Err(BadRequest(OnlyPaidFulfillable));
      }
      var updated := db.orders[orderId].(status := FULFILLED);
      db.orders := db.orders[orderId := updated];
      r := Ok(updated);
    }

    method Cancel(tenant: TenantId, orderId: OrderId, actor: string) returns (r: Result<Order>)
      modifies db
      ensures (r, db.Snapshot()) == Cancellation(old(db.Snapshot()), tenant, orderId, actor)
    {
      ghost var s := db.Snapshot();
      if orderId !in db.orders || db.orders[orderId].tenantId != tenant {
        return Err(NotFound(OrderNotFound));
      }
      var order := db.orders[orderId];
      if order.status == FULFILLED {
        return Err(BadRequest(FulfilledNotCancellable));
      }
      if order.status == CANCELLED {
        return Ok(order);
      }
      var total := Total(order.items);
      var requestId := RefundKey(orderId);
      var key := WalletKey(tenant, order.studentId);
      if key !in db.wallets {
        return Err(NotFound(StudentWalletNotFound));
      }
      var existing := FirstWhere(db.txs, (t: Tx) => t.tenantId == tenant && t.requestId == Some(requestId));
      if existing.None? && total > 0 {
        db.wallets := db.wallets[key := db.wallets[key] + total];
        db.txs := db.txs + [Tx(key, tenant, REFUND, total, Some(requestId), RefundMeta(orderId, actor))];
      }
      var updated := order.(status := CANCELLED);
      db.orders := db.orders[orderId := updated];
      r := Ok(updated);
      assert (r, db.Snapshot()) == Cancellation(s, tenant, orderId, actor);
    }
  }
}
