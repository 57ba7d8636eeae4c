/**
  The service as a whole: any sequence of ledger mutations, order operations
  and PIX confirmations, each run as its own transaction, keeps the store
  consistent, keeps the log append-only, and moves every order only along its
  life cycle.
*/
module System {
  import opened Schema
  import opened Ledger
  import Wallets
  import Orders
  import PixWebhook

  /** One request that changes the store. */
  datatype Op =
    | Topup(tenant: TenantId, student: StudentId, amountCents: int, requestId: Option<string>, meta: Meta)
    | Debit(tenant: TenantId, student: StudentId, amountCents: int, requestId: Option<string>, meta: Meta)
    | Refund(tenant: TenantId, student: StudentId, amountCents: int, requestId: Option<string>, meta: Meta)
    | CreateOrder(tenant: TenantId, dto: Orders.CreateOrder, orderId: OrderId)
    | FulfillOrder(tenant: TenantId, orderId: OrderId)
    | CancelOrder(tenant: TenantId, orderId: OrderId, actor: string)
    | PixConfirmed(expected: Option<string>, header: Option<string>, chargeId: Option<string>)

  /**
    The store after one request. A create runs with its lines validated and is
    refused when its id is already taken; the PIX step is the confirmation that
    only accepts PIX rows.
  */
  function Step(s: State, op: Op): State {
    match op
    case Topup(t, st, a, k, m) => Wallets.Mutation(s, TOPUP, t, st, a, k, m).1
    case Debit(t, st, a, k, m) => Wallets.Mutation(s, DEBIT, t, st, a, k, m).1
    case Refund(t, st, a, k, m) => Wallets.Mutation(s, REFUND, t, st, a, k, m).1
    case CreateOrder(t, dto, id) =>
      if id !in s.orders then Orders.ValidatedCreation(s, t, dto, id).1 else s
    case FulfillOrder(t, id) => Orders.Fulfilment(s, t, id).1
    case CancelOrder(t, id, actor) => Orders.Cancellation(s, t, id, actor).1
    case PixConfirmed(e, h, c) => PixWebhook.ConfirmPix(s, e, h, c).1
  }

  function Run(s: State, ops: seq<Op>): State
    decreases |ops|
  {
    if |ops| == 0 then s else Run(Step(s, ops[0]), ops[1..])
  }

  lemma StepKeepsValid(s: State, op: Op)
    requires Valid(s)
    ensures Valid(Step(s, op))
  {
    match op
    case Topup(t, st, a, k, m) => Wallets.MutationKeepsValid(s, TOPUP, t, st, a, k, m);
    case Debit(t, st, a, k, m) => Wallets.MutationKeepsValid(s, DEBIT, t, st, a, k, m);
    case Refund(t, st, a, k, m) => Wallets.MutationKeepsValid(s, REFUND, t, st, a, k, m);
    case CreateOrder(t, dto, id) =>
      if id !in s.orders {
        Orders.CreateKeepsValid(s, t, dto, id);
      }
    case FulfillOrder(t, id) =>
    case CancelOrder(t, id, actor) => Orders.CancelKeepsValid(s, t, id, actor);
    case PixConfirmed(e, h, c) => PixWebhook.ConfirmPixKeepsValid(s, e, h, c);
  }

  /** Every balance always equals its log's sum, never drops below zero, and keys stay unique. */
  lemma {:induction false} RunKeepsValid(s: State, ops: seq<Op>)
    requires Valid(s)
    ensures Valid(Run(s, ops))
    decreases |ops|
  {
    if |ops| > 0 {
      StepKeepsValid(s, ops[0]);
      RunKeepsValid(Step(s, ops[0]), ops[1..]);
    }
  }

  // ---------------------------------------------------------------------------
  // How the store may evolve

  /** The legal moves of an order's status (staying put included). */
  predicate Transition(a: OrderStatus, b: OrderStatus) {
    || a == b
    || (a == PAID && b == FULFILLED)
    || ((a == CREATED || a == PAID) && b == CANCELLED)
  }

  /**
    Orders are never deleted, only their status changes and only along
    `Transition`, and an order that appears is never in CREATED.
  */
  predicate OrdersEvolve(s: State, s': State) {
    && (forall id :: id in s.orders ==>
          && id in s'.orders
          && Transition(s.orders[id].status, s'.orders[id].status)
          && s'.orders[id] == s.orders[id].(status := s'.orders[id].status))
    && (forall id :: id in s'.orders && id !in s.orders ==> s'.orders[id].status != CREATED)
  }

  /**
    The log only grows: no row is removed or reordered, and an existing row
    keeps everything but its meta; only a PIX row's meta changes, and a paid
    row stays paid. No wallet is created or removed.
  */
  predicate LogEvolves(s: State, s': State) {
    && |s.txs| <= |s'.txs|
    && (forall i :: 0 <= i < |s.txs| ==>
          && s'.txs[i].(meta := s.txs[i].meta) == s.txs[i]
          && (s.txs[i].kind != PIX ==> s'.txs[i] == s.txs[i])
          && (IsPaid(s.txs[i].meta) ==> IsPaid(s'.txs[i].meta)))
    && s'.wallets.Keys == s.wallets.Keys
  }

  /** The store after a request and the store before it are related by both predicates. */
  predicate Evolves(s: State, s': State) {
    OrdersEvolve(s, s') && LogEvolves(s, s')
  }

  lemma MutationEvolves(s: State, kind: TxType, t: TenantId, st: StudentId, a: int, k: Option<string>, m: Meta)
    requires kind != PIX
    ensures Evolves(s, Wallets.Mutation(s, kind, t, st, a, k, m).1)
  {
  }

  lemma CreationEvolves(s: State, t: TenantId, dto: Orders.CreateOrder, id: OrderId)
    requires id !in s.orders
    ensures Evolves(s, Orders.ValidatedCreation(s, t, dto, id).1)
  {
  }

  lemma FulfilmentEvolves(s: State, t: TenantId, id: OrderId)
    ensures Evolves(s, Orders.Fulfilment(s, t, id).1)
  {
  }

  lemma CancellationEvolves(s: State, t: TenantId, id: OrderId, actor: string)
    ensures Evolves(s, Orders.Cancellation(s, t, id, actor).1)
  {
  }

  lemma ConfirmPixEvolves(s: State, e: Option<string>, h: Option<string>, c: Option<string>)
    ensures Evolves(s, PixWebhook.ConfirmPix(s, e, h, c).1)
  {
    var (r, s') := PixWebhook.ConfirmPix(s, e, h, c);
    if r == Ok(PixWebhook.Done) {
      var i := PixWebhook.Target(s.txs, c.value, true).value;
      assert s' == PixWebhook.Credited(s, i);
    }
  }

  lemma StepEvolves(s: State, op: Op)
    ensures Evolves(s, Step(s, op))
  {
    match op
    case Topup(t, st, a, k, m) => MutationEvolves(s, TOPUP, t, st, a, k, m);
    case Debit(t, st, a, k, m) => MutationEvolves(s, DEBIT, t, st, a, k, m);
    case Refund(t, st, a, k, m) => MutationEvolves(s, REFUND, t, st, a, k, m);
    case CreateOrder(t, dto, id) =>
      if id !in s.orders {
        CreationEvolves(s, t, dto, id);
      }
    case FulfillOrder(t, id) => FulfilmentEvolves(s, t, id);
    case CancelOrder(t, id, actor) => CancellationEvolves(s, t, id, actor);
    case PixConfirmed(e, h, c) => ConfirmPixEvolves(s, e, h, c);
  }

  lemma EvolvesTransitive(s1: State, s2: State, s3: State)
    requires Evolves(s1, s2) && Evolves(s2, s3)
    ensures Evolves(s1, s3)
  {
    OrdersEvolveTransitive(s1, s2, s3);
    LogEvolvesTransitive(s1, s2, s3);
  }

  lemma OrdersEvolveTransitive(s1: State, s2: State, s3: State)
    requires OrdersEvolve(s1, s2) && OrdersEvolve(s2, s3)
    ensures OrdersEvolve(s1, s3)
  {
    forall id | id in s3.orders && id !in s1.orders
      ensures s3.orders[id].status != CREATED
    {
      if id in s2.orders {
        assert s2.orders[id].status != CREATED;
      }
    }
  }

  lemma LogEvolvesTransitive(s1: State, s2: State, s3: State)
    requires LogEvolves(s1, s2) && LogEvolves(s2, s3)
    ensures LogEvolves(s1, s3)
  {
    forall i | 0 <= i < |s1.txs|
      ensures s3.txs[i].(meta := s1.txs[i].meta) == s1.txs[i]
    {
      assert s2.txs[i].(meta := s1.txs[i].meta) == s1.txs[i];
      assert s3.txs[i].(meta := s2.txs[i].meta) == s2.txs[i];
    }
  }

  /**
    Over any run: orders persist and move only along their life cycle (so a
    FULFILLED or CANCELLED order stays so), and the log is append-only up to
    the meta of PIX rows.
  */
  lemma {:induction false} RunEvolves(s: State, ops: seq<Op>)
    ensures OrdersEvolve(s, Run(s, ops))
    ensures LogEvolves(s, Run(s, ops))
    decreases |ops|
  {
    if |ops| == 0 {
      assert Run(s, ops) == s;
    } else {
      var s1 := Step(s, ops[0]);
      StepEvolves(s, ops[0]);
      RunEvolves(s1, ops[1..]);
      EvolvesTransitive(s, s1, Run(s1, ops[1..]));
    }
  }
}
