# Canteen wallet ledger and order flow, in Dafny

This project models the money-handling core of a multi-tenant school-canteen
service. Each student has a prepaid wallet per tenant. The wallet records
every balance change in an append-only transaction log. The modelled parts:

- **Wallet ledger** (`Wallets`): `get`, `topup`, `debit` and `refund`. Each
  mutation checks the amount first, then finds the wallet. A replayed
  idempotency key (`requestId`) makes it a no-op. A debit also checks funds.
  Otherwise it moves the balance and appends exactly one log row, all in one
  transaction.
- **Orders** (`Orders`): `create` prices the requested items from the
  tenant's active catalog. It freezes those unit prices into the order lines,
  creates a PAID order and debits the wallet in the same transaction.
  `fulfill` moves PAID to FULFILLED. `cancel` refunds the stored total at most
  once, under the key `refund:order:<id>`, and moves the order to CANCELLED.
  `list` filters by tenant, student and status.
- **PIX webhook** (`PixWebhook`): the payment provider confirms a charge by its
  id. The row carrying that id is marked `paid`, and its wallet is credited
  once. As written, the lookup accepts any unpaid row carrying the id, whatever
  its type. The corrected version accepts only a pending PIX row.
- **Roles guard** (`Roles`): a route restricted to some roles lets a caller
  through only if the caller's token carries one of them.

`Schema` holds the tables as one `State` value and as the mutable `Db` class.
`Ledger` defines the store's integrity invariant `Valid`, which has five parts:

- every balance equals the signed sum of its wallet's log rows, where a PIX
  row counts only once paid;
- no balance is negative;
- a non-empty `requestId` is used by at most one row per tenant;
- no row has a negative amount;
- no catalog price is negative.

Each operation is a pure function giving the reply and the committed store
(`Mutation`, `Creation`, `Fulfilment`, `Cancellation`, `Confirmation`). The
service classes (`WalletsService`, `OrdersService`, `PixWebhookController`)
change the fields of a shared `Db`. Each of their methods is proved to commit
exactly what its function describes. `System` runs any sequence of requests
and proves these facts for every run. In `System`, two steps differ from the
code as written. A create validates every line's quantity
(`ValidatedCreation`). The PIX step is the confirmation that accepts only PIX
rows (`ConfirmPix`), not the controller's webhook. Both differences are listed
under "## Findings". The facts proved:

- `Valid` holds after it;
- the log only grows;
- orders move only along their life cycle.

Modelling conventions:

- amounts are unbounded integer cents;
- a wallet is identified by its (tenant, student) pair;
- a log row's id is its position in the log, so "newest first" is descending
  position;
- JSON `meta` is an optional string-to-string map;
- the id of a new order is a parameter, required to be fresh.

Behaviour of the code that the model keeps:

- A create whose catalog prices are all zero logs a DEBIT row of 0 cents.
  Every row that `topup`, `debit` or `refund` logs has a positive amount.
- The PIX webhook rewrites an existing row's meta. No other operation changes
  a row.
- The webhook credits the wallet directly instead of going through `topup`.
- A replay reply is the reloaded wallet record without the API mapping.
- The replay lookup covers the whole tenant, across wallets, kinds and
  amounts.

## Model

| member | source | states |
|---|---|---|
| Schema.FirstWhere | src/wallets/wallets.service.ts:167-170 | the index returned satisfies the query and no earlier row does; None means no row does (the model's pick for a `findFirst` whose order the store leaves unspecified) |
| Ledger.LedgerSumAppend | src/wallets/wallets.service.ts:44-53 | appending a row adds exactly that row's contribution to its wallet's log sum and nothing to other wallets |
| Ledger.LedgerSumUpdate | src/wallets/pix-webhook.controller.ts:48-56 | rewriting one row changes a wallet's log sum by the difference of the old and new row's contributions |
| Ledger.AppendKeepsReconciled | src/wallets/wallets.service.ts:39-53 | moving a wallet's balance by a row's effect while appending that row keeps every balance equal to its log sum |
| Ledger.AppendKeepsKeysUnique | src/wallets/wallets.service.ts:36-53 | appending a row whose request id is absent, empty or unused in its tenant keeps request ids unique per tenant |
| Ledger.MetaUpdateKeepsKeysUnique | src/wallets/pix-webhook.controller.ts:49-56 | rewriting a row's meta keeps request ids unique per tenant |
| Wallets.Recent | src/wallets/wallets.service.ts:160-165 | at most 20 rows, all of the wallet, in strictly descending creation order; fewer than 20 means all the wallet's rows; every omitted row is older than every returned one |
| Wallets.Reload | src/wallets/wallets.service.ts:160-165 | the reloaded record carries the wallet's pair, its current balance and its recent rows |
| Wallets.MapWallet | src/wallets/wallets.service.ts:173-212 | one view row per record row with the same id, type, amount, request id and meta, the type's label, and direction CREDIT exactly for non-DEBIT rows |
| Wallets.GetView | src/wallets/wallets.service.ts:13-20 | NotFound("Wallet not found") exactly when the pair has no wallet; otherwise the mapped reload of the wallet: its balance and its (at most 20) newest rows, newest first, each with its type, label, direction and amount |
| Wallets.FindByRequestId | src/wallets/wallets.service.ts:167-170 | a missing or empty key finds nothing; otherwise a row is found exactly when some row of the tenant, in any wallet, carries the key, and the row found does |
| Wallets.Mutation | src/wallets/wallets.service.ts:22-151 | the error order: non-positive amount, missing wallet, then (debit only) insufficient funds; a used key returns the reloaded wallet and changes nothing; otherwise only the wallet's balance moves, by the signed amount, exactly one row is appended, and no balance becomes negative |
| Wallets.DirectionIsSign | src/wallets/wallets.service.ts:193-204 | a TOPUP, DEBIT or REFUND row with a positive amount is shown as CREDIT exactly when it raises the balance; a PIX row is always shown as CREDIT but raises the balance only once paid, so a pending charge is displayed as a credit |
| Wallets.MutationKeepsValid | src/wallets/wallets.service.ts:31-60 | every topup, debit or refund keeps the store's invariant `Valid` |
| Wallets.ReplayIsNoOp | src/wallets/wallets.service.ts:36-37 | after a successful mutation with a key, any mutation of the same tenant with that key changes nothing, whatever its kind, amount or student |
| Wallets.RetriedTopupSameBalance | test/e2e.basic.spec.ts:34-52 | a topup retried with the same request id reports the same balance as the first call and adds no row |
| Wallets.DebitBoundary | src/wallets/wallets.service.ts:85-87 | for a wallet with a positive balance and an unused request id, debiting exactly the balance succeeds and leaves zero; one cent more fails with "Insufficient funds" and changes nothing |
| Wallets.WalletsService.Get | src/wallets/wallets.service.ts:13-20 | returns `GetView` of the current store |
| Wallets.WalletsService.Topup | src/wallets/wallets.service.ts:22-61 | the reply and the new store are those of a TOPUP `Mutation` |
| Wallets.WalletsService.Debit | src/wallets/wallets.service.ts:63-111 | the reply and the new store are those of a DEBIT `Mutation` |
| Wallets.WalletsService.Refund | src/wallets/wallets.service.ts:113-151 | the reply and the new store are those of a REFUND `Mutation` |
| Wallets.WalletsService.Mutate | src/wallets/wallets.service.ts:72-110 | the shared transaction body commits exactly what `Mutation` describes |
| Orders.CountCheckMeansAllActive | src/orders/orders.service.ts:27-34 | the row-count comparison succeeds exactly when every requested item is in the tenant's catalog and active |
| Orders.Prepare | src/orders/orders.service.ts:38-42 | one line per requested line, with its item, quantity and the catalog's current price |
| Orders.TotalOfPrepared | src/orders/orders.service.ts:38-43 | the total folded over the frozen lines equals the sum of catalog price times quantity of the request |
| Orders.Total | src/orders/orders.service.ts:43 | the left fold of price × qty over the lines, used for both the create's debit and the cancel's refund (:126); never below zero when every price and quantity is non-negative; equal to `RequestTotal` on prepared lines (`TotalOfPrepared`) |
| Orders.Creation | src/orders/orders.service.ts:25-92 | the create as written, with no check on line quantities. The error order: invalid or inactive item, missing wallet, insufficient balance, none of which changes the store. It succeeds whenever every item is active, the wallet exists and the balance covers the request's price. On success a PAID order whose lines carry the frozen prices and whose total is the request's price, the wallet debited by that total, one DEBIT row with the order id in its meta; no balance becomes negative |
| Orders.ValidatedCreation | src/orders/dto/create-order.dto.ts:7-18 | a body with no line or a quantity below 1 is refused with no change; any other body behaves exactly as `Creation` |
| Orders.NegativeQtyRaisesBalance | src/orders/orders.service.ts:43-88 | a consistent store where a create with quantity -1 of a 100-cent item succeeds, raises the balance from 0 to 100 and logs a DEBIT of -100; a later cancel succeeds and leaves the balance at 100 |
| Orders.Fulfilment | src/orders/orders.service.ts:94-107 | succeeds exactly for an order of the tenant in PAID, which becomes FULFILLED and nothing else changes; otherwise NotFound or BadRequest and no change |
| Orders.RefundKey | src/orders/orders.service.ts:129 | the key is `refund:order:` followed by the order id |
| Orders.Cancellation | src/orders/orders.service.ts:109-166 | NotFound for a foreign or missing order; FULFILLED is refused; CANCELLED is returned unchanged; a missing wallet is NotFound; it succeeds whenever the order is found, is not FULFILLED, and is CANCELLED or has a wallet; on success the order becomes CANCELLED and, exactly when its key is unused and its total positive, the total is credited with one REFUND row under the key |
| Orders.Listing | src/orders/orders.service.ts:10-23 | an order is listed exactly when it belongs to the tenant and matches each filter that is given and non-empty |
| Orders.CreateKeepsValid | src/orders/orders.service.ts:75-88 | a create with validated lines keeps the store's invariant `Valid` |
| Orders.CancelKeepsValid | src/orders/orders.service.ts:138-155 | a cancel keeps the store's invariant `Valid` |
| Orders.CancelIsIdempotent | src/orders/orders.service.ts:121-123 | a second cancel of a cancelled order returns the same order and changes nothing |
| Orders.AtMostOneRefund | src/orders/orders.service.ts:128-139 | in a store with unique keys, an order has at most one refund row |
| Orders.CancelRefundsTotal | src/orders/orders.service.ts:126-160 | cancelling a PAID or CREATED order with a wallet, no refund yet and a non-negative total returns it CANCELLED and credits its wallet with exactly the order's total |
| Orders.CreateThenCancelRestoresBalances | src/orders/orders.service.ts:126-155 | with non-negative catalog prices and the new order's refund key unused in the tenant (which a fresh order id gives), creating an order whose lines all have quantity at least 1, then cancelling it, gives every wallet back its balance |
| Orders.OrdersService.List | src/orders/orders.service.ts:10-23 | returns `Listing` of the current orders |
| Orders.OrdersService.Create | src/orders/orders.service.ts:25-92 | the reply and the new store are those of `Creation`, the create as written |
| Orders.OrdersService.Fulfill | src/orders/orders.service.ts:94-107 | the reply and the new store are those of `Fulfilment` |
| Orders.OrdersService.Cancel | src/orders/orders.service.ts:109-166 | the reply and the new store are those of `Cancellation` |
| PixWebhook.MarkPaid | src/wallets/pix-webhook.controller.ts:52-56 | the new meta is paid and keeps every other key of the old meta |
| PixWebhook.Confirmation | src/wallets/pix-webhook.controller.ts:17-66 | a wrong secret is Unauthorized and a missing charge id BadRequest; Skipped exactly when no row matches; a matching row decides the rest: AlreadyProcessed when it is paid, WalletMissing when its wallet is gone, and otherwise Done, which marks it paid and credits its wallet by its amount; only Done changes the store |
| PixWebhook.Webhook | src/wallets/pix-webhook.controller.ts:17-66 | the webhook as written: only Done changes the store, and then an unpaid row carrying the charge id, of any type and any tenant, is marked paid and its wallet credited |
| PixWebhook.ConfirmPix | src/wallets/pix-webhook.controller.ts:17-66 | the corrected webhook: only Done changes the store, and then the row marked paid and credited is an unpaid PIX row carrying the charge id |
| PixWebhook.Target | src/wallets/pix-webhook.controller.ts:31-33 | the lowest log position whose row carries the charge id (and is a PIX row when `pixOnly`), with no earlier match; None exactly when no row matches; the pick is admitted under "## Left out" |
| PixWebhook.OnlyMatchIsTarget | src/wallets/pix-webhook.controller.ts:31-33 | when exactly one row carries the charge id, the lookup finds that row, whatever its order |
| PixWebhook.TargetAfterCredit | src/wallets/pix-webhook.controller.ts:31-41 | marking the found row paid does not change which row the charge id finds |
| PixWebhook.SecondDeliveryIsNoOp | src/wallets/pix-webhook.controller.ts:39-41 | a repeated delivery of a confirmed charge reports AlreadyProcessed and changes nothing, whatever its header |
| PixWebhook.ConfirmPixKeepsValid | src/wallets/pix-webhook.controller.ts:48-63 | confirming a pending PIX charge keeps the store's invariant `Valid` |
| PixWebhook.WebhookRecreditsNonPixRow | src/wallets/pix-webhook.controller.ts:31-33 | as written, a webhook naming the request id of an unpaid TOPUP, REFUND or DEBIT row credits that row's wallet again and breaks the balance/log match |
| PixWebhook.WebhookRecreditsTopupExample | src/wallets/pix-webhook.controller.ts:31-33 | a concrete store: a consistent topup of 100 under "r1" ends at balance 200 with a log summing to 100 after a webhook for "r1" |
| PixWebhook.PixWebhookController.HandleWebhook | src/wallets/pix-webhook.controller.ts:17-66 | the reply and the new store are those of the webhook as written |
| Roles.RequiredRoles | src/auth/roles.guard.ts:10-13 | the handler's roles metadata, when present, overrides the class's |
| Roles.CanActivate | src/auth/roles.guard.ts:9-24 | never returns false; lets through exactly when no role is required or the caller's role is among those required; "Missing role" exactly when roles are required and the token has none; "Insufficient role" exactly when it has another |
| Roles.HandlerDecides | src/auth/roles.guard.ts:10-14 | a handler declaration decides alone, and an empty one opens the route whatever the class requires |
| Roles.MoreRolesAdmitMore | src/auth/roles.guard.ts:20-23 | a caller admitted by a restricted route is still admitted when the route also lists further roles |
| System.StepKeepsValid | src/wallets/wallets.service.ts:31-60 | every step keeps the store's invariant `Valid`: a topup, debit, refund, fulfil or cancel as written, a create with validated lines, and the PIX-only confirmation |
| System.RunKeepsValid | src/orders/orders.service.ts:46-91 | after any sequence of those steps (validated create, PIX-only confirmation) every balance equals its log sum and is non-negative, and request ids stay unique per tenant |
| System.StepEvolves | src/orders/orders.service.ts:94-166 | one step of `System.Step` (validated create, PIX-only confirmation) never deletes an order, moves a status only along PAID to FULFILLED or CANCELLED (CREATED to CANCELLED), never creates a CREATED order, never removes or rewrites a log row other than a PIX row's meta, and never adds or removes a wallet |
| System.RunEvolves | src/orders/orders.service.ts:94-166 | the same over any sequence of those steps, which excludes the webhook as written, since that rewrites a TOPUP, REFUND or DEBIT row's meta: FULFILLED and CANCELLED orders stay so, and a paid row stays paid |

## Left out

- Concurrency: the model has no serialization conflicts, retries, isolation
  levels or interleavings. Each request is one atomic step.
- The database schema is not part of this model. Any unique constraint it may
  declare is therefore not modelled. Per-tenant uniqueness of non-empty
  request ids is proved as an invariant of the modelled operations. Rows with
  an empty request id may repeat, because `findByRequestId` ignores them.
- The webhook reads the row and the wallet outside its transaction. Two
  concurrent deliveries could both credit the wallet. The model runs the
  whole webhook as one step, so it does not capture this.
- The external PIX gateway call that precedes the lookup in the webhook is a
  stub with no effect on the store. It is left out.
- `createPixCharge` in src/wallet/wallet.controller.ts writes the pending PIX
  row and is not part of this model. Its body's amount is not validated. The
  invariant assumes that PIX rows, like all rows, have non-negative amounts.
- The duplicate webhook in src/wallet/wallet.controller.ts, authentication,
  JWT handling, catalog and student CRUD, and reports are not part of this
  model.
- Catalog prices are assumed non-negative. The catalog's input validation
  ensures this (src/catalog/dto/create-item.dto.ts:15-16), and catalog writes
  are not modelled.
- Orders.Listing: returns the matching orders as a map keyed by id, without
  the `createdAt` descending order or the included student and item
  relations.
- Orders.Creation: requires a fresh order id. The store's id generation is
  not modelled. Quantities are integers: a non-integer or non-numeric `qty`,
  which the unvalidated lines would also let through, is not modelled.
- Orders.Cancellation and Orders.Fulfilment: a reply is modelled as the order
  with its lines. In the code, the replies that come from the status update
  carry the order's columns without lines. The reply to a cancel of an order
  that is already CANCELLED is the looked-up order, which carries its lines
  and its student. Orders.CancelIsIdempotent's equality of first and second
  reply therefore holds for the modelled replies, not for the code's reply
  shapes. The store equality it states holds as written.
- Orders.ValidatedCreation: the validation pipe's actual error messages are
  not modelled. One constant message stands for them.
- PixWebhook.Target and Wallets.FindByRequestId: the store's `findFirst` has
  no `orderBy`, so which matching row it returns is unspecified. The model
  picks the lowest log position. For the replay lookup only existence matters.
  The webhook matches across tenants, and keys are unique only per tenant.
  When two tenants' rows carry the charge id, the code may pick either, and
  the pick may change after the meta update. PixWebhook.SecondDeliveryIsNoOp
  and PixWebhook.TargetAfterCredit rely on the model's pick.
  PixWebhook.OnlyMatchIsTarget shows that the pick is forced when a single row
  carries the charge id.
- Wallets.Recent: creation time is append order, so "newest" is the later
  position in the log. Timestamps are not modelled.
- Wallets.MapWallet: the wallet's own `id` and the rows' `createdAt` are not
  in the view. JSON meta is a
  string-to-string map, so nested or non-string values are not modelled.
- Wallets.Mutation: does not model the unreachable "Wallet not found" after
  the reload, nor the lost-wallet branch of `debit`. Under the single-step
  model the wallet found at the start of a transaction is still there.
- Amounts are unbounded integers. JavaScript number precision limits are not
  modelled.

## Findings

| source | as written | input that shows it | evidently intended | confidence | as-written member | corrected member |
|---|---|---|---|---|---|---|
| src/wallets/pix-webhook.controller.ts:31-33 | the webhook finds the row to confirm by `requestId == chargeId` alone, with no transaction-type filter and no tenant filter | a wallet topped up with 100 under request id "r1", then a webhook for chargeId "r1" with no secret configured: the TOPUP row is marked paid and the wallet rises to 200 while its log still sums to 100 (`PixWebhook.WebhookRecreditsTopupExample`). The predictable refund key `refund:order:<id>` works the same way. As the source stands, the controller is not listed in any module's controllers (src/wallets/wallets.module.ts:6-7, src/app.module.ts:44). The handler is therefore not mounted, and the re-credit is latent until it is registered | only a pending PIX row is confirmed (the lookup also requires type PIX), so the webhook can never credit a row that already moved the balance | not executed | PixWebhook.Webhook (exhibited by PixWebhook.WebhookRecreditsNonPixRow) | PixWebhook.ConfirmPix (proved by PixWebhook.ConfirmPixKeepsValid, used by System.Step) |
| src/orders/dto/create-order.dto.ts:16-18 | `items` is declared `@IsArray() @ArrayMinSize(1)` without `@ValidateNested` and `@Type`, so the `@Min(1)` on each line's `qty` never runs, and `create` prices whatever quantity arrives | a wallet at 0 and an active item at 100 cents; a create with `qty` -1 totals -100, passes the balance check, raises the balance to 100 and logs a DEBIT of -100; cancelling it refunds nothing because the total is not positive, so the balance stays at 100 (`Orders.NegativeQtyRaisesBalance`) | every line is validated, so a quantity below 1 is refused before anything is read | not executed | Orders.Creation (exhibited by Orders.NegativeQtyRaisesBalance) | Orders.ValidatedCreation (proved by Orders.CreateKeepsValid, used by System.Step) |
