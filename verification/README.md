# Commerce platform: checkout, pricing, CSV and catalog structures

A Dafny model of the core of a multi-tenant commerce platform, for one tenant, and proofs of what it promises its
buyers and merchants.

## What is modelled

**The checkout protocol.** `Checkout` holds one tenant's tables as a value and gives one function per transaction:
starting and replaying a checkout, holding stock, the gateway order, cash-on-delivery confirmation, capture, failure and
refund webhooks, the oversold cancel, expiry, staff cancel and staff steps, and the refund worker's read, claim, call
and record. A request is several transactions in a fixed order. What a process has reached and not yet run is the set of
issued tasks; a task may be run by its process, again by a duplicate, or never, when the process dies. A run is any
sequence of these steps and clock ticks, so it covers every interleaving, redelivery and crash. `CheckoutService` writes
the same transactions statement by statement over mutable tables (`StockRoom`, `CouponBook`, `InvoiceRegister`,
`PaymentDesk`), with rollback on refusal, and each method is proved to commit what `Checkout` says.

The promises over all runs are collected in `CheckoutTheorems`; `MoneyInvariant`, `CheckoutInvariant`, `StockOverRuns`,
`BooksOverRuns`, `RefundsOverRuns` and `HoldWindow` hold the invariants behind them. `RedemptionsOverRuns` adds the
coupon limits, `KeptAndReturnedMoney` the exact steps at which money is both kept and sent back, and `Witnesses` two
concrete runs. `LockOrder` gives the row locks each transaction takes and shows that no wait cycle can form on them, and
`LockCoverage` that they cover every row it writes. `Outcomes` and `StartLaws` say, of the tables alone, what each step
does; `StockLaws` and `CouponLaws` say the same of stock and of coupon slots.

**Pricing.** `Promotions`, `Allocation`, `Tax` and `Quotes`: promotion evaluation, largest-remainder allocation,
half-up rounding and extraction, the split into central, state and integrated tax, the advance split, and the footing of
every priced order. `PromotionLaws` says when a promotion applies and what it is worth, and `PriceLaws` what a whole
priced order is, each exactly and of the cart and the terms alone.

**The CSV codec.** `Csv`: the incremental reader as a class over UTF-16 units, the printer with its formula guard, the
chunking theorem and the round trip. `CsvFiles` says what any file reads as, whatever its quoting and line ends. The
grammar is that of section 2 of RFC 4180.

**Catalog structures.** `Categories` and `CategoryTrees` (reachability, the reparenting guard, tree assembly,
breadcrumbs), `Slugs` (choosing, history, resolution), `Variants` (two-pass replacement under partial unique indexes).

Where the code and its comments differ, the model follows the code:

- `packages/core/src/checkout/server.ts:1968-1973` calls the oversold cancel idempotent under redelivery. When a
  duplicate delivery confirmed the order first, it still inserts a refund row for the kept order, which is why money
  safety is an inclusive or. `KeptAndReturnedMoney.KeptAndReturnedExactly` gives the exact steps,
  `KeptAndReturnedMoney.NeverBothExactly` the exact runs, and `Witnesses.MoneyCanBeKeptAndReturned` a run that gets there.
- A seller whose registration changes to one that issues bills of supply while a taxed order is pending cannot have it
  confirmed: the invoice is refused. `CheckoutTheorems.WhenAnInvoiceCanBeIssued` gives the exact condition, and
  `Witnesses.APaidOrderCanBeStuck` a run that gets there.
- `packages/core/tests/catalog-csv.test.ts:70-87` expects the same records however the stream is chopped up. An empty
  first chunk uses up the check for a byte order mark, and only then they differ (`Csv.ChunkingIsInvisibleExactly`,
  `Csv.AnEscapedMark`).

## Model

| member | source | states |
|---|---|---|
| `CheckoutTheorems.MoneyIsSafe` | packages/core/src/checkout/server.ts:1790-2059 | Over every run: a captured payment is on an order being fulfilled, or exactly one refund row returns it, in full. |
| `KeptAndReturnedMoney.KeptAndReturnedExactly` | packages/core/src/checkout/server.ts:1968-2059 | When that "or" is inclusive: from any state, a step makes money both kept and returned iff it runs an issued oversold cancel for a captured payment whose order is being fulfilled and that has no refund row yet. |
| `KeptAndReturnedMoney.NeverBothExactly` | packages/core/src/checkout/server.ts:1968-2059 | Over every run: no money is ever both kept and returned iff no oversold cancel in it comes too late in that sense. |
| `KeptAndReturnedMoney.MoneyIsKeptOrReturned` | packages/core/src/checkout/server.ts:1790-2059 | On every such run the promise is exclusive: a captured payment is on an order being fulfilled iff it is not refunded in full. |
| `Witnesses.MoneyCanBeKeptAndReturned` | packages/core/src/checkout/server.ts:1900-2059 | A run of twelve steps from the empty shop to a confirmed order whose captured payment is also refunded in full. |
| `CheckoutTheorems.ALateOversoldCancelRefundsAnyway` | packages/core/src/checkout/server.ts:1974-2059 | An issued oversold cancel of a payment captured meanwhile leaves orders and payments as they are and the payment with exactly one refund row, in full. |
| `CheckoutTheorems.DeliveriesAfterCaptureChangeNothing` | packages/core/src/checkout/server.ts:1790-1836 | Over every run: once a gateway order's payment is captured, no further capture or failure delivery, of any amount, changes anything. |
| `CheckoutTheorems.LateMoneyIsNeverKept` | packages/core/src/checkout/server.ts:1838-1872 | Over every run: an uncaptured payment of a closed order is never of an order being fulfilled, so the late-capture branch only ever refunds. |
| `Outcomes.LateMoneyIsReturned` | packages/core/src/checkout/server.ts:1838-1872 | At every state of every run: the first capture, in its amount, of a payment whose order is no longer pending marks the payment captured, raises the order's paid amount by it with a refund initiated, and leaves exactly one refund row for it, in full; no other order, payment or refund changes. |
| `CheckoutTheorems.PromisesAreBacked` | packages/core/src/inventory/server.ts:282-303 | Over every run, now and at every later clock value: 0 <= unexpired holds of a variant <= its on-hand. |
| `CheckoutTheorems.HeldBuyersGetTheirOrder` | packages/core/src/checkout/server.ts:1485-1494 | Whatever anybody does within fifteen minutes of an order's hold, the first capture of its payment confirms the order if it is still pending, exactly when its invoice fits the seller's registration then; it never takes the oversold path. |
| `CheckoutTheorems.HeldPlacementsAreConfirmed` | packages/core/src/checkout/server.ts:1677-1749 | The same for cash on delivery and zero totals: a placement within fifteen minutes of the hold leads to a cancel exactly when the coupon has no slot left, and otherwise confirms the order exactly when its invoice fits. |
| `CheckoutTheorems.OneOrderPerKey` | packages/core/src/checkout/server.ts:594-603 | Over every run: no two orders share an idempotency key or a gateway reference, and a start with a known key adds no order and takes no cart. |
| `CheckoutTheorems.NothingIsRewritten` | packages/core/src/checkout/server.ts:1246-1278 | From any moment of a run to its end an order keeps its cart, key, request and price, and once set its gateway reference and confirmation time, and its status only goes on along the transition table. |
| `CheckoutTheorems.ACartIsBoughtOnce` | packages/core/src/checkout/server.ts:762-1158 | Over every run: of the orders of one cart at most one is pending or was ever confirmed, and while there is one the cart is converted. |
| `CheckoutTheorems.NoCartIsLost` | packages/core/src/checkout/server.ts:1166-1209 | Over every run: a cart is converted iff an order of it is pending or was ever confirmed, so a closed checkout always gives the cart back. |
| `CheckoutTheorems.StockIsConserved` | packages/core/src/inventory/server.ts:637-678 | Over every run and variant: on hand is the ledger sum, and is what staff moved less what confirmed, uncancelled orders have out. |
| `CheckoutTheorems.SalesAreExact` | packages/core/src/inventory/server.ts:946-1147 | Over every run and order: exactly one sale row per tracked line iff it was ever confirmed, and one restock row per line iff cancelled after that. |
| `CheckoutTheorems.SettlementBalances` | packages/core/src/orders/server.ts:579-615 | Over every run: at most one payment per order, for the total less the balance; the balance stays due until delivery; from confirmed to delivered the paid amount is the captured advance plus, once delivered, the balance collected; delivered means paid in full and nothing due. |
| `CheckoutTheorems.InvoicesAreExact` | packages/core/src/invoices/server.ts:35-189 | Over every run: an order has an invoice iff it was ever confirmed, never two, with the order's lines and amounts, and the numbers of a series are exactly those from the first to the counter. |
| `CheckoutTheorems.CouponSlotsAreExact` | packages/core/src/promotions/server.ts:467-563 | Over every run: the redemptions of a promotion, and of each of its customers, hold slots 0..n-1 once each; each is of a confirmed order that asked for it, one per order. |
| `RedemptionsOverRuns.EveryRedemptionWasWithinLimits` | packages/core/src/promotions/server.ts:467-563 | Over every run: each redemption was written by one step, its slots below the promotion's limit in total and per customer as they stood at that step. |
| `RedemptionsOverRuns.StepStaysWithinLimits` | packages/core/src/promotions/server.ts:467-563 | Any step only appends redemptions, each below the limits in force. |
| `RedemptionsOverRuns.CouponOrdersHoldARedemption` | packages/core/src/checkout/server.ts:1505-1538 | Over every run: an order confirmed without the gateway holds a redemption of the coupon it was priced with. |
| `RedemptionsOverRuns.PaidOrdersRedeemIfTheyCan` | packages/core/src/checkout/server.ts:1505-1538 | At every state of every run: a capture that confirms an order with a coupon adds its redemption iff the promotion and the customer still had a slot; otherwise the book stays as it is. |
| `CheckoutTheorems.RefundsGoOutOnce` | apps/worker/src/jobs/gateway-refund.ts:32-125 | Over every run: at most one outbound call per refund row; a payment is sent back never or once in full; processed means called and recorded. |
| `CheckoutTheorems.RunsKeepAll` | packages/core/src/checkout/server.ts:562-2325 | Every state of every run from the empty shop satisfies the whole invariant. |
| `CheckoutTheorems.StepKeepsAll` | packages/core/src/checkout/server.ts:562-2325 | Every transaction, call or tick keeps the whole invariant. |
| `CheckoutTheorems.WhenAnInvoiceCanBeIssued` | packages/core/src/invoices/server.ts:113-189 | A pending order's invoice can be issued iff the seller is regular or the order carries no tax. |
| `Witnesses.APaidOrderCanBeStuck` | packages/core/src/checkout/server.ts:1790-1924 | A run to a taxed pending order whose capture, for a seller that no longer charges tax, is refused without a trace, and for a regular seller confirms it. |
| `CheckoutTheorems.PricedOrdersAreBillable` | packages/core/src/checkout/server.ts:852-1003 | Every priced order foots, has lines, its seven invoice amounts are within the safe integers, and their taxes add up to its tax. |
| `StartLaws.StartMeans` | packages/core/src/checkout/server.ts:594-1158 | A start with a known key is a replay: a pending order of the same request tries its hold again and anything else changes nothing. A new key makes the one pending order of an active cart, priced on the terms of the moment, iff its coupon is open and there is a price; otherwise nothing changes. |
| `StartLaws.CapsMean` | packages/core/src/checkout/server.ts:909-956 | The coupon is open iff the redemptions, plus the pending unexpired orders that would claim it, leave room below the cap in total and for the customer. |
| `StartLaws.PricedOrdersHoldTheirRows` | packages/core/src/checkout/server.ts:1067-1116 | What a priced order holds and sells is exactly the variant and quantity of each row of its cart, in order. |
| `Outcomes.PlaceHoldMeans` | packages/core/src/checkout/server.ts:697-749 | When every tracked line fits, the order's own holds are replaced by one per tracked line, lapsed holds of its variants and no others go, and the next transaction is the placement, the gateway or the renewed expiry; when one does not, only the cancel is left to run. |
| `Outcomes.ExtendExpiryMeans` | packages/core/src/checkout/server.ts:1355-1404 | A replay gives a pending order twenty-five more minutes and goes on; of a closed one it only has the hold released. |
| `Outcomes.RecordGatewayMeans` | packages/core/src/checkout/server.ts:1248-1278 | The first reference of an order is stored with one payment row for the advance; another reference, or the same once there is a payment, changes nothing, nor does an advance that is no valid amount. |
| `Outcomes.PlacementMeans` | packages/core/src/checkout/server.ts:1677-1749 | A placement confirms a pending order iff its stock is there, its coupon has a slot and its invoice fits; short of stock or of a slot it leaves the cancel to run. The confirmed order, its sale rows, redemption, invoice with all amounts, and first-order mark are spelled out. |
| `Outcomes.CaptureMeans` | packages/core/src/checkout/server.ts:1790-1924 | The whole new state of a capture delivery: repeated, of a wrong amount, late, confirming, short of stock, or refused by the invoice. |
| `Outcomes.UnknownDeliveriesAreIgnored` | packages/core/src/checkout/server.ts:1790-1836 | A capture or failure for a gateway order that no payment knows changes nothing. |
| `Outcomes.OversoldMeans` | packages/core/src/checkout/server.ts:1974-2059 | The oversold cancel records the money unless it was, cancels a pending order and gives its cart back, and leaves the payment with its refund row, in full. |
| `Outcomes.FailureMeans` | packages/core/src/checkout/server.ts:2061-2090 | A failure marks an uncaptured payment as failed and changes nothing else; a captured one stays. |
| `Outcomes.RefundEventMeans` | packages/core/src/checkout/server.ts:2092-2114 | Exactly the refund rows that await the reference become processed, and the order of the first of them refunded. |
| `Outcomes.ExpiryMeans` | packages/core/src/checkout/server.ts:2126-2175 | Expiry abandons an order iff it is pending and past its deadline, gives its cart back and has its hold released; otherwise it changes nothing. |
| `Outcomes.CancelPendingMeans` | packages/core/src/checkout/server.ts:1166-1209 | The cancel closes a pending order and gives its cart back, and in any case has the hold released. |
| `Outcomes.StaffCancelMeans` | packages/core/src/checkout/server.ts:2191-2325 | A staff cancel of a cancellable order restocks every tracked line and, when money was captured, queues its refund in full; any other order is left as it is. |
| `Outcomes.StaffMoveMeans` | packages/core/src/orders/server.ts:531-644 | A staff step goes one rung down the ladder or nowhere; delivering an order that was not prepaid and is not paid collects what is due. |
| `Outcomes.SmallStepsMean` | packages/core/src/promotions/server.ts:221-353 | A new cart is active, a staff edit of a promotion replaces its terms and keeps every redemption, and the clock moves on; nothing else changes. |
| `Outcomes.ClaimMeansRun` | apps/worker/src/jobs/gateway-refund.ts:32-125 | A run that has read a row claims it iff the row is still pending, and is finished otherwise. |
| `Outcomes.CallMeans` | apps/worker/src/jobs/gateway-refund.ts:32-125 | A claimed run makes one call, for the payment and amount of its row; any other makes none. |
| `Outcomes.RecordMeans` | apps/worker/src/jobs/gateway-refund.ts:32-125 | A run that called records its reference where none is recorded, and nowhere else. |
| `StartLaws.OrdersCanBeDelivered` | packages/core/src/orders/server.ts:531-644 | From any state with a confirmed order, five staff steps deliver it, paid in full and with nothing due. |
| `StartLaws.RefundsCanBeCompleted` | apps/worker/src/jobs/gateway-refund.ts:32-125 | From any state with a pending refund, one run of the worker and the answer of the gateway make exactly one call, for its payment and amount, and leave the row processed and its order refunded. |
| `Orders.TransitionsGoOn` | packages/core/src/orders/index.ts:41-69 | Every allowed transition leads to a later stage, exactly the last stage has none, and every status but the first can be come to. |
| `CheckoutRuns.StepKeepsCore` | packages/core/src/checkout/server.ts:562-2325 | Every step keeps money, carts, gateway references and tasks consistent, moves an order only along the transition table, and rewrites nothing committed. |
| `CheckoutInvariant.StartKeeps` | packages/core/src/checkout/server.ts:562-749 | Starting or replaying a checkout keeps the core invariant. |
| `CheckoutInvariant.CancelPendingKeeps` | packages/core/src/checkout/server.ts:1166-1209 | The cancel of a pending order frees its cart and keeps the core invariant. |
| `CheckoutInvariant.ReferenceIsFree` | packages/db/src/schema/commerce.ts:272-274 | The unique index on stored gateway references never refuses a payment start. |
| `CheckoutInvariant.RecordGatewayKeeps` | packages/core/src/checkout/server.ts:1246-1278 | First writer wins on the gateway reference, and an order never gets a second payment row. |
| `CheckoutInvariant.ConfirmAtPlacementKeeps` | packages/core/src/checkout/server.ts:1677-1749 | Confirmation at placement keeps the core invariant. |
| `CheckoutInvariant.ProcessCapturedKeeps` | packages/core/src/checkout/server.ts:1790-1924 | Any capture delivery, first or repeated, right or wrong amount, keeps the core invariant. |
| `CheckoutInvariant.CancelOversoldKeeps` | packages/core/src/checkout/server.ts:1974-2059 | The oversold cancel keeps the core invariant whatever happened since the refused confirmation. |
| `CheckoutInvariant.OnePaymentPerGateway` | packages/core/src/checkout/server.ts:1928-1947 | A gateway order has one payment, so the amount an oversold cancel carries is that payment's. |
| `CheckoutInvariant.CancelOrderKeeps` | packages/core/src/checkout/server.ts:2191-2325 | A staff cancel keeps the core invariant: captured money gets its refund row in the same transaction. |
| `CheckoutInvariant.RefundProcessedKeeps` | packages/core/src/checkout/server.ts:2092-2114 | A refund webhook keeps the core invariant. |
| `CheckoutInvariant.ExpireKeeps` | packages/core/src/checkout/server.ts:2126-2175 | Expiry keeps the core invariant. |
| `CheckoutInvariant.ManualKeeps` | packages/core/src/orders/server.ts:531-644 | Staff steps down the ladder, cash collection included, keep the core invariant. |
| `MoneyInvariant.PaymentIsCaptured` | packages/core/src/payments/server.ts:435-470 | Capturing a payment with its order kept or refunded keeps money safe and settled. |
| `MoneyInvariant.RefundAppears` | packages/core/src/payments/server.ts:509-553 | A refund intent is inserted once per captured payment, for its full amount. |
| `StockOverRuns.StepKeepsStock` | packages/core/src/inventory/server.ts:229-1147 | Every step keeps the projection, the backing of holds, and the account of every order in the ledger. |
| `StockOverRuns.ConfirmSells` | packages/core/src/checkout/server.ts:1485-1494 | The confirmation door writes exactly one sale row per tracked line. |
| `BooksOverRuns.StepKeepsBooks` | packages/core/src/checkout/server.ts:1496-1612 | Every step keeps invoices one-to-one with confirmed orders, redemptions tied to confirmed orders, and first-order marks exact. |
| `BooksOverRuns.ConfirmKeepsBooks` | packages/core/src/checkout/server.ts:1496-1612 | A confirmation adds exactly its own invoice, claim and first-order mark. |
| `RefundsOverRuns.StepKeepsWorker` | apps/worker/src/jobs/gateway-refund.ts:32-125 | Every step keeps at most one claimed run and one call per refund row. |
| `RefundsOverRuns.SentBackAtMostOnce` | packages/core/src/payments/server.ts:509-553 | The sum of all calls for a payment is nothing, or its captured amount. |
| `HoldWindow.HoldLasts` | packages/core/src/inventory/server.ts:782-889 | Over any run: while an order is pending and its deadline not reached, its own holds cover its lines. |
| `HoldWindow.StepKeepsHeld` | packages/core/src/inventory/server.ts:782-908 | No step of anybody removes an unexpired hold of a pending order; its own re-hold only renews it. |
| `HoldWindow.StepKeepsReleases` | packages/core/src/checkout/server.ts:1197-1208 | A hold is released only after its order has stopped waiting for payment. |
| `HoldWindow.HeldPlacementConfirms` | packages/core/src/checkout/server.ts:1677-1749 | A placement of a held order is refused only by its coupon or its invoice, never over stock. |
| `HoldWindow.HeldCaptureConfirms` | packages/core/src/checkout/server.ts:1790-1899 | A capture of a held order confirms it iff its invoice can be issued, and asks for no oversold cancel. |
| `CheckoutService.Desk.StartCheckout` | packages/core/src/checkout/server.ts:562-749 | The request commits what the model says: a replay, a refusal, or a new pending order with its cart converted. |
| `CheckoutService.Desk.CreateOrder` | packages/core/src/checkout/server.ts:762-1158 | The order transaction, refusals included, is the model's. |
| `CheckoutService.Desk.CouponIsSpent` | packages/core/src/checkout/server.ts:909-956 | The advisory caps: redemptions plus pending claims, in total and for the customer. |
| `CheckoutService.Desk.CountPendingClaims` | packages/core/src/promotions/server.ts:570-587 | Counts exactly the pending, unexpired orders that would claim the coupon. |
| `CheckoutService.Desk.HoldOrder` | packages/core/src/checkout/server.ts:697-749 | The hold of a new or replayed checkout and where it leads. |
| `CheckoutService.Desk.ExtendExpiryOf` | packages/core/src/checkout/server.ts:1355-1404 | The locked re-check of a replay. |
| `CheckoutService.Desk.CancelPendingOrder` | packages/core/src/checkout/server.ts:1166-1209 | The cancel of a pending order and its follow-up release. |
| `CheckoutService.Desk.MintGatewayOrder` | packages/core/src/checkout/server.ts:1225-1246 | The check for a stored reference, then the mint. |
| `CheckoutService.Desk.StoreGatewayOrder` | packages/core/src/checkout/server.ts:1248-1278 | First writer wins; an existing attempt is reused; the unique index rolls back. |
| `CheckoutService.Desk.ConfirmOrderCore` | packages/core/src/checkout/server.ts:1468-1612 | Consume, transition, claim, invoice and first-order mark, in that order, commit the model's state or fail with its error. |
| `CheckoutService.Desk.SumLines` | packages/core/src/checkout/server.ts:1591-1594 | One pass over the lines adds up the taxable value and the three taxes for the invoice. |
| `CheckoutService.Desk.ConfirmCodOrder` | packages/core/src/checkout/server.ts:1677-1749 | A refusal rolls everything back; stock and coupon refusals leave the cancel to run. |
| `CheckoutService.Desk.ProcessCaptured` | packages/core/src/checkout/server.ts:1790-1924 | Unknown, repeated, mismatched, late, confirming and refused deliveries each commit what the model says. |
| `CheckoutService.Desk.OversoldCancel` | packages/core/src/checkout/server.ts:1974-2059 | Record the money, close the order, queue the refund: all or nothing. |
| `CheckoutService.Desk.ProcessFailed` | packages/core/src/checkout/server.ts:2061-2090 | A failure never downgrades a capture. |
| `CheckoutService.Desk.ProcessRefundProcessed` | packages/core/src/checkout/server.ts:2092-2114 | Marks the rows that await the reference, and the order of the first. |
| `CheckoutService.Desk.ExpireCheckout` | packages/core/src/checkout/server.ts:2126-2175 | Only a pending order past its expiry is abandoned. |
| `CheckoutService.Desk.CancelOrder` | packages/core/src/checkout/server.ts:2191-2325 | Restock, cancel and refund intent, all or nothing. |
| `CheckoutService.Desk.ManualTransition` | packages/core/src/orders/server.ts:531-644 | The allowed staff step, collecting the balance at delivery. |
| `CheckoutService.Desk.ClaimRefund` | apps/worker/src/jobs/gateway-refund.ts:32-125 | The conditional update that only one run wins. |
| `CheckoutService.Desk.CallGateway` | apps/worker/src/jobs/gateway-refund.ts:32-125 | Only a claimed run calls out, for its row's payment and amount. |
| `CheckoutService.Desk.RecordRefund` | apps/worker/src/jobs/gateway-refund.ts:32-125 | The reference is recorded only where none is yet. |
| `CheckoutService.Desk.Handle` | packages/core/src/checkout/server.ts:562-2325 | Whatever request, event or action comes next, the service commits the model's step and keeps every promise. |
| `InventoryProofs.HeldOrdersAreNeverRefused` | packages/core/src/inventory/server.ts:946-1033 | An order whose own unexpired holds cover its tracked lines is never refused at consumption. |
| `InventoryProofs.HoldCoversTheOrder` | packages/core/src/inventory/server.ts:782-889 | A successful hold covers every tracked line until it lapses. |
| `InventoryProofs.HoldStockKeeps` | packages/core/src/inventory/server.ts:782-889 | Placing or replacing a hold keeps holds backed and unique per order and variant. |
| `InventoryProofs.ConsumeStockKeeps` | packages/core/src/inventory/server.ts:946-1033 | Consuming keeps the projection exact and holds backed. |
| `InventoryProofs.RestockLinesKeeps` | packages/core/src/inventory/server.ts:1090-1147 | Restocking is never refused and keeps the promises. |
| `InventoryProofs.RecordMovementKeeps` | packages/core/src/inventory/server.ts:316-473 | A staff adjustment keeps the projection exact and holds backed, or is refused. |
| `InventoryProofs.SellLinesLedger` | packages/core/src/inventory/server.ts:974-1027 | Consuming appends exactly one sale row per line. |
| `InventoryProofs.TimePassesKeeps` | packages/core/src/inventory/server.ts:282-303 | Time only frees holds. |
| `InventoryProofs.SortLinesSorts` | packages/core/src/inventory/server.ts:757-774 | Rows are locked and sold in ascending variant order, each once. |
| `StockLaws.HoldMeans` | packages/core/src/inventory/server.ts:782-889 | A hold is placed iff the lines are well formed and every tracked one fits on hand less what others hold; it replaces the order's own holds, of other holds only lapsed ones of its variants go, and a refusal names exactly the lines that are short. |
| `StockLaws.ConsumeMeans` | packages/core/src/inventory/server.ts:946-1033 | Lines are consumed iff a hold of them would be placed; levels go down by the tracked quantities, one sale row per tracked line in writing order is added, the order's holds go and those of others stay. |
| `StockLaws.RestockMeans` | packages/core/src/inventory/server.ts:1090-1147 | A restock is refused for malformed lines only; levels go up by the quantities, one row per tracked line is added, and holds stay. |
| `StockLaws.AdjustmentMeans` | packages/core/src/inventory/server.ts:316-473 | Bounds, tracking, the replay of a key, the floor at zero and the guard for holds decide an adjustment, in that order; accepted, the level moves by the delta, holds stay and one ledger row is added, an opening balance when it is the first of its variant. |
| `StockLaws.ReleaseMeans` | packages/core/src/inventory/server.ts:892-908 | Exactly the holds of the order go. |
| `StockRooms.StockRoom.ApplyMovement` | packages/core/src/inventory/server.ts:229-306 | Ledger insert, projection write, CHECK and hold guard give the specified stock or error. |
| `StockRooms.StockRoom.RecordMovement` | packages/core/src/inventory/server.ts:316-473 | Bounds, key replay, opening balance and refusal as specified; a refusal changes nothing. |
| `StockRooms.StockRoom.HoldStock` | packages/core/src/inventory/server.ts:782-889 | Replace semantics, collection of lapsed holds and the all-or-nothing fit as specified. |
| `StockRooms.StockRoom.ConsumeStockWithin` | packages/core/src/inventory/server.ts:946-1033 | Per line the own hold goes first, then the sale; the first refused line is the error. |
| `StockRooms.StockRoom.RestockWithin` | packages/core/src/inventory/server.ts:1090-1147 | One restock movement per tracked line, in order. |
| `StockRooms.StockRoom.ReleaseStock` | packages/core/src/inventory/server.ts:892-908 | Exactly the order's holds go. |
| `StockRooms.StockRoom.GetAvailability` | packages/core/src/inventory/server.ts:1157-1185 | An entry for every id: on hand, unexpired holds, and their difference, never below zero. |
| `StockRooms.StockRoom.ReconcileStockLevels` | packages/core/src/inventory/server.ts:637-678 | Reports exactly the variants whose projection differs from the ledger sum, with both sums. |
| `LockOrder.EveryTransactionAscends` | packages/core/src/checkout/server.ts:824-851 | Every transaction, from every state, takes its row locks in one global order, each once. |
| `LockOrder.SomeoneProceeds` | packages/core/src/inventory/server.ts:751-774 | Among any transactions under way, one waits for none of them. |
| `LockOrder.NoWaitCycle` | packages/core/src/checkout/server.ts:1505-1513 | No wait cycle of any length. |
| `LockCoverage.WritesAreLocked` | packages/core/src/checkout/server.ts:824-851 | At every state with the invariant, each row of an order, cart, stock level, promotion, series, customer or counter that a step writes is among the rows its transaction locks. |
| `Payments.PaymentDesk.CreateRefundIntent` | packages/core/src/payments/server.ts:509-553 | Insert-once on the payment, an existing row winning; refused iff the amount is not a positive safe integer. |
| `Payments.PaymentDesk.MarkRefundProcessed` | packages/core/src/payments/server.ts:642-659 | Exactly the pending or processing rows with the reference move, and the hit is reported. |
| `Payments.PaymentDesk.InsertPayment` | packages/core/src/payments/server.ts:403-432 | A created row, refused iff the amount is not a positive safe integer. |
| `Payments.PaymentDesk.FindPaymentByGatewayOrder` | packages/core/src/checkout/server.ts:1928-1947 | The latest attempt of the order at the gateway order. |
| `Invoices.NumbersAreConsecutive` | packages/core/src/invoices/server.ts:35-81 | The numbers of a series are exactly those from the first to the counter, in order. |
| `Invoices.IssueKeeps` | packages/core/src/invoices/server.ts:113-189 | Issuing keeps every series gapless. |
| `Invoices.IssueMeans` | packages/core/src/invoices/server.ts:113-189 | An invoice is refused for missing lines, an unsafe amount or tax on a bill of supply, then as a duplicate of its order and kind; otherwise it takes the number its series stood at, and the counter moves by one. |
| `Invoices.InvoiceRegister.CreateInvoice` | packages/core/src/invoices/server.ts:113-189 | The checks of all seven amounts, number allocation and insert as specified, refusals included. |
| `Invoices.InvoiceRegister.AllocateInvoiceNumber` | packages/core/src/invoices/server.ts:35-81 | Get-or-create, then take the number as it stood. |
| `Coupons.ClaimKeeps` | packages/core/src/promotions/server.ts:467-563 | A claim keeps every row; the row it adds was below the limits in force. |
| `Coupons.ReplayReturnsTheOriginal` | packages/core/src/promotions/server.ts:467-563 | Claiming again for an order returns its row and writes nothing. |
| `Coupons.SlotsAreExactly` | packages/core/src/promotions/server.ts:467-563 | With n rows each slot below n is taken by exactly one row, and no other. |
| `CouponLaws.RedeemMeans` | packages/core/src/promotions/server.ts:467-563 | The first claim of an order takes the next slots of promotion and customer iff one more is within the limits. |
| `CouponLaws.ClaimsAreWaiting` | packages/core/src/promotions/server.ts:570-587 | The number of pending claims is that of the pending unexpired orders with the coupon, in total or of one customer. |
| `Coupons.CouponBook.ClaimRedemption` | packages/core/src/promotions/server.ts:467-563 | The claim under the promotion lock as specified. |
| `Coupons.CouponBook.CountRedemptionRows` | packages/core/src/promotions/server.ts:426-443 | Counts exactly the promotion's rows, or one customer's. |
| `Quotes.EveryPricedOrderFoots` | packages/core/src/checkout/server.ts:852-1003 | For every cart, promotion, rule, rates and registration: each line bears the nearest paisa of tax at its rate, discounts, totals and tax parts add up down the lines and across the header, nothing is negative, and only a rate beyond the safe integers can be rejected by the tax engine. |
| `Quotes.UnsafeRateIsRejected` | packages/core/src/tax/index.ts:96-163 | A rate beyond the safe integers is always rejected. |
| `Quotes.AdvanceSplitIsExact` | packages/core/src/payments/index.ts:116-180 | For every total, policy and mode: refused iff the total or the policy does not allow it; otherwise the advance is the nearest paisa to its percentage, no less than the floor, no more than the total, and raised to a rupee, and the rest is due. |
| `PriceLaws.PricedOrderMeans` | packages/core/src/checkout/server.ts:852-1116 | An order is priced iff the cart has rows, amounts are in range, the coupon applies, rates are safe and the total can be split; and then its subtotal, discount, shipping, total, tax, split and every line are those of the rows and terms, the discount spread fairly and each line bearing its tax. |
| `PriceLaws.PriceRefusalMeans` | packages/core/src/checkout/server.ts:852-1116 | A refused price says why: empty cart, amounts out of range, the coupon's own refusal, an unsafe rate, or the split's, in that order. |
| `Quotes.PrincipalIsARate` | packages/core/src/checkout/server.ts:968-987 | Shipping is taxed at the rate of the first line of highest value. |
| `Quotes.ComputePrice` | packages/core/src/checkout/server.ts:852-1003 | The pricing steps, refusals included, compute the specified quote. |
| `Quotes.SettleOrder` | packages/core/src/checkout/server.ts:958-1003 | Allocation, tax per line and snapshot as specified. |
| `Quotes.ShippingRate` | packages/core/src/checkout/server.ts:971-980 | The loop finds the rate of the line than which none is worth more and every earlier one is worth less. |
| `Tax.ExtractionUndoesTaxing` | packages/core/src/tax/index.ts:56-163 | For every base and rate, extracting from base plus rounded tax gives that base and tax back. |
| `Tax.InclusiveUndoesExclusive` | packages/core/src/tax/index.ts:96-163 | The same through the line computation. |
| `Tax.RetaxingIsClose` | packages/core/src/tax/index.ts:56-163 | For rates up to 200 percent, re-taxing an extracted base is within one paisa of the extracted tax. |
| `Tax.RetaxingIsCloseExactly` | packages/core/src/tax/index.ts:56-163 | For every amount, exactly when the rate is at most 200 percent. |
| `Tax.RetaxingIsFar` | packages/core/src/tax/index.ts:56-163 | Past 200 percent: an amount whose extracted tax is two paise off. |
| `Tax.HalfUpIsNearest` | packages/core/src/tax/index.ts:56-68 | Rounding is to the nearest, halves up, odd in its sign. |
| `Tax.HalfUpIsUnique` | packages/core/src/tax/index.ts:56-68 | It is the only such integer. |
| `Tax.LineBearsItsTax` | packages/core/src/tax/index.ts:96-163 | For every valid line, mode, state and registration: a success bears tax t with 2 x taxable x rate - d < 2td <= 2 x taxable x rate + d, where d is 10000, or 10000 plus the rate when prices include tax; halved in the state, odd paisa to the centre, and all integrated beyond it; none without a regular registration. |
| `Tax.LineTaxesAreExact` | packages/core/src/tax/index.ts:96-163 | A list of lines is refused iff some line is invalid or its tax overflows the safe integers; otherwise each line, at its place, bears its tax as said above. |
| `Tax.InclusiveLinesFoot` | packages/core/src/tax/index.ts:96-163 | Inclusive taxing of valid lines is never rejected; each line bears its tax, and base plus parts is the line. |
| `Tax.AllocateProportionally` | packages/core/src/tax/index.ts:204-248 | Accepts exactly valid inputs; exact total, every share floor or floor plus one, larger remainders first. |
| `Tax.FloorShares` | packages/core/src/tax/index.ts:224-236 | Floored shares, remainders and their sum. |
| `Allocation.AllocateIsFair` | packages/core/src/promotions/index.ts:297-338 | Largest remainder is exact and fair: each share is the floor or one more, and of two lines the larger remainder, then the larger tie, then the earlier goes up first. |
| `Allocation.AllocationIsUnique` | packages/core/src/promotions/index.ts:297-338 | There is only one allocation that is fair in that order. |
| `Allocation.SharesFitWeights` | packages/core/src/promotions/index.ts:297-338 | No share exceeds its line; a zero line gets nothing. |
| `Allocation.FairAllocationsAreClose` | packages/core/src/tax/index.ts:204-248 | Any two fair allocations differ by at most one paisa on every line. |
| `Allocation.LeftoverBounds` | packages/core/src/promotions/index.ts:322-335 | The units left to hand out are fewer than the lines, so the hand-out never wraps. |
| `Promotions.ApplyDiscountToLines` | packages/core/src/promotions/index.ts:297-338 | The loops compute the fair allocation of the discount. |
| `Promotions.HandOutInTurn` | packages/core/src/promotions/index.ts:325-335 | The modular hand-out loop gives one unit to each of the first ranked lines. |
| `Promotions.AllocatorsAreClose` | packages/core/src/promotions/index.ts:297-338 | The promotion and tax allocators differ by at most one paisa per line. |
| `Promotions.DiscountsFit` | packages/core/src/promotions/index.ts:297-338 | The discount is all on the lines and no line goes below zero. |
| `Promotions.EvaluatePromotion` | packages/core/src/promotions/index.ts:208-285 | Window, conditions, customer and effects loops compute the specified evaluation. |
| `PromotionLaws.EvaluationMeans` | packages/core/src/promotions/index.ts:208-285 | A promotion applies iff now is in its half-open window, every condition is met by the cart and customer, a limit per customer has an identified one, every effect is known and each buy-x-get-y is reached with something to give; the discount is the least of the subtotal and the sum of what each effect is worth: its paise, the nearest paisa to its percentage cut to the cap, or the least a choice of the free units is worth. |
| `PromotionLaws.RefusalMeans` | packages/core/src/promotions/index.ts:208-285 | A refusal names the first thing that fails: window, the first unmet condition, the customer, then the first effect. |
| `PromotionLaws.FreeUnitsMean` | packages/core/src/promotions/index.ts:178-200 | A buy-x-get-y gives something iff the whole cart reaches its threshold and has something to give; it is then worth the least that any choice of the free units is worth, and one attains it. |
| `Promotions.UnknownVocabularyNeverApplies` | packages/core/src/promotions/index.ts:135-285 | A condition or effect from the future, anywhere in the rule, is a refusal. |
| `Promotions.FreeUnitsAreTheCheapest` | packages/core/src/promotions/index.ts:178-200 | Buy-x-get-y gives away the least any choice of that many eligible units is worth. |
| `Promotions.GivenIsAChoice` | packages/core/src/promotions/index.ts:178-200 | That bound is attained, by as many units as promised or available. |
| `Promotions.ComputeBuyXGetY` | packages/core/src/promotions/index.ts:178-200 | The loop computes that discount. |
| `Csv.RoundTrip` | packages/core/src/catalog/csv.ts:222-400 | Any records of at least one cell, any cells, any cut of the printed text: reading and unguarding give the records back. |
| `Csv.ChunkingIsInvisible` | packages/core/src/catalog/csv.ts:222-339 | Reading in chunks is reading whole, unless a mark escapes in an empty first chunk. |
| `Csv.ChunkingIsInvisibleExactly` | packages/core/src/catalog/csv.ts:234-248 | On every text the whole form accepts, the two agree iff no mark escapes. |
| `Csv.AnEscapedMark` | packages/core/src/catalog/csv.ts:244-248 | A text and a cut for which they differ. |
| `Csv.PrintedIsUnmarked` | packages/core/src/catalog/csv.ts:385-400 | Printed text never starts with a byte order mark. |
| `Csv.GuardIsReversible` | packages/core/src/catalog/csv.ts:346-378 | Unguarding undoes guarding on every text, guarded text never leads a formula, and the texts that guarding restores are exactly its image. |
| `CsvFiles.FilesReadBack` | packages/core/src/catalog/csv.ts:222-339 | Any file of records of at least one cell, each cell plain, quoted or quoted with a tail, each record ended by LF, CR or CR LF, the last end optional, with or without a mark in front, reads as exactly those cells; only texts with two readings are left out. |
| `CsvFiles.UnclosedQuotesAreReported` | packages/core/src/catalog/csv.ts:299-315 | A file that breaks off inside quotes is refused with the number of the record that is open. |
| `CsvFiles.PrintIsAFile` | packages/core/src/catalog/csv.ts:385-400 | What is printed is such a file: each value guarded, quoted iff it must be, every record ended CR LF. |
| `Csv.CsvRecordReader.Push` | packages/core/src/catalog/csv.ts:234-296 | The reader class advances exactly as the machine over the chunk, and returns exactly the records it completes. |
| `Csv.CsvRecordReader.End` | packages/core/src/catalog/csv.ts:299-315 | The flush, or the row of an unclosed quote. |
| `Csv.ParseCsvRecords` | packages/core/src/catalog/csv.ts:336-339 | The whole-text form. |
| `Csv.ReadRecords` | apps/console/src/app/api/products/import/route.ts:50-112 | An upload within both caps reads as the streamed form, tail included; any other is refused at the first chunk to pass a cap, with that cap, bytes before rows. |
| `Csv.ReadChunks` | apps/console/src/app/api/products/import/route.ts:72-97 | The counting loop: the records of the whole body, or the first cap passed. |
| `Csv.FormatCsvValue` | packages/core/src/catalog/csv.ts:385-395 | Guard, quote decision and doubling as specified. |
| `Categories.SubtreeIds` | packages/core/src/catalog/categories.ts:124-146 | On every list, cyclic ones included: exactly the reachable ids, each once. |
| `Categories.IsDescendant` | packages/core/src/catalog/categories.ts:88-115 | On every list: true iff reachable. |
| `Categories.ResolveParent` | packages/core/src/catalog/writes.ts:1208-1229 | Accepts a parent iff it exists and is not inside the category's own subtree. |
| `Categories.CategoryTable.CreateCategory` | packages/core/src/catalog/writes.ts:942-991 | A new category hangs from an existing parent or none. |
| `Categories.CategoryTable.UpdateCategory` | packages/core/src/catalog/writes.ts:993-1061 | A move is committed iff the category exists and the parent is accepted. |
| `Categories.MoveKeepsForest` | packages/core/src/catalog/writes.ts:1208-1229 | An accepted move keeps every category hanging from a root. |
| `Categories.RefusedMovesBreakTheForest` | packages/core/src/catalog/writes.ts:1208-1229 | Every move into the own subtree would break the forest, so the guard is exact. |
| `Categories.ForestsHaveNoCycle` | packages/core/src/catalog/writes.ts:1195-1207 | In a forest no category is above itself. |
| `Categories.CategoriesStayAForest` | packages/core/src/catalog/writes.ts:942-1061 | Over any sequence of edits the categories stay a forest. |
| `CategoryTrees.BuildCategoryTree` | packages/core/src/catalog/categories.ts:51-77 | Each node gets its place, its level as depth and its children in stable order, down to the depth cap. |
| `CategoryTrees.AForestShowsEverything` | packages/core/src/catalog/categories.ts:51-77 | Every node is listed exactly once; all are reachable from the roots iff the nodes are a forest. |
| `CategoryTrees.SortSorts` | packages/core/src/catalog/categories.ts:67-75 | Siblings are in order of position, then title. |
| `CategoryTrees.SiblingsAreOrdered` | packages/core/src/catalog/categories.ts:51-77 | Siblings, and roots among themselves, come by position, then by title, then as first listed. |
| `CategoryTrees.CategoryPath` | packages/core/src/catalog/categories.ts:37-48 | The breadcrumb loop computes the capped ancestor trail. |
| `CategoryTrees.TrailLeadsDown` | packages/core/src/catalog/categories.ts:37-48 | The trail ends at the category and each step is to a child. |
| `CategoryTrees.TrailIsComplete` | packages/core/src/catalog/categories.ts:37-48 | The trail goes up as far as there are ancestors and the cap allows. |
| `CategoryTrees.TrailStartsAtRoot` | packages/core/src/catalog/categories.ts:37-48 | It starts at a root unless the category lies below the cap. |
| `Slugs.UrlsNeverDie` | packages/core/src/catalog/writes.ts:227-298 | Over any sequence of writes a slug once given still belongs to its entity, and a request renders it or is redirected, in one hop, to the one slug that does. |
| `Slugs.EveryUrlIsUsable` | packages/core/src/catalog/writes.ts:227-298 | Over any sequence of writes, whatever the titles: every slug is unreserved, not empty and at most 96 long, and is a candidate of a title its own entity had. |
| `Slugs.SetCanonicalKeeps` | packages/core/src/catalog/writes.ts:227-298 | A write keeps every row and owner, leaves other entities' rows untouched, and leaves exactly one canonical slug. |
| `Slugs.SetCanonicalMeans` | packages/core/src/catalog/writes.ts:227-298 | The first of the hundred candidates that no other entity has becomes the entity's canonical slug; when every one is another's, the table stays as it is. |
| `Slugs.CandidateMeans` | packages/core/src/catalog/slug.ts:109-131 | The first candidate is the slug, with "-item" when it is reserved; the others are its stem, cut to fit, with a hyphen and the numbers from 2 to 100 in decimal. |
| `Slugs.SlugTable.SetCanonicalSlug` | packages/core/src/catalog/writes.ts:227-298 | Demote, then insert or promote; reports the slug and the one it supersedes. |
| `Slugs.SlugTable.ResolveStorefrontSlug` | packages/core/src/catalog/queries.ts:148-170 | Render, one-hop redirect, or not found. |
| `Slugs.ChosenSlugsAreUsable` | packages/core/src/catalog/slug.ts:109-131 | A chosen slug is free, unreserved and at most 96 long; none is chosen iff every candidate is taken. |
| `Slugs.NumberedCandidatesDiffer` | packages/core/src/catalog/slug.ts:109-131 | The ninety-nine numbered candidates are all different. |
| `Slugs.AvailableSlug` | packages/core/src/catalog/slug.ts:109-125 | The probing loop finds the first free candidate. |
| `Slugs.CutSlug` | packages/core/src/catalog/slug.ts:87-96 | A short slug is left alone; a long one is cut to a prefix, at its last hyphen past the middle if there is one and at the length if not; an empty one is the fallback. |
| `Variants.VariantTable.WriteVariants` | packages/core/src/catalog/writes.ts:492-598 | Soft delete, then one row written per submitted variant, in order on distinct rows, everything else as it was, both unique indexes holding after the delete and after each write. |
| `Variants.ReplacementIsThePayload` | packages/core/src/catalog/writes.ts:492-598 | Every live variant is the submitted one at its position, on the row written for it; no row is lost, other products are untouched, and a row's own id beats any SKU match. |
| `Variants.ResubmissionKeepsIds` | packages/core/src/catalog/writes.ts:520-545 | Resubmitting live variants without ids, in any order, keeps every id. |
| `Variants.TargetsAreDistinct` | packages/core/src/catalog/writes.ts:536-556 | No existing row is the target of two submitted variants. |
| `Variants.TargetMeans` | packages/core/src/catalog/writes.ts:520-556 | A submitted variant is written on the row whose id it is the first to name, else on the one its SKU matches and nobody names, else on none. |
| `Variants.ResolveTargets` | packages/core/src/catalog/writes.ts:536-556 | The two passes: every id is settled before any SKU is looked at. |
| `Variants.SkuIssues` | packages/core/src/catalog/writes.ts:391-435 | Exactly the repeated SKUs, and the first uses of SKUs of other products. |

## Left out

- HTTP routes, pages, payload schemas, queues, cache purges, audit rows and order events: they change no table the properties use.
- String normalisation of the payload, the pincode and state checks of `startCheckout`, and the order number: the request is taken as it is after them.
- The checkout fingerprint is the equality of the request record; the digest itself, order tokens and sealed credentials are not part of this model.
- The gateway is an oracle: it answers a mint with a new reference or the one it gave this order before, and a refund call with any reference. Calls that fail are runs that stop there.
- Money of a delivery whose amount does not match the payment is not recorded by the platform, so it is outside the money promises.
- The tracking flag of a variant is fixed for a run, variants are not deleted, and there is one stock location; product and variant rows enter as the rows a request reads.
- A customer is known by the phone number of the request; the customer row's other fields are not modelled.
- Seller registration, invoice year, shipping and advance settings are inputs of each request and may change between any two.
- A transaction is one atomic step; isolation anomalies below the row locks are not modelled.
- `markRefundProcessing`, which nothing calls in the refund worker's path, is not modelled.
- Return, RTO and shipment statuses beyond the transition table have no writer in the modelled code.
- Unicode folding in `slugify`: slugs enter as the folded, hyphen-separated text.
- `localeCompare` of category titles is the order of an abstract collation key.
- The UTF-8 decoder of the upload route: chunks enter as decoded text with the bytes it came from. The catalog-level meaning of CSV columns.
- Categories have no delete writer in the source; concurrent edits of categories and variants are taken one after the other.
- Variant columns other than SKU, options and position are one opaque value; the option matrix check enters as distinct option combinations.
- Logistics weight and the shipment status table: easy lookups.
- LockOrder.NoWaitCycle: covers the seven tables named in its module and leaves out reservation, payment and refund rows and waits on unique indexes.
- Csv.ChunkingIsInvisibleExactly: is an equivalence on texts the whole form accepts; on a rejected text an escaped mark may still lead to the same rejection.
- Slugs.ChosenSlugsAreUsable: counts characters, not UTF-16 units, and takes the slug after folding.
- CategoryTrees.BuildCategoryTree: knows node objects by id, so sharing of node objects is not captured.
