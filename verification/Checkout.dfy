/**
 * The checkout protocol (packages/core/src/checkout/server.ts): one tenant's
 * tables and one function per transaction. A refused transaction leaves the
 * tables as they were.
 *
 * A request is several transactions in a fixed order. The ones it has reached
 * but not yet run are the tasks of the state: a task may be run by its process,
 * again by a duplicate of it, or never, when the process dies first.
 */
module Checkout {
  import opened Common
  import opened Inventory
  import opened Orders
  import Coupons
  import Invoices
  import Payments
  import Quotes
  import Tax
  import Promotions

  const CHECKOUT_EXPIRY_MS := 25 * 60_000

  datatype Task =
    | PlaceHold(order: OrderId, replay: bool)
    | ExtendExpiry(order: OrderId)
    | ConfirmAtPlacement(order: OrderId)
    | StartPayment(order: OrderId)
    | RecordGatewayOrder(order: OrderId, gateway: GatewayRef)
    | CancelPending(order: OrderId)
    | ReleaseHold(order: OrderId)
    | CancelOversold(gateway: GatewayRef, amount: int)

  /** One run of the refund worker, between its transactions. */
  datatype WorkerRun =
    | Read(refund: RefundId)
    | Claimed(refund: RefundId)
    | Called(refund: RefundId, ref: GatewayRef)
    | Finished

  /** One outbound refund call. */
  datatype Call = Call(refund: RefundId, payment: PaymentId, amount: int)

  datatype State = State(now: int, tracked: set<VariantId>, stock: Stock, coupons: Coupons.Book,
                         register: Invoices.Register, money: Payments.Money, orders: seq<Order>,
                         carts: seq<CartStatus>, firstOrdered: set<CustomerId>,
                         issued: set<Task>, minted: map<GatewayRef, OrderId>, runs: seq<WorkerRun>, calls: seq<Call>)

  function Initial(tracked: set<VariantId>): State {
    State(0, tracked, Stock(map[], [], []), Coupons.Book(map[], []), Invoices.Register(map[], []),
          Payments.Money([], []), [], [], {}, {}, map[], [], [])
  }

  /** Merchant settings and seller identity, read by each request and free to change between requests. */
  datatype Shop = Shop(shipping: Quotes.ShippingRule, policy: Quotes.AdvancePolicy, registration: Tax.Registration,
                       intraState: bool, channel: nat, account: bool, year: nat)

  function LinesOf(order: Order): seq<Line> { HoldLines(order.quote.lines) }

  /** Orders that never see the gateway: cash on delivery, or nothing to pay. */
  predicate ConfirmsAtPlacement(order: Order) { order.request.mode == Quotes.Cod || order.quote.total == 0 }

  function Issue(s: State, tasks: set<Task>): State { s.(issued := s.issued + tasks) }

  function SetOrder(s: State, o: OrderId, order: Order): State
    requires o < |s.orders|
  {
    s.(orders := s.orders[o := order])
  }

  /** Give the buyer the cart back, if it is still converted. */
  function ReopenCart(s: State, c: CartId): State {
    if c < |s.carts| && s.carts[c] == ConvertedCart then s.(carts := s.carts[c := ActiveCart]) else s
  }

  // ----- starting and replaying a checkout -----

  function TermsOf(s: State, req: Request, shop: Shop): Quotes.Terms {
    var rule := if req.coupon.Some? && req.coupon.value in s.coupons.promotions
                then Some(s.coupons.promotions[req.coupon.value].rule) else None;
    Quotes.Terms(rule, Promotions.Customer(Some(req.phone), req.phone !in s.firstOrdered), s.now, shop.channel,
                 shop.shipping, shop.registration, shop.intraState, shop.policy, req.mode)
  }

  predicate CouponUsable(s: State, coupon: Option<PromoId>) {
    coupon.Some? ==> coupon.value in s.coupons.promotions && s.coupons.promotions[coupon.value].active
  }

  /** The advisory caps: redemptions plus pending claims, under the promotion's row lock. */
  predicate CouponSpent(s: State, req: Request) {
    && req.coupon.Some?
    && req.coupon.value in s.coupons.promotions
    && var p := req.coupon.value;
    var promotion := s.coupons.promotions[p];
    || Coupons.AtLimit(Coupons.CountRows(s.coupons.redemptions, p, None)
                       + PendingClaims(s.orders, p, None, s.now), promotion.limitTotal)
    || Coupons.AtLimit(Coupons.CountRows(s.coupons.redemptions, p, Some(req.phone))
                       + PendingClaims(s.orders, p, Some(req.phone), s.now), promotion.rule.limitPerCustomer)
  }

  /** The belt index: another pending order already claims the cart. */
  predicate CartClaimed(orders: seq<Order>, c: CartId) {
    exists i :: 0 <= i < |orders| && orders[i].cart == c && orders[i].status == PendingPayment
  }

  /** A new pending order over the cart's rows, and the cart converted; None when refused. */
  function CreateOrder(s: State, c: CartId, key: nat, req: Request, rows: seq<Quotes.Row>, shop: Shop): Option<State> {
    if c >= |s.carts| || s.carts[c] != ActiveCart then None
    else if !CouponUsable(s, req.coupon) then None
    else
      var price := Quotes.PriceOrder(rows, TermsOf(s, req, shop));
      if price.Failure? || CouponSpent(s, req) || CartClaimed(s.orders, c) then None
      else
        var order := Order(c, key, req, PendingPayment, PayPending, price.value, price.value.split.codDue, 0, None,
                           Some(s.now + CHECKOUT_EXPIRY_MS), None);
        Some(s.(orders := s.orders + [order], carts := s.carts[c := ConvertedCart]))
  }

  function ReplayCheckout(s: State, o: OrderId, req: Request): State
    requires o < |s.orders|
  {
    if req != s.orders[o].request || s.orders[o].status != PendingPayment then s else Issue(s, {PlaceHold(o, true)})
  }

  function StartCheckout(s: State, c: CartId, key: nat, req: Request, rows: seq<Quotes.Row>, shop: Shop): State {
    var existing := FindByKey(s.orders, key, 0);
    if existing.Some? then ReplayCheckout(s, existing.value, req)
    else
      var created := CreateOrder(s, c, key, req, rows, shop);
      if created.None? then s else Issue(created.value, {PlaceHold(|s.orders|, false)})
  }

  /** Where a held order goes next. A fresh checkout without a gateway account cancels; a replay just refuses. */
  function AfterHold(s: State, o: OrderId, replay: bool, account: bool): set<Task>
    requires o < |s.orders|
  {
    if ConfirmsAtPlacement(s.orders[o]) then {ConfirmAtPlacement(o)}
    else if account then {StartPayment(o)}
    else if replay then {} else {CancelPending(o)}
  }

  function PlaceHoldTx(s: State, o: OrderId, replay: bool, account: bool): State
    requires o < |s.orders|
  {
    match HoldStock(s.stock, s.now, s.tracked, o, LinesOf(s.orders[o]))
    case Success(t) => Issue(s.(stock := t), if replay then {ExtendExpiry(o)} else AfterHold(s, o, false, account))
    case Failure(InsufficientAvailability(_)) => Issue(s, {CancelPending(o)})
    case Failure(_) => s
  }

  function ExtendExpiryTx(s: State, o: OrderId, account: bool): State
    requires o < |s.orders|
  {
    if s.orders[o].status != PendingPayment then Issue(s, {ReleaseHold(o)})
    else Issue(SetOrder(s, o, s.orders[o].(expiresAt := Some(s.now + CHECKOUT_EXPIRY_MS))),
               AfterHold(s, o, true, account))
  }

  function CancelPendingTx(s: State, o: OrderId): State
    requires o < |s.orders|
  {
    var order := s.orders[o];
    var t := if order.status != PendingPayment then s
             else ReopenCart(SetOrder(s, o, order.(status := Cancelled)), order.cart);
    Issue(t, {ReleaseHold(o)})
  }

  // ----- the gateway order -----

  /** The gateway mints an order: a new reference, or the one it already gave for this receipt. */
  function StartPaymentTx(s: State, o: OrderId, g: GatewayRef): State
    requires o < |s.orders|
  {
    if s.orders[o].gatewayRef.Some? || (g in s.minted && s.minted[g] != o) then s
    else Issue(s.(minted := s.minted[g := o]), {RecordGatewayOrder(o, g)})
  }

  /** First writer wins: a different stored reference is kept, an existing attempt row is reused. */
  function RecordGatewayOrderTx(s: State, o: OrderId, g: GatewayRef): State
    requires o < |s.orders|
  {
    var order := s.orders[o];
    if order.gatewayRef.Some? && order.gatewayRef.value != g then s
    else if order.gatewayRef.None? && FindByRef(s.orders, g, 0).Some? then s
    else
      var paid := if Payments.FindPayment(s.money.payments, o, g).Some? then Some(s.money)
                  else Payments.InsertPayment(s.money, o, order.quote.split.advance, g);
      if paid.None? then s else SetOrder(s.(money := paid.value), o, order.(gatewayRef := Some(g)))
  }

  // ----- the confirmation door -----

  datatype ConfirmError = StockRefused | CouponExhausted | Refused

  predicate IsStockFailure(e: StockError) { e.OnHandCheck? || e.StockHeld? }

  /** Consume, transition, claim the coupon, issue the invoice, mark the first order. */
  function ConfirmCore(s: State, o: OrderId, shop: Shop, overredeem: bool): Result<State, ConfirmError>
    requires o < |s.orders|
  {
    var order := s.orders[o];
    var lines := LinesOf(order);
    var consumed := if lines == [] then Success(s.stock) else ConsumeStock(s.stock, s.now, s.tracked, o, lines);
    if consumed.Failure? then Failure(if IsStockFailure(consumed.error) then StockRefused else Refused)
    else
      var moved := Move(order, Confirmed, s.now);
      if moved.None? then Failure(Refused)
      else
        var claim := ClaimCoupon(s, o, order);
        if claim.None? && !overredeem then Failure(CouponExhausted)
        else
          var series := Invoices.Series(Invoices.DocTypeFor(shop.registration), shop.year);
          match Invoices.Issue(s.register, o, series, order.quote.lines, Invoices.AmountsOf(order.quote))
          case Failure(_) => Failure(Refused)
          case Success(register) =>
            Success(SetOrder(s, o, moved.value).(
              stock := consumed.value,
              coupons := if claim.Some? then claim.value else s.coupons,
              register := register,
              firstOrdered := s.firstOrdered + {order.request.phone}))
  }

  /** The coupon book after the claim; None when the coupon is exhausted. */
  function ClaimCoupon(s: State, o: OrderId, order: Order): Option<Coupons.Book> {
    if order.request.coupon.None? || order.request.coupon.value !in s.coupons.promotions then Some(s.coupons)
    else
      match Coupons.Redeem(s.coupons, order.request.coupon.value, o, Some(order.request.phone), order.quote.discount)
      case Claimed(book, _) => Some(book)
      case Exhausted => None
  }

  function ConfirmAtPlacementTx(s: State, o: OrderId, shop: Shop): State
    requires o < |s.orders|
  {
    if s.orders[o].status != PendingPayment then s
    else
      match ConfirmCore(s, o, shop, false)
      case Success(t) =>
        var total := s.orders[o].quote.total;
        SetOrder(t, o, if total == 0 then t.orders[o].(payStatus := Paid, codDue := 0)
                       else t.orders[o].(payStatus := PayPending, codDue := total))
      case Failure(Refused) => s
      case Failure(_) => Issue(s, {CancelPending(o)})
  }

  // ----- webhooks -----

  /** The order and payment a gateway order reference stands for. */
  function Lookup(s: State, g: GatewayRef): (r: Option<(OrderId, PaymentId)>)
    ensures r.Some? ==>
      && r.value.0 < |s.orders| && s.orders[r.value.0].gatewayRef == Some(g)
      && r.value.1 < |s.money.payments|
      && s.money.payments[r.value.1].order == r.value.0 && s.money.payments[r.value.1].gateway == g
  {
    var o := FindByRef(s.orders, g, 0);
    if o.None? then None
    else
      var p := Payments.FindPayment(s.money.payments, o.value, g);
      if p.None? then None else Some((o.value, p.value))
  }

  /** Record the money on the payment row and on the order. */
  function Capture(s: State, o: OrderId, p: PaymentId, amount: int): State
    requires o < |s.orders| && p < |s.money.payments|
  {
    SetOrder(s.(money := Payments.MarkPayment(s.money, p, Payments.Captured)), o,
             s.orders[o].(amountPaid := s.orders[o].amountPaid + amount))
  }

  function SetPayStatus(s: State, o: OrderId, status: PayStatus): State
    requires o < |s.orders|
  {
    SetOrder(s, o, s.orders[o].(payStatus := status))
  }

  /** Money arriving fresh on an order that is no longer pending is recorded and refunded. */
  function LateCapture(s: State, o: OrderId, p: PaymentId, amount: int): State
    requires o < |s.orders| && p < |s.money.payments|
  {
    var t := SetPayStatus(Capture(s, o, p, amount), o, RefundInitiated);
    var refunded := Payments.RefundIntent(t.money, o, p, amount, Payments.LateCapture);
    if refunded.None? then s else t.(money := refunded.value)
  }

  function PaidStatus(order: Order): PayStatus { if order.amountPaid >= order.quote.total then Paid else PartiallyPaid }

  /** The money transaction of a capture webhook; a stock failure rolls back and leaves the oversold cancel to run. */
  function ProcessCaptured(s: State, g: GatewayRef, amount: int, shop: Shop): State {
    match Lookup(s, g)
    case None => s
    case Some((o, p)) =>
      if s.money.payments[p].status == Payments.Captured then s
      else if amount != s.money.payments[p].amount then
        s.(money := Payments.MarkPayment(s.money, p, Payments.PaymentFailed))
      else if s.orders[o].status != PendingPayment then LateCapture(s, o, p, amount)
      else
        var t := Capture(s, o, p, amount);
        match ConfirmCore(SetPayStatus(t, o, PaidStatus(t.orders[o])), o, shop, true)
        case Success(confirmed) => confirmed
        case Failure(StockRefused) => Issue(s, {CancelOversold(g, amount)})
        case Failure(_) => s
  }

  /** Record the capture, cancel the order if it is still pending, insert the refund intent. */
  function CancelOversoldTx(s: State, g: GatewayRef, amount: int): State {
    match Lookup(s, g)
    case None => s
    case Some((o, p)) =>
      var t := if s.money.payments[p].status == Payments.Captured then s else Capture(s, o, p, amount);
      var order := t.orders[o];
      var u := if order.status != PendingPayment then t
               else ReopenCart(SetOrder(t, o, order.(status := Cancelled, payStatus := RefundInitiated)), order.cart);
      var refunded := Payments.RefundIntent(u.money, o, p, amount, Payments.StockShortfall);
      if refunded.None? then s else Issue(u.(money := refunded.value), {ReleaseHold(o)})
  }

  function ProcessFailed(s: State, g: GatewayRef): State {
    match Lookup(s, g)
    case None => s
    case Some((o, p)) =>
      if s.money.payments[p].status == Payments.Captured then s
      else s.(money := Payments.MarkPayment(s.money, p, Payments.PaymentFailed))
  }

  function ProcessRefundProcessed(s: State, ref: GatewayRef): State {
    var hit := Payments.FindAwaiting(s.money.refunds, ref, 0);
    var t := s.(money := s.money.(refunds := Payments.MarkProcessed(s.money.refunds, ref)));
    if hit.None? || s.money.refunds[hit.value].order >= |s.orders| then t
    else SetPayStatus(t, s.money.refunds[hit.value].order, RefundDone)
  }

  // ----- expiry, staff, clock -----

  function ExpireCheckout(s: State, o: OrderId): State
    requires o < |s.orders|
  {
    var order := s.orders[o];
    if order.status != PendingPayment || (order.expiresAt.Some? && order.expiresAt.value > s.now) then s
    else Issue(ReopenCart(SetOrder(s, o, order.(status := Abandoned)), order.cart), {ReleaseHold(o)})
  }

  /** Staff cancel before shipment: restock, cancel, and a refund intent when money was captured. */
  function CancelOrder(s: State, o: OrderId): State
    requires o < |s.orders|
  {
    var order := s.orders[o];
    var lines := LinesOf(order);
    if order.status !in {Confirmed, Packing} then s
    else
      var restocked := if lines == [] then Success(s.stock) else Restock(s.stock, s.now, s.tracked, o, lines);
      if restocked.Failure? then s
      else
        var t := SetOrder(s.(stock := restocked.value), o, order.(status := Cancelled));
        var paid := Payments.FindCaptured(s.money.payments, o);
        if order.amountPaid <= 0 || paid.None? then t
        else
          var refunded := Payments.RefundIntent(s.money, o, paid.value, s.money.payments[paid.value].amount,
                                                Payments.MerchantCancelled);
          if refunded.None? then s else SetPayStatus(t.(money := refunded.value), o, RefundInitiated)
  }

  predicate CollectsCash(order: Order, to: Status) {
    to == Delivered && order.request.mode != Quotes.Prepaid && order.payStatus != Paid
  }

  function ManualTransition(s: State, o: OrderId, to: Status): State
    requires o < |s.orders|
  {
    var order := s.orders[o];
    if !ManualStep(order.status, to) then s
    else if CollectsCash(order, to) then
      SetOrder(s, o, order.(status := to, payStatus := Paid, amountPaid := order.quote.total, codDue := 0))
    else SetOrder(s, o, order.(status := to))
  }

  function AdjustStock(s: State, v: VariantId, delta: int, key: Option<nat>): State {
    match RecordMovement(s.stock, s.now, s.tracked, v, delta, key)
    case Success(t) => s.(stock := t)
    case Failure(_) => s
  }

  // ----- the refund worker (apps/worker/src/jobs/gateway-refund.ts:37-124) -----

  /** Only a pending intent goes out. */
  function ReadRefund(s: State, r: RefundId): State {
    if r < |s.money.refunds| && s.money.refunds[r].status == Payments.Pending then s.(runs := s.runs + [Read(r)]) else s
  }

  /** pending -> processing, before the outbound call; zero rows means another run has it. */
  function ClaimRefund(s: State, i: nat): State {
    if i >= |s.runs| || !s.runs[i].Read? || s.runs[i].refund >= |s.money.refunds| then s
    else
      var r := s.runs[i].refund;
      if s.money.refunds[r].status != Payments.Pending then s.(runs := s.runs[i := Finished])
      else
        s.(runs := s.runs[i := Claimed(r)],
           money := s.money.(refunds := s.money.refunds[r := s.money.refunds[r].(status := Payments.Processing)]))
  }

  /** The outbound call; the gateway answers with a reference. */
  function CallGateway(s: State, i: nat, ref: GatewayRef): State {
    if i >= |s.runs| || !s.runs[i].Claimed? || s.runs[i].refund >= |s.money.refunds| then s
    else
      var row := s.money.refunds[s.runs[i].refund];
      s.(runs := s.runs[i := Called(s.runs[i].refund, ref)],
         calls := s.calls + [Call(s.runs[i].refund, row.payment, row.amount)])
  }

  /** Guarded on the reference still being null. */
  function RecordRefund(s: State, i: nat): State {
    if i >= |s.runs| || !s.runs[i].Called? || s.runs[i].refund >= |s.money.refunds| then s
    else
      var r, ref := s.runs[i].refund, s.runs[i].ref;
      var row := s.money.refunds[r];
      s.(runs := s.runs[i := Finished],
         money := if row.gatewayRefund.Some? then s.money
                  else s.money.(refunds := s.money.refunds[r := row.(gatewayRefund := Some(ref))]))
  }

  // ----- runs of the whole system -----

  datatype Step =
    | NewCart
    | Start(cart: CartId, key: nat, request: Request, rows: seq<Quotes.Row>, shop: Shop)
    | Perform(task: Task, g: GatewayRef, shop: Shop)
    | CaptureEvent(gateway: GatewayRef, amount: int, shop: Shop)
    | FailureEvent(gateway: GatewayRef)
    | RefundEvent(ref: GatewayRef)
    | Expire(order: OrderId)
    | StaffCancel(order: OrderId)
    | StaffMove(order: OrderId, to: Status)
    | StaffStock(variant: VariantId, delta: int, adjustmentKey: Option<nat>)
    | StaffPromotion(promo: PromoId, promotion: Coupons.Promotion)
    | RunReads(refund: RefundId)
    | RunClaims(run: nat)
    | RunCalls(run: nat, ref: GatewayRef)
    | RunRecords(run: nat)
    | Tick(elapsed: nat)

  function PerformTask(s: State, task: Task, g: GatewayRef, shop: Shop): State {
    match task
    case CancelOversold(gateway, amount) => CancelOversoldTx(s, gateway, amount)
    case _ =>
      var o := task.order;
      if o >= |s.orders| then s
      else
        match task
        case PlaceHold(_, replay) => PlaceHoldTx(s, o, replay, shop.account)
        case ExtendExpiry(_) => ExtendExpiryTx(s, o, shop.account)
        case ConfirmAtPlacement(_) => ConfirmAtPlacementTx(s, o, shop)
        case StartPayment(_) => StartPaymentTx(s, o, g)
        case RecordGatewayOrder(_, ref) => RecordGatewayOrderTx(s, o, ref)
        case CancelPending(_) => CancelPendingTx(s, o)
        case ReleaseHold(_) => s.(stock := ReleaseStock(s.stock, o))
  }

  function Apply(s: State, c: Step): State {
    match c
    case NewCart => s.(carts := s.carts + [ActiveCart])
    case Start(cart, key, request, rows, shop) => StartCheckout(s, cart, key, request, rows, shop)
    case Perform(task, g, shop) => if task in s.issued then PerformTask(s, task, g, shop) else s
    case CaptureEvent(g, amount, shop) => ProcessCaptured(s, g, amount, shop)
    case FailureEvent(g) => ProcessFailed(s, g)
    case RefundEvent(ref) => ProcessRefundProcessed(s, ref)
    case Expire(o) => if o < |s.orders| then ExpireCheckout(s, o) else s
    case StaffCancel(o) => if o < |s.orders| then CancelOrder(s, o) else s
    case StaffMove(o, to) => if o < |s.orders| then ManualTransition(s, o, to) else s
    case StaffStock(v, delta, key) => AdjustStock(s, v, delta, key)
    case StaffPromotion(p, promotion) => s.(coupons := s.coupons.(promotions := s.coupons.promotions[p := promotion]))
    case RunReads(r) => ReadRefund(s, r)
    case RunClaims(i) => ClaimRefund(s, i)
    case RunCalls(i, ref) => CallGateway(s, i, ref)
    case RunRecords(i) => RecordRefund(s, i)
    case Tick(elapsed) => s.(now := s.now + elapsed)
  }

  /** Any interleaving: each step is one committed transaction, outbound call or tick. */
  function Run(s: State, steps: seq<Step>): State {
    if steps == [] then s else Apply(Run(s, steps[..|steps| - 1]), steps[|steps| - 1])
  }
}
