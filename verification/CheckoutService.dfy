/**
 * The checkout service, transaction by transaction, over its tables
 * (packages/core/src/checkout/server.ts:762-2325). Each method runs one
 * transaction statement by statement; a refusal restores what the transaction
 * had already written. Each is proved to commit what module Checkout says.
 */
module CheckoutService {
  import opened Common
  import opened Orders
  import opened Checkout
  import Inventory
  import Payments
  import Quotes
  import Invoices
  import Coupons
  import StockRooms
  import opened CheckoutTheorems

  class Desk {
    const stock: StockRooms.StockRoom
    const coupons: Coupons.CouponBook
    const register: Invoices.InvoiceRegister
    const money: Payments.PaymentDesk
    const tracked: set<VariantId>
    var now: int
    var orders: seq<Order>
    var carts: seq<CartStatus>
    var firstOrdered: set<CustomerId>
    var issued: set<Task>
    var minted: map<GatewayRef, OrderId>
    var runs: seq<WorkerRun>
    var calls: seq<Call>

    constructor (tracked: set<VariantId>)
      ensures Snapshot() == Initial(tracked)
      ensures fresh(stock) && fresh(coupons) && fresh(register) && fresh(money)
    {
      this.tracked := tracked;
      stock := new StockRooms.StockRoom();
      coupons := new Coupons.CouponBook();
      register := new Invoices.InvoiceRegister();
      money := new Payments.PaymentDesk();
      now, orders, carts, firstOrdered, issued, minted, runs, calls := 0, [], [], {}, {}, map[], [], [];
    }

    function Snapshot(): State
      reads this, stock, coupons, register, money
    {
      State(now, tracked, stock.Contents(), coupons.Contents(), register.Contents(), money.Contents(),
            orders, carts, firstOrdered, issued, minted, runs, calls)
    }

    /** Abort: every table is as it was when the transaction began. */
    method Rollback(saved: State)
      requires saved.tracked == tracked
      modifies this, stock, coupons, register, money
      ensures Snapshot() == saved
    {
      stock.Rollback(saved.stock);
      coupons.Rollback(saved.coupons);
      register.Rollback(saved.register);
      money.Rollback(saved.money);
      now, orders, carts, firstOrdered := saved.now, saved.orders, saved.carts, saved.firstOrdered;
      issued, minted, runs, calls := saved.issued, saved.minted, saved.runs, saved.calls;
    }

    // ----- starting a checkout -----

    /** UPDATE carts SET status = 'active' WHERE id = c AND status = 'converted'. */
    method ReopenCart(c: CartId)
      modifies this`carts
      ensures Snapshot() == Checkout.ReopenCart(old(Snapshot()), c)
    {
      if c < |carts| && carts[c] == ConvertedCart {
        carts := carts[c := ActiveCart];
      }
    }

    /** Redemption rows and pending orders that already claim the coupon, under the promotion's row lock. */
    method CouponIsSpent(req: Request) returns (spent: bool)
      ensures spent == CouponSpent(Snapshot(), req)
    {
      if req.coupon.None? || req.coupon.value !in coupons.promotions {
        return false;
      }
      var p := req.coupon.value;
      var promotion := coupons.promotions[p];
      var redeemed := coupons.CountRedemptionRows(p, None);
      var pending := CountPendingClaims(p, None);
      if Coupons.AtLimit(redeemed + pending, promotion.limitTotal) {
        return true;
      }
      redeemed := coupons.CountRedemptionRows(p, Some(req.phone));
      pending := CountPendingClaims(p, Some(req.phone));
      spent := Coupons.AtLimit(redeemed + pending, promotion.rule.limitPerCustomer);
    }

    method CountPendingClaims(p: PromoId, c: Option<CustomerId>) returns (n: nat)
      ensures n == PendingClaims(orders, p, c, now)
    {
      n := 0;
      for i := 0 to |orders|
        invariant n == PendingClaims(orders[..i], p, c, now)
      {
        assert orders[..i + 1][..i] == orders[..i];
        var o := orders[i];
        if && o.request.coupon == Some(p) && o.status == PendingPayment && o.expiresAt.Some? && o.expiresAt.value > now
           && (c.Some? ==> c.value == o.request.phone) {
          n := n + 1;
        }
      }
      assert orders[..|orders|] == orders;
    }

    method CreateOrder(c: CartId, key: nat, req: Request, rows: seq<Quotes.Row>, shop: Shop) returns (created: bool)
      modifies this`orders, this`carts
      ensures match Checkout.CreateOrder(old(Snapshot()), c, key, req, rows, shop)
        case None => !created && Snapshot() == old(Snapshot())
        case Some(t) => created && Snapshot() == t
    {
      hide Quotes.PriceOrder;
      hide TermsOf;
      hide CouponUsable;
      hide CouponSpent;
      if c >= |carts| || carts[c] != ActiveCart {
        return false;
      }
      var s := Snapshot();
      if !CouponUsable(s, req.coupon) {
        return false;
      }
      var price := Quotes.ComputePrice(rows, TermsOf(s, req, shop));
      if price.Failure? {
        return false;
      }
      var spent := CouponIsSpent(req);
      if spent || CartClaimed(orders, c) {
        return false;
      }
      var quote := price.value;
      orders := orders + [Order(c, key, req, PendingPayment, PayPending, quote, quote.split.codDue, 0, None,
                                Some(now + CHECKOUT_EXPIRY_MS), None)];
      carts := carts[c := ConvertedCart];
      created := true;
    }

    method StartCheckout(c: CartId, key: nat, req: Request, rows: seq<Quotes.Row>, shop: Shop)
      modifies this
      ensures Snapshot() == Checkout.StartCheckout(old(Snapshot()), c, key, req, rows, shop)
    {
      var existing := FindByKey(orders, key, 0);
      if existing.Some? {
        var order := orders[existing.value];
        if req == order.request && order.status == PendingPayment {
          issued := issued + {PlaceHold(existing.value, true)};
        }
      } else {
        var o := |orders|;
        var created := CreateOrder(c, key, req, rows, shop);
        if created {
          issued := issued + {PlaceHold(o, false)};
        }
      }
    }

    method HoldOrder(o: OrderId, replay: bool, account: bool)
      requires o < |orders|
      modifies this`issued, stock
      ensures Snapshot() == PlaceHoldTx(old(Snapshot()), o, replay, account)
    {
      var held := stock.HoldStock(now, tracked, o, LinesOf(orders[o]));
      match held
      case Success(_) =>
        issued := issued + if replay then {ExtendExpiry(o)} else AfterHold(Snapshot(), o, false, account);
      case Failure(e) =>
        if e.InsufficientAvailability? {
          issued := issued + {CancelPending(o)};
        }
    }

    /** The locked re-check of a replay: only an order still pending gets its expiry moved. */
    method ExtendExpiryOf(o: OrderId, account: bool)
      requires o < |orders|
      modifies this
      ensures Snapshot() == ExtendExpiryTx(old(Snapshot()), o, account)
    {
      if orders[o].status != PendingPayment {
        issued := issued + {ReleaseHold(o)};
        return;
      }
      orders := orders[o := orders[o].(expiresAt := Some(now + CHECKOUT_EXPIRY_MS))];
      issued := issued + AfterHold(Snapshot(), o, true, account);
    }

    /** The cancel of a pending order; the hold is released afterwards, whatever the order's status was. */
    method CancelPendingOrder(o: OrderId)
      requires o < |orders|
      modifies this
      ensures Snapshot() == CancelPendingTx(old(Snapshot()), o)
    {
      var order := orders[o];
      if order.status == PendingPayment {
        orders := orders[o := order.(status := Cancelled)];
        ReopenCart(order.cart);
      }
      issued := issued + {ReleaseHold(o)};
    }

    // ----- the gateway order -----

    /** The locked check for a stored reference, then the vendor call, which answers g. */
    method MintGatewayOrder(o: OrderId, g: GatewayRef)
      requires o < |orders|
      modifies this
      ensures Snapshot() == StartPaymentTx(old(Snapshot()), o, g)
    {
      if orders[o].gatewayRef.Some? || (g in minted && minted[g] != o) {
        return;
      }
      minted := minted[g := o];
      issued := issued + {RecordGatewayOrder(o, g)};
    }

    method StoreGatewayOrder(o: OrderId, g: GatewayRef)
      requires o < |orders|
      modifies this`orders, money
      ensures Snapshot() == RecordGatewayOrderTx(old(Snapshot()), o, g)
    {
      var order := orders[o];
      if order.gatewayRef.Some? && order.gatewayRef.value != g {
        return;
      }
      ghost var before := Snapshot();
      var saved := money.Contents();
      var existing := money.FindPaymentByGatewayOrder(o, g);
      if existing.None? {
        var inserted := money.InsertPayment(o, order.quote.split.advance, g);
        if !inserted {
          return;
        }
      }
      // orders_gateway_ref_key, checked when the row is updated.
      if order.gatewayRef.None? && FindByRef(orders, g, 0).Some? {
        money.Rollback(saved);
        return;
      }
      orders := orders[o := order.(gatewayRef := Some(g))];
    }

    // ----- the confirmation door -----

    /** An order without a coupon, or whose promotion row is gone, has nothing to claim. */
    method ClaimCouponOf(o: OrderId, order: Order) returns (claimed: bool)
      modifies coupons
      ensures match ClaimCoupon(old(Snapshot()), o, order)
        case None => !claimed && coupons.Contents() == old(coupons.Contents())
        case Some(book) => claimed && coupons.Contents() == book
    {
      if order.request.coupon.None? || order.request.coupon.value !in coupons.promotions {
        return true;
      }
      claimed := coupons.ClaimRedemption(order.request.coupon.value, o, Some(order.request.phone),
                                         order.quote.discount);
    }

    /** lines.reduce(...), once for the taxable values and once for each tax. */
    method SumLines(q: Quotes.Quote) returns (amounts: Invoices.Amounts)
      ensures amounts == Invoices.AmountsOf(q)
    {
      var taxable, cgst, sgst, igst := 0, 0, 0, 0;
      for i := 0 to |q.lines|
        invariant taxable == Quotes.SumOf(q.lines[..i], Quotes.Taxable)
        invariant cgst == Quotes.SumOf(q.lines[..i], Quotes.Cgst)
        invariant sgst == Quotes.SumOf(q.lines[..i], Quotes.Sgst) && igst == Quotes.SumOf(q.lines[..i], Quotes.Igst)
      {
        assert q.lines[..i + 1][..i] == q.lines[..i];
        var l := q.lines[i];
        taxable, cgst, sgst, igst := taxable + l.taxable, cgst + l.cgst, sgst + l.sgst, igst + l.igst;
      }
      assert q.lines[..|q.lines|] == q.lines;
      amounts := Invoices.Amounts(q.subtotal, q.discount, taxable, cgst, sgst, igst, q.total);
    }

    /** Runs in its caller's transaction: on a refusal the tables are half written and the caller rolls back. */
    method ConfirmOrderCore(o: OrderId, shop: Shop, overredeem: bool) returns (r: Result<(), ConfirmError>)
      requires o < |orders|
      modifies this`orders, this`firstOrdered, stock, coupons, register
      ensures match ConfirmCore(old(Snapshot()), o, shop, overredeem)
        case Success(t) => r.Success? && Snapshot() == t
        case Failure(e) => r == Failure(e)
    {
      hide Invoices.Issue;
      hide Invoices.AmountsOf;
      hide Inventory.ConsumeStock;
      hide LinesOf;
      var order := orders[o];
      var lines := LinesOf(order);
      if lines != [] {
        var consumed := stock.ConsumeStockWithin(now, tracked, o, lines);
        if consumed.Failure? {
          return Failure(if IsStockFailure(consumed.error) then StockRefused else Refused);
        }
      }
      var moved := Move(order, Confirmed, now);
      if moved.None? {
        return Failure(Refused);
      }
      orders := orders[o := moved.value];
      var claimed := ClaimCouponOf(o, order);
      if !claimed && !overredeem {
        return Failure(CouponExhausted);
      }
      var series := Invoices.Series(Invoices.DocTypeFor(shop.registration), shop.year);
      var amounts := SumLines(order.quote);
      var invoice := register.CreateInvoice(o, series, order.quote.lines, amounts);
      if invoice.Failure? {
        return Failure(Refused);
      }
      firstOrdered := firstOrdered + {order.request.phone};
      r := Success(());
    }

    /** Cash on delivery and zero totals: confirm now; a stock or coupon refusal leaves the cancel to run. */
    method ConfirmCodOrder(o: OrderId, shop: Shop)
      requires o < |orders|
      modifies this, stock, coupons, register, money
      ensures Snapshot() == ConfirmAtPlacementTx(old(Snapshot()), o, shop)
    {
      if orders[o].status != PendingPayment {
        return;
      }
      var saved := Snapshot();
      var total := orders[o].quote.total;
      var confirmed := ConfirmOrderCore(o, shop, false);
      if confirmed.Success? {
        orders := orders[o := if total == 0 then orders[o].(payStatus := Paid, codDue := 0)
                              else orders[o].(payStatus := PayPending, codDue := total)];
        return;
      }
      Rollback(saved);
      if confirmed.error != Refused {
        issued := issued + {CancelPending(o)};
      }
    }

    // ----- webhooks -----

    method FindByGatewayOrder(g: GatewayRef) returns (hit: Option<(OrderId, PaymentId)>)
      ensures hit == Lookup(Snapshot(), g)
    {
      var o := FindByRef(orders, g, 0);
      if o.None? {
        return None;
      }
      var p := money.FindPaymentByGatewayOrder(o.value, g);
      hit := if p.None? then None else Some((o.value, p.value));
    }

    method CaptureOntoPayment(o: OrderId, p: PaymentId, amount: int)
      requires o < |orders| && p < |money.payments|
      modifies this`orders, money
      ensures Snapshot() == Capture(old(Snapshot()), o, p, amount)
    {
      money.Mark(p, Payments.Captured);
      orders := orders[o := orders[o].(amountPaid := orders[o].amountPaid + amount)];
    }

    /** The money transaction of one capture delivery. */
    method ProcessCaptured(g: GatewayRef, amount: int, shop: Shop)
      modifies this, stock, coupons, register, money
      ensures Snapshot() == Checkout.ProcessCaptured(old(Snapshot()), g, amount, shop)
    {
      hide Lookup;
      hide ConfirmCore;
      hide LateCapture;
      var saved := Snapshot();
      var hit := FindByGatewayOrder(g);
      if hit.None? {
        return;
      }
      var o, p := hit.value.0, hit.value.1;
      if money.payments[p].status == Payments.Captured {
        return;
      }
      if amount != money.payments[p].amount {
        money.Mark(p, Payments.PaymentFailed);
        return;
      }
      if orders[o].status != PendingPayment {
        KeepLateCapture(o, p, amount);
        return;
      }
      CaptureOntoPayment(o, p, amount);
      orders := orders[o := orders[o].(payStatus := PaidStatus(orders[o]))];
      var confirmed := ConfirmOrderCore(o, shop, true);
      if confirmed.Success? {
        return;
      }
      Rollback(saved);
      if confirmed.error == StockRefused {
        issued := issued + {CancelOversold(g, amount)};
      }
    }

    method KeepLateCapture(o: OrderId, p: PaymentId, amount: int)
      requires o < |orders| && p < |money.payments|
      modifies this, stock, coupons, register, money
      ensures Snapshot() == LateCapture(old(Snapshot()), o, p, amount)
    {
      var saved := Snapshot();
      CaptureOntoPayment(o, p, amount);
      orders := orders[o := orders[o].(payStatus := RefundInitiated)];
      var refunded := money.CreateRefundIntent(o, p, amount, Payments.LateCapture);
      if !refunded {
        Rollback(saved);
      }
    }

    /** The transaction after a stock refusal: record the money, close the order, queue the refund. */
    method OversoldCancel(g: GatewayRef, amount: int)
      modifies this, stock, coupons, register, money
      ensures Snapshot() == CancelOversoldTx(old(Snapshot()), g, amount)
    {
      hide Lookup;
      hide Payments.RefundIntent;
      var saved := Snapshot();
      var hit := FindByGatewayOrder(g);
      if hit.None? {
        return;
      }
      var o, p := hit.value.0, hit.value.1;
      if money.payments[p].status != Payments.Captured {
        CaptureOntoPayment(o, p, amount);
      }
      var order := orders[o];
      if order.status == PendingPayment {
        orders := orders[o := order.(status := Cancelled, payStatus := RefundInitiated)];
        ReopenCart(order.cart);
      }
      var refunded := money.CreateRefundIntent(o, p, amount, Payments.StockShortfall);
      if !refunded {
        Rollback(saved);
        return;
      }
      issued := issued + {ReleaseHold(o)};
    }

    method ProcessFailed(g: GatewayRef)
      modifies money
      ensures Snapshot() == Checkout.ProcessFailed(old(Snapshot()), g)
    {
      var hit := FindByGatewayOrder(g);
      if hit.Some? && money.payments[hit.value.1].status != Payments.Captured {
        money.Mark(hit.value.1, Payments.PaymentFailed);
      }
    }

    method ProcessRefundProcessed(ref: GatewayRef)
      modifies this`orders, money
      ensures Snapshot() == Checkout.ProcessRefundProcessed(old(Snapshot()), ref)
    {
      var hit := money.MarkRefundProcessed(ref);
      if hit.Some? && hit.value < |orders| {
        orders := orders[hit.value := orders[hit.value].(payStatus := RefundDone)];
      }
    }

    // ----- expiry and staff -----

    method ExpireCheckout(o: OrderId)
      requires o < |orders|
      modifies this
      ensures Snapshot() == Checkout.ExpireCheckout(old(Snapshot()), o)
    {
      var order := orders[o];
      if order.status != PendingPayment {
        return;
      }
      if order.expiresAt.Some? && order.expiresAt.value > now {
        return;
      }
      orders := orders[o := order.(status := Abandoned)];
      ReopenCart(order.cart);
      issued := issued + {ReleaseHold(o)};
    }

    method CancelOrder(o: OrderId)
      requires o < |orders|
      modifies this, stock, coupons, register, money
      ensures Snapshot() == Checkout.CancelOrder(old(Snapshot()), o)
    {
      var saved := Snapshot();
      var order := orders[o];
      if order.status !in {Confirmed, Packing} {
        return;
      }
      var lines := LinesOf(order);
      if lines != [] {
        var restocked := stock.RestockWithin(now, tracked, o, lines);
        if restocked.Failure? {
          Rollback(saved);
          return;
        }
      }
      orders := orders[o := order.(status := Cancelled)];
      if order.amountPaid > 0 {
        var paid := Payments.FindCaptured(money.payments, o);
        if paid.Some? {
          var refunded := money.CreateRefundIntent(o, paid.value, money.payments[paid.value].amount,
                                                   Payments.MerchantCancelled);
          if !refunded {
            Rollback(saved);
            return;
          }
          orders := orders[o := orders[o].(payStatus := RefundInitiated)];
        }
      }
    }

    method ManualTransition(o: OrderId, to: Status)
      requires o < |orders|
      modifies this`orders
      ensures Snapshot() == Checkout.ManualTransition(old(Snapshot()), o, to)
    {
      var order := orders[o];
      if !ManualStep(order.status, to) {
        return;
      }
      orders := orders[o := order.(status := to)];
      if CollectsCash(order, to) {
        orders := orders[o := orders[o].(payStatus := Paid, amountPaid := order.quote.total, codDue := 0)];
      }
    }

    // ----- the refund worker -----

    method ReadRefund(r: RefundId)
      modifies this`runs
      ensures Snapshot() == Checkout.ReadRefund(old(Snapshot()), r)
    {
      if r < |money.refunds| && money.refunds[r].status == Payments.Pending {
        runs := runs + [Read(r)];
      }
    }

    /** UPDATE refunds SET status = 'processing' WHERE id = r AND status = 'pending'. */
    method ClaimRefund(i: nat)
      modifies this`runs, money
      ensures Snapshot() == Checkout.ClaimRefund(old(Snapshot()), i)
    {
      if i >= |runs| || !runs[i].Read? || runs[i].refund >= |money.refunds| {
        return;
      }
      var r := runs[i].refund;
      var claimed := money.refunds[r].status == Payments.Pending;
      if claimed {
        money.refunds := money.refunds[r := money.refunds[r].(status := Payments.Processing)];
      }
      runs := runs[i := if claimed then Claimed(r) else Finished];
    }

    method CallGateway(i: nat, ref: GatewayRef)
      modifies this`runs, this`calls
      ensures Snapshot() == Checkout.CallGateway(old(Snapshot()), i, ref)
    {
      if i >= |runs| || !runs[i].Claimed? || runs[i].refund >= |money.refunds| {
        return;
      }
      var row := money.refunds[runs[i].refund];
      calls := calls + [Call(runs[i].refund, row.payment, row.amount)];
      runs := runs[i := Called(runs[i].refund, ref)];
    }

    method RecordRefund(i: nat)
      modifies this`runs, money
      ensures Snapshot() == Checkout.RecordRefund(old(Snapshot()), i)
    {
      if i >= |runs| || !runs[i].Called? || runs[i].refund >= |money.refunds| {
        return;
      }
      var r, ref := runs[i].refund, runs[i].ref;
      if money.refunds[r].gatewayRefund.None? {
        money.refunds := money.refunds[r := money.refunds[r].(gatewayRefund := Some(ref))];
      }
      runs := runs[i := Finished];
    }

    // ----- any committed step -----

    method PerformIssued(task: Task, g: GatewayRef, shop: Shop)
      modifies this, stock, coupons, register, money
      ensures Snapshot() == PerformTask(old(Snapshot()), task, g, shop)
    {
      if task.CancelOversold? {
        OversoldCancel(task.gateway, task.amount);
        return;
      }
      if task.order >= |orders| {
        return;
      }
      match task
      case PlaceHold(o, replay) => HoldOrder(o, replay, shop.account);
      case ExtendExpiry(o) => ExtendExpiryOf(o, shop.account);
      case ConfirmAtPlacement(o) => ConfirmCodOrder(o, shop);
      case StartPayment(o) => MintGatewayOrder(o, g);
      case RecordGatewayOrder(o, ref) => StoreGatewayOrder(o, ref);
      case CancelPending(o) => CancelPendingOrder(o);
      case ReleaseHold(o) => stock.ReleaseStock(o);
    }

    /** Whatever commits next, the service stays within the model and keeps every promise of it. */
    method Handle(c: Step)
      requires AllInv(Snapshot())
      modifies this, stock, coupons, register, money
      ensures Snapshot() == Apply(old(Snapshot()), c) && AllInv(Snapshot())
    {
      hide AllInv;
      hide Checkout.StartCheckout;
      hide PerformTask;
      hide Checkout.ProcessCaptured;
      hide Checkout.ProcessFailed;
      hide Checkout.ProcessRefundProcessed;
      hide Checkout.ExpireCheckout;
      hide Checkout.CancelOrder;
      hide Checkout.ManualTransition;
      hide Checkout.ReadRefund;
      hide Checkout.ClaimRefund;
      hide Checkout.CallGateway;
      hide Checkout.RecordRefund;
      StepKeepsAll(Snapshot(), c);
      match c
      case NewCart => carts := carts + [ActiveCart];
      case Start(cart, key, request, rows, shop) => StartCheckout(cart, key, request, rows, shop);
      case Perform(task, g, shop) => if task in issued { PerformIssued(task, g, shop); }
      case CaptureEvent(g, amount, shop) => ProcessCaptured(g, amount, shop);
      case FailureEvent(g) => ProcessFailed(g);
      case RefundEvent(ref) => ProcessRefundProcessed(ref);
      case Expire(o) => if o < |orders| { ExpireCheckout(o); }
      case StaffCancel(o) => if o < |orders| { CancelOrder(o); }
      case StaffMove(o, to) => if o < |orders| { ManualTransition(o, to); }
      case StaffStock(v, delta, key) => var recorded := stock.RecordMovement(now, tracked, v, delta, key);
      case StaffPromotion(p, promotion) => coupons.promotions := coupons.promotions[p := promotion];
      case RunReads(r) => ReadRefund(r);
      case RunClaims(i) => ClaimRefund(i);
      case RunCalls(i, ref) => CallGateway(i, ref);
      case RunRecords(i) => RecordRefund(i);
      case Tick(elapsed) => now := now + elapsed;
    }
  }
}
