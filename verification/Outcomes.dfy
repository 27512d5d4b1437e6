/**
 * What every step does, said of the tables it finds and the tables it leaves:
 * deliveries, expiry, staff, tasks and the refund worker
 * (packages/core/src/checkout/server.ts:562-2325). A step that is not
 * described as writing a table leaves it as it is.
 */
module Outcomes {
  import opened Common
  import opened Orders
  import opened Checkout
  import opened MoneyInvariant
  import opened CheckoutInvariant
  import opened CheckoutTheorems
  import opened BooksOverRuns
  import opened StockOverRuns
  import opened StockLaws
  import opened CouponLaws
  import RefundsOverRuns
  import Allocation
  import Inventory
  import InventoryProofs
  import Payments
  import Quotes
  import Invoices
  import Coupons
  import Tax

  // ----- what a confirmation takes, and what it writes -----

  /** The order's lines can be had from stock; an order without item lines needs none. */
  ghost predicate StockIsThere(s: State, o: OrderId)
    requires o < |s.orders|
  {
    var lines := LinesOf(s.orders[o]);
    lines == [] || (WellFormed(lines) && AllFit(s.stock, s.now, s.tracked, o, lines))
  }

  ghost predicate StockIsSold(s: State, t: State, o: OrderId)
    requires o < |s.orders|
  {
    var lines := LinesOf(s.orders[o]);
    if lines == [] then t.stock == s.stock else SoldTo(s.stock, t.stock, s.tracked, o, lines)
  }

  /** A live coupon of the order with a slot left. */
  ghost predicate CouponHasSlot(s: State, o: OrderId)
    requires o < |s.orders|
  {
    var p := s.orders[o].request.coupon;
    p.Some? && p.value in s.coupons.promotions && OneMore(s.coupons, p.value, Some(s.orders[o].request.phone))
  }

  /** A coupon without a slot left stands in the way of nothing but a placement. */
  ghost predicate CouponIsSpent(s: State, o: OrderId)
    requires o < |s.orders|
  {
    var p := s.orders[o].request.coupon;
    p.Some? && p.value in s.coupons.promotions && !OneMore(s.coupons, p.value, Some(s.orders[o].request.phone))
  }

  /** The redemption takes the next slots of the promotion and of the customer. */
  ghost predicate CouponIsRedeemed(s: State, t: State, o: OrderId)
    requires o < |s.orders|
  {
    var order := s.orders[o];
    if CouponHasSlot(s, o) then
      var p, c := order.request.coupon.value, Some(order.request.phone);
      var row := Coupons.Redemption(p, o, c, |Uses(s.coupons.redemptions, p, None)|,
                                    |Uses(s.coupons.redemptions, p, c)|,
                                    order.quote.discount);
      t.coupons == s.coupons.(redemptions := s.coupons.redemptions + [row])
    else t.coupons == s.coupons
  }

  /** The document a seller issues: a tax invoice when regular, else a bill of supply, which can carry no tax. */
  function DocOf(shop: Shop): Invoices.DocType {
    if shop.registration == Tax.Regular then Invoices.TaxInvoice else Invoices.BillOfSupply
  }

  predicate InvoiceFits(s: State, o: OrderId, shop: Shop)
    requires o < |s.orders|
  {
    shop.registration == Tax.Regular || s.orders[o].quote.tax == 0
  }

  /** The header amounts of the order, and the sums of its lines' amounts. */
  function TheAmounts(q: Quotes.Quote): Invoices.Amounts {
    var n := |q.lines|;
    Invoices.Amounts(q.subtotal, q.discount,
                     Allocation.Sum(seq(n, i requires 0 <= i < n => q.lines[i].taxable)),
                     Allocation.Sum(seq(n, i requires 0 <= i < n => q.lines[i].cgst)),
                     Allocation.Sum(seq(n, i requires 0 <= i < n => q.lines[i].sgst)),
                     Allocation.Sum(seq(n, i requires 0 <= i < n => q.lines[i].igst)), q.total)
  }

  lemma AmountsMean(q: Quotes.Quote)
    ensures Invoices.AmountsOf(q) == TheAmounts(q)
  {
    var n := |q.lines|;
    Quotes.ColumnSum(q.lines, Quotes.Taxable, seq(n, i requires 0 <= i < n => q.lines[i].taxable));
    Quotes.ColumnSum(q.lines, Quotes.Cgst, seq(n, i requires 0 <= i < n => q.lines[i].cgst));
    Quotes.ColumnSum(q.lines, Quotes.Sgst, seq(n, i requires 0 <= i < n => q.lines[i].sgst));
    Quotes.ColumnSum(q.lines, Quotes.Igst, seq(n, i requires 0 <= i < n => q.lines[i].igst));
    hide Quotes.SumOf;
    hide Allocation.Sum;
  }

  /** The order's invoice, with the next number of its series. */
  ghost predicate InvoiceIsAdded(s: State, t: State, o: OrderId, shop: Shop)
    requires o < |s.orders|
  {
    var q, series := s.orders[o].quote, Invoices.Series(DocOf(shop), shop.year);
    var number := if series in s.register.next then s.register.next[series] else 1;
    var invoice := Invoices.Invoice(o, series, number, q.lines, TheAmounts(q));
    t.register == Invoices.Register(s.register.next[series := number + 1], s.register.invoices + [invoice])
  }

  /**
   * A pending order is confirmed: the order row becomes n, and the
   * books are written; nothing else but money may change.
   */
  ghost predicate IsConfirmed(s: State, t: State, o: OrderId, shop: Shop, n: Order)
    requires o < |s.orders|
  {
    && t == s.(orders := s.orders[o := n], money := t.money, stock := t.stock, coupons := t.coupons,
               register := t.register, firstOrdered := s.firstOrdered + {s.orders[o].request.phone})
    && StockIsSold(s, t, o) && CouponIsRedeemed(s, t, o) && InvoiceIsAdded(s, t, o, shop)
  }

  // ----- the confirmation door -----

  lemma ConsumptionMeans(s: State, o: OrderId)
    requires o < |s.orders|
    ensures var lines := LinesOf(s.orders[o]);
      var sold := if lines == [] then Success(s.stock)
                  else Inventory.ConsumeStock(s.stock, s.now, s.tracked, o, lines);
      && (sold.Success? <==> StockIsThere(s, o))
      && (sold.Success? ==>
         if lines == [] then sold.value == s.stock else SoldTo(s.stock, sold.value, s.tracked, o, lines))
      && (sold.Failure? ==> (IsStockFailure(sold.error) <==> WellFormed(lines)))
  {
    ConsumeMeans(s.stock, s.now, s.tracked, o, LinesOf(s.orders[o]));
    hide WellFormed;
    hide AllFit;
    hide SoldTo;
    hide Inventory.ConsumeStock;
    hide LinesOf;
  }

  lemma ClaimMeans(s: State, o: OrderId)
    requires CouponsOK(s.orders, s.coupons) && o < |s.orders| && s.orders[o].confirmedAt.None?
    ensures var claim := ClaimCoupon(s, o, s.orders[o]);
      && (claim.None? <==> CouponIsSpent(s, o))
      && CouponIsRedeemed(s, s.(coupons := if claim.Some? then claim.value else s.coupons), o)
  {
    var order := s.orders[o];
    var p := order.request.coupon;
    ClaimNeedsASlot(s, o);
    if p.Some? && p.value in s.coupons.promotions {
      RedeemMeans(s.coupons, p.value, o, Some(order.request.phone), order.quote.discount);
    }
    hide CouponsOK;
    hide Uses;
    hide OneMore;
  }

  lemma InvoiceMeans(s: State, o: OrderId, shop: Shop)
    requires AllInv(s) && o < |s.orders| && s.orders[o].status == PendingPayment
    ensures var q := s.orders[o].quote;
      var series := Invoices.Series(Invoices.DocTypeFor(shop.registration), shop.year);
      var issued := Invoices.Issue(s.register, o, series, q.lines, Invoices.AmountsOf(q));
      && (issued.Success? <==> InvoiceFits(s, o, shop))
      && (issued.Success? ==> InvoiceIsAdded(s, s.(register := issued.value), o, shop))
  {
    hide AllInv;
    hide Invoices.AmountsOf;
    hide Invoices.SafeAmounts;
    hide Invoices.HasInvoice;
    hide TheAmounts;
    AmountsMean(s.orders[o].quote);
    WhenAnInvoiceCanBeIssued(s, o, shop);
  }

  /** What the confirmation door answers for a pending order, whose row may have been paid into before. */
  lemma DoorMeans(s: State, before: State, o: OrderId, shop: Shop, overredeem: bool)
    requires AllInv(s) && o < |s.orders| && s.orders[o].status == PendingPayment
    requires before == s.(orders := before.orders, money := before.money) && |before.orders| == |s.orders|
    requires var a, b := s.orders[o], before.orders[o]; b == a.(payStatus := b.payStatus, amountPaid := b.amountPaid)
    ensures var r := ConfirmCore(before, o, shop, overredeem);
      if !StockIsThere(s, o) then r == Failure(if WellFormed(LinesOf(s.orders[o])) then StockRefused else Refused)
      else if !overredeem && CouponIsSpent(s, o) then r == Failure(CouponExhausted)
      else if !InvoiceFits(s, o, shop) then r == Failure(Refused)
      else
        var n := before.orders[o].(status := Confirmed, confirmedAt := Some(s.now), expiresAt := None);
        && r.Success?
        && r.value == before.(orders := before.orders[o := n], stock := r.value.stock, coupons := r.value.coupons,
                              register := r.value.register,
                              firstOrdered := s.firstOrdered + {s.orders[o].request.phone})
        && StockIsSold(s, r.value, o) && CouponIsRedeemed(s, r.value, o) && InvoiceIsAdded(s, r.value, o, shop)
  {
    hide CoreInv;
    hide StockInv;
    hide Inventory.ConsumeStock;
    hide ClaimCoupon;
    hide Invoices.Issue;
    hide StockIsThere;
    hide SoldTo;
    hide WellFormed;
    hide CouponIsSpent;
    hide OneMore;
    hide Uses;
    OrderFacts(s, o);
    ConsumptionMeans(s, o);
    ClaimMeans(s, o);
    InvoiceMeans(s, o, shop);
    SameClaim(s, before, o);
  }

  lemma SameClaim(s: State, before: State, o: OrderId)
    requires o < |s.orders| == |before.orders| && before.coupons == s.coupons
    requires before.orders[o].request == s.orders[o].request && before.orders[o].quote == s.orders[o].quote
    ensures ClaimCoupon(before, o, before.orders[o]) == ClaimCoupon(s, o, s.orders[o])
  {
  }

  // ----- a placement -----

  /** Without the gateway: the money is still due, or there is none to pay. */
  function PlacedOrder(a: Order, now: int): Order {
    a.(status := Confirmed, confirmedAt := Some(now), expiresAt := None,
       payStatus := if a.quote.total == 0 then Paid else PayPending,
       codDue := if a.quote.total == 0 then 0 else a.quote.total)
  }

  lemma PlacementMeans(s: State, o: OrderId, g: GatewayRef, shop: Shop)
    requires AllInv(s) && ConfirmAtPlacement(o) in s.issued && o < |s.orders|
    ensures var t := Apply(s, Perform(ConfirmAtPlacement(o), g, shop));
      if s.orders[o].status != PendingPayment then t == s
      else if !StockIsThere(s, o) then
        t == if WellFormed(LinesOf(s.orders[o])) then s.(issued := s.issued + {CancelPending(o)}) else s
      else if CouponIsSpent(s, o) then t == s.(issued := s.issued + {CancelPending(o)})
      else if !InvoiceFits(s, o, shop) then t == s
      else IsConfirmed(s, t, o, shop, PlacedOrder(s.orders[o], s.now)) && t.money == s.money
  {
    hide AllInv;
    hide ConfirmCore;
    hide StockIsThere;
    hide SoldTo;
    hide WellFormed;
    hide CouponIsSpent;
    hide CouponHasSlot;
    hide Uses;
    if s.orders[o].status == PendingPayment {
      DoorMeans(s, s, o, shop, false);
    }
  }

  // ----- a capture is delivered -----

  /** Paid in full, or in part. */
  function PaidOrder(a: Order, amount: int, now: int): Order {
    a.(status := Confirmed, confirmedAt := Some(now), expiresAt := None, amountPaid := a.amountPaid + amount,
       payStatus := if a.amountPaid + amount >= a.quote.total then Paid else PartiallyPaid)
  }

  function Marked(m: Payments.Money, p: PaymentId, status: Payments.PaymentStatus): seq<Payments.Payment>
    requires p < |m.payments|
  {
    m.payments[p := Payments.Payment(m.payments[p].order, m.payments[p].amount, m.payments[p].gateway, status)]
  }

  /** A delivery for a gateway order that no payment knows changes nothing. */
  lemma UnknownDeliveriesAreIgnored(s: State, g: GatewayRef, amount: int, shop: Shop)
    requires forall p :: 0 <= p < |s.money.payments| ==> s.money.payments[p].gateway != g
    ensures Apply(s, CaptureEvent(g, amount, shop)) == s && Apply(s, FailureEvent(g)) == s
  {
  }

  /**
   * A capture for a known payment. Repeated, it changes nothing; of a wrong amount, it fails the payment; on a closed
   * order, it is recorded and queued for refund in full; on a pending one, it confirms the order if the stock is there
   * and the invoice fits, asks for the oversold cancel if the stock is not, and otherwise changes nothing.
   */
  lemma CaptureMeans(s: State, p: PaymentId, amount: int, shop: Shop)
    requires AllInv(s) && p < |s.money.payments|
    ensures s.money.payments[p].order < |s.orders|
    ensures var payment := s.money.payments[p];
      var o := payment.order;
      var t := Apply(s, CaptureEvent(payment.gateway, amount, shop));
      if payment.status == Payments.Captured then t == s
      else if amount != payment.amount then
        t == s.(money := s.money.(payments := Marked(s.money, p, Payments.PaymentFailed)))
      else if s.orders[o].status != PendingPayment then
        var order := s.orders[o];
        var n := order.(amountPaid := order.amountPaid + amount, payStatus := RefundInitiated);
        var refund := Payments.Refund(o, p, amount, Payments.Pending, Payments.LateCapture, None);
        t == s.(orders := s.orders[o := n],
                money := Payments.Money(Marked(s.money, p, Payments.Captured), s.money.refunds + [refund]))
      else if !StockIsThere(s, o) then
        t == if WellFormed(LinesOf(s.orders[o])) then s.(issued := s.issued + {CancelOversold(payment.gateway, amount)})
             else s
      else if !InvoiceFits(s, o, shop) then t == s
      else
        && IsConfirmed(s, t, o, shop, PaidOrder(s.orders[o], amount, s.now))
        && t.money == s.money.(payments := Marked(s.money, p, Payments.Captured))
  {
    hide AllInv;
    hide CoreInv;
    hide Lookup;
    hide ConfirmCore;
    hide StockIsThere;
    hide StockIsSold;
    hide WellFormed;
    hide CouponIsSpent;
    hide CouponIsRedeemed;
    hide InvoiceIsAdded;
    var payment := s.money.payments[p];
    var o := payment.order;
    AllIsCore(s);
    PaymentFacts(s, p);
    PaymentIsLookedUp(s, p);
    if payment.status != Payments.Captured && amount == payment.amount {
      if s.orders[o].status == PendingPayment {
        var c := Capture(s, o, p, amount);
        DoorMeans(s, SetPayStatus(c, o, PaidStatus(c.orders[o])), o, shop, true);
      } else {
        NoRefundYet(s.money.refunds, p);
      }
    }
  }

  lemma AllIsCore(s: State)
    requires AllInv(s)
    ensures CoreInv(s) && CouponsOK(s.orders, s.coupons) && StockInv(s) && WorkerFacts(s)
  {
    hide CoreInv;
    hide StockInv;
    hide CouponsOK;
  }

  lemma IssuedTasksAreOK(s: State, task: Task)
    requires CoreInv(s) && task in s.issued
    ensures TaskOK(s, task)
  {
  }

  ghost predicate WorkerFacts(s: State) { RefundsOverRuns.WorkerInv(s.money.refunds, s.runs, s.calls) }

  lemma NoRefundYet(refunds: seq<Payments.Refund>, p: PaymentId)
    requires forall r :: 0 <= r < |refunds| ==> refunds[r].payment != p
    ensures Payments.FindRefund(refunds, p).None?
  {
  }

  /**
   * Money that arrives late is recorded and sent back. At every state of every run: the first capture, in its amount,
   * of a payment whose order is no longer pending marks the payment captured and the order paid by it with a refund
   * initiated, leaves exactly one refund row for it, in full, and changes no other order, payment or refund.
   */
  lemma LateMoneyIsReturned(tracked: set<VariantId>, steps: seq<Step>, p: PaymentId, shop: Shop)
    requires var s := Run(Initial(tracked), steps);
      && p < |s.money.payments| && s.money.payments[p].status != Payments.Captured
      && s.money.payments[p].order < |s.orders| && s.orders[s.money.payments[p].order].status != PendingPayment
    ensures var s := Run(Initial(tracked), steps);
      var payment := s.money.payments[p];
      var o, order := payment.order, s.orders[payment.order];
      var t := Apply(s, CaptureEvent(payment.gateway, payment.amount, shop));
      && t.orders == s.orders[o := order.(amountPaid := order.amountPaid + payment.amount,
                                          payStatus := RefundInitiated)]
      && t.money.payments == s.money.payments[p := payment.(status := Payments.Captured)]
      && RefundedInFull(t.money, p) && s.money.refunds <= t.money.refunds
      && |t.money.refunds| == |s.money.refunds| + 1
  {
    hide Run;
    hide AllInv;
    hide CoreInv;
    hide ProcessCaptured;
    var s := Run(Initial(tracked), steps);
    RunsKeepAll(tracked, steps);
    AllIsCore(s);
    CaptureMeans(s, p, s.money.payments[p].amount, shop);
    PaymentFacts(s, p);
    var t := Apply(s, CaptureEvent(s.money.payments[p].gateway, s.money.payments[p].amount, shop));
    hide Apply;
    hide StockIsThere;
    assert t.money.refunds[|s.money.refunds|].payment == p;
  }

  // ----- the oversold cancel -----

  /** The refund row of a payment sent back in full. */
  function FullRow(s: State, p: PaymentId, reason: Payments.RefundReason): Payments.Refund
    requires p < |s.money.payments|
  {
    Payments.Refund(s.money.payments[p].order, p, s.money.payments[p].amount, Payments.Pending, reason, None)
  }

  /** The refund rows with one for p: the row it has, or a new one at the end. */
  ghost predicate WithRefund(s: State, refunds: seq<Payments.Refund>, p: PaymentId, reason: Payments.RefundReason)
    requires p < |s.money.payments|
  {
    refunds == if MoneyInvariant.Refunded(s.money.refunds, p) then s.money.refunds
               else s.money.refunds + [FullRow(s, p, reason)]
  }

  /**
   * The oversold cancel of a payment: the money is recorded unless it was, a pending order is cancelled and its cart
   * given back, and the payment has its refund row, in full.
   */
  lemma OversoldMeans(s: State, p: PaymentId, amount: int, g: GatewayRef, shop: Shop)
    requires AllInv(s) && p < |s.money.payments| && CancelOversold(s.money.payments[p].gateway, amount) in s.issued
    ensures s.money.payments[p].order < |s.orders| && s.money.payments[p].amount == amount
    ensures var payment, o := s.money.payments[p], s.money.payments[p].order;
      var t := Apply(s, Perform(CancelOversold(payment.gateway, amount), g, shop));
      if payment.status == Payments.Captured then
        && t == s.(money := s.money.(refunds := t.money.refunds), issued := s.issued + {ReleaseHold(o)})
        && WithRefund(s, t.money.refunds, p, Payments.StockShortfall)
      else
        var paid := s.orders[o].(amountPaid := s.orders[o].amountPaid + amount);
        var pending := s.orders[o].status == PendingPayment;
        && paid.cart < |s.carts|
        && t == s.(
          orders := s.orders[o := if pending then paid.(status := Cancelled, payStatus := RefundInitiated) else paid],
          carts := if pending then s.carts[paid.cart := ActiveCart] else s.carts,
          money := Payments.Money(Marked(s.money, p, Payments.Captured),
                                  s.money.refunds + [FullRow(s, p, Payments.StockShortfall)]),
          issued := s.issued + {ReleaseHold(o)})
  {
    hide AllInv;
    hide MoneyInv;
    hide CartsOK;
    hide Lookup;
    hide CancelOversoldTx;
    var payment := s.money.payments[p];
    AllIsCore(s);
    assert TaskOK(s, CancelOversold(payment.gateway, amount));
    hide CoreInv;
    OnePaymentPerGateway(s, payment.gateway, amount, p);
    PaymentFacts(s, p);
    PaymentIsLookedUp(s, p);
    if payment.status == Payments.Captured {
      OversoldOfCaptured(s, payment.gateway, amount, payment.order, p);
    } else {
      OversoldFacts(s, payment.gateway, amount, payment.order, p);
      OversoldRecords(s, payment.gateway, amount, payment.order, p);
    }
  }

  lemma OversoldOfCaptured(s: State, g: GatewayRef, amount: int, o: OrderId, p: PaymentId)
    requires Lookup(s, g) == Some((o, p)) && s.money.payments[p].status == Payments.Captured
    requires s.orders[o].status != PendingPayment && Payments.ValidAmount(amount)
    requires s.money.payments[p].amount == amount
    ensures var t := CancelOversoldTx(s, g, amount);
      && t == s.(money := s.money.(refunds := t.money.refunds), issued := s.issued + {ReleaseHold(o)})
      && WithRefund(s, t.money.refunds, p, Payments.StockShortfall)
  {
    hide Lookup;
    FindRefundMeans(s.money.refunds, p);
  }

  lemma FindRefundMeans(refunds: seq<Payments.Refund>, p: PaymentId)
    ensures Payments.FindRefund(refunds, p).Some? <==> MoneyInvariant.Refunded(refunds, p)
  {
    if Payments.FindRefund(refunds, p).Some? {
      assert refunds[Payments.FindRefund(refunds, p).value].payment == p;
    }
  }

  // ----- failure and refund webhooks -----

  /** A failure never touches a captured payment, and marks any other. */
  lemma FailureMeans(s: State, p: PaymentId)
    requires AllInv(s) && p < |s.money.payments|
    ensures var payment := s.money.payments[p];
      Apply(s, FailureEvent(payment.gateway)) ==
        if payment.status == Payments.Captured then s
        else s.(money := s.money.(payments := Marked(s.money, p, Payments.PaymentFailed)))
  {
    hide AllInv;
    hide CoreInv;
    hide Lookup;
    AllIsCore(s);
    PaymentIsLookedUp(s, p);
  }

  /** The refund row waits for this reference. */
  predicate Awaits(r: Payments.Refund, ref: GatewayRef) {
    r.gatewayRefund == Some(ref) && (r.status == Payments.Pending || r.status == Payments.Processing)
  }

  /** The gateway's answer: every row that awaits it is processed, and the order of the first shows it. */
  lemma RefundEventMeans(s: State, ref: GatewayRef)
    requires AllInv(s)
    ensures var t := Apply(s, RefundEvent(ref));
      && t == s.(orders := t.orders, money := s.money.(refunds := t.money.refunds))
      && |t.money.refunds| == |s.money.refunds|
      && (forall r :: 0 <= r < |s.money.refunds| ==>
          t.money.refunds[r] ==
            if Awaits(s.money.refunds[r], ref) then s.money.refunds[r].(status := Payments.Processed)
            else s.money.refunds[r])
      && (if exists r :: 0 <= r < |s.money.refunds| && Awaits(s.money.refunds[r], ref) then
            exists r :: 0 <= r < |s.money.refunds| && IsFirstAwaiting(s.money.refunds, r, ref)
              && s.money.refunds[r].order < |s.orders|
              && t.orders == WithPayStatus(s, s.money.refunds[r].order, RefundDone)
          else t.orders == s.orders)
  {
    hide AllInv;
    hide MoneyInv;
    hide CartsOK;
    hide CoreInv;
    AllIsCore(s);
    var hit := Payments.FindAwaiting(s.money.refunds, ref, 0);
    FirstAwaiting(s.money.refunds, ref, 0);
    if hit.Some? {
      RefundFacts(s, hit.value);
    }
  }

  ghost predicate IsFirstAwaiting(refunds: seq<Payments.Refund>, r: int, ref: GatewayRef) {
    0 <= r < |refunds| && Awaits(refunds[r], ref) && forall i :: 0 <= i < r ==> !Awaits(refunds[i], ref)
  }

  function WithPayStatus(s: State, o: OrderId, status: PayStatus): seq<Order>
    requires o < |s.orders|
  {
    s.orders[o := s.orders[o].(payStatus := status)]
  }

  lemma RefundFacts(s: State, r: RefundId)
    requires CoreInv(s) && r < |s.money.refunds|
    ensures s.money.refunds[r].payment < |s.money.payments| && s.money.refunds[r].order < |s.orders|
  {
    assert RefundOK(s.money.payments, s.money.refunds[r]);
    PaymentFacts(s, s.money.refunds[r].payment);
  }

  lemma {:induction false} FirstAwaiting(refunds: seq<Payments.Refund>, ref: GatewayRef, from: nat)
    requires from <= |refunds| && forall i :: 0 <= i < from ==> !Awaits(refunds[i], ref)
    ensures var hit := Payments.FindAwaiting(refunds, ref, from);
      if hit.Some? then IsFirstAwaiting(refunds, hit.value, ref)
      else forall i :: 0 <= i < |refunds| ==> !Awaits(refunds[i], ref)
    decreases |refunds| - from
  {
    if from < |refunds| && !Awaits(refunds[from], ref) {
      FirstAwaiting(refunds, ref, from + 1);
    }
  }

  // ----- expiry and staff -----

  /** Only a pending order whose time is up is abandoned; its cart is given back and its hold is to be released. */
  lemma ExpiryMeans(s: State, o: OrderId)
    requires AllInv(s) && o < |s.orders|
    ensures var order, t := s.orders[o], Apply(s, Expire(o));
      if order.status == PendingPayment && (order.expiresAt.None? || order.expiresAt.value <= s.now) then
        && order.cart < |s.carts|
        && t == s.(orders := s.orders[o := order.(status := Abandoned)], carts := s.carts[order.cart := ActiveCart],
                   issued := s.issued + {ReleaseHold(o)})
      else t == s
  {
    hide AllInv;
    hide CoreInv;
    hide MoneyInv;
    hide CartsOK;
    AllIsCore(s);
    OrderFacts(s, o);
  }

  /** Staff can cancel an order that is confirmed or being packed, and no other. */
  predicate CanStaffCancel(order: Order) { order.status == Confirmed || order.status == Packing }

  ghost predicate IsRestocked(s: State, t: State, o: OrderId)
    requires o < |s.orders|
  {
    var lines := LinesOf(s.orders[o]);
    if lines == [] then t.stock == s.stock else RestockedFrom(s.stock, t.stock, s.tracked, o, lines)
  }

  /** The payment the order was captured with. */
  ghost predicate IsCaptureOf(s: State, p: PaymentId, o: OrderId) {
    p < |s.money.payments| && s.money.payments[p].order == o && s.money.payments[p].status == Payments.Captured
  }

  /** A staff cancel: the stock comes back, and a captured payment has its refund row, in full, in the same step. */
  lemma StaffCancelMeans(s: State, o: OrderId)
    requires AllInv(s) && o < |s.orders|
    ensures var order, t := s.orders[o], Apply(s, StaffCancel(o));
      if !CanStaffCancel(order) || !(LinesOf(order) == [] || WellFormed(LinesOf(order))) then t == s
      else if !HasCapture(s.money.payments, o) then
        IsRestocked(s, t, o) && t == s.(orders := s.orders[o := order.(status := Cancelled)], stock := t.stock)
      else
        exists p: PaymentId :: IsCaptureOf(s, p, o) && IsCancelledAndRefunded(s, t, o, p)
  {
    hide AllInv;
    hide CoreInv;
    hide MoneyInv;
    hide CartsOK;
    hide Explained;
    hide InventoryProofs.StockInvariant;
    hide Inventory.Restock;
    hide RestockedFrom;
    hide WellFormed;
    hide LinesOf;
    AllIsCore(s);
    OrderFacts(s, o);
    var order := s.orders[o];
    RestockMeans(s.stock, s.now, s.tracked, o, LinesOf(order));
    var paid := Payments.FindCaptured(s.money.payments, o);
    if paid.Some? {
      PaymentFacts(s, paid.value);
      FindRefundMeans(s.money.refunds, paid.value);
      assert IsCaptureOf(s, paid.value, o);
    }
  }

  ghost predicate IsCancelledAndRefunded(s: State, t: State, o: OrderId, p: PaymentId)
    requires o < |s.orders| && p < |s.money.payments|
  {
    && IsRestocked(s, t, o)
    && t == s.(orders := s.orders[o := s.orders[o].(status := Cancelled, payStatus := RefundInitiated)],
               stock := t.stock,
               money := s.money.(refunds := t.money.refunds))
    && WithRefund(s, t.money.refunds, p, Payments.MerchantCancelled)
  }

  /** The rungs of the ladder, from the top; a status off it has none. */
  function Rung(s: Status): nat {
    match s
    case Confirmed => 1
    case Packing => 2
    case ReadyToShip => 3
    case Shipped => 4
    case OutForDelivery => 5
    case Delivered => 6
    case _ => 0
  }

  predicate IsNextOn(a: Status, b: Status) { Rung(a) > 0 && Rung(b) == Rung(a) + 1 }

  /**
   * A staff step goes one rung down the ladder or nowhere; delivering
   * an order that is not prepaid collects what is due.
   */
  lemma StaffMoveMeans(s: State, o: OrderId, to: Status)
    requires o < |s.orders|
    ensures var order, t := s.orders[o], Apply(s, StaffMove(o, to));
      if !IsNextOn(order.status, to) then t == s
      else if to == Delivered && order.request.mode != Quotes.Prepaid && order.payStatus != Paid then
        var n := order.(status := Delivered, payStatus := Paid, amountPaid := order.quote.total, codDue := 0);
        t == s.(orders := s.orders[o := n])
      else t == s.(orders := s.orders[o := order.(status := to)])
  {
    LadderMeans(s.orders[o].status, to);
    hide IsNextOn;
    hide ManualStep;
  }

  lemma LadderMeans(a: Status, b: Status)
    ensures ManualStep(a, b) <==> IsNextOn(a, b)
  {
  }

  /** An adjustment writes the stock as AdjustmentMeans says, and nothing else; refused, it writes nothing. */
  lemma StaffStockMeans(s: State, v: VariantId, delta: int, key: Option<nat>)
    ensures var r := Inventory.RecordMovement(s.stock, s.now, s.tracked, v, delta, key);
      Apply(s, StaffStock(v, delta, key)) == if r.Success? then s.(stock := r.value) else s
  {
  }

  /** Carts, promotions and the clock. */
  lemma SmallStepsMean(s: State, p: PromoId, promotion: Coupons.Promotion, elapsed: nat)
    ensures Apply(s, NewCart) == s.(carts := s.carts + [ActiveCart])
    ensures Apply(s, StaffPromotion(p, promotion)) ==
      s.(coupons := Coupons.Book(s.coupons.promotions[p := promotion], s.coupons.redemptions))
    ensures Apply(s, Tick(elapsed)) == s.(now := s.now + elapsed)
  {
  }

  // ----- the tasks of a request -----

  /** Nothing runs before its turn. */
  lemma NothingRunsEarly(s: State, task: Task, g: GatewayRef, shop: Shop)
    requires task !in s.issued
    ensures Apply(s, Perform(task, g, shop)) == s
  {
  }

  /**
   * Where a held order goes: confirmed at once without the gateway, else to its payment; without an account,
   * nowhere.
   */
  function NextFor(order: Order, o: OrderId, account: bool, otherwise: set<Task>): set<Task> {
    if order.request.mode == Quotes.Cod || order.quote.total == 0 then {ConfirmAtPlacement(o)}
    else if account then {StartPayment(o)} else otherwise
  }

  /** The hold: placed when the lines can be had, and a cancel when they cannot. */
  lemma PlaceHoldMeans(s: State, o: OrderId, replay: bool, g: GatewayRef, shop: Shop)
    requires PlaceHold(o, replay) in s.issued && o < |s.orders|
    ensures var order, t := s.orders[o], Apply(s, Perform(PlaceHold(o, replay), g, shop));
      var lines := LinesOf(order);
      if !WellFormed(lines) then t == s
      else if !AllFit(s.stock, s.now, s.tracked, o, lines) then t == s.(issued := s.issued + {CancelPending(o)})
      else
        var next := if replay then {ExtendExpiry(o)} else NextFor(order, o, shop.account, {CancelPending(o)});
        && t == s.(stock := s.stock.(holds := t.stock.holds), issued := s.issued + next)
        && forall h :: h in t.stock.holds <==>
          (h in s.stock.holds && Stays(h, o, lines, s.tracked, s.now)) || IsNewHold(h, o, lines, s.tracked, s.now)
  {
    HoldMeans(s.stock, s.now, s.tracked, o, LinesOf(s.orders[o]));
    hide WellFormed;
    hide AllFit;
    hide Inventory.HoldStock;
    hide Stays;
    hide IsNewHold;
    hide IsShort;
    hide LinesOf;
  }

  /** A replay gives a pending order twenty-five more minutes and goes on; for a closed one it releases the hold. */
  lemma ExtendExpiryMeans(s: State, o: OrderId, g: GatewayRef, shop: Shop)
    requires ExtendExpiry(o) in s.issued && o < |s.orders|
    ensures var order, t := s.orders[o], Apply(s, Perform(ExtendExpiry(o), g, shop));
      if order.status != PendingPayment then t == s.(issued := s.issued + {ReleaseHold(o)})
      else
        t == s.(orders := s.orders[o := order.(expiresAt := Some(s.now + 25 * 60_000))],
                issued := s.issued + NextFor(order, o, shop.account, {}))
  {
  }

  /** A reference is minted for an order that has none, unless it is another order's. */
  lemma StartPaymentMeans(s: State, o: OrderId, g: GatewayRef, shop: Shop)
    requires StartPayment(o) in s.issued && o < |s.orders|
    ensures Apply(s, Perform(StartPayment(o), g, shop)) ==
      if s.orders[o].gatewayRef.Some? || (g in s.minted && s.minted[g] != o) then s
      else s.(minted := s.minted[g := o], issued := s.issued + {RecordGatewayOrder(o, g)})
  {
  }

  /** The first reference is stored with a payment row for the advance; later ones, and repetitions, change nothing. */
  lemma RecordGatewayMeans(s: State, o: OrderId, ref: GatewayRef, g: GatewayRef, shop: Shop)
    requires AllInv(s) && RecordGatewayOrder(o, ref) in s.issued
    ensures o < |s.orders|
    ensures var order, t := s.orders[o], Apply(s, Perform(RecordGatewayOrder(o, ref), g, shop));
      var known := exists p :: 0 <= p < |s.money.payments| && s.money.payments[p].order == o;
      if order.gatewayRef.Some? && (order.gatewayRef.value != ref || known) then t == s
      else if !Payments.ValidAmount(order.quote.split.advance) then t == s
      else
        && !known
        && t == s.(
          orders := s.orders[o := order.(gatewayRef := Some(ref))],
          money := s.money.(payments := s.money.payments
                                        + [Payments.Payment(o, order.quote.split.advance, ref, Payments.Created)]))
  {
    hide AllInv;
    hide CoreInv;
    AllIsCore(s);
    IssuedTasksAreOK(s, RecordGatewayOrder(o, ref));
    if Payments.FindPayment(s.money.payments, o, ref).None? && s.orders[o].gatewayRef in {None, Some(ref)} {
      NoPaymentYet(s, o, ref);
    }
    if s.orders[o].gatewayRef.None? {
      ReferenceIsFree(s, o, ref);
      NoPaymentWithoutReference(s, o);
    }
  }

  lemma NoPaymentWithoutReference(s: State, o: OrderId)
    requires CoreInv(s) && o < |s.orders| && s.orders[o].gatewayRef.None?
    ensures forall p :: 0 <= p < |s.money.payments| ==> s.money.payments[p].order != o
  {
    forall p | 0 <= p < |s.money.payments| ensures s.money.payments[p].order != o {
      PaymentFacts(s, p);
    }
  }

  /** The cancel of a checkout that cannot go on: a pending order is cancelled and its cart given back. */
  lemma CancelPendingMeans(s: State, o: OrderId, g: GatewayRef, shop: Shop)
    requires AllInv(s) && CancelPending(o) in s.issued && o < |s.orders|
    ensures var order, t := s.orders[o], Apply(s, Perform(CancelPending(o), g, shop));
      if order.status != PendingPayment then t == s.(issued := s.issued + {ReleaseHold(o)})
      else
        && order.cart < |s.carts|
        && t == s.(orders := s.orders[o := order.(status := Cancelled)], carts := s.carts[order.cart := ActiveCart],
                   issued := s.issued + {ReleaseHold(o)})
  {
    AllIsCore(s);
    hide AllInv;
    hide CoreInv;
    hide MoneyInv;
    hide CartsOK;
    OrderFacts(s, o);
  }

  /** The release: the order's holds go, and nothing else. */
  lemma ReleaseHoldMeans(s: State, o: OrderId, g: GatewayRef, shop: Shop)
    requires ReleaseHold(o) in s.issued && o < |s.orders|
    ensures var t := Apply(s, Perform(ReleaseHold(o), g, shop));
      && t == s.(stock := s.stock.(holds := t.stock.holds))
      && forall h :: h in t.stock.holds <==> h in s.stock.holds && h.order != o
  {
    ReleaseMeans(s.stock, o);
  }

  // ----- the refund worker -----

  /** A run starts on a row that is still pending. */
  lemma ReadMeans(s: State, r: RefundId)
    ensures Apply(s, RunReads(r)) ==
      if r < |s.money.refunds| && s.money.refunds[r].status == Payments.Pending then s.(runs := s.runs + [Read(r)])
      else s
  {
  }

  /** It claims the row while it is still pending, and is finished when it no longer is. */
  lemma ClaimMeansRun(s: State, i: nat)
    requires AllInv(s)
    ensures var t := Apply(s, RunClaims(i));
      if i >= |s.runs| || !s.runs[i].Read? then t == s
      else
        var r := s.runs[i].refund;
        && r < |s.money.refunds|
        && var row := s.money.refunds[r];
        if row.status == Payments.Pending then
          t == s.(runs := s.runs[i := Claimed(r)],
                  money := s.money.(refunds := s.money.refunds[r := row.(status := Payments.Processing)]))
        else t == s.(runs := s.runs[i := Finished])
  {
    AllIsCore(s);
    if i < |s.runs| {
      RunFacts(s, i);
    }
    hide AllInv;
  }

  lemma RunFacts(s: State, i: nat)
    requires WorkerFacts(s) && i < |s.runs|
    ensures !s.runs[i].Finished? ==> s.runs[i].refund < |s.money.refunds|
  {
    assert RefundsOverRuns.RunOK(s.money.refunds, s.calls, s.runs[i]);
  }

  /** A claimed run makes one call, for its row's payment and amount. */
  lemma CallMeans(s: State, i: nat, ref: GatewayRef)
    requires AllInv(s)
    ensures var t := Apply(s, RunCalls(i, ref));
      if i >= |s.runs| || !s.runs[i].Claimed? then t == s
      else
        var r := s.runs[i].refund;
        && r < |s.money.refunds|
        && t == s.(runs := s.runs[i := Called(r, ref)],
                   calls := s.calls + [Call(r, s.money.refunds[r].payment, s.money.refunds[r].amount)])
  {
    AllIsCore(s);
    if i < |s.runs| {
      RunFacts(s, i);
    }
    hide AllInv;
  }

  /** The reference of the call is recorded where there is none yet. */
  lemma RecordMeans(s: State, i: nat)
    requires AllInv(s)
    ensures var t := Apply(s, RunRecords(i));
      if i >= |s.runs| || !s.runs[i].Called? then t == s
      else
        var r, ref := s.runs[i].refund, s.runs[i].ref;
        && r < |s.money.refunds|
        && var row := s.money.refunds[r];
        t == s.(runs := s.runs[i := Finished],
                money := if row.gatewayRefund.Some? then s.money
                         else s.money.(refunds := s.money.refunds[r := row.(gatewayRefund := Some(ref))]))
  {
    AllIsCore(s);
    if i < |s.runs| {
      RunFacts(s, i);
    }
    hide AllInv;
  }
}
