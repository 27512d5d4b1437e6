/**
 * Money safety and settlement: what every transaction keeps about orders,
 * payments and refunds.
 */
module MoneyInvariant {
  import opened Common
  import opened Orders
  import opened Checkout
  import Payments
  import Quotes

  /** What one order row satisfies by itself. */
  ghost predicate OrderOK(o: Order) {
    var q := o.quote;
    && q.split.advance + q.split.codDue == q.total && q.split.advance >= 0 && q.split.codDue >= 0
    && (o.request.mode == Quotes.Cod ==> q.split.advance == 0)
    && (o.request.mode == Quotes.Prepaid ==> q.split.codDue == 0)
    && (OnLadder(o.status) || o.status in {PendingPayment, Abandoned, Cancelled})
    && (o.status in {PendingPayment, Abandoned} ==> o.confirmedAt.None?)
    && (OnLadder(o.status) ==> o.confirmedAt.Some?)
    && (o.status != Delivered ==> o.codDue == q.split.codDue)
    && (o.gatewayRef.Some? ==> !ConfirmsAtPlacement(o))
  }

  ghost predicate OrdersOK(orders: seq<Order>) {
    forall o :: 0 <= o < |orders| ==> OrderOK(orders[o])
  }

  ghost predicate HasCapture(payments: seq<Payments.Payment>, o: OrderId) {
    exists p :: 0 <= p < |payments| && payments[p].order == o && payments[p].status == Payments.Captured
  }

  ghost predicate Refunded(refunds: seq<Payments.Refund>, p: PaymentId) {
    exists r :: 0 <= r < |refunds| && refunds[r].payment == p
  }

  /** A payment is its order's one attempt, for the advance; a captured one belongs to an order that is not pending. */
  ghost predicate PaymentOK(orders: seq<Order>, p: Payments.Payment) {
    && p.order < |orders|
    && orders[p.order].gatewayRef == Some(p.gateway)
    && p.amount == orders[p.order].quote.split.advance && Payments.ValidAmount(p.amount)
    && (p.status == Payments.Captured ==> orders[p.order].status != PendingPayment)
  }

  ghost predicate PaymentsOK(orders: seq<Order>, payments: seq<Payments.Payment>) {
    && (forall p :: 0 <= p < |payments| ==> PaymentOK(orders, payments[p]))
    && (forall p, q :: 0 <= p < q < |payments| ==> payments[p].order != payments[q].order)
  }

  /** A refund returns one captured payment in full, and is processed only after its gateway reference is on record. */
  ghost predicate RefundOK(payments: seq<Payments.Payment>, r: Payments.Refund) {
    && r.payment < |payments|
    && payments[r.payment].status == Payments.Captured
    && r.amount == payments[r.payment].amount
    && r.order == payments[r.payment].order
    && (r.status == Payments.Processed ==> r.gatewayRefund.Some?)
  }

  ghost predicate RefundsOK(payments: seq<Payments.Payment>, refunds: seq<Payments.Refund>) {
    && (forall r :: 0 <= r < |refunds| ==> RefundOK(payments, refunds[r]))
    && (forall r, t :: 0 <= r < t < |refunds| ==> refunds[r].payment != refunds[t].payment)
  }

  /** Captured money is on an order that is being fulfilled, or on its way back. */
  ghost predicate Safe(orders: seq<Order>, m: Payments.Money) {
    forall p :: 0 <= p < |m.payments| && m.payments[p].status == Payments.Captured && m.payments[p].order < |orders| ==>
      OnLadder(orders[m.payments[p].order].status) || Refunded(m.refunds, p)
  }

  /** What an order has received: its captured advance, and once delivered all of it, with nothing left due. */
  ghost predicate Settled(o: Order, captured: bool) {
    && (o.status != Delivered ==> o.amountPaid == if captured then o.quote.split.advance else 0)
    && (o.status == Delivered ==> o.amountPaid == o.quote.total && o.codDue == 0)
    && (o.payStatus == Paid ==> o.amountPaid == o.quote.total)
    && (OnLadder(o.status) && !ConfirmsAtPlacement(o) ==> captured)
  }

  ghost predicate AllSettled(orders: seq<Order>, payments: seq<Payments.Payment>) {
    forall o :: 0 <= o < |orders| ==> Settled(orders[o], HasCapture(payments, o))
  }

  ghost predicate MoneyInv(orders: seq<Order>, m: Payments.Money) {
    && OrdersOK(orders)
    && PaymentsOK(orders, m.payments)
    && RefundsOK(m.payments, m.refunds)
    && Safe(orders, m)
    && AllSettled(orders, m.payments)
  }

  // ----- the ways a transaction touches orders and money -----

  /** The row a refund intent inserts: all of the payment, not sent yet. */
  function FullRefund(m: Payments.Money, p: PaymentId, reason: Payments.RefundReason): Payments.Refund
    requires p < |m.payments|
  {
    Payments.Refund(m.payments[p].order, p, m.payments[p].amount, Payments.Pending, reason, None)
  }

  predicate SameSale(a: Order, b: Order) {
    a.request == b.request && a.quote == b.quote
  }

  /** An order row changes; the money tables do not. */
  lemma OrderChanges(orders: seq<Order>, m: Payments.Money, o: OrderId, n: Order)
    requires MoneyInv(orders, m) && o < |orders| && SameSale(orders[o], n) && n.gatewayRef == orders[o].gatewayRef
    requires OrderOK(n) && Settled(n, HasCapture(m.payments, o))
    requires n.status == PendingPayment ==> orders[o].status == PendingPayment
    requires OnLadder(orders[o].status) ==> OnLadder(n.status)
    ensures MoneyInv(orders[o := n], m)
  {
  }

  /** A staff cancel: the order leaves the ladder, and its captured payment, if any, has a refund row. */
  lemma OrderLeavesLadder(orders: seq<Order>, m: Payments.Money, o: OrderId, n: Order)
    requires MoneyInv(orders, m) && o < |orders| && SameSale(orders[o], n) && n.gatewayRef == orders[o].gatewayRef
    requires OrderOK(n) && Settled(n, HasCapture(m.payments, o)) && n.status != PendingPayment
    requires forall p ::
      0 <= p < |m.payments| && m.payments[p].order == o && m.payments[p].status == Payments.Captured ==>
      Refunded(m.refunds, p)
    ensures MoneyInv(orders[o := n], m)
  {
  }

  lemma OrderAppears(orders: seq<Order>, m: Payments.Money, n: Order)
    requires MoneyInv(orders, m) && OrderOK(n) && n.status == PendingPayment && n.amountPaid == 0
    requires n.payStatus == PayPending
    ensures MoneyInv(orders + [n], m)
  {
  }

  /** The refund intent of a captured payment: inserted once, for its full amount. */
  lemma RefundAppears(orders: seq<Order>, m: Payments.Money, p: PaymentId, reason: Payments.RefundReason)
    requires MoneyInv(orders, m) && p < |m.payments| && m.payments[p].status == Payments.Captured
    ensures var r := Payments.RefundIntent(m, m.payments[p].order, p, m.payments[p].amount, reason);
      r.Some? && MoneyInv(orders, r.value) && r.value.payments == m.payments && Refunded(r.value.refunds, p)
  {
    assert PaymentOK(orders, m.payments[p]);
    hide OrderOK;
    hide Settled;
    var t := Payments.RefundIntent(m, m.payments[p].order, p, m.payments[p].amount, reason).value;
    var found := Payments.FindRefund(m.refunds, p);
    if found.None? {
      assert t.refunds[|m.refunds|].payment == p;
      forall q | 0 <= q < |m.payments| && Refunded(m.refunds, q) ensures Refunded(t.refunds, q) {
        var r :| 0 <= r < |m.refunds| && m.refunds[r].payment == q;
        assert t.refunds[r].payment == q;
      }
    }
  }

  /**
   * A payment is captured together with a change of its order and, unless the order is being fulfilled, a refund
   * row.
   */
  lemma PaymentIsCaptured(orders: seq<Order>, m: Payments.Money, p: PaymentId, n: Order, refunds: seq<Payments.Refund>)
    requires MoneyInv(orders, m) && p < |m.payments| && m.payments[p].status != Payments.Captured
    requires var o := m.payments[p].order;
      o < |orders| && SameSale(orders[o], n) && n.gatewayRef == orders[o].gatewayRef
    requires OrderOK(n) && Settled(n, true) && n.status != PendingPayment
    requires refunds == m.refunds
      || refunds == m.refunds + [FullRefund(m, p, Payments.LateCapture)]
      || refunds == m.refunds + [FullRefund(m, p, Payments.StockShortfall)]
    requires OnLadder(n.status) || |refunds| > |m.refunds|
    requires OnLadder(orders[m.payments[p].order].status) ==> OnLadder(n.status)
    ensures MoneyInv(orders[m.payments[p].order := n],
                     Payments.Money(Payments.MarkPayment(m, p, Payments.Captured).payments, refunds))
  {
    var o := m.payments[p].order;
    var payments := Payments.MarkPayment(m, p, Payments.Captured).payments;
    var t := Payments.Money(payments, refunds);
    forall q | 0 <= q < |payments| ensures PaymentOK(orders[o := n], payments[q]) {
      assert PaymentOK(orders, m.payments[q]);
    }
    forall r | 0 <= r < |refunds| ensures RefundOK(payments, refunds[r]) {
      if r < |m.refunds| {
        assert RefundOK(m.payments, m.refunds[r]);
      }
    }
    forall r | 0 <= r < |m.refunds| ensures m.refunds[r].payment != p {
      assert RefundOK(m.payments, m.refunds[r]);
    }
    CaptureOfOne(m, p);
    forall q | 0 <= q < |payments| && Refunded(m.refunds, q) ensures Refunded(refunds, q) {
      var r :| 0 <= r < |m.refunds| && m.refunds[r].payment == q;
      assert refunds[r].payment == q;
    }
    if |refunds| > |m.refunds| {
      assert refunds[|m.refunds|].payment == p;
    }
  }

  lemma CaptureOfOne(m: Payments.Money, p: PaymentId)
    requires p < |m.payments|
    ensures var payments := Payments.MarkPayment(m, p, Payments.Captured).payments;
      forall o: OrderId :: HasCapture(payments, o) <==> HasCapture(m.payments, o) || o == m.payments[p].order
  {
    var payments := Payments.MarkPayment(m, p, Payments.Captured).payments;
    forall o: OrderId ensures HasCapture(payments, o) <==> HasCapture(m.payments, o) || o == m.payments[p].order {
      if HasCapture(m.payments, o) {
        var q :| 0 <= q < |m.payments| && m.payments[q].order == o && m.payments[q].status == Payments.Captured;
        assert payments[q].order == o && payments[q].status == Payments.Captured;
      }
      if o == m.payments[p].order {
        assert payments[p].order == o && payments[p].status == Payments.Captured;
      }
      if HasCapture(payments, o) && o != m.payments[p].order {
        var q :| 0 <= q < |payments| && payments[q].order == o && payments[q].status == Payments.Captured;
        assert m.payments[q].order == o && m.payments[q].status == Payments.Captured;
      }
    }
  }

  /** A failed attempt: the row is marked, nothing else moves. */
  lemma PaymentFails(orders: seq<Order>, m: Payments.Money, p: PaymentId)
    requires MoneyInv(orders, m) && p < |m.payments| && m.payments[p].status != Payments.Captured
    ensures MoneyInv(orders, Payments.MarkPayment(m, p, Payments.PaymentFailed))
  {
    var t := Payments.MarkPayment(m, p, Payments.PaymentFailed);
    forall q | 0 <= q < |t.payments| ensures PaymentOK(orders, t.payments[q]) {
      assert PaymentOK(orders, m.payments[q]);
    }
    forall r | 0 <= r < |m.refunds| ensures RefundOK(t.payments, m.refunds[r]) {
      assert RefundOK(m.payments, m.refunds[r]);
    }
    forall o | 0 <= o < |orders| ensures HasCapture(t.payments, o) <==> HasCapture(m.payments, o) {
      SameCaptures(m.payments, t.payments, o);
    }
    hide HasCapture;
    hide Settled;
    hide RefundOK;
  }

  /** Captures are read off the captured rows, which both lists share. */
  lemma SameCaptures(a: seq<Payments.Payment>, b: seq<Payments.Payment>, o: OrderId)
    requires |a| == |b|
    requires forall q :: 0 <= q < |a| && (a[q].status == Payments.Captured || b[q].status == Payments.Captured) ==>
      a[q] == b[q]
    ensures HasCapture(a, o) <==> HasCapture(b, o)
  {
  }

  /** The first payment attempt of an order, with its gateway reference. */
  lemma PaymentAppears(orders: seq<Order>, m: Payments.Money, o: OrderId, g: GatewayRef)
    requires MoneyInv(orders, m) && o < |orders| && !ConfirmsAtPlacement(orders[o])
    requires orders[o].gatewayRef == None || orders[o].gatewayRef == Some(g)
    requires Payments.ValidAmount(orders[o].quote.split.advance)
    requires forall q :: 0 <= q < |m.payments| ==> m.payments[q].order != o
    ensures MoneyInv(orders[o := orders[o].(gatewayRef := Some(g))],
                     m.(payments := m.payments
                       + [Payments.Payment(o, orders[o].quote.split.advance, g, Payments.Created)]))
  {
    var payments := m.payments + [Payments.Payment(o, orders[o].quote.split.advance, g, Payments.Created)];
    forall q | 0 <= q < |m.payments| ensures PaymentOK(orders[o := orders[o].(gatewayRef := Some(g))], payments[q]) {
      assert PaymentOK(orders, m.payments[q]);
    }
    forall r | 0 <= r < |m.refunds| ensures RefundOK(payments, m.refunds[r]) {
      assert RefundOK(m.payments, m.refunds[r]);
    }
    forall x | 0 <= x < |orders| ensures HasCapture(payments, x) <==> HasCapture(m.payments, x) {
      if HasCapture(m.payments, x) {
        var q :| 0 <= q < |m.payments| && m.payments[q].order == x && m.payments[q].status == Payments.Captured;
        assert payments[q] == m.payments[q];
      }
    }
  }

  /** A refund row moves along without losing its payment, order or amount. */
  lemma RefundMoves(orders: seq<Order>, m: Payments.Money, refunds: seq<Payments.Refund>)
    requires MoneyInv(orders, m) && |refunds| == |m.refunds|
    requires forall r :: 0 <= r < |refunds| ==>
      && refunds[r].payment == m.refunds[r].payment && refunds[r].order == m.refunds[r].order
      && refunds[r].amount == m.refunds[r].amount
      && (refunds[r].status == Payments.Processed ==> refunds[r].gatewayRefund.Some?)
    ensures MoneyInv(orders, m.(refunds := refunds))
  {
  }
}
