/** Payment and refund rows (packages/core/src/payments/server.ts:403-659). */
module Payments {
  import opened Common
  import Tax

  datatype PaymentStatus = Created | PaymentFailed | Captured

  datatype Payment = Payment(order: OrderId, amount: int, gateway: GatewayRef, status: PaymentStatus)

  datatype RefundStatus = Pending | Processing | Processed

  datatype RefundReason = MerchantCancelled | StockShortfall | LateCapture

  datatype Refund = Refund(order: OrderId, payment: PaymentId, amount: int, status: RefundStatus,
                           reason: RefundReason, gatewayRefund: Option<GatewayRef>)

  datatype Money = Money(payments: seq<Payment>, refunds: seq<Refund>)

  /** The latest payment attempt of an order at a gateway order. */
  function FindPayment(payments: seq<Payment>, o: OrderId, g: GatewayRef): (r: Option<PaymentId>)
    ensures r.Some? ==> r.value < |payments| && payments[r.value].order == o && payments[r.value].gateway == g
    ensures r.Some? ==> forall p :: r.value < p < |payments| ==> payments[p].order != o || payments[p].gateway != g
    ensures r.None? ==> forall p :: 0 <= p < |payments| ==> payments[p].order != o || payments[p].gateway != g
  {
    if payments == [] then None
    else
      var last := |payments| - 1;
      if payments[last].order == o && payments[last].gateway == g then Some(last)
      else FindPayment(payments[..last], o, g)
  }

  /** The latest captured payment of an order. */
  function FindCaptured(payments: seq<Payment>, o: OrderId): (r: Option<PaymentId>)
    ensures r.Some? ==> r.value < |payments| && payments[r.value].order == o && payments[r.value].status == Captured
    ensures r.Some? ==> forall p :: r.value < p < |payments| ==>
      payments[p].order != o || payments[p].status != Captured
    ensures r.None? ==> forall p :: 0 <= p < |payments| ==> payments[p].order != o || payments[p].status != Captured
  {
    if payments == [] then None
    else
      var last := |payments| - 1;
      if payments[last].order == o && payments[last].status == Captured then Some(last)
      else FindCaptured(payments[..last], o)
  }

  function FindRefund(refunds: seq<Refund>, p: PaymentId): (r: Option<RefundId>)
    ensures r.Some? ==> r.value < |refunds| && refunds[r.value].payment == p
    ensures r.None? ==> forall i :: 0 <= i < |refunds| ==> refunds[i].payment != p
  {
    if refunds == [] then None
    else
      var last := |refunds| - 1;
      if refunds[last].payment == p then Some(last) else FindRefund(refunds[..last], p)
  }

  /** A positive integer in paise, within the safe integers. */
  predicate ValidAmount(amount: int) { 0 < amount <= Tax.MAX_SAFE }

  /** A 'created' row. */
  function InsertPayment(m: Money, o: OrderId, amount: int, g: GatewayRef): Option<Money> {
    if !ValidAmount(amount) then None else Some(m.(payments := m.payments + [Payment(o, amount, g, Created)]))
  }

  function MarkPayment(m: Money, p: PaymentId, status: PaymentStatus): Money
    requires p < |m.payments|
  {
    m.(payments := m.payments[p := m.payments[p].(status := status)])
  }

  /** Insert-once on the payment: an existing row for it wins. */
  function RefundIntent(m: Money, o: OrderId, p: PaymentId, amount: int, reason: RefundReason): Option<Money> {
    if !ValidAmount(amount) then None
    else if FindRefund(m.refunds, p).Some? then Some(m)
    else Some(m.(refunds := m.refunds + [Refund(o, p, amount, Pending, reason, None)]))
  }

  predicate AwaitsGateway(r: Refund, ref: GatewayRef) { r.gatewayRefund == Some(ref) && r.status != Processed }

  /** UPDATE .. WHERE gateway_refund_id = ref AND status IN (pending, processing). */
  function MarkProcessed(refunds: seq<Refund>, ref: GatewayRef): (r: seq<Refund>)
    ensures |r| == |refunds|
  {
    seq(|refunds|, i requires 0 <= i < |refunds| =>
      if AwaitsGateway(refunds[i], ref) then refunds[i].(status := Processed) else refunds[i])
  }

  function FindAwaiting(refunds: seq<Refund>, ref: GatewayRef, from: nat): (r: Option<RefundId>)
    requires from <= |refunds|
    ensures r.Some? ==> r.value < |refunds| && AwaitsGateway(refunds[r.value], ref)
    ensures r.None? ==> forall i :: from <= i < |refunds| ==> !AwaitsGateway(refunds[i], ref)
    decreases |refunds| - from
  {
    if from == |refunds| then None
    else if AwaitsGateway(refunds[from], ref) then Some(from) else FindAwaiting(refunds, ref, from + 1)
  }

  class PaymentDesk {
    var payments: seq<Payment>
    var refunds: seq<Refund>

    constructor ()
      ensures Contents() == Money([], [])
    {
      payments, refunds := [], [];
    }

    function Contents(): Money
      reads this
    {
      Money(payments, refunds)
    }

    method Rollback(saved: Money)
      modifies this
      ensures Contents() == saved
    {
      payments, refunds := saved.payments, saved.refunds;
    }

    method FindPaymentByGatewayOrder(o: OrderId, g: GatewayRef) returns (r: Option<PaymentId>)
      ensures r == FindPayment(payments, o, g)
    {
      var i := |payments|;
      assert payments[..i] == payments;
      while i > 0
        invariant 0 <= i <= |payments|
        invariant FindPayment(payments[..i], o, g) == FindPayment(payments, o, g)
      {
        i := i - 1;
        assert payments[..i + 1][..i] == payments[..i];
        if payments[i].order == o && payments[i].gateway == g {
          return Some(i);
        }
      }
      r := None;
    }

    method InsertPayment(o: OrderId, amount: int, g: GatewayRef) returns (ok: bool)
      modifies this`payments
      ensures ok == ValidAmount(amount)
      ensures payments == old(payments) + if ok then [Payment(o, amount, g, Created)] else []
    {
      ok := ValidAmount(amount);
      if ok {
        payments := payments + [Payment(o, amount, g, Created)];
      }
    }

    method Mark(p: PaymentId, status: PaymentStatus)
      requires p < |payments|
      modifies this`payments
      ensures Contents() == MarkPayment(old(Contents()), p, status)
    {
      payments := payments[p := payments[p].(status := status)];
    }

    method CreateRefundIntent(o: OrderId, p: PaymentId, amount: int, reason: RefundReason) returns (ok: bool)
      modifies this`refunds
      ensures match RefundIntent(old(Contents()), o, p, amount, reason)
        case None => !ok && Contents() == old(Contents())
        case Some(m) => ok && Contents() == m
    {
      if !ValidAmount(amount) {
        return false;
      }
      if FindRefund(refunds, p).None? {
        refunds := refunds + [Refund(o, p, amount, Pending, reason, None)];
      }
      ok := true;
    }

    method MarkRefundProcessed(ref: GatewayRef) returns (hit: Option<OrderId>)
      modifies this`refunds
      ensures refunds == MarkProcessed(old(refunds), ref)
      ensures var row := FindAwaiting(old(refunds), ref, 0);
        hit == if row.Some? then Some(old(refunds)[row.value].order) else None
    {
      var row := FindAwaiting(refunds, ref, 0);
      hit := if row.Some? then Some(refunds[row.value].order) else None;
      var before := refunds;
      for i := 0 to |refunds|
        invariant |refunds| == |before|
        invariant forall j :: 0 <= j < |before| ==>
          refunds[j] == if j < i then MarkProcessed(before, ref)[j] else before[j]
      {
        if AwaitsGateway(refunds[i], ref) {
          refunds := refunds[i := refunds[i].(status := Processed)];
        }
      }
    }
  }
}
