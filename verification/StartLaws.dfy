/**
 * What starting a checkout does, said of the tables
 * (packages/core/src/checkout/server.ts:594-1158), and two ways through to the
 * end: an order can be delivered, and a refund can be completed.
 */
module StartLaws {
  import opened Common
  import opened Inventory
  import opened Orders
  import opened Checkout
  import opened MoneyInvariant
  import opened CheckoutInvariant
  import opened CheckoutTheorems
  import opened CouponLaws
  import opened Outcomes
  import opened RefundsOverRuns
  import Payments
  import PriceLaws
  import Quotes
  import Coupons

  // ----- the terms of a price -----

  /** The coupon's rule, a known buyer who may not have ordered before, the clock, and the shop as it stands. */
  ghost predicate AreTheTerms(t: Quotes.Terms, s: State, req: Request, shop: Shop) {
    && t.coupon.Some? == req.coupon.Some?
    && (req.coupon.Some? ==>
        req.coupon.value in s.coupons.promotions && t.coupon.value == s.coupons.promotions[req.coupon.value].rule)
    && t.customer.id == Some(req.phone) && t.customer.isFirstOrder == (req.phone !in s.firstOrdered)
    && t.now == s.now && t.channel == shop.channel && t.shipping == shop.shipping && t.registration == shop.registration
    && t.intraState == shop.intraState && t.policy == shop.policy && t.mode == req.mode
  }

  /** The coupon is live, and with its redemptions and the checkouts under way it is below its limits. */
  ghost predicate CouponIsOpen(s: State, req: Request) {
    req.coupon.Some? ==>
      && req.coupon.value in s.coupons.promotions
      && var p, promotion := req.coupon.value, s.coupons.promotions[req.coupon.value];
      && promotion.active
      && (promotion.limitTotal.Some? ==>
          |Uses(s.coupons.redemptions, p, None)| + |Waiting(s.orders, p, None, s.now)| < promotion.limitTotal.value)
      && (promotion.rule.limitPerCustomer.Some? ==>
          |Uses(s.coupons.redemptions, p, Some(req.phone))| + |Waiting(s.orders, p, Some(req.phone), s.now)|
          < promotion.rule.limitPerCustomer.value)
  }

  /** The order row of a new checkout. */
  function NewOrder(s: State, cart: CartId, key: nat, req: Request, q: Quotes.Quote): Order {
    Order(cart, key, req, PendingPayment, PayPending, q, q.split.codDue, 0, None, Some(s.now + 25 * 60_000), None)
  }

  ghost predicate Starts(s: State, t: State, cart: CartId, key: nat, req: Request, q: Quotes.Quote)
    requires cart < |s.carts|
  {
    t == s.(orders := s.orders + [NewOrder(s, cart, key, req, q)], carts := s.carts[cart := ConvertedCart],
            issued := s.issued + {PlaceHold(|s.orders|, false)})
  }

  lemma TermsMean(s: State, req: Request, shop: Shop, t: Quotes.Terms)
    requires req.coupon.Some? ==> req.coupon.value in s.coupons.promotions
    ensures AreTheTerms(t, s, req, shop) <==> t == TermsOf(s, req, shop)
  {
  }

  lemma CapsMean(s: State, req: Request)
    ensures CouponUsable(s, req.coupon) && !CouponSpent(s, req) <==> CouponIsOpen(s, req)
  {
    if req.coupon.Some? {
      CountIsUses(s.coupons.redemptions, req.coupon.value, None);
      CountIsUses(s.coupons.redemptions, req.coupon.value, Some(req.phone));
      ClaimsAreWaiting(s.orders, req.coupon.value, None, s.now);
      ClaimsAreWaiting(s.orders, req.coupon.value, Some(req.phone), s.now);
    }
    hide Uses;
    hide Waiting;
    hide Coupons.CountRows;
    hide PendingClaims;
  }

  ghost predicate HasKey(s: State, o: int, key: nat) { 0 <= o < |s.orders| && s.orders[o].key == key }

  /**
   * A start. With a key that has its order, it is a replay: a pending order of the same request gets
   * another try at its hold, and anything else changes nothing. With a new key, it makes the one pending
   * order of an active cart, priced on the terms of the moment, when there is a price and the coupon is
   * open; and otherwise changes nothing.
   */
  lemma StartMeans(s: State, cart: CartId, key: nat, req: Request, rows: seq<Quotes.Row>, shop: Shop)
    requires AllInv(s)
    ensures var t := Apply(s, Start(cart, key, req, rows, shop));
      if exists o :: HasKey(s, o, key) then
        exists o :: HasKey(s, o, key) &&
          t == if s.orders[o].request == req && s.orders[o].status == PendingPayment
               then s.(issued := s.issued + {PlaceHold(o, true)}) else s
      else if cart < |s.carts| && s.carts[cart] == ActiveCart && CouponIsOpen(s, req)
        && exists terms :: AreTheTerms(terms, s, req, shop) && Quotes.PriceOrder(rows, terms).Success?
      then
        exists terms :: AreTheTerms(terms, s, req, shop) && Quotes.PriceOrder(rows, terms).Success?
          && Starts(s, t, cart, key, req, Quotes.PriceOrder(rows, terms).value)
      else t == s
  {
    hide AllInv;
    hide MoneyInv;
    hide Quotes.PriceOrder;
    hide CouponSpent;
    hide CouponIsOpen;
    hide TermsOf;
    hide AreTheTerms;
    hide CoreInv;
    AllIsCore(s);
    CapsMean(s, req);
    var existing := FindByKey(s.orders, key, 0);
    if existing.Some? {
      assert HasKey(s, existing.value, key);
    } else if CouponUsable(s, req.coupon) {
      forall terms ensures AreTheTerms(terms, s, req, shop) <==> terms == TermsOf(s, req, shop) {
        TermsMean(s, req, shop, terms);
      }
      if cart < |s.carts| && s.carts[cart] == ActiveCart {
        ActiveCartsAreFree(s, cart);
      }
    }
  }

  lemma ActiveCartsAreFree(s: State, c: CartId)
    requires CoreInv(s) && c < |s.carts| && s.carts[c] == ActiveCart
    ensures !CartClaimed(s.orders, c)
  {
  }

  // ----- the lines an order holds and sells -----

  lemma {:induction false} ItemLinesHold(lines: seq<Quotes.OrderLine>, n: nat)
    requires n <= |lines| <= n + 1
    requires forall i :: 0 <= i < |lines| ==> (lines[i].variant.Some? <==> i < n)
    ensures |HoldLines(lines)| == n
    ensures forall i :: 0 <= i < n ==> HoldLines(lines)[i] == Line(lines[i].variant.value, lines[i].quantity)
    decreases |lines|
  {
    if lines != [] {
      if n == 0 {
        assert lines[1..] == [];
      } else {
        ItemLinesHold(lines[1..], n - 1);
      }
    }
  }

  /** A priced order holds and sells exactly its cart's rows. */
  lemma PricedOrdersHoldTheirRows(rows: seq<Quotes.Row>, t: Quotes.Terms)
    requires Quotes.PriceOrder(rows, t).Success?
    ensures var lines := HoldLines(Quotes.PriceOrder(rows, t).value.lines);
      && |lines| == |rows|
      && forall i :: 0 <= i < |rows| ==> lines[i] == Line(rows[i].variant, rows[i].quantity)
  {
    PriceLaws.PricedOrderMeans(rows, t);
    var q := Quotes.PriceOrder(rows, t).value;
    hide Quotes.PriceOrder;
    hide PriceLaws.IsSpread;
    hide Quotes.IsTaxed;
    hide Quotes.SplitMeans;
    forall i | 0 <= i < |q.lines| ensures q.lines[i].variant.Some? <==> i < |rows| {
      assert i < |rows| ==> q.lines[..|rows|][i] == q.lines[i];
    }
    ItemLinesHold(q.lines, |rows|);
  }

  // ----- to the end -----

  /** From confirmed, five staff steps deliver an order, and then it is paid in full and nothing is due. */
  lemma OrdersCanBeDelivered(s: State, o: OrderId)
    requires AllInv(s) && o < |s.orders| && s.orders[o].status == Confirmed
    ensures var moves := [StaffMove(o, Packing), StaffMove(o, ReadyToShip), StaffMove(o, Shipped),
                          StaffMove(o, OutForDelivery), StaffMove(o, Delivered)];
      var t := Run(s, moves);
      && |t.orders| == |s.orders| && t.orders[o].status == Delivered
      && t.orders[o].amountPaid == t.orders[o].quote.total && t.orders[o].codDue == 0
  {
    hide AllInv;
    hide CoreInv;
    hide Apply;
    hide Run;
    var moves := [StaffMove(o, Packing), StaffMove(o, ReadyToShip), StaffMove(o, Shipped),
                  StaffMove(o, OutForDelivery), StaffMove(o, Delivered)];
    var a := Apply(s, moves[0]);
    MovesDown(s, o, Packing);
    var b := Apply(a, moves[1]);
    MovesDown(a, o, ReadyToShip);
    var c := Apply(b, moves[2]);
    MovesDown(b, o, Shipped);
    MovesDown(c, o, OutForDelivery);
    MovesDown(Apply(c, moves[3]), o, Delivered);
    RunOfFiveSteps(s, moves);
    RunFromKeepsAll(s, moves);
    AllIsCore(Run(s, moves));
    DeliveredIsPaid(Run(s, moves), o);
  }

  lemma MovesDown(s: State, o: OrderId, to: Status)
    requires o < |s.orders| && IsNextOn(s.orders[o].status, to)
    ensures var t := Apply(s, StaffMove(o, to)); |t.orders| == |s.orders| && t.orders[o].status == to
  {
    StaffMoveMeans(s, o, to);
  }

  lemma DeliveredIsPaid(s: State, o: OrderId)
    requires CoreInv(s) && o < |s.orders| && s.orders[o].status == Delivered
    ensures s.orders[o].amountPaid == s.orders[o].quote.total && s.orders[o].codDue == 0
  {
    OrderFacts(s, o);
  }

  lemma RunOfFiveSteps(s: State, steps: seq<Step>)
    requires |steps| == 5
    ensures Run(s, steps) == Apply(Apply(Apply(Apply(Apply(s, steps[0]), steps[1]), steps[2]), steps[3]), steps[4])
  {
    hide Apply;
    assert steps[..4][..3] == steps[..3] && steps[..3][..2] == steps[..2] && steps[..2][..1] == steps[..1];
    assert steps[..1][..0] == [];
    assert Run(s, steps[..1]) == Apply(s, steps[0]);
    assert Run(s, steps[..2]) == Apply(Run(s, steps[..1]), steps[1]);
    assert Run(s, steps[..3]) == Apply(Run(s, steps[..2]), steps[2]);
    assert Run(s, steps[..4]) == Apply(Run(s, steps[..3]), steps[3]);
  }

  /**
   * A pending refund can be completed: a run of the worker and the gateway's answer, under a reference not in use, make
   * one call for the payment's row and amount and leave the row processed under that reference and its order refunded.
   */
  lemma RefundsCanBeCompleted(s: State, r: RefundId, ref: GatewayRef)
    requires AllInv(s) && r < |s.money.refunds| && s.money.refunds[r].status == Payments.Pending
    requires forall q :: 0 <= q < |s.money.refunds| ==> s.money.refunds[q].gatewayRefund != Some(ref)
    ensures s.money.refunds[r].order < |s.orders|
    ensures var row, i := s.money.refunds[r], |s.runs|;
      var t := Run(s, [RunReads(r), RunClaims(i), RunCalls(i, ref), RunRecords(i), RefundEvent(ref)]);
      && t.calls == s.calls + [Call(r, row.payment, row.amount)]
      && t.money.refunds == s.money.refunds[r := row.(status := Payments.Processed, gatewayRefund := Some(ref))]
      && t.orders == s.orders[row.order := s.orders[row.order].(payStatus := RefundDone)]
  {
    hide AllInv;
    hide CoreInv;
    hide Apply;
    var row, i := s.money.refunds[r], |s.runs|;
    AllIsCore(s);
    RefundFacts(s, r);
    NothingRecordedYet(s, r);
    var steps := [RunReads(r), RunClaims(i), RunCalls(i, ref), RunRecords(i), RefundEvent(ref)];
    RunOfFiveSteps(s, steps);
    var a := Apply(s, steps[0]);
    StepKeepsAll(s, steps[0]);
    ReadMeans(s, r);
    var b := Apply(a, steps[1]);
    StepKeepsAll(a, steps[1]);
    ClaimMeansRun(a, i);
    var c := Apply(b, steps[2]);
    StepKeepsAll(b, steps[2]);
    CallMeans(b, i, ref);
    var d := Apply(c, steps[3]);
    StepKeepsAll(c, steps[3]);
    RecordMeans(c, i);
    RefundEventMeans(d, ref);
    OnlyOneAwaits(s.money.refunds, d.money.refunds, r, ref);
    var t := Apply(d, steps[4]);
    assert t.money.refunds == s.money.refunds[r := row.(status := Payments.Processed, gatewayRefund := Some(ref))];
  }

  lemma NothingRecordedYet(s: State, r: RefundId)
    requires WorkerFacts(s) && r < |s.money.refunds| && s.money.refunds[r].status == Payments.Pending
    ensures s.money.refunds[r].gatewayRefund.None?
  {
    forall k | 0 <= k < |s.calls| ensures s.calls[k].refund != r {
      assert CallOK(s.money.refunds, s.calls[k]);
    }
  }

  lemma {:induction false} OnlyOneAwaits(before: seq<Payments.Refund>, after: seq<Payments.Refund>, r: RefundId,
                                         ref: GatewayRef)
    requires r < |before| && (forall q :: 0 <= q < |before| ==> before[q].gatewayRefund != Some(ref))
    requires after == before[r := before[r].(status := Payments.Processing, gatewayRefund := Some(ref))]
    ensures forall q :: 0 <= q < |after| ==> (Awaits(after[q], ref) <==> q == r)
  {
  }
}
