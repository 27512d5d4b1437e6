/**
 * Invoices, coupons and first orders over whole runs: what the confirmation
 * door writes beside the stock, exactly once per confirmed order.
 */
module BooksOverRuns {
  import opened Common
  import opened Orders
  import opened Checkout
  import opened MoneyInvariant
  import opened CheckoutInvariant
  import opened StockOverRuns
  import opened Inventory
  import Payments
  import Invoices
  import Coupons

  // ----- one invoice per confirmed order -----

  /** The invoice is of an order that was confirmed, for its amounts. */
  ghost predicate InvoiceMatches(orders: seq<Order>, i: Invoices.Invoice) {
    && i.order < |orders| && orders[i.order].confirmedAt.Some?
    && i.lines == orders[i.order].quote.lines && i.amounts == Invoices.AmountsOf(orders[i.order].quote)
  }

  ghost predicate Invoiced(invoices: seq<Invoices.Invoice>, o: OrderId) {
    exists i :: 0 <= i < |invoices| && invoices[i].order == o
  }

  ghost predicate InvoicesOK(orders: seq<Order>, r: Invoices.Register) {
    Invoices.Gapless(r) && MatchedOnce(orders, r.invoices)
  }

  ghost predicate MatchedOnce(orders: seq<Order>, invoices: seq<Invoices.Invoice>) {
    && (forall i :: 0 <= i < |invoices| ==> InvoiceMatches(orders, invoices[i]))
    && (forall i, j :: 0 <= i < j < |invoices| ==> invoices[i].order != invoices[j].order)
    && (forall o :: 0 <= o < |orders| && orders[o].confirmedAt.Some? ==> Invoiced(invoices, o))
  }

  // ----- redemptions and first orders -----

  /** The redemption is of a confirmed order that asked for this coupon, by its customer, for its discount. */
  ghost predicate RedemptionMatches(orders: seq<Order>, r: Coupons.Redemption) {
    && r.order < |orders| && orders[r.order].confirmedAt.Some?
    && orders[r.order].request.coupon == Some(r.promo) && r.customer == Some(orders[r.order].request.phone)
    && r.discount == orders[r.order].quote.discount
  }

  ghost predicate CouponsOK(orders: seq<Order>, b: Coupons.Book) {
    && Coupons.CouponInvariant(b)
    && (forall i :: 0 <= i < |b.redemptions| ==> RedemptionMatches(orders, b.redemptions[i]))
  }

  ghost predicate HasConfirmed(orders: seq<Order>, c: CustomerId) {
    exists o :: 0 <= o < |orders| && orders[o].request.phone == c && orders[o].confirmedAt.Some?
  }

  /** A customer's first-order offer is spent exactly when an order of theirs was confirmed. */
  ghost predicate FirstOrdersOK(orders: seq<Order>, firstOrdered: set<CustomerId>) {
    forall c: CustomerId :: c in firstOrdered <==> HasConfirmed(orders, c)
  }

  ghost predicate BooksInv(s: State) {
    InvoicesOK(s.orders, s.register) && CouponsOK(s.orders, s.coupons) && FirstOrdersOK(s.orders, s.firstOrdered)
  }

  // ----- steps that confirm nothing -----

  ghost predicate SameConfirmations(a: seq<Order>, b: seq<Order>) {
    && |a| <= |b|
    && (forall o :: 0 <= o < |a| ==> SameSale(a[o], b[o]) && a[o].confirmedAt == b[o].confirmedAt)
    && (forall o :: |a| <= o < |b| ==> b[o].confirmedAt.None?)
  }

  lemma BooksStay(s: State, t: State)
    requires BooksInv(s) && SameConfirmations(s.orders, t.orders)
    requires t.register == s.register && t.coupons.redemptions == s.coupons.redemptions
    requires t.firstOrdered == s.firstOrdered
    ensures BooksInv(t)
  {
  }


  // ----- the confirmation door -----

  lemma InvoiceIsIssued(orders: seq<Order>, r: Invoices.Register, o: OrderId, n: Order, series: Invoices.Series)
    requires InvoicesOK(orders, r) && o < |orders| && SameSale(orders[o], n) && orders[o].confirmedAt.None?
    requires n.confirmedAt.Some?
    requires Invoices.Issue(r, o, series, n.quote.lines, Invoices.AmountsOf(n.quote)).Success?
    ensures InvoicesOK(orders[o := n], Invoices.Issue(r, o, series, n.quote.lines, Invoices.AmountsOf(n.quote)).value)
  {
    var t := Invoices.Issue(r, o, series, n.quote.lines, Invoices.AmountsOf(n.quote)).value;
    Invoices.IssueKeeps(r, o, series, n.quote.lines, Invoices.AmountsOf(n.quote));
    var i := t.invoices[|r.invoices|];
    assert t.invoices == r.invoices + [i] && i.order == o && i.lines == n.quote.lines
      && i.amounts == Invoices.AmountsOf(n.quote);
    hide Invoices.Gapless;
    hide Invoices.Issue;
    InvoiceIsAdded(orders, r.invoices, o, n, i);
  }

  lemma InvoiceIsAdded(orders: seq<Order>, invoices: seq<Invoices.Invoice>, o: OrderId, n: Order, i: Invoices.Invoice)
    requires MatchedOnce(orders, invoices) && o < |orders| && SameSale(orders[o], n)
    requires orders[o].confirmedAt.None? && n.confirmedAt.Some?
    requires i.order == o && i.lines == n.quote.lines && i.amounts == Invoices.AmountsOf(n.quote)
    ensures MatchedOnce(orders[o := n], invoices + [i])
  {
    var after := invoices + [i];
    forall k | 0 <= k < |invoices| ensures invoices[k].order != o && InvoiceMatches(orders[o := n], invoices[k]) {
      assert InvoiceMatches(orders, invoices[k]);
    }
    forall x | 0 <= x < |orders| && orders[o := n][x].confirmedAt.Some? ensures Invoiced(after, x) {
      if x == o {
        assert after[|invoices|].order == o;
      } else {
        assert Invoiced(invoices, x);
        var k :| 0 <= k < |invoices| && invoices[k].order == x;
        assert after[k].order == x;
      }
    }
  }

  lemma CouponIsClaimed(s: State, o: OrderId, n: Order)
    requires CouponsOK(s.orders, s.coupons) && o < |s.orders| && SameSale(s.orders[o], n)
    requires s.orders[o].confirmedAt.None? && n.confirmedAt.Some?
    ensures var claim := ClaimCoupon(s, o, s.orders[o]);
      CouponsOK(s.orders[o := n], if claim.Some? then claim.value else s.coupons)
  {
    var order := s.orders[o];
    forall i | 0 <= i < |s.coupons.redemptions| ensures RedemptionMatches(s.orders[o := n], s.coupons.redemptions[i]) {
      assert RedemptionMatches(s.orders, s.coupons.redemptions[i]);
    }
    var coupon := order.request.coupon;
    if ClaimCoupon(s, o, order).Some? && coupon.Some? && coupon.value in s.coupons.promotions {
      Coupons.ClaimKeeps(s.coupons, coupon.value, o, Some(order.request.phone), order.quote.discount);
      hide Coupons.CouponInvariant;
    }
  }

  /** The coupon of the order, if it has a live one, still has a slot for the customer. */
  predicate CouponLeft(b: Coupons.Book, order: Order) {
    var p := order.request.coupon;
    p.Some? && p.value in b.promotions ==> Coupons.SlotLeft(b, p.value, Some(order.request.phone))
  }

  /** The first claim of an order is refused exactly when its coupon has no slot left, and otherwise adds its row. */
  lemma ClaimNeedsASlot(s: State, o: OrderId)
    requires CouponsOK(s.orders, s.coupons) && o < |s.orders| && s.orders[o].confirmedAt.None?
    ensures var order := s.orders[o];
      var claim, p := ClaimCoupon(s, o, order), order.request.coupon;
      && (claim.Some? <==> CouponLeft(s.coupons, order))
      && (claim.Some? && p.Some? && p.value in s.coupons.promotions ==>
          && |claim.value.redemptions| == |s.coupons.redemptions| + 1
          && s.coupons.redemptions <= claim.value.redemptions
          && var row := claim.value.redemptions[|s.coupons.redemptions|];
          row.promo == p.value && row.order == o)
      && forall i :: 0 <= i < |s.coupons.redemptions| ==> s.coupons.redemptions[i].order != o
  {
    forall i | 0 <= i < |s.coupons.redemptions| ensures s.coupons.redemptions[i].order != o {
      assert RedemptionMatches(s.orders, s.coupons.redemptions[i]);
    }
  }

  lemma FirstOrderIsMarked(orders: seq<Order>, firstOrdered: set<CustomerId>, o: OrderId, n: Order)
    requires FirstOrdersOK(orders, firstOrdered) && o < |orders| && SameSale(orders[o], n)
    requires orders[o].confirmedAt.None? && n.confirmedAt.Some?
    ensures FirstOrdersOK(orders[o := n], firstOrdered + {n.request.phone})
  {
    var after := orders[o := n];
    forall c: CustomerId ensures HasConfirmed(after, c) <==> HasConfirmed(orders, c) || c == n.request.phone {
      if HasConfirmed(orders, c) {
        var x :| 0 <= x < |orders| && orders[x].request.phone == c && orders[x].confirmedAt.Some?;
        assert after[x].request.phone == c && after[x].confirmedAt.Some?;
      }
      if HasConfirmed(after, c) && c != n.request.phone {
        var x :| 0 <= x < |after| && after[x].request.phone == c && after[x].confirmedAt.Some?;
        assert orders[x].request.phone == c && orders[x].confirmedAt.Some?;
      }
      if c == n.request.phone {
        assert after[o].request.phone == c && after[o].confirmedAt.Some?;
      }
    }
  }

  /** What the confirmation door writes in the three books. */
  lemma ConfirmWrites(s: State, o: OrderId, shop: Shop, overredeem: bool)
    requires o < |s.orders| && ConfirmCore(s, o, shop, overredeem).Success?
    ensures
      var t, order := ConfirmCore(s, o, shop, overredeem).value, s.orders[o];
      var claim := ClaimCoupon(s, o, order);
      var series := Invoices.Series(Invoices.DocTypeFor(shop.registration), shop.year);
      var issued := Invoices.Issue(s.register, o, series, order.quote.lines, Invoices.AmountsOf(order.quote));
      && issued == Success(t.register)
      && t.coupons == (if claim.Some? then claim.value else s.coupons)
      && t.firstOrdered == s.firstOrdered + {order.request.phone}
  {
  }

  /** A confirmation after harmless writes to the order's row: `before` is what the door sees, t what is committed. */
  lemma ConfirmKeepsBooks(s: State, before: State, o: OrderId, shop: Shop, overredeem: bool, t: State)
    requires BooksInv(s) && o < |s.orders| && OrderOK(s.orders[o]) && s.orders[o].status == PendingPayment
    requires before.register == s.register && before.coupons == s.coupons && before.firstOrdered == s.firstOrdered
    requires |before.orders| == |s.orders| && SameSale(s.orders[o], before.orders[o])
    requires ConfirmCore(before, o, shop, overredeem).Success?
    requires var c := ConfirmCore(before, o, shop, overredeem).value;
      && t.register == c.register && t.coupons == c.coupons && t.firstOrdered == c.firstOrdered
      && |t.orders| == |s.orders| && t.orders == s.orders[o := t.orders[o]]
      && SameSale(t.orders[o], s.orders[o]) && t.orders[o].confirmedAt.Some?
    ensures BooksInv(t)
  {
    var order, n := s.orders[o], t.orders[o];
    ConfirmWrites(before, o, shop, overredeem);
    hide ConfirmCore;
    hide OrderOK;
    InvoiceIsIssued(s.orders, s.register, o, n, Invoices.Series(Invoices.DocTypeFor(shop.registration), shop.year));
    CouponIsClaimed(s, o, n);
    assert ClaimCoupon(before, o, before.orders[o]) == ClaimCoupon(s, o, order);
    FirstOrderIsMarked(s.orders, s.firstOrdered, o, n);
    hide InvoicesOK;
    hide CouponsOK;
    hide FirstOrdersOK;
  }

  lemma PlacementKeepsBooks(s: State, o: OrderId, shop: Shop)
    requires CoreInv(s) && BooksInv(s) && o < |s.orders|
    ensures BooksInv(ConfirmAtPlacementTx(s, o, shop))
  {
    var t := ConfirmAtPlacementTx(s, o, shop);
    OrderFacts(s, o);
    hide BooksInv;
    hide CoreInv;
    if s.orders[o].status == PendingPayment && ConfirmCore(s, o, shop, false).Success? {
      ConfirmCoreMoves(s, o, shop, false);
      ConfirmKeepsBooks(s, s, o, shop, false, t);
    } else {
      BooksStay(s, t);
    }
  }

  lemma CaptureKeepsBooks(s: State, g: GatewayRef, amount: int, shop: Shop)
    requires CoreInv(s) && BooksInv(s)
    ensures BooksInv(ProcessCaptured(s, g, amount, shop))
  {
    match Lookup(s, g)
    case None =>
    case Some((o, p)) =>
      OrderFacts(s, o);
      hide BooksInv;
      hide CoreInv;
      hide MoneyInv;
      hide CartsOK;
      if CapturesWithoutConfirming(s, g, amount, shop) {
        CaptureWritesNoBooks(s, g, amount, shop);
        hide *;
        BooksStay(s, ProcessCaptured(s, g, amount, shop));
      } else {
        CaptureWritesBooks(s, g, amount, shop, o, p);
      }
  }

  lemma CaptureWritesBooks(s: State, g: GatewayRef, amount: int, shop: Shop, o: OrderId, p: PaymentId)
    requires BooksInv(s) && Lookup(s, g) == Some((o, p)) && OrderOK(s.orders[o])
    requires !CapturesWithoutConfirming(s, g, amount, shop)
    ensures BooksInv(ProcessCaptured(s, g, amount, shop))
  {
    var c := Capture(s, o, p, amount);
    var u := SetPayStatus(c, o, PaidStatus(c.orders[o]));
    assert ProcessCaptured(s, g, amount, shop) == ConfirmCore(u, o, shop, true).value;
    ConfirmCoreMoves(u, o, shop, true);
    hide BooksInv;
    hide ConfirmCore;
    hide ProcessCaptured;
    ConfirmKeepsBooks(s, u, o, shop, true, ConfirmCore(u, o, shop, true).value);
  }

  ghost predicate CapturesWithoutConfirming(s: State, g: GatewayRef, amount: int, shop: Shop)
    requires Lookup(s, g).Some?
  {
    var (o, p) := Lookup(s, g).value;
    var c := Capture(s, o, p, amount);
    || s.orders[o].status != PendingPayment
       || ConfirmCore(SetPayStatus(c, o, PaidStatus(c.orders[o])), o, shop, true).Failure?
    || s.money.payments[p].status == Payments.Captured || amount != s.money.payments[p].amount
  }

  lemma CaptureWritesNoBooks(s: State, g: GatewayRef, amount: int, shop: Shop)
    requires Lookup(s, g).Some? && CapturesWithoutConfirming(s, g, amount, shop)
    ensures var t := ProcessCaptured(s, g, amount, shop);
      SameConfirmations(s.orders, t.orders) && t.register == s.register && t.coupons == s.coupons
        && t.firstOrdered == s.firstOrdered
  {
    hide ConfirmCore;
  }

  lemma StaffCancelKeepsBooks(s: State, o: OrderId)
    requires BooksInv(s) && o < |s.orders|
    ensures BooksInv(CancelOrder(s, o))
  {
    hide BooksInv;
    BooksStay(s, CancelOrder(s, o));
  }

  lemma TaskKeepsBooks(s: State, task: Task, g: GatewayRef, shop: Shop)
    requires CoreInv(s) && BooksInv(s)
    ensures BooksInv(PerformTask(s, task, g, shop))
  {
    var t := PerformTask(s, task, g, shop);
    hide BooksInv;
    hide CoreInv;
    hide ConfirmCore;
    hide HoldStock;
    if task.CancelOversold? {
      OversoldSellsNothing(s, task.gateway, task.amount);
      hide CancelOversoldTx;
      BooksStay(s, t);
    } else if task.order < |s.orders| {
      match task
      case PlaceHold(_, _) => hide AfterHold; BooksStay(s, t);
      case ReleaseHold(_) => BooksStay(s, t);
      case ConfirmAtPlacement(o) => PlacementKeepsBooks(s, o, shop);
      case _ =>
        OtherTasksSellNothing(s, task, g, shop);
        hide *;
        BooksStay(s, t);
    }
  }

  /** Carts, stock, promotions, the refund worker and the clock touch neither orders nor books. */
  lemma QuietStepsWriteNoBooks(s: State, c: Step)
    requires !c.Start? && !c.Perform? && !c.CaptureEvent? && !c.StaffCancel?
    requires !c.FailureEvent? && !c.RefundEvent? && !c.Expire? && !c.StaffMove?
    ensures var t := Apply(s, c);
      && t.orders == s.orders && t.register == s.register && t.coupons.redemptions == s.coupons.redemptions
      && t.firstOrdered == s.firstOrdered && (t.coupons == s.coupons || c.StaffPromotion?)
  {
  }

  lemma SellingNothingKeepsBooks(s: State, t: State)
    requires BooksInv(s) && SellsNothing(s, t)
    ensures BooksInv(t)
  {
    hide BooksInv;
    BooksStay(s, t);
  }

  lemma OtherStepsKeepBooks(s: State, c: Step)
    requires CoreInv(s) && BooksInv(s) && !c.Perform? && !c.CaptureEvent? && !c.StaffCancel?
    ensures BooksInv(Apply(s, c))
  {
    hide CoreInv;
    hide BooksInv;
    hide SellsNothing;
    hide StartCheckout;
    var t := Apply(s, c);
    if c.Start? {
      StartSellsNothing(s, c.cart, c.key, c.request, c.rows, c.shop);
      SellingNothingKeepsBooks(s, t);
    } else if c.FailureEvent? || c.RefundEvent? || c.Expire? || c.StaffMove? {
      hide Apply;
      OrderStepsSellNothing(s, c);
      SellingNothingKeepsBooks(s, t);
    } else {
      hide Apply;
      QuietStepsWriteNoBooks(s, c);
      BooksStay(s, t);
    }
  }

  lemma StepKeepsBooks(s: State, c: Step)
    requires CoreInv(s) && BooksInv(s)
    ensures BooksInv(Apply(s, c))
  {
    hide CoreInv;
    hide BooksInv;
    match c
    case Perform(task, g, shop) => TaskKeepsBooks(s, task, g, shop); hide PerformTask;
    case CaptureEvent(g, amount, shop) => CaptureKeepsBooks(s, g, amount, shop); hide ProcessCaptured;
    case StaffCancel(o) => if o < |s.orders| { StaffCancelKeepsBooks(s, o); hide CancelOrder; }
    case _ => OtherStepsKeepBooks(s, c); hide Apply;
  }
}
