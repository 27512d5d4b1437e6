/**
 * Coupon limits over whole runs: every redemption was below the limits in
 * force at its step, and an order confirmed without the gateway never has its
 * discount without a redemption.
 */
module RedemptionsOverRuns {
  import opened Common
  import opened Orders
  import opened Checkout
  import opened MoneyInvariant
  import opened CheckoutInvariant
  import opened StockOverRuns
  import opened BooksOverRuns
  import opened CheckoutTheorems
  import Inventory
  import Coupons

  // ----- what one step does to the book -----

  /** No order is confirmed and no redemption written. */
  ghost predicate ClaimsNothing(s: State, t: State) {
    t.coupons == s.coupons && SameConfirmations(s.orders, t.orders)
  }

  /** Order o is confirmed and its coupon claimed; only a paid order may go without. */
  ghost predicate ClaimsFor(s: State, t: State, o: OrderId) {
    && o < |s.orders| && |t.orders| == |s.orders| && t.orders == s.orders[o := t.orders[o]]
       && SameSale(s.orders[o], t.orders[o])
    && var claim := ClaimCoupon(s, o, s.orders[o]);
    && t.coupons == (if claim.Some? then claim.value else s.coupons)
    && (ConfirmsAtPlacement(s.orders[o]) ==> claim.Some?)
  }

  lemma SellsNothingClaimsNothing(s: State, t: State)
    requires SellsNothing(s, t)
    ensures ClaimsNothing(s, t)
  {
  }

  /** What the confirmation door needs for a claim: without the gateway it is not optional. */
  lemma ConfirmClaims(s: State, o: OrderId, shop: Shop, overredeem: bool)
    requires o < |s.orders| && ConfirmCore(s, o, shop, overredeem).Success?
    ensures overredeem || ClaimCoupon(s, o, s.orders[o]).Some?
  {
  }

  lemma PlacementClaims(s: State, o: OrderId, shop: Shop)
    requires o < |s.orders|
    ensures var t := ConfirmAtPlacementTx(s, o, shop); ClaimsNothing(s, t) || ClaimsFor(s, t, o)
  {
    if s.orders[o].status == PendingPayment && ConfirmCore(s, o, shop, false).Success? {
      ConfirmCoreMoves(s, o, shop, false);
      ConfirmClaims(s, o, shop, false);
      ConfirmWrites(s, o, shop, false);
      hide ConfirmCore;
      hide ClaimCoupon;
    } else {
      hide ConfirmCore;
      assert ClaimsNothing(s, ConfirmAtPlacementTx(s, o, shop));
    }
  }

  lemma CaptureClaims(s: State, g: GatewayRef, amount: int, shop: Shop)
    requires CoreInv(s)
    ensures var t := ProcessCaptured(s, g, amount, shop); ClaimsNothing(s, t) || exists o :: ClaimsFor(s, t, o)
  {
    hide CoreInv;
    hide MoneyInv;
    hide CartsOK;
    match Lookup(s, g)
    case None =>
    case Some((o, p)) =>
      OrderFacts(s, o);
      if CapturesWithoutConfirming(s, g, amount, shop) {
        CaptureWritesNoBooks(s, g, amount, shop);
        hide ProcessCaptured;
      } else {
        var c := Capture(s, o, p, amount);
        var u := SetPayStatus(c, o, PaidStatus(c.orders[o]));
        assert ProcessCaptured(s, g, amount, shop) == ConfirmCore(u, o, shop, true).value;
        ConfirmCoreMoves(u, o, shop, true);
        ConfirmWrites(u, o, shop, true);
        assert ClaimCoupon(u, o, u.orders[o]) == ClaimCoupon(s, o, s.orders[o]);
        hide ConfirmCore;
        hide ProcessCaptured;
        hide ClaimCoupon;
        assert ClaimsFor(s, ConfirmCore(u, o, shop, true).value, o);
      }
  }

  lemma TaskClaims(s: State, task: Task, g: GatewayRef, shop: Shop)
    requires CoreInv(s)
    ensures var t := PerformTask(s, task, g, shop); ClaimsNothing(s, t) || exists o :: ClaimsFor(s, t, o)
  {
    hide CoreInv;
    hide ConfirmAtPlacementTx;
    hide CancelOversoldTx;
    hide Inventory.HoldStock;
    hide AfterHold;
    var t := PerformTask(s, task, g, shop);
    if task.CancelOversold? {
      OversoldSellsNothing(s, task.gateway, task.amount);
      SellsNothingClaimsNothing(s, t);
    } else if task.order < |s.orders| {
      match task
      case ConfirmAtPlacement(o) => PlacementClaims(s, o, shop);
      case PlaceHold(_, _) =>
      case ReleaseHold(_) =>
      case _ =>
        OtherTasksSellNothing(s, task, g, shop);
        hide *;
        SellsNothingClaimsNothing(s, t);
    }
  }

  /** Every step but a change of promotions claims for at most one order, the one it confirms. */
  lemma StepClaims(s: State, c: Step)
    requires CoreInv(s) && !c.StaffPromotion?
    ensures ClaimsNothing(s, Apply(s, c)) || exists o :: ClaimsFor(s, Apply(s, c), o)
  {
    hide CoreInv;
    hide PerformTask;
    hide ProcessCaptured;
    hide StartCheckout;
    hide LinesOf;
    hide Inventory.Restock;
    match c
    case Perform(task, g, shop) => TaskClaims(s, task, g, shop);
    case CaptureEvent(g, amount, shop) => CaptureClaims(s, g, amount, shop);
    case Start(cart, key, request, rows, shop) =>
      StartSellsNothing(s, cart, key, request, rows, shop);
    case StaffCancel(o) =>
    case _ => OtherStepsClaimNothing(s, c); hide Apply;
  }

  lemma OtherStepsClaimNothing(s: State, c: Step)
    requires CoreInv(s) && !c.Start? && !c.Perform? && !c.CaptureEvent? && !c.StaffCancel? && !c.StaffPromotion?
    ensures ClaimsNothing(s, Apply(s, c))
  {
    hide CoreInv;
    hide Apply;
    hide SellsNothing;
    if c.FailureEvent? || c.RefundEvent? || c.Expire? || c.StaffMove? {
      OrderStepsSellNothing(s, c);
      SellsNothingClaimsNothing(s, Apply(s, c));
    } else {
      QuietStepsWriteNoBooks(s, c);
    }
  }

  // ----- the limits in force -----

  /** The row took a slot below the promotion's limit, and below its limit per customer. */
  predicate WithinLimits(b: Coupons.Book, r: Coupons.Redemption) {
    && r.promo in b.promotions
    && var limits := (b.promotions[r.promo].limitTotal, b.promotions[r.promo].rule.limitPerCustomer);
    && (limits.0.Some? ==> r.slot < limits.0.value)
    && (r.customer.Some? && limits.1.Some? ==> r.customerSlot < limits.1.value)
  }

  ghost predicate GrowsWithinLimits(a: Coupons.Book, b: Coupons.Book) {
    && a.redemptions <= b.redemptions
    && forall i :: |a.redemptions| <= i < |b.redemptions| ==> WithinLimits(a, b.redemptions[i])
  }

  lemma ClaimGrows(s: State, o: OrderId)
    requires o < |s.orders| && Coupons.CouponInvariant(s.coupons)
    ensures var claim := ClaimCoupon(s, o, s.orders[o]);
      claim.Some? ==> GrowsWithinLimits(s.coupons, claim.value) && claim.value.promotions == s.coupons.promotions
  {
  }

  /**
   * Redemptions are only ever appended, each below the limits as they
   * stand at its step, however staff moved them before.
   */
  lemma StepStaysWithinLimits(s: State, c: Step)
    requires AllInv(s)
    ensures GrowsWithinLimits(s.coupons, Apply(s, c).coupons)
  {
    hide CoreInv;
    if !c.StaffPromotion? {
      StepClaims(s, c);
      assert CouponsOK(s.orders, s.coupons);
      hide AllInv;
      hide Apply;
      if o :| ClaimsFor(s, Apply(s, c), o) {
        ClaimGrows(s, o);
        hide ClaimCoupon;
      }
    }
  }

  /** Over every run: each redemption was written by one step, below the limits in force at that step. */
  lemma {:induction false} EveryRedemptionWasWithinLimits(tracked: set<VariantId>, steps: seq<Step>,
                                                          i: nat) returns (n: nat)
    requires i < |Run(Initial(tracked), steps).coupons.redemptions|
    ensures n < |steps|
    ensures var before, after := Run(Initial(tracked), steps[..n]), Run(Initial(tracked), steps[..n + 1]);
      && |before.coupons.redemptions| <= i < |after.coupons.redemptions|
      && after.coupons.redemptions[i] == Run(Initial(tracked), steps).coupons.redemptions[i]
      && WithinLimits(before.coupons, after.coupons.redemptions[i])
  {
    hide AllInv;
    hide Apply;
    var last := |steps| - 1;
    var before := Run(Initial(tracked), steps[..last]);
    RunsKeepAll(tracked, steps[..last]);
    StepStaysWithinLimits(before, steps[last]);
    if i < |before.coupons.redemptions| {
      n := EveryRedemptionWasWithinLimits(tracked, steps[..last], i);
      assert steps[..last][..n] == steps[..n] && steps[..last][..n + 1] == steps[..n + 1];
    } else {
      n := last;
      assert steps[..last + 1] == steps;
    }
  }

  // ----- orders confirmed without the gateway -----

  ghost predicate Redeemed(rows: seq<Coupons.Redemption>, p: PromoId, o: OrderId) {
    exists i :: 0 <= i < |rows| && rows[i].promo == p && rows[i].order == o
  }

  /** The coupon of an order is a known one, and redeemed if the order was confirmed without the gateway. */
  ghost predicate CouponHonoured(o: OrderId, order: Order, b: Coupons.Book) {
    order.request.coupon.Some? ==>
      && order.request.coupon.value in b.promotions
      && (ConfirmsAtPlacement(order) && order.confirmedAt.Some? ==>
         Redeemed(b.redemptions, order.request.coupon.value, o))
  }

  ghost predicate CouponsHonoured(s: State) {
    forall o :: 0 <= o < |s.orders| ==> CouponHonoured(o, s.orders[o], s.coupons)
  }

  lemma RedeemedStays(a: seq<Coupons.Redemption>, b: seq<Coupons.Redemption>, p: PromoId, o: OrderId)
    requires Redeemed(a, p, o) && a <= b
    ensures Redeemed(b, p, o)
  {
    var i :| 0 <= i < |a| && a[i].promo == p && a[i].order == o;
    assert b[i].promo == p && b[i].order == o;
  }

  lemma ClaimRedeems(s: State, o: OrderId)
    requires o < |s.orders| && Coupons.CouponInvariant(s.coupons) && ClaimCoupon(s, o, s.orders[o]).Some?
    requires s.orders[o].request.coupon.Some? && s.orders[o].request.coupon.value in s.coupons.promotions
    ensures Redeemed(ClaimCoupon(s, o, s.orders[o]).value.redemptions, s.orders[o].request.coupon.value, o)
  {
    var order := s.orders[o];
    Coupons.ClaimKeeps(s.coupons, order.request.coupon.value, o, Some(order.request.phone), order.quote.discount);
  }

  lemma NewOrdersKnowTheirCoupon(s: State, c: Step)
    ensures forall o :: |s.orders| <= o < |Apply(s, c).orders| ==>
      var order := Apply(s, c).orders[o];
      order.confirmedAt.None? && (order.request.coupon.Some? ==> order.request.coupon.value in s.coupons.promotions)
  {
    if c.Start? {
      hide TermsOf;
      hide CouponSpent;
    } else {
      OrdersAppearOnlyAtStart(s, c);
      hide *;
    }
  }

  /** An order of before, after a step that claims nothing, or claims for one order. */
  lemma OldOrdersStayHonoured(s: State, t: State, o: OrderId)
    requires CouponsHonoured(s) && o < |s.orders| && Coupons.CouponInvariant(s.coupons)
    requires ClaimsNothing(s, t) || exists x :: ClaimsFor(s, t, x)
    ensures o < |t.orders| && CouponHonoured(o, t.orders[o], t.coupons)
  {
    assert CouponHonoured(o, s.orders[o], s.coupons);
    if x :| ClaimsFor(s, t, x) {
      ClaimGrows(s, x);
      var p := s.orders[o].request.coupon;
      if p.Some? && Redeemed(s.coupons.redemptions, p.value, o) {
        RedeemedStays(s.coupons.redemptions, t.coupons.redemptions, p.value, o);
      }
      if p.Some? && x == o && ConfirmsAtPlacement(s.orders[o]) {
        ClaimRedeems(s, o);
      }
      hide ClaimCoupon;
      hide Coupons.CouponInvariant;
      hide Redeemed;
    }
  }

  lemma StepHonours(s: State, c: Step)
    requires AllInv(s) && CouponsHonoured(s)
    ensures CouponsHonoured(Apply(s, c))
  {
    var t := Apply(s, c);
    assert CouponsOK(s.orders, s.coupons);
    if !c.StaffPromotion? {
      StepClaims(s, c);
      hide *;
      OrdersHonoured(s, c);
    }
  }

  lemma OrdersHonoured(s: State, c: Step)
    requires CouponsHonoured(s) && Coupons.CouponInvariant(s.coupons)
    requires ClaimsNothing(s, Apply(s, c)) || exists x :: ClaimsFor(s, Apply(s, c), x)
    ensures CouponsHonoured(Apply(s, c))
  {
    hide Apply;
    hide Coupons.CouponInvariant;
    var t := Apply(s, c);
    assert forall p :: p in s.coupons.promotions ==> p in t.coupons.promotions;
    forall o | 0 <= o < |t.orders| ensures CouponHonoured(o, t.orders[o], t.coupons) {
      if o < |s.orders| {
        OldOrdersStayHonoured(s, t, o);
      } else {
        NewOrdersKnowTheirCoupon(s, c);
      }
    }
  }

  lemma {:induction false} RunsHonour(tracked: set<VariantId>, steps: seq<Step>)
    ensures CouponsHonoured(Run(Initial(tracked), steps))
  {
    if steps != [] {
      RunsHonour(tracked, steps[..|steps| - 1]);
      RunsKeepAll(tracked, steps[..|steps| - 1]);
      StepHonours(Run(Initial(tracked), steps[..|steps| - 1]), steps[|steps| - 1]);
      hide AllInv;
      hide Apply;
      hide CouponsHonoured;
    }
  }

  /**
   * Over every run: an order confirmed without the gateway has the redemption of the coupon it was priced with. A paid
   * order is confirmed in any case, and PaidOrdersRedeemIfTheyCan says when it has its redemption.
   */
  lemma CouponOrdersHoldARedemption(tracked: set<VariantId>, steps: seq<Step>, o: OrderId)
    requires var s := Run(Initial(tracked), steps);
      && o < |s.orders| && s.orders[o].request.coupon.Some? && s.orders[o].confirmedAt.Some?
         && ConfirmsAtPlacement(s.orders[o])
    ensures var s := Run(Initial(tracked), steps);
      var p := s.orders[o].request.coupon.value;
      exists i :: 0 <= i < |s.coupons.redemptions| && s.coupons.redemptions[i].promo == p
        && s.coupons.redemptions[i].order == o
  {
    RunsHonour(tracked, steps);
    hide Run;
    assert CouponHonoured(o, Run(Initial(tracked), steps).orders[o], Run(Initial(tracked), steps).coupons);
  }

  /** A capture that confirms an order leaves the coupon book as its claim does. */
  lemma CaptureWritesTheClaim(s: State, g: GatewayRef, amount: int, shop: Shop, o: OrderId, p: PaymentId)
    requires Lookup(s, g) == Some((o, p)) && s.orders[o].status == PendingPayment
    requires ProcessCaptured(s, g, amount, shop).orders[o].status == Confirmed
    ensures var claim := ClaimCoupon(s, o, s.orders[o]);
      ProcessCaptured(s, g, amount, shop).coupons == if claim.Some? then claim.value else s.coupons
  {
    hide ConfirmCore;
    hide Lookup;
    var c := Capture(s, o, p, amount);
    var u := SetPayStatus(c, o, PaidStatus(c.orders[o]));
    if ConfirmCore(u, o, shop, true).Success? {
      ConfirmWrites(u, o, shop, true);
    }
  }

  /**
   * At every state of every run: the capture that confirms an order adds the redemption of its coupon exactly when the
   * promotion and the customer still had a slot at that step; otherwise it adds none.
   */
  lemma PaidOrdersRedeemIfTheyCan(tracked: set<VariantId>, steps: seq<Step>, g: GatewayRef, amount: int, shop: Shop,
                                  o: OrderId, p: PaymentId)
    requires var s := Run(Initial(tracked), steps);
      && Lookup(s, g) == Some((o, p)) && s.orders[o].status == PendingPayment && s.orders[o].request.coupon.Some?
      && ProcessCaptured(s, g, amount, shop).orders[o].status == Confirmed
    ensures var s := Run(Initial(tracked), steps);
      var t, promo := ProcessCaptured(s, g, amount, shop), s.orders[o].request.coupon.value;
      && promo in s.coupons.promotions && !Redeemed(s.coupons.redemptions, promo, o)
      && (Redeemed(t.coupons.redemptions, promo, o) <==>
          Coupons.SlotLeft(s.coupons, promo, Some(s.orders[o].request.phone)))
      && (!Coupons.SlotLeft(s.coupons, promo, Some(s.orders[o].request.phone)) ==> t.coupons == s.coupons)
  {
    hide Run;
    hide Lookup;
    hide ProcessCaptured;
    hide CoreInv;
    hide CouponsOK;
    hide CouponsHonoured;
    RunsKeepAll(tracked, steps);
    RunsHonour(tracked, steps);
    CaptureRedeems(Run(Initial(tracked), steps), g, amount, shop, o, p);
  }

  lemma CaptureRedeems(s: State, g: GatewayRef, amount: int, shop: Shop, o: OrderId, p: PaymentId)
    requires CoreInv(s) && CouponsOK(s.orders, s.coupons) && CouponsHonoured(s)
    requires Lookup(s, g) == Some((o, p)) && s.orders[o].status == PendingPayment && s.orders[o].request.coupon.Some?
    requires ProcessCaptured(s, g, amount, shop).orders[o].status == Confirmed
    ensures var t, promo := ProcessCaptured(s, g, amount, shop), s.orders[o].request.coupon.value;
      && promo in s.coupons.promotions && !Redeemed(s.coupons.redemptions, promo, o)
      && (Redeemed(t.coupons.redemptions, promo, o) <==>
          Coupons.SlotLeft(s.coupons, promo, Some(s.orders[o].request.phone)))
      && (!Coupons.SlotLeft(s.coupons, promo, Some(s.orders[o].request.phone)) ==> t.coupons == s.coupons)
  {
    hide CoreInv;
    hide MoneyInv;
    hide CartsOK;
    hide Lookup;
    hide ProcessCaptured;
    hide ClaimCoupon;
    hide CouponsOK;
    assert CouponHonoured(o, s.orders[o], s.coupons);
    OrderFacts(s, o);
    ClaimNeedsASlot(s, o);
    CaptureWritesTheClaim(s, g, amount, shop, o, p);
    var t, promo := ProcessCaptured(s, g, amount, shop), s.orders[o].request.coupon.value;
    if Coupons.SlotLeft(s.coupons, promo, Some(s.orders[o].request.phone)) {
      assert t.coupons.redemptions[|s.coupons.redemptions|].order == o;
    }
  }
}
