/**
 * The locks are the right ones: whatever row of an order, cart, stock level,
 * promotion, series, customer or counter a transaction writes is among the rows
 * it locks (packages/core/src/checkout/server.ts:824-851, 1468-1597;
 * packages/core/src/inventory/server.ts:751-774).
 */
module LockCoverage {
  import opened Common
  import opened Inventory
  import opened Orders
  import opened Checkout
  import opened CheckoutInvariant
  import opened CheckoutTheorems
  import opened StockLaws
  import opened CouponLaws
  import opened Outcomes
  import opened StartLaws
  import opened LockOrder
  import Invoices
  import Payments
  import Quotes

  /** The row a series has in the table of counters. */
  function RowOf(series: Invoices.Series): nat {
    2 * series.year + match series.doc case TaxInvoice => 0 case BillOfSupply => 1
  }

  ghost predicate SameAt<K, V>(k: K, a: map<K, V>, b: map<K, V>) { k in a && k in b && a[k] == b[k] }

  ghost predicate OrdersCovered(s: State, t: State, locks: seq<Lock>) {
    && |s.orders| <= |t.orders|
    && (forall o :: 0 <= o < |s.orders| && t.orders[o] != s.orders[o] ==> Lock(OrderRows, o) in locks)
    && (|s.orders| < |t.orders| ==> Lock(CounterRows, 0) in locks)
  }

  ghost predicate CartsCovered(s: State, t: State, locks: seq<Lock>) {
    && |s.carts| <= |t.carts|
    && forall c :: 0 <= c < |s.carts| && t.carts[c] != s.carts[c] ==> Lock(CartRows, c) in locks
  }

  /** A level that changes is locked, and so is the level a new hold counts against. */
  ghost predicate StockCovered(s: State, t: State, locks: seq<Lock>) {
    && (forall v: VariantId :: OnHand(t.stock.levels, v) != OnHand(s.stock.levels, v) ==> Lock(StockRows, v) in locks)
    && (forall h :: h in t.stock.holds && h !in s.stock.holds ==> Lock(StockRows, h.variant) in locks)
  }

  ghost predicate BooksCovered(s: State, t: State, locks: seq<Lock>) {
    && s.coupons.redemptions <= t.coupons.redemptions
    && (forall i :: |s.coupons.redemptions| <= i < |t.coupons.redemptions| ==>
        Lock(PromotionRows, t.coupons.redemptions[i].promo) in locks)
    && (forall p :: p in t.coupons.promotions && !SameAt(p, s.coupons.promotions, t.coupons.promotions) ==>
        Lock(PromotionRows, p) in locks)
    && (forall x :: x in t.register.next && !SameAt(x, s.register.next, t.register.next) ==>
        Lock(SeriesRows, RowOf(x)) in locks)
    && (forall c :: c in t.firstOrdered && c !in s.firstOrdered ==> Lock(CustomerRows, c) in locks)
  }

  ghost predicate Covered(s: State, t: State, locks: seq<Lock>) {
    OrdersCovered(s, t, locks) && CartsCovered(s, t, locks) && StockCovered(s, t, locks) && BooksCovered(s, t, locks)
  }

  // ----- the kinds of writes -----

  /** Only money, tasks, references and runs: tables with no lock of their own here. */
  lemma NothingToLock(s: State, t: State, locks: seq<Lock>)
    requires t == s.(money := t.money, issued := t.issued, minted := t.minted, runs := t.runs, calls := t.calls,
                     now := t.now)
    ensures Covered(s, t, locks)
  {
  }

  /** One order row, and its cart when it is closed. */
  lemma OneOrderRow(s: State, t: State, o: OrderId, locks: seq<Lock>)
    requires o < |s.orders| == |t.orders| && t.orders == s.orders[o := t.orders[o]] && Lock(OrderRows, o) in locks
    requires t == s.(orders := t.orders, carts := t.carts, money := t.money, issued := t.issued)
    requires t.carts == s.carts
      || (s.orders[o].cart < |s.carts| && t.carts == s.carts[s.orders[o].cart := ActiveCart]
          && Lock(CartRows, s.orders[o].cart) in locks)
    ensures Covered(s, t, locks)
  {
  }

  /** The levels of tracked lines of an order, locked. */
  lemma LevelsAreLocked(lines: seq<Line>, tracked: set<VariantId>)
    requires WellFormed(lines)
    ensures forall l :: l in lines && l.variant in tracked ==> Lock(StockRows, l.variant) in LevelLocks(lines, tracked)
  {
    WritingOrder(lines, tracked);
    var sorted, locks := SortLines(TrackedLines(lines, tracked)), LevelLocks(lines, tracked);
    forall l | l in lines && l.variant in tracked ensures Lock(StockRows, l.variant) in locks {
      assert l in sorted;
      var i :| 0 <= i < |sorted| && sorted[i] == l;
      assert locks[i] == Lock(StockRows, l.variant);
    }
  }

  lemma {:induction false} NothingOfAbsent(lines: seq<Line>, v: VariantId)
    ensures Quantity(lines, v) != 0 ==> exists l :: l in lines && l.variant == v
  {
    if lines != [] {
      NothingOfAbsent(lines[1..], v);
      if Quantity(lines[1..], v) != 0 {
        var l :| l in lines[1..] && l.variant == v;
        assert l in lines;
      } else if Quantity(lines, v) != 0 {
        assert lines[0] in lines;
      }
    }
  }

  /** Levels move only for tracked lines, and no hold is added. */
  lemma StockMovesAreLocked(s: State, t: State, lines: seq<Line>, locks: seq<Lock>)
    requires WellFormed(lines) && forall k :: k in LevelLocks(lines, s.tracked) ==> k in locks
    requires forall v :: OnHand(t.stock.levels, v) != OnHand(s.stock.levels, v) ==>
      v in s.tracked && Quantity(lines, v) != 0
    requires forall h :: h in t.stock.holds ==> h in s.stock.holds
    ensures StockCovered(s, t, locks)
  {
    LevelsAreLocked(lines, s.tracked);
    forall v: VariantId | OnHand(t.stock.levels, v) != OnHand(s.stock.levels, v) ensures Lock(StockRows, v) in locks {
      NothingOfAbsent(lines, v);
      var l :| l in lines && l.variant == v;
    }
    hide LevelLocks;
  }

  /** What a confirmation writes, under the order's lock and those of the confirmation door. */
  lemma ConfirmationIsLocked(s: State, t: State, o: OrderId, shop: Shop, n: Order, locks: seq<Lock>)
    requires o < |s.orders| && StockIsThere(s, o) && IsConfirmed(s, t, o, shop, n)
    requires Lock(OrderRows, o) in locks && forall k :: k in ConfirmLocks(s, o, shop) ==> k in locks
    ensures Covered(s, t, locks)
  {
    var order := s.orders[o];
    var lines := LinesOf(order);
    if lines != [] {
      StockMovesAreLocked(s, t, lines, locks);
    }
    DoorBooksAreLocked(s, t, o, shop, locks);
    hide WellFormed;
    hide AllFit;
    hide LevelLocks;
    hide LinesOf;
    hide BooksCovered;
  }

  lemma DoorBooksAreLocked(s: State, t: State, o: OrderId, shop: Shop, locks: seq<Lock>)
    requires o < |s.orders| && CouponIsRedeemed(s, t, o) && InvoiceIsAdded(s, t, o, shop)
    requires t.firstOrdered == s.firstOrdered + {s.orders[o].request.phone}
    requires forall k :: k in ConfirmLocks(s, o, shop) ==> k in locks
    ensures BooksCovered(s, t, locks)
  {
    var order, all := s.orders[o], ConfirmLocks(s, o, shop);
    var n := |all|;
    assert all[n - 1] == Lock(CustomerRows, order.request.phone) && all[n - 2] == Lock(SeriesRows, SeriesRow(shop));
    if CouponHasSlot(s, o) {
      assert all[n - 3] == Lock(PromotionRows, order.request.coupon.value);
    }
    hide LevelLocks;
    hide Uses;
    hide OneMore;
  }

  // ----- every step -----

  lemma ReferenceFindsTheOrder(s: State, p: PaymentId)
    requires CoreInv(s) && p < |s.money.payments|
    ensures s.money.payments[p].order < |s.orders|
    ensures FindByRef(s.orders, s.money.payments[p].gateway, 0) == Some(s.money.payments[p].order)
  {
    PaymentIsLookedUp(s, p);
    PaymentFacts(s, p);
    hide CoreInv;
  }

  /** An order row of before, at the gateway reference of its payment. */
  lemma CloseLocksAre(s: State, o: OrderId)
    requires o < |s.orders|
    ensures Lock(OrderRows, o) in CloseLocks(s, o)
    ensures s.orders[o].status == PendingPayment ==> Lock(CartRows, s.orders[o].cart) in CloseLocks(s, o)
  {
    assert CloseLocks(s, o)[0] == Lock(OrderRows, o);
    if s.orders[o].status == PendingPayment {
      assert CloseLocks(s, o)[1] == Lock(CartRows, s.orders[o].cart);
    }
  }

  lemma HoldIsLocked(s: State, o: OrderId, replay: bool, g: GatewayRef, shop: Shop)
    requires AllInv(s) && PlaceHold(o, replay) in s.issued && o < |s.orders|
    ensures var c := Perform(PlaceHold(o, replay), g, shop); Covered(s, Apply(s, c), LocksOf(s, c))
  {
    hide AllInv;
    hide Apply;
    hide WellFormed;
    hide AllFit;
    hide LevelLocks;
    var c := Perform(PlaceHold(o, replay), g, shop);
    var t, lines, locks := Apply(s, c), LinesOf(s.orders[o]), LocksOf(s, c);
    PlaceHoldMeans(s, o, replay, g, shop);
    if WellFormed(lines) && AllFit(s.stock, s.now, s.tracked, o, lines) {
      LevelsAreLocked(lines, s.tracked);
      assert locks == LevelLocks(lines, s.tracked);
      forall h | h in t.stock.holds && h !in s.stock.holds ensures Lock(StockRows, h.variant) in locks {
        assert IsNewHold(h, o, lines, s.tracked, s.now);
        var l := Line(h.variant, h.quantity);
        assert l in lines && l.variant in s.tracked;
      }
    } else {
      NothingToLock(s, t, locks);
    }
  }

  lemma PlacementIsLocked(s: State, o: OrderId, g: GatewayRef, shop: Shop)
    requires AllInv(s) && ConfirmAtPlacement(o) in s.issued && o < |s.orders|
    ensures var c := Perform(ConfirmAtPlacement(o), g, shop); Covered(s, Apply(s, c), LocksOf(s, c))
  {
    hide AllInv;
    hide Apply;
    hide ConfirmLocks;
    hide StockIsThere;
    hide WellFormed;
    hide IsConfirmed;
    hide CouponIsSpent;
    hide Covered;
    var c := Perform(ConfirmAtPlacement(o), g, shop);
    var t, locks := Apply(s, c), LocksOf(s, c);
    PlacementMeans(s, o, g, shop);
    assert locks[0] == Lock(OrderRows, o);
    if IsConfirmed(s, t, o, shop, PlacedOrder(s.orders[o], s.now)) && s.orders[o].status == PendingPayment
      && StockIsThere(s, o)
    {
      assert locks == [Lock(OrderRows, o)] + ConfirmLocks(s, o, shop);
      ConfirmationIsLocked(s, t, o, shop, PlacedOrder(s.orders[o], s.now), locks);
    } else {
      NothingToLock(s, t, locks);
    }
  }

  lemma CancelIsLocked(s: State, o: OrderId, g: GatewayRef, shop: Shop)
    requires AllInv(s) && CancelPending(o) in s.issued && o < |s.orders|
    ensures var c := Perform(CancelPending(o), g, shop); Covered(s, Apply(s, c), LocksOf(s, c))
  {
    hide AllInv;
    hide Apply;
    hide Covered;
    hide CloseLocks;
    var c := Perform(CancelPending(o), g, shop);
    CancelPendingMeans(s, o, g, shop);
    CloseLocksAre(s, o);
    OneOrderRow(s, Apply(s, c), o, LocksOf(s, c));
  }

  lemma ReleaseIsLocked(s: State, o: OrderId, g: GatewayRef, shop: Shop)
    requires ReleaseHold(o) in s.issued && o < |s.orders|
    ensures var c := Perform(ReleaseHold(o), g, shop); Covered(s, Apply(s, c), LocksOf(s, c))
  {
    hide Apply;
    hide LocksOf;
    ReleaseHoldMeans(s, o, g, shop);
  }

  lemma OversoldIsLocked(s: State, gateway: GatewayRef, amount: int, g: GatewayRef, shop: Shop)
    requires AllInv(s) && CancelOversold(gateway, amount) in s.issued && TaskOK(s, CancelOversold(gateway, amount))
    ensures var c := Perform(CancelOversold(gateway, amount), g, shop); Covered(s, Apply(s, c), LocksOf(s, c))
  {
    hide AllInv;
    hide Apply;
    hide Covered;
    hide CloseLocks;
    var c := Perform(CancelOversold(gateway, amount), g, shop);
    var p :| 0 <= p < |s.money.payments| && s.money.payments[p].gateway == gateway
      && s.money.payments[p].amount == amount;
    AllIsCore(s);
    ReferenceFindsTheOrder(s, p);
    OversoldMeans(s, p, amount, g, shop);
    var o := s.money.payments[p].order;
    CloseLocksAre(s, o);
    assert LocksOf(s, c) == CloseLocks(s, o);
    if s.money.payments[p].status == Payments.Captured {
      NothingToLock(s, Apply(s, c), LocksOf(s, c));
    } else {
      OneOrderRow(s, Apply(s, c), o, LocksOf(s, c));
    }
  }

  lemma TaskWritesAreLocked(s: State, task: Task, g: GatewayRef, shop: Shop)
    requires AllInv(s) && task in s.issued
    ensures Covered(s, Apply(s, Perform(task, g, shop)), LocksOf(s, Perform(task, g, shop)))
  {
    hide AllInv;
    hide CoreInv;
    hide Covered;
    var c := Perform(task, g, shop);
    var t, locks := Apply(s, c), LocksOf(s, c);
    AllIsCore(s);
    IssuedTasksAreOK(s, task);
    match task
    case PlaceHold(o, replay) => HoldIsLocked(s, o, replay, g, shop);
    case ExtendExpiry(o) => ExtendExpiryMeans(s, o, g, shop); TaskOnOneOrder(s, t, task, shop);
    case ConfirmAtPlacement(o) => PlacementIsLocked(s, o, g, shop);
    case StartPayment(o) => StartPaymentMeans(s, o, g, shop); hide Apply; NothingToLock(s, t, locks);
    case RecordGatewayOrder(o, ref) => RecordGatewayMeans(s, o, ref, g, shop); TaskOnOneOrder(s, t, task, shop);
    case CancelPending(o) => CancelIsLocked(s, o, g, shop);
    case ReleaseHold(o) => ReleaseIsLocked(s, o, g, shop);
    case CancelOversold(gateway, amount) => OversoldIsLocked(s, gateway, amount, g, shop);
  }

  lemma TaskOnOneOrder(s: State, t: State, task: Task, shop: Shop)
    requires task.ExtendExpiry? || task.RecordGatewayOrder?
    requires task.order < |s.orders| == |t.orders| && t.orders == s.orders[task.order := t.orders[task.order]]
    requires t == s.(orders := t.orders, money := t.money, issued := t.issued)
    ensures Covered(s, t, TaskLocks(s, task, shop))
  {
    OneOrderRow(s, t, task.order, TaskLocks(s, task, shop));
    hide Covered;
  }

  lemma CaptureIsLocked(s: State, gateway: GatewayRef, amount: int, shop: Shop)
    requires AllInv(s)
    ensures var c := CaptureEvent(gateway, amount, shop); Covered(s, Apply(s, c), LocksOf(s, c))
  {
    hide AllInv;
    hide Apply;
    hide Covered;
    hide ConfirmLocks;
    hide StockIsThere;
    hide WellFormed;
    hide IsConfirmed;
    var c := CaptureEvent(gateway, amount, shop);
    var t, locks := Apply(s, c), LocksOf(s, c);
    if p :| 0 <= p < |s.money.payments| && s.money.payments[p].gateway == gateway {
      AllIsCore(s);
      ReferenceFindsTheOrder(s, p);
      CaptureMeans(s, p, amount, shop);
      var payment, o := s.money.payments[p], s.money.payments[p].order;
      assert locks[0] == Lock(OrderRows, o);
      if payment.status == Payments.Captured || amount != payment.amount {
        NothingToLock(s, t, locks);
      } else if s.orders[o].status != PendingPayment {
        OneOrderRow(s, t, o, locks);
      } else if StockIsThere(s, o) && InvoiceFits(s, o, shop) {
        assert locks == [Lock(OrderRows, o)] + ConfirmLocks(s, o, shop);
        ConfirmationIsLocked(s, t, o, shop, PaidOrder(s.orders[o], amount, s.now), locks);
      } else {
        NothingToLock(s, t, locks);
      }
    } else {
      UnknownDeliveriesAreIgnored(s, gateway, amount, shop);
      NothingToLock(s, t, locks);
    }
  }

  lemma FailureIsLocked(s: State, gateway: GatewayRef)
    requires AllInv(s)
    ensures var c := FailureEvent(gateway); Covered(s, Apply(s, c), LocksOf(s, c))
  {
    hide AllInv;
    hide Apply;
    hide Covered;
    hide LocksOf;
    var c := FailureEvent(gateway);
    if p :| 0 <= p < |s.money.payments| && s.money.payments[p].gateway == gateway {
      FailureMeans(s, p);
    } else {
      UnknownFailuresAreIgnored(s, gateway);
    }
    NothingToLock(s, Apply(s, c), LocksOf(s, c));
  }

  lemma UnknownFailuresAreIgnored(s: State, g: GatewayRef)
    requires forall p :: 0 <= p < |s.money.payments| ==> s.money.payments[p].gateway != g
    ensures Apply(s, FailureEvent(g)) == s
  {
  }

  lemma RefundEventIsLocked(s: State, ref: GatewayRef)
    requires AllInv(s)
    ensures var c := RefundEvent(ref); Covered(s, Apply(s, c), LocksOf(s, c))
  {
    hide AllInv;
    hide Apply;
    hide Covered;
    var c := RefundEvent(ref);
    var t, locks := Apply(s, c), LocksOf(s, c);
    RefundEventMeans(s, ref);
    FirstAwaiting(s.money.refunds, ref, 0);
    var hit := Payments.FindAwaiting(s.money.refunds, ref, 0);
    if hit.Some? {
      assert locks[0] == Lock(OrderRows, s.money.refunds[hit.value].order);
      OneOrderRow(s, t, s.money.refunds[hit.value].order, locks);
    } else {
      NothingToLock(s, t, locks);
    }
  }

  lemma ExpiryIsLocked(s: State, o: OrderId)
    requires AllInv(s)
    ensures Covered(s, Apply(s, Expire(o)), LocksOf(s, Expire(o)))
  {
    if o < |s.orders| {
      ExpiryMeans(s, o);
      CloseLocksAre(s, o);
      hide AllInv;
      hide Apply;
      hide Covered;
      hide CloseLocks;
      OneOrderRow(s, Apply(s, Expire(o)), o, LocksOf(s, Expire(o)));
    }
  }

  lemma StaffCancelIsLocked(s: State, o: OrderId)
    requires AllInv(s)
    ensures Covered(s, Apply(s, StaffCancel(o)), LocksOf(s, StaffCancel(o)))
  {
    hide AllInv;
    hide WellFormed;
    hide LevelLocks;
    hide LinesOf;
    hide CancelOrder;
    var c := StaffCancel(o);
    var t, locks := Apply(s, c), LocksOf(s, c);
    if o < |s.orders| {
      StaffCancelMeans(s, o);
      var lines := LinesOf(s.orders[o]);
      assert locks == [Lock(OrderRows, o)] + LevelLocks(lines, s.tracked);
      assert locks[0] == Lock(OrderRows, o);
      if t != s && lines != [] {
        StockMovesAreLocked(s, t, lines, locks);
      }
    }
  }

  lemma StaffStockIsLocked(s: State, v: VariantId, delta: int, key: Option<nat>)
    ensures Covered(s, Apply(s, StaffStock(v, delta, key)), LocksOf(s, StaffStock(v, delta, key)))
  {
    StaffStockMeans(s, v, delta, key);
    AdjustmentMeans(s.stock, s.now, s.tracked, v, delta, key);
    hide Apply;
    hide Held;
    hide Unused;
  }

  lemma StartIsLocked(s: State, cart: CartId, key: nat, req: Request, rows: seq<Quotes.Row>, shop: Shop)
    requires AllInv(s)
    ensures var c := Start(cart, key, req, rows, shop); Covered(s, Apply(s, c), LocksOf(s, c))
  {
    hide AllInv;
    hide Apply;
    hide AreTheTerms;
    hide Quotes.PriceOrder;
    hide CouponIsOpen;
    hide PromotionLocks;
    var c := Start(cart, key, req, rows, shop);
    var t, locks := Apply(s, c), LocksOf(s, c);
    StartMeans(s, cart, key, req, rows, shop);
    var found := FindByKey(s.orders, key, 0);
    assert found.Some? ==> HasKey(s, found.value, key);
    if exists o :: HasKey(s, o, key) {
      NothingToLock(s, t, locks);
    } else if t != s {
      OpenCouponsAreUsable(s, req);
      var all := CreateLocks(s, cart, req);
      assert locks == all && all[0] == Lock(CartRows, cart) && all[|all| - 1] == Lock(CounterRows, 0);
    }
  }

  lemma OpenCouponsAreUsable(s: State, req: Request)
    requires CouponIsOpen(s, req)
    ensures CouponUsable(s, req.coupon)
  {
  }

  /** Every row that a step writes, in the seven tables, is a row that its transaction locks. */
  lemma WritesAreLocked(s: State, c: Step)
    requires AllInv(s)
    ensures Covered(s, Apply(s, c), LocksOf(s, c))
  {
    hide AllInv;
    hide Covered;
    hide LocksOf;
    hide Apply;
    match c
    case Perform(task, g, shop) =>
      if task in s.issued {
        TaskWritesAreLocked(s, task, g, shop);
      } else {
        NothingRunsEarly(s, task, g, shop);
        NothingToLock(s, Apply(s, c), LocksOf(s, c));
      }
    case CaptureEvent(g, amount, shop) => CaptureIsLocked(s, g, amount, shop);
    case FailureEvent(g) => FailureIsLocked(s, g);
    case RefundEvent(ref) => RefundEventIsLocked(s, ref);
    case Expire(o) => ExpiryIsLocked(s, o);
    case StaffCancel(o) => StaffCancelIsLocked(s, o);
    case StaffStock(v, delta, key) => StaffStockIsLocked(s, v, delta, key);
    case Start(cart, key, request, rows, shop) => StartIsLocked(s, cart, key, request, rows, shop);
    case _ => OtherWritesAreLocked(s, c);
  }

  lemma OtherWritesAreLocked(s: State, c: Step)
    requires !c.Perform? && !c.CaptureEvent? && !c.FailureEvent? && !c.RefundEvent? && !c.Expire? && !c.StaffCancel?
    requires !c.StaffStock? && !c.Start?
    ensures Covered(s, Apply(s, c), LocksOf(s, c))
  {
    var t, locks := Apply(s, c), LocksOf(s, c);
    if c.StaffMove? {
      if c.order < |s.orders| {
        assert Lock(OrderRows, c.order) in locks;
        hide Covered;
        hide LocksOf;
        OneOrderRow(s, t, c.order, locks);
      }
    } else if !c.NewCart? && !c.StaffPromotion? {
      hide Covered;
      hide LocksOf;
      NothingToLock(s, t, locks);
    }
  }
}
