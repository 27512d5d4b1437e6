/**
 * Money, carts and the tasks of running processes: each transaction keeps the
 * money invariant, the tie between a cart and its orders, and what a task that
 * has been reached may rely on when it is run.
 */
module CheckoutInvariant {
  import opened Common
  import opened Orders
  import opened Checkout
  import opened MoneyInvariant
  import Inventory
  import Payments
  import Quotes

  /** An order that has a claim on its cart: pending, or confirmed at some time. */
  predicate Live(o: Order) { o.status == PendingPayment || o.confirmedAt.Some? }

  ghost predicate Claimed(orders: seq<Order>, c: CartId) {
    exists o :: 0 <= o < |orders| && orders[o].cart == c && Live(orders[o])
  }

  /** A cart has at most one live order, and is converted exactly while it has one. */
  ghost predicate CartsOK(orders: seq<Order>, carts: seq<CartStatus>) {
    && (forall c :: 0 <= c < |carts| && carts[c] == ConvertedCart ==> Claimed(orders, c))
    && (forall o :: 0 <= o < |orders| ==>
       orders[o].cart < |carts| && (Live(orders[o]) ==> carts[orders[o].cart] == ConvertedCart))
    && (forall o, p :: 0 <= o < p < |orders| && orders[o].cart == orders[p].cart ==>
       !Live(orders[o]) || !Live(orders[p]))
  }

  /** A stored gateway reference is one the gateway gave for this very order. */
  ghost predicate RefsOK(orders: seq<Order>, minted: map<GatewayRef, OrderId>) {
    forall o :: 0 <= o < |orders| && orders[o].gatewayRef.Some? ==>
      orders[o].gatewayRef.value in minted && minted[orders[o].gatewayRef.value] == o
  }

  /** What the earlier transactions of its process have established for a task. */
  ghost predicate TaskOK(s: State, t: Task) {
    match t
    case StartPayment(o) => o < |s.orders| && !ConfirmsAtPlacement(s.orders[o])
    case RecordGatewayOrder(o, g) =>
      o < |s.orders| && !ConfirmsAtPlacement(s.orders[o]) && g in s.minted && s.minted[g] == o
    case ConfirmAtPlacement(o) => o < |s.orders| && ConfirmsAtPlacement(s.orders[o])
    case CancelOversold(g, amount) =>
      exists p :: 0 <= p < |s.money.payments| && s.money.payments[p].gateway == g
        && s.money.payments[p].amount == amount
    case _ => t.order < |s.orders|
  }

  ghost predicate TasksOK(s: State) {
    forall t :: t in s.issued ==> TaskOK(s, t)
  }

  ghost predicate KeysAreUnique(orders: seq<Order>) {
    forall o, p :: 0 <= o < p < |orders| ==> orders[o].key != orders[p].key
  }

  ghost predicate CoreInv(s: State) {
    && MoneyInv(s.orders, s.money)
    && CartsOK(s.orders, s.carts)
    && RefsOK(s.orders, s.minted)
    && TasksOK(s)
    && KeysAreUnique(s.orders)
  }

  // ----- nothing committed is rewritten -----

  ghost predicate OrderEvolves(a: Order, b: Order) {
    && SameSale(a, b) && a.cart == b.cart && a.key == b.key
    && (a.status == b.status || CanTransition(a.status, b.status))
    && (a.confirmedAt.Some? ==> b.confirmedAt == a.confirmedAt)
    && (a.confirmedAt.None? && b.confirmedAt.Some? ==> a.status == PendingPayment && b.status == Confirmed)
    && (a.gatewayRef.Some? ==> b.gatewayRef == a.gatewayRef)
  }

  ghost predicate PaymentEvolves(a: Payments.Payment, b: Payments.Payment) {
    a.order == b.order && a.amount == b.amount && a.gateway == b.gateway && (a.status == Payments.Captured ==> b == a)
  }

  ghost predicate PaymentsEvolve(a: seq<Payments.Payment>, b: seq<Payments.Payment>) {
    |a| <= |b| && forall p :: 0 <= p < |a| ==> PaymentEvolves(a[p], b[p])
  }

  ghost predicate OrdersEvolve(a: seq<Order>, b: seq<Order>) {
    |a| <= |b| && forall o :: 0 <= o < |a| ==> OrderEvolves(a[o], b[o])
  }

  ghost predicate MintedGrows(a: map<GatewayRef, OrderId>, b: map<GatewayRef, OrderId>) {
    forall g :: g in a ==> g in b && b[g] == a[g]
  }

  ghost predicate Evolves(s: State, t: State) {
    && s.now <= t.now && s.tracked == t.tracked && s.issued <= t.issued
    && OrdersEvolve(s.orders, t.orders)
    && PaymentsEvolve(s.money.payments, t.money.payments)
    && MintedGrows(s.minted, t.minted)
  }

  /** A task's footing survives every evolution, so only newly reached tasks need an argument. */
  lemma TasksSurvive(s: State, t: State)
    requires TasksOK(s) && Evolves(s, t)
    requires forall k :: k in t.issued && k !in s.issued ==> TaskOK(t, k)
    ensures TasksOK(t)
  {
  }

  /** One order row and the money tables change together; the gateway references do not. */
  lemma RowChanges(s: State, t: State, o: OrderId)
    requires CoreInv(s) && o < |s.orders| == |t.orders| && t.orders == s.orders[o := t.orders[o]]
    requires OrderEvolves(s.orders[o], t.orders[o])
    requires t.orders[o].gatewayRef.Some? ==>
      t.orders[o].gatewayRef.value in t.minted && t.minted[t.orders[o].gatewayRef.value] == o
    requires MoneyInv(t.orders, t.money) && PaymentsEvolve(s.money.payments, t.money.payments)
    requires CartsOK(t.orders, t.carts)
    requires t.minted == s.minted && s.now <= t.now && s.tracked == t.tracked && s.issued <= t.issued
    requires forall k :: k in t.issued && k !in s.issued ==> TaskOK(t, k)
    ensures CoreInv(t) && Evolves(s, t)
  {
    hide MoneyInv;
    hide CartsOK;
    assert Evolves(s, t);
    TasksSurvive(s, t);
  }

  /** No order row changes. */
  lemma TablesChange(s: State, t: State)
    requires CoreInv(s) && t.orders == s.orders && MoneyInv(t.orders, t.money)
    requires PaymentsEvolve(s.money.payments, t.money.payments)
    requires CartsOK(t.orders, t.carts)
    requires MintedGrows(s.minted, t.minted) && s.now <= t.now && s.tracked == t.tracked && s.issued <= t.issued
    requires forall k :: k in t.issued && k !in s.issued ==> TaskOK(t, k)
    ensures CoreInv(t) && Evolves(s, t)
  {
    hide MoneyInv;
    hide CartsOK;
    assert Evolves(s, t);
    TasksSurvive(s, t);
  }

  /** What the invariant says about one order. */
  lemma OrderFacts(s: State, o: OrderId)
    requires CoreInv(s) && o < |s.orders|
    ensures MoneyInv(s.orders, s.money) && CartsOK(s.orders, s.carts)
    ensures OrderOK(s.orders[o]) && Settled(s.orders[o], HasCapture(s.money.payments, o))
    ensures ConfirmsAtPlacement(s.orders[o]) ==> !HasCapture(s.money.payments, o)
    ensures s.orders[o].gatewayRef.Some? ==>
      s.orders[o].gatewayRef.value in s.minted && s.minted[s.orders[o].gatewayRef.value] == o
    ensures s.orders[o].cart < |s.carts| && (Live(s.orders[o]) ==> s.carts[s.orders[o].cart] == ConvertedCart)
  {
  }

  /** What the invariant says about one payment: it is its order's only one, and a capture is its order's capture. */
  lemma PaymentFacts(s: State, p: PaymentId)
    requires CoreInv(s) && p < |s.money.payments|
    ensures PaymentOK(s.orders, s.money.payments[p])
    ensures HasCapture(s.money.payments, s.money.payments[p].order) <==> s.money.payments[p].status == Payments.Captured
    ensures forall q :: 0 <= q < |s.money.payments| && s.money.payments[q].order == s.money.payments[p].order ==> q == p
    ensures s.money.payments[p].status != Payments.Captured ==>
      forall r :: 0 <= r < |s.money.refunds| ==> s.money.refunds[r].payment != p
    ensures PaymentsEvolve(s.money.payments, s.money.payments)
    ensures s.money.payments[p].status != Payments.Captured ==> forall status ::
      PaymentsEvolve(s.money.payments, Payments.MarkPayment(s.money, p, status).payments)
  {
  }

  lemma PaymentsStay(payments: seq<Payments.Payment>)
    ensures PaymentsEvolve(payments, payments)
  {
  }

  // ----- carts -----

  /** A claim survives when every order of the cart that was live still is. */
  lemma ClaimSurvives(a: seq<Order>, b: seq<Order>, c: CartId)
    requires Claimed(a, c) && |a| <= |b|
    requires forall o :: 0 <= o < |a| && a[o].cart == c && Live(a[o]) ==> b[o].cart == c && Live(b[o])
    ensures Claimed(b, c)
  {
    var o :| 0 <= o < |a| && a[o].cart == c && Live(a[o]);
    assert b[o].cart == c && Live(b[o]);
  }

  /** Closing a live order frees its cart: no other order of the cart is live. */
  lemma ClosingFreesTheCart(orders: seq<Order>, carts: seq<CartStatus>, o: OrderId, n: Order)
    requires CartsOK(orders, carts) && o < |orders| && Live(orders[o]) && !Live(n) && n.cart == orders[o].cart
    ensures CartsOK(orders[o := n], carts[n.cart := ActiveCart])
  {
    var freed := carts[n.cart := ActiveCart];
    forall c | 0 <= c < |freed| && freed[c] == ConvertedCart ensures Claimed(orders[o := n], c) {
      ClaimSurvives(orders, orders[o := n], c);
    }
  }

  /** A row that neither gains nor gives up a claim on its cart disturbs no cart. */
  lemma CartsStay(orders: seq<Order>, carts: seq<CartStatus>, o: OrderId, n: Order)
    requires CartsOK(orders, carts) && o < |orders| && n.cart == orders[o].cart && (Live(n) <==> Live(orders[o]))
    ensures CartsOK(orders[o := n], carts)
  {
    forall c | 0 <= c < |carts| && carts[c] == ConvertedCart ensures Claimed(orders[o := n], c) {
      ClaimSurvives(orders, orders[o := n], c);
    }
  }

  // ----- starting, holding, extending, cancelling, expiring -----

  lemma StartKeeps(s: State, c: CartId, key: nat, req: Request, rows: seq<Quotes.Row>, shop: Shop)
    requires CoreInv(s)
    ensures CoreInv(StartCheckout(s, c, key, req, rows, shop)) && Evolves(s, StartCheckout(s, c, key, req, rows, shop))
  {
    var existing := FindByKey(s.orders, key, 0);
    if existing.Some? {
      hide MoneyInv;
      hide CartsOK;
      TablesChange(s, StartCheckout(s, c, key, req, rows, shop));
    } else if CreateOrder(s, c, key, req, rows, shop).Some? {
      CreateOrderKeeps(s, c, key, req, rows, shop);
    }
  }

  lemma CreateOrderKeeps(s: State, c: CartId, key: nat, req: Request, rows: seq<Quotes.Row>, shop: Shop)
    requires CoreInv(s) && FindByKey(s.orders, key, 0).None? && CreateOrder(s, c, key, req, rows, shop).Some?
    ensures var t := Issue(CreateOrder(s, c, key, req, rows, shop).value, {PlaceHold(|s.orders|, false)});
      CoreInv(t) && Evolves(s, t)
  {
    NewOrderIsOK(s, c, key, req, rows, shop);
    hide CreateOrder;
    OrderIsAdded(s, CreateOrder(s, c, key, req, rows, shop).value.orders[|s.orders|]);
  }

  lemma OrderIsAdded(s: State, n: Order)
    requires CoreInv(s) && OrderOK(n) && n.status == PendingPayment && n.amountPaid == 0 && n.gatewayRef.None?
    requires n.payStatus == PayPending
    requires n.cart < |s.carts| && s.carts[n.cart] == ActiveCart
    requires forall o :: 0 <= o < |s.orders| ==> s.orders[o].key != n.key
    ensures var t := Issue(s.(orders := s.orders + [n], carts := s.carts[n.cart := ConvertedCart]),
                           {PlaceHold(|s.orders|, false)});
      CoreInv(t) && Evolves(s, t)
  {
    var t := Issue(s.(orders := s.orders + [n], carts := s.carts[n.cart := ConvertedCart]),
                   {PlaceHold(|s.orders|, false)});
    Unchanged(s);
    OrderAppears(s.orders, s.money, n);
    CartIsTaken(s.orders, s.carts, n);
    hide MoneyInv;
    hide CartsOK;
    hide OrderOK;
    assert Evolves(s, t);
    TasksSurvive(s, t);
  }

  lemma NewOrderIsOK(s: State, c: CartId, key: nat, req: Request, rows: seq<Quotes.Row>, shop: Shop)
    requires CreateOrder(s, c, key, req, rows, shop).Some?
    ensures c < |s.carts| && s.carts[c] == ActiveCart
    ensures var t := CreateOrder(s, c, key, req, rows, shop).value;
      && |t.orders| == |s.orders| + 1
      && var n := t.orders[|s.orders|];
      && t == s.(orders := s.orders + [n], carts := s.carts[c := ConvertedCart])
      && OrderOK(n) && n.cart == c && n.key == key && n.status == PendingPayment && n.payStatus == PayPending
      && n.amountPaid == 0 && n.gatewayRef.None?
  {
    Quotes.EveryPricedOrderFoots(rows, TermsOf(s, req, shop));
    Quotes.SplitFollowsMode(rows, TermsOf(s, req, shop));
  }

  /** An active cart has no live order, so a new one can claim it. */
  lemma CartIsTaken(orders: seq<Order>, carts: seq<CartStatus>, n: Order)
    requires CartsOK(orders, carts) && n.cart < |carts| && carts[n.cart] == ActiveCart && Live(n)
    ensures CartsOK(orders + [n], carts[n.cart := ConvertedCart])
  {
    var after, taken := orders + [n], carts[n.cart := ConvertedCart];
    forall c | 0 <= c < |taken| && taken[c] == ConvertedCart ensures Claimed(after, c) {
      if c == n.cart {
        assert after[|orders|].cart == c && Live(after[|orders|]);
      } else {
        ClaimSurvives(orders, after, c);
      }
    }
  }

  lemma PlaceHoldKeeps(s: State, o: OrderId, replay: bool, account: bool)
    requires CoreInv(s) && o < |s.orders|
    ensures CoreInv(PlaceHoldTx(s, o, replay, account)) && Evolves(s, PlaceHoldTx(s, o, replay, account))
  {
    hide MoneyInv;
    hide CartsOK;
    TablesChange(s, PlaceHoldTx(s, o, replay, account));
  }

  lemma ExtendKeeps(s: State, o: OrderId, account: bool)
    requires CoreInv(s) && o < |s.orders|
    ensures CoreInv(ExtendExpiryTx(s, o, account)) && Evolves(s, ExtendExpiryTx(s, o, account))
  {
    var t := ExtendExpiryTx(s, o, account);
    OrderFacts(s, o);
    hide MoneyInv;
    hide CartsOK;
    if s.orders[o].status == PendingPayment {
      OrderChanges(s.orders, s.money, o, t.orders[o]);
      CartsStay(s.orders, s.carts, o, t.orders[o]);
    }
    RowChanges(s, t, o);
  }

  lemma CancelPendingKeeps(s: State, o: OrderId)
    requires CoreInv(s) && o < |s.orders|
    ensures CoreInv(CancelPendingTx(s, o)) && Evolves(s, CancelPendingTx(s, o))
  {
    var t := CancelPendingTx(s, o);
    OrderFacts(s, o);
    hide MoneyInv;
    hide CartsOK;
    if s.orders[o].status == PendingPayment {
      OrderChanges(s.orders, s.money, o, t.orders[o]);
      ClosingFreesTheCart(s.orders, s.carts, o, t.orders[o]);
    }
    RowChanges(s, t, o);
  }

  lemma ExpireKeeps(s: State, o: OrderId)
    requires CoreInv(s) && o < |s.orders|
    ensures CoreInv(ExpireCheckout(s, o)) && Evolves(s, ExpireCheckout(s, o))
  {
    var t := ExpireCheckout(s, o);
    OrderFacts(s, o);
    hide MoneyInv;
    hide CartsOK;
    if t != s {
      OrderChanges(s.orders, s.money, o, t.orders[o]);
      ClosingFreesTheCart(s.orders, s.carts, o, t.orders[o]);
    }
    RowChanges(s, t, o);
  }

  // ----- the gateway -----

  lemma StartPaymentKeeps(s: State, o: OrderId, g: GatewayRef)
    requires CoreInv(s) && TaskOK(s, StartPayment(o))
    ensures CoreInv(StartPaymentTx(s, o, g)) && Evolves(s, StartPaymentTx(s, o, g))
  {
    hide MoneyInv;
    hide CartsOK;
    TablesChange(s, StartPaymentTx(s, o, g));
  }

  /** An order whose stored reference has no payment row has no payment row at all. */
  lemma NoPaymentYet(s: State, o: OrderId, g: GatewayRef)
    requires CoreInv(s) && o < |s.orders| && (s.orders[o].gatewayRef == None || s.orders[o].gatewayRef == Some(g))
    requires Payments.FindPayment(s.money.payments, o, g).None?
    ensures forall q :: 0 <= q < |s.money.payments| ==> s.money.payments[q].order != o
  {
  }

  /** The reference is the gateway's for this order, so the unique index on stored references never refuses it. */
  lemma ReferenceIsFree(s: State, o: OrderId, g: GatewayRef)
    requires CoreInv(s) && TaskOK(s, RecordGatewayOrder(o, g)) && s.orders[o].gatewayRef.None?
    ensures FindByRef(s.orders, g, 0).None?
  {
  }

  lemma RecordGatewayKeeps(s: State, o: OrderId, g: GatewayRef)
    requires CoreInv(s) && TaskOK(s, RecordGatewayOrder(o, g))
    ensures CoreInv(RecordGatewayOrderTx(s, o, g)) && Evolves(s, RecordGatewayOrderTx(s, o, g))
  {
    var order, found := s.orders[o], Payments.FindPayment(s.money.payments, o, g);
    var valid := Payments.ValidAmount(order.quote.split.advance);
    if found.None? && valid && (order.gatewayRef == None || order.gatewayRef == Some(g)) {
      FirstAttempt(s, o, g);
    } else {
      if found.Some? {
        PaymentFacts(s, found.value);
      }
      assert s.orders[o := order] == s.orders;
      Unchanged(s);
    }
  }

  lemma FirstAttempt(s: State, o: OrderId, g: GatewayRef)
    requires CoreInv(s) && TaskOK(s, RecordGatewayOrder(o, g))
    requires Payments.ValidAmount(s.orders[o].quote.split.advance)
    requires Payments.FindPayment(s.money.payments, o, g).None?
    requires s.orders[o].gatewayRef == None || s.orders[o].gatewayRef == Some(g)
    ensures CoreInv(RecordGatewayOrderTx(s, o, g)) && Evolves(s, RecordGatewayOrderTx(s, o, g))
  {
    var t := RecordGatewayOrderTx(s, o, g);
    NoPaymentYet(s, o, g);
    if s.orders[o].gatewayRef.None? {
      ReferenceIsFree(s, o, g);
    }
    OrderFacts(s, o);
    PaymentAppears(s.orders, s.money, o, g);
    Unchanged(s);
    hide MoneyInv;
    hide CartsOK;
    hide OrderOK;
    hide Settled;
    CartsStay(s.orders, s.carts, o, t.orders[o]);
    RowChanges(s, t, o);
  }

  // ----- confirming -----

  /** The confirmation door moves a pending order to confirmed and touches no money, cart or task. */
  lemma ConfirmCoreMoves(s: State, o: OrderId, shop: Shop, overredeem: bool)
    requires o < |s.orders| && ConfirmCore(s, o, shop, overredeem).Success?
    ensures s.orders[o].status == PendingPayment
    ensures var t := ConfirmCore(s, o, shop, overredeem).value;
      && t.orders == s.orders[o := s.orders[o].(status := Confirmed, confirmedAt := Some(s.now), expiresAt := None)]
      && t.money == s.money && t.carts == s.carts && t.minted == s.minted && t.issued == s.issued
      && t.now == s.now && t.tracked == s.tracked && t.runs == s.runs && t.calls == s.calls
  {
  }

  lemma ConfirmAtPlacementKeeps(s: State, o: OrderId, shop: Shop)
    requires CoreInv(s) && TaskOK(s, ConfirmAtPlacement(o))
    ensures CoreInv(ConfirmAtPlacementTx(s, o, shop)) && Evolves(s, ConfirmAtPlacementTx(s, o, shop))
  {
    hide CoreInv;
    hide MoneyInv;
    hide CartsOK;
    var t := ConfirmAtPlacementTx(s, o, shop);
    OrderFacts(s, o);
    PaymentsStay(s.money.payments);
    if s.orders[o].status == PendingPayment && ConfirmCore(s, o, shop, false).Success? {
      ConfirmCoreMoves(s, o, shop, false);
      hide ConfirmCore;
      OrderChanges(s.orders, s.money, o, t.orders[o]);
      CartsStay(s.orders, s.carts, o, t.orders[o]);
      RowChanges(s, t, o);
    } else {
      RowChanges(s, t, o);
    }
  }

  lemma CaptureConfirms(s: State, o: OrderId, p: PaymentId, shop: Shop)
    requires CoreInv(s) && o < |s.orders| && p < |s.money.payments| && s.money.payments[p].order == o
    requires s.money.payments[p].status != Payments.Captured && s.orders[o].status == PendingPayment
    requires var c := Capture(s, o, p, s.money.payments[p].amount);
      ConfirmCore(SetPayStatus(c, o, PaidStatus(c.orders[o])), o, shop, true).Success?
    ensures var c := Capture(s, o, p, s.money.payments[p].amount);
      var t := ConfirmCore(SetPayStatus(c, o, PaidStatus(c.orders[o])), o, shop, true).value;
      CoreInv(t) && Evolves(s, t)
  {
    var c := Capture(s, o, p, s.money.payments[p].amount);
    var u := SetPayStatus(c, o, PaidStatus(c.orders[o]));
    var t := ConfirmCore(u, o, shop, true).value;
    ConfirmCoreMoves(u, o, shop, true);
    hide ConfirmCore;
    OrderFacts(s, o);
    PaymentFacts(s, p);
    hide MoneyInv;
    hide CartsOK;
    PaymentIsCaptured(s.orders, s.money, p, t.orders[o], s.money.refunds);
    CartsStay(s.orders, s.carts, o, t.orders[o]);
    RowChanges(s, t, o);
  }

  lemma LateCaptureKeeps(s: State, o: OrderId, p: PaymentId)
    requires CoreInv(s) && o < |s.orders| && p < |s.money.payments| && s.money.payments[p].order == o
    requires s.money.payments[p].status != Payments.Captured && s.orders[o].status != PendingPayment
    ensures !OnLadder(s.orders[o].status)
    ensures var t := LateCapture(s, o, p, s.money.payments[p].amount); CoreInv(t) && Evolves(s, t)
  {
    hide CoreInv;
    hide MoneyInv;
    hide CartsOK;
    var t := LateCapture(s, o, p, s.money.payments[p].amount);
    OrderFacts(s, o);
    PaymentFacts(s, p);
    PaymentIsCaptured(s.orders, s.money, p, t.orders[o], t.money.refunds);
    CartsStay(s.orders, s.carts, o, t.orders[o]);
    RowChanges(s, t, o);
  }

  lemma ProcessCapturedKeeps(s: State, g: GatewayRef, amount: int, shop: Shop)
    requires CoreInv(s)
    ensures CoreInv(ProcessCaptured(s, g, amount, shop)) && Evolves(s, ProcessCaptured(s, g, amount, shop))
  {
    Unchanged(s);
    match Lookup(s, g)
    case None =>
    case Some((o, p)) =>
      hide CoreInv;
      var payment := s.money.payments[p];
      if payment.status == Payments.Captured {
      } else if amount != payment.amount {
        MismatchKeeps(s, p);
      } else if s.orders[o].status != PendingPayment {
        LateCaptureKeeps(s, o, p);
      } else {
        var c := Capture(s, o, p, amount);
        var confirmed := ConfirmCore(SetPayStatus(c, o, PaidStatus(c.orders[o])), o, shop, true);
        hide ConfirmCore;
        if confirmed.Success? {
          CaptureConfirms(s, o, p, shop);
        } else if confirmed.error.StockRefused? {
          OversoldIsIssued(s, g, amount, p);
        }
      }
  }

  lemma MismatchKeeps(s: State, p: PaymentId)
    requires CoreInv(s) && p < |s.money.payments| && s.money.payments[p].status != Payments.Captured
    ensures var t := s.(money := Payments.MarkPayment(s.money, p, Payments.PaymentFailed)); CoreInv(t) && Evolves(s, t)
  {
    PaymentFacts(s, p);
    PaymentFails(s.orders, s.money, p);
    hide MoneyInv;
    hide CartsOK;
    TablesChange(s, s.(money := Payments.MarkPayment(s.money, p, Payments.PaymentFailed)));
  }

  lemma OversoldIsIssued(s: State, g: GatewayRef, amount: int, p: PaymentId)
    requires CoreInv(s) && p < |s.money.payments| && s.money.payments[p].gateway == g
    requires s.money.payments[p].amount == amount
    ensures var t := Issue(s, {CancelOversold(g, amount)}); CoreInv(t) && Evolves(s, t)
  {
    var t := Issue(s, {CancelOversold(g, amount)});
    PaymentsStay(s.money.payments);
    assert TaskOK(t, CancelOversold(g, amount));
    hide MoneyInv;
    hide CartsOK;
    TablesChange(s, t);
  }

  lemma Unchanged(s: State)
    requires CoreInv(s)
    ensures Evolves(s, s)
  {
  }

  lemma CancelOversoldKeeps(s: State, g: GatewayRef, amount: int)
    requires CoreInv(s) && TaskOK(s, CancelOversold(g, amount))
    ensures CoreInv(CancelOversoldTx(s, g, amount)) && Evolves(s, CancelOversoldTx(s, g, amount))
  {
    match Lookup(s, g)
    case None => Unchanged(s);
    case Some((o, p)) =>
      OnePaymentPerGateway(s, g, amount, p);
      if s.money.payments[p].status == Payments.Captured {
        OversoldAfterCapture(s, g, amount, o, p);
      } else {
        OversoldBeforeCapture(s, g, amount, o, p);
      }
  }

  /** A duplicate delivery has captured the payment meanwhile: only the refund row is added. */
  lemma OversoldAfterCapture(s: State, g: GatewayRef, amount: int, o: OrderId, p: PaymentId)
    requires CoreInv(s) && Lookup(s, g) == Some((o, p)) && s.money.payments[p].amount == amount
    requires s.money.payments[p].status == Payments.Captured
    ensures CoreInv(CancelOversoldTx(s, g, amount)) && Evolves(s, CancelOversoldTx(s, g, amount))
  {
    hide CoreInv;
    hide MoneyInv;
    hide CartsOK;
    hide Lookup;
    hide Payments.RefundIntent;
    OrderFacts(s, o);
    PaymentFacts(s, p);
    RefundAppears(s.orders, s.money, p, Payments.StockShortfall);
    TablesChange(s, CancelOversoldTx(s, g, amount));
  }

  lemma OversoldBeforeCapture(s: State, g: GatewayRef, amount: int, o: OrderId, p: PaymentId)
    requires CoreInv(s) && Lookup(s, g) == Some((o, p)) && s.money.payments[p].amount == amount
    requires s.money.payments[p].status != Payments.Captured
    ensures CoreInv(CancelOversoldTx(s, g, amount)) && Evolves(s, CancelOversoldTx(s, g, amount))
  {
    hide CoreInv;
    hide MoneyInv;
    hide CartsOK;
    hide CancelOversoldTx;
    hide OversoldOrder;
    hide Lookup;
    hide OrderOK;
    hide Settled;
    var t := CancelOversoldTx(s, g, amount);
    var n := OversoldOrder(s.orders[o], amount);
    OversoldFacts(s, g, amount, o, p);
    OversoldRecords(s, g, amount, o, p);
    OversoldOrderIsOK(s.orders[o], amount);
    PaymentIsCaptured(s.orders, s.money, p, n, t.money.refunds);
    if s.orders[o].status == PendingPayment {
      ClosingFreesTheCart(s.orders, s.carts, o, n);
    } else {
      CartsStay(s.orders, s.carts, o, n);
    }
    ReleaseIsOK(t, o);
    RowChanges(s, t, o);
  }

  lemma OversoldFacts(s: State, g: GatewayRef, amount: int, o: OrderId, p: PaymentId)
    requires CoreInv(s) && Lookup(s, g) == Some((o, p)) && s.money.payments[p].amount == amount
    requires s.money.payments[p].status != Payments.Captured
    ensures MoneyInv(s.orders, s.money) && CartsOK(s.orders, s.carts)
    ensures OrderOK(s.orders[o]) && Settled(s.orders[o], false) && s.orders[o].gatewayRef == Some(g)
    ensures g in s.minted && s.minted[g] == o
    ensures Payments.ValidAmount(amount) && amount == s.orders[o].quote.split.advance
    ensures forall r :: 0 <= r < |s.money.refunds| ==> s.money.refunds[r].payment != p
    ensures PaymentsEvolve(s.money.payments, Payments.MarkPayment(s.money, p, Payments.Captured).payments)
    ensures s.orders[o].cart < |s.carts| && (Live(s.orders[o]) ==> s.carts[s.orders[o].cart] == ConvertedCart)
  {
    OrderFacts(s, o);
    PaymentFacts(s, p);
    hide MoneyInv;
    hide CartsOK;
    hide CoreInv;
  }

  lemma ReleaseIsOK(t: State, o: OrderId)
    requires o < |t.orders|
    ensures TaskOK(t, ReleaseHold(o))
  {
  }

  /** The order row as the oversold cancel leaves it. */
  function OversoldOrder(a: Order, amount: int): Order {
    var paid := a.(amountPaid := a.amountPaid + amount);
    if a.status == PendingPayment then paid.(status := Cancelled, payStatus := RefundInitiated) else paid
  }

  lemma OversoldOrderIsOK(a: Order, amount: int)
    requires OrderOK(a) && Settled(a, false) && amount == a.quote.split.advance && a.gatewayRef.Some?
    ensures var n := OversoldOrder(a, amount);
      && OrderOK(n) && Settled(n, true) && OrderEvolves(a, n) && n.status != PendingPayment && !OnLadder(n.status)
      && n.cart == a.cart && n.gatewayRef == a.gatewayRef && (a.status != PendingPayment ==> (Live(n) <==> Live(a)))
      && (a.status == PendingPayment ==> !Live(n)) && SameSale(a, n) && !OnLadder(a.status)
  {
  }

  /** What the oversold cancel writes when the payment is not captured yet. */
  lemma OversoldRecords(s: State, g: GatewayRef, amount: int, o: OrderId, p: PaymentId)
    requires Lookup(s, g) == Some((o, p)) && Payments.ValidAmount(amount)
    requires s.money.payments[p].status != Payments.Captured
    requires forall r :: 0 <= r < |s.money.refunds| ==> s.money.refunds[r].payment != p
    requires s.orders[o].cart < |s.carts|
    requires s.orders[o].status == PendingPayment ==> s.carts[s.orders[o].cart] == ConvertedCart
    ensures var n, pending := OversoldOrder(s.orders[o], amount), s.orders[o].status == PendingPayment;
      CancelOversoldTx(s, g, amount) == s.(
        orders := s.orders[o := n],
        carts := if pending then s.carts[n.cart := ActiveCart] else s.carts,
        money := Payments.Money(Payments.MarkPayment(s.money, p, Payments.Captured).payments,
          s.money.refunds + [Payments.Refund(o, p, amount, Payments.Pending, Payments.StockShortfall, None)]),
        issued := s.issued + {ReleaseHold(o)})
  {
    var paid := s.orders[o].(amountPaid := s.orders[o].amountPaid + amount);
    assert s.orders[o := paid][o := paid.(status := Cancelled, payStatus := RefundInitiated)]
        == s.orders[o := paid.(status := Cancelled, payStatus := RefundInitiated)];
  }

  /** The amount an oversold cancel carries is that of the one payment its gateway order has. */
  lemma OnePaymentPerGateway(s: State, g: GatewayRef, amount: int, p: PaymentId)
    requires CoreInv(s) && TaskOK(s, CancelOversold(g, amount)) && p < |s.money.payments|
    requires s.money.payments[p].gateway == g
    ensures s.money.payments[p].amount == amount
  {
  }

  // ----- the other webhooks, staff, and the refund worker -----

  lemma ProcessFailedKeeps(s: State, g: GatewayRef)
    requires CoreInv(s)
    ensures CoreInv(ProcessFailed(s, g)) && Evolves(s, ProcessFailed(s, g))
  {
    match Lookup(s, g)
    case None => Unchanged(s);
    case Some((o, p)) =>
      PaymentFacts(s, p);
      if s.money.payments[p].status != Payments.Captured {
        PaymentFails(s.orders, s.money, p);
      }
      hide MoneyInv;
      hide CartsOK;
      TablesChange(s, ProcessFailed(s, g));
  }

  lemma RefundProcessedKeeps(s: State, ref: GatewayRef)
    requires CoreInv(s)
    ensures CoreInv(ProcessRefundProcessed(s, ref)) && Evolves(s, ProcessRefundProcessed(s, ref))
  {
    var u := s.(money := s.money.(refunds := Payments.MarkProcessed(s.money.refunds, ref)));
    RefundRowsKeep(s, Payments.MarkProcessed(s.money.refunds, ref));
    PaymentsStay(s.money.payments);
    var hit := Payments.FindAwaiting(s.money.refunds, ref, 0);
    if hit.Some? && s.money.refunds[hit.value].order < |s.orders| {
      PayStatusChanges(s, u, s.money.refunds[hit.value].order, RefundDone);
    } else {
      hide MoneyInv;
      hide CartsOK;
      TablesChange(s, u);
    }
  }

  lemma PayStatusChanges(s: State, u: State, o: OrderId, status: PayStatus)
    requires CoreInv(s) && o < |s.orders| && u == s.(money := u.money) && u.money.payments == s.money.payments
    requires MoneyInv(s.orders, u.money) && status != Paid
    ensures CoreInv(SetPayStatus(u, o, status)) && Evolves(s, SetPayStatus(u, o, status))
  {
    var t := SetPayStatus(u, o, status);
    OrderFacts(s, o);
    PaymentsStay(s.money.payments);
    assert OrderEvolves(s.orders[o], t.orders[o]) && OrderOK(t.orders[o])
      && Settled(t.orders[o], HasCapture(s.money.payments, o));
    hide MoneyInv;
    hide CartsOK;
    hide CoreInv;
    hide OrderOK;
    hide Settled;
    hide PaymentsEvolve;
    OrderChanges(s.orders, u.money, o, t.orders[o]);
    CartsStay(s.orders, s.carts, o, t.orders[o]);
    RowChanges(s, t, o);
  }

  /** A refund row that only moves along keeps the money invariant. */
  lemma RefundRowsKeep(s: State, refunds: seq<Payments.Refund>)
    requires CoreInv(s) && |refunds| == |s.money.refunds|
    requires forall r :: 0 <= r < |refunds| ==> var a, b := s.money.refunds[r], refunds[r];
      && a.payment == b.payment && a.order == b.order && a.amount == b.amount
      && (b.status == Payments.Processed ==>
         b.gatewayRefund.Some? || (a.status == Payments.Processed && b.gatewayRefund == a.gatewayRefund))
    ensures MoneyInv(s.orders, s.money.(refunds := refunds))
  {
    forall r | 0 <= r < |s.money.refunds| ensures RefundOK(s.money.payments, s.money.refunds[r]) {
    }
    RefundMoves(s.orders, s.money, refunds);
  }

  lemma CancelOrderKeeps(s: State, o: OrderId)
    requires CoreInv(s) && o < |s.orders|
    ensures CoreInv(CancelOrder(s, o)) && Evolves(s, CancelOrder(s, o))
  {
    hide CoreInv;
    hide MoneyInv;
    hide CartsOK;
    hide LinesOf;
    hide Inventory.Restock;
    var t := CancelOrder(s, o);
    OrderFacts(s, o);
    Unchanged(s);
    var found := Payments.FindCaptured(s.money.payments, o);
    if found.Some? {
      PaymentFacts(s, found.value);
      RefundAppears(s.orders, s.money, found.value, Payments.MerchantCancelled);
    }
    if s.orders[o].status in {Confirmed, Packing} && t != s {
      OrderLeavesLadder(s.orders, t.money, o, t.orders[o]);
      CartsStay(s.orders, s.carts, o, t.orders[o]);
      RowChanges(s, t, o);
    }
  }

  lemma ManualKeeps(s: State, o: OrderId, to: Status)
    requires CoreInv(s) && o < |s.orders|
    ensures CoreInv(ManualTransition(s, o, to)) && Evolves(s, ManualTransition(s, o, to))
  {
    var t := ManualTransition(s, o, to);
    OrderFacts(s, o);
    PaymentsStay(s.money.payments);
    if ManualStep(s.orders[o].status, to) {
      ManualOrderIsOK(s.orders[o], to, HasCapture(s.money.payments, o));
      assert t == SetOrder(s, o, ManualOrder(s.orders[o], to));
      hide *;
      OrderChanges(s.orders, s.money, o, t.orders[o]);
      CartsStay(s.orders, s.carts, o, t.orders[o]);
      RowChanges(s, t, o);
    } else {
      Unchanged(s);
    }
  }

  /** The order row after a staff step. */
  function ManualOrder(a: Order, to: Status): Order {
    if CollectsCash(a, to) then a.(status := to, payStatus := Paid, amountPaid := a.quote.total, codDue := 0)
    else a.(status := to)
  }

  lemma ManualOrderIsOK(a: Order, to: Status, captured: bool)
    requires OrderOK(a) && Settled(a, captured) && ManualStep(a.status, to)
    ensures var n := ManualOrder(a, to);
      && OrderOK(n) && Settled(n, captured) && OrderEvolves(a, n) && n.gatewayRef == a.gatewayRef
      && n.status != PendingPayment && OnLadder(n.status) && (Live(n) <==> Live(a))
  {
  }

  /** The refund worker moves refund rows along and nothing else of this invariant. */
  lemma WorkerKeeps(s: State, t: State)
    requires CoreInv(s)
    requires exists runs, calls, money :: t == s.(runs := runs, calls := calls, money := money)
    requires t.money.payments == s.money.payments && MoneyInv(s.orders, t.money)
    ensures CoreInv(t) && Evolves(s, t)
  {
    Unchanged(s);
    hide MoneyInv;
    hide CartsOK;
    TablesChange(s, t);
  }
}
