/**
 * What the checkout promises, for every run from an empty shop: any interleaving
 * of any number of requests, redelivered webhooks, staff actions, worker runs
 * and clock ticks, each request stopping after any of its transactions.
 */
module CheckoutTheorems {
  import opened Common
  import opened Inventory
  import opened InventoryProofs
  import opened Orders
  import opened Checkout
  import opened MoneyInvariant
  import opened CheckoutInvariant
  import opened CheckoutRuns
  import opened StockOverRuns
  import opened BooksOverRuns
  import opened RefundsOverRuns
  import opened HoldWindow
  import Payments
  import Quotes
  import Invoices
  import Coupons
  import Tax

  // ----- every stored quote foots -----

  /** The amounts foot, and the invoice door's range checks accept them. */
  ghost predicate Billable(q: Quotes.Quote) {
    && Quotes.InvoiceFoots(q) && q.lines != [] && 0 <= q.tax <= q.total
    && Invoices.SafeAmounts(Invoices.AmountsOf(q)) && (Invoices.CarriesTax(Invoices.AmountsOf(q)) <==> q.tax != 0)
  }

  ghost predicate QuotesOK(orders: seq<Order>) {
    forall o :: 0 <= o < |orders| ==> Billable(orders[o].quote)
  }

  /**
   * The columns of footing lines: none is negative, the three taxes
   * make up the tax, and with the taxable value the total.
   */
  lemma {:induction false} ColumnsAddUp(lines: seq<Quotes.OrderLine>)
    requires forall i :: 0 <= i < |lines| ==> Quotes.LineFoots(lines[i])
    ensures
      var cgst, sgst := Quotes.SumOf(lines, Quotes.Cgst), Quotes.SumOf(lines, Quotes.Sgst);
      var igst := Quotes.SumOf(lines, Quotes.Igst);
      && cgst >= 0 && sgst >= 0 && igst >= 0 && Quotes.SumOf(lines, Quotes.Taxable) >= 0
      && cgst + sgst + igst == Quotes.SumOf(lines, Quotes.TaxTotal)
      && Quotes.SumOf(lines, Quotes.Taxable) + cgst + sgst + igst == Quotes.SumOf(lines, Quotes.Total)
  {
    if lines != [] {
      ColumnsAddUp(lines[..|lines| - 1]);
    }
  }

  lemma PricedOrdersAreBillable(rows: seq<Quotes.Row>, t: Quotes.Terms)
    requires Quotes.PriceOrder(rows, t).Success?
    ensures Billable(Quotes.PriceOrder(rows, t).value)
  {
    hide Quotes.PriceOrder;
    hide Quotes.SumOf;
    hide Quotes.LineFoots;
    Quotes.EveryPricedOrderFoots(rows, t);
    PricedOrdersHaveLines(rows, t);
    ColumnsAddUp(Quotes.PriceOrder(rows, t).value.lines);
  }

  lemma PricedOrdersHaveLines(rows: seq<Quotes.Row>, t: Quotes.Terms)
    requires Quotes.PriceOrder(rows, t).Success?
    ensures var q := Quotes.PriceOrder(rows, t).value;
      q.lines != [] && q.total <= Tax.MAX_SAFE / 10_000 && q.subtotal <= Tax.MAX_SAFE
  {
  }

  lemma OrdersAppearOnlyAtStart(s: State, c: Step)
    requires !c.Start?
    ensures |Apply(s, c).orders| == |s.orders|
  {
    match c
    case Perform(task, g, shop) => TaskAddsNoOrder(s, task, g, shop); hide PerformTask;
    case CaptureEvent(g, amount, shop) => CaptureAddsNoOrder(s, g, amount, shop); hide ProcessCaptured;
    case _ =>
  }

  lemma TaskAddsNoOrder(s: State, task: Task, g: GatewayRef, shop: Shop)
    ensures |PerformTask(s, task, g, shop).orders| == |s.orders|
  {
    if task.ConfirmAtPlacement? && task.order < |s.orders| && ConfirmCore(s, task.order, shop, false).Success? {
      ConfirmCoreMoves(s, task.order, shop, false);
    }
    hide ConfirmCore;
    hide HoldStock;
  }

  lemma CaptureAddsNoOrder(s: State, g: GatewayRef, amount: int, shop: Shop)
    ensures |ProcessCaptured(s, g, amount, shop).orders| == |s.orders|
  {
    if Lookup(s, g).Some? {
      var (o, p) := Lookup(s, g).value;
      var cap := Capture(s, o, p, amount);
      if ConfirmCore(SetPayStatus(cap, o, PaidStatus(cap.orders[o])), o, shop, true).Success? {
        ConfirmCoreMoves(SetPayStatus(cap, o, PaidStatus(cap.orders[o])), o, shop, true);
      }
    }
    hide ConfirmCore;
  }

  lemma CreatedOrderIsPriced(s: State, c: CartId, key: nat, req: Request, rows: seq<Quotes.Row>, shop: Shop)
    requires CreateOrder(s, c, key, req, rows, shop).Some?
    ensures var t := CreateOrder(s, c, key, req, rows, shop).value;
      |t.orders| == |s.orders| + 1
        && Quotes.PriceOrder(rows, TermsOf(s, req, shop)) == Success(t.orders[|s.orders|].quote)
  {
  }

  lemma NewOrdersAreBillable(s: State, c: CartId, key: nat, req: Request, rows: seq<Quotes.Row>, shop: Shop)
    ensures var t := StartCheckout(s, c, key, req, rows, shop);
      forall o :: |s.orders| <= o < |t.orders| ==> Billable(t.orders[o].quote)
  {
    if CreateOrder(s, c, key, req, rows, shop).Some? {
      CreatedOrderIsPriced(s, c, key, req, rows, shop);
      PricedOrdersAreBillable(rows, TermsOf(s, req, shop));
    }
    hide Billable;
    hide Quotes.PriceOrder;
    hide CreateOrder;
    hide TermsOf;
  }

  lemma StepKeepsQuotes(s: State, c: Step)
    requires CoreInv(s) && QuotesOK(s.orders)
    ensures QuotesOK(Apply(s, c).orders)
  {
    StepKeepsCore(s, c);
    hide CoreInv;
    hide Billable;
    if c.Start? {
      NewOrdersAreBillable(s, c.cart, c.key, c.request, c.rows, c.shop);
    } else {
      OrdersAppearOnlyAtStart(s, c);
    }
    hide Apply;
    forall o | 0 <= o < |s.orders| ensures OrderEvolves(s.orders[o], Apply(s, c).orders[o]) {
    }
  }

  // ----- the whole invariant -----

  ghost predicate AllInv(s: State) {
    Sound(s) && BooksInv(s) && WorkerInv(s.money.refunds, s.runs, s.calls) && QuotesOK(s.orders)
  }

  lemma StepKeepsAll(s: State, c: Step)
    requires AllInv(s)
    ensures AllInv(Apply(s, c))
  {
    hide CoreInv;
    hide StockInv;
    hide ReleasesOK;
    hide BooksInv;
    hide WorkerInv;
    hide QuotesOK;
    hide Apply;
    StepIsSound(s, c);
    StepKeepsBooks(s, c);
    StepKeepsWorker(s, c);
    StepKeepsQuotes(s, c);
  }

  /** Every reachable state satisfies the whole invariant. */
  lemma {:induction false} RunsKeepAll(tracked: set<VariantId>, steps: seq<Step>)
    ensures AllInv(Run(Initial(tracked), steps))
  {
    if steps == [] {
      InitialIsSound(tracked);
    } else {
      RunsKeepAll(tracked, steps[..|steps| - 1]);
      StepKeepsAll(Run(Initial(tracked), steps[..|steps| - 1]), steps[|steps| - 1]);
      hide AllInv;
      hide Apply;
    }
  }

  // ----- the promises -----

  /** Exactly one refund row returns the payment, in full. */
  ghost predicate RefundedInFull(m: Payments.Money, p: PaymentId)
    requires p < |m.payments|
  {
    exists r :: 0 <= r < |m.refunds| && m.refunds[r].payment == p && m.refunds[r].amount == m.payments[p].amount
      && forall q :: 0 <= q < |m.refunds| && m.refunds[q].payment == p ==> q == r
  }

  /** Money taken is on an order being fulfilled, or on its way back in full. */
  lemma MoneyIsSafe(tracked: set<VariantId>, steps: seq<Step>, p: PaymentId)
    requires var m := Run(Initial(tracked), steps).money; p < |m.payments| && m.payments[p].status == Payments.Captured
    ensures var s := Run(Initial(tracked), steps);
      && s.money.payments[p].order < |s.orders|
      && (OnLadder(s.orders[s.money.payments[p].order].status) || RefundedInFull(s.money, p))
  {
    RunsKeepAll(tracked, steps);
    var s := Run(Initial(tracked), steps);
    assert CoreInv(s) && PaymentOK(s.orders, s.money.payments[p]);
    hide Run;
    if !OnLadder(s.orders[s.money.payments[p].order].status) {
      RefundIsTheOne(s.orders, s.money, p);
    }
  }

  /**
   * Why the promise is an inclusive or. A delivery was refused over stock and its oversold cancel is still to run; a
   * duplicate has captured the payment meanwhile, and confirmed the order. The cancel then leaves the order as it is,
   * on the ladder or not, and still sends the money back.
   */
  lemma ALateOversoldCancelRefundsAnyway(s: State, g: GatewayRef, amount: int, shop: Shop, o: OrderId, p: PaymentId)
    requires CoreInv(s) && CancelOversold(g, amount) in s.issued
    requires Lookup(s, g) == Some((o, p)) && s.money.payments[p].status == Payments.Captured
    ensures var t := Apply(s, Perform(CancelOversold(g, amount), g, shop));
      t.orders == s.orders && t.money.payments == s.money.payments && RefundedInFull(t.money, p)
  {
    assert TaskOK(s, CancelOversold(g, amount));
    OnePaymentPerGateway(s, g, amount, p);
    PaymentFacts(s, p);
    RefundAppears(s.orders, s.money, p, Payments.StockShortfall);
    hide CoreInv;
    hide MoneyInv;
    hide Lookup;
    hide RefundedInFull;
    RefundIsTheOne(s.orders, CancelOversoldTx(s, g, amount).money, p);
  }

  lemma RefundIsTheOne(orders: seq<Order>, m: Payments.Money, p: PaymentId)
    requires MoneyInv(orders, m) && p < |m.payments| && MoneyInvariant.Refunded(m.refunds, p)
    ensures RefundedInFull(m, p)
  {
  }

  /**
   * Redelivery is harmless: once a gateway order's payment is
   * captured, no capture or failure delivery changes anything.
   */
  lemma DeliveriesAfterCaptureChangeNothing(tracked: set<VariantId>, steps: seq<Step>, p: PaymentId, amount: int,
                                            shop: Shop)
    requires var m := Run(Initial(tracked), steps).money; p < |m.payments| && m.payments[p].status == Payments.Captured
    ensures var s := Run(Initial(tracked), steps);
      var g := s.money.payments[p].gateway;
      Lookup(s, g).Some? && ProcessCaptured(s, g, amount, shop) == s && ProcessFailed(s, g) == s
  {
    RunsKeepAll(tracked, steps);
    var s := Run(Initial(tracked), steps);
    hide Run;
    PaymentIsLookedUp(s, p);
    hide AllInv;
    hide Lookup;
  }

  /** A payment's gateway order leads back to it and to no other. */
  lemma PaymentIsLookedUp(s: State, p: PaymentId)
    requires CoreInv(s) && p < |s.money.payments|
    ensures Lookup(s, s.money.payments[p].gateway) == Some((s.money.payments[p].order, p))
  {
    var payment := s.money.payments[p];
    PaymentFacts(s, p);
    OrderFacts(s, payment.order);
    var o := FindByRef(s.orders, payment.gateway, 0);
    if o.Some? {
      OrderFacts(s, o.value);
    }
    hide CoreInv;
    hide MoneyInv;
    hide CartsOK;
  }

  /**
   * A payment not captured by the time its order closed belongs to no
   * order being fulfilled: a late capture is always refunded.
   */
  lemma LateMoneyIsNeverKept(tracked: set<VariantId>, steps: seq<Step>, p: PaymentId)
    requires var s := Run(Initial(tracked), steps);
      && p < |s.money.payments| && s.money.payments[p].status != Payments.Captured
      && s.money.payments[p].order < |s.orders| && s.orders[s.money.payments[p].order].status != PendingPayment
    ensures var s := Run(Initial(tracked), steps); !OnLadder(s.orders[s.money.payments[p].order].status)
  {
    RunsKeepAll(tracked, steps);
    var s := Run(Initial(tracked), steps);
    hide Run;
    PaymentFacts(s, p);
    OrderFacts(s, s.money.payments[p].order);
  }

  /** Now and at every later clock value, what checkouts hold of a variant is on hand. */
  lemma PromisesAreBacked(tracked: set<VariantId>, steps: seq<Step>, v: VariantId, later: int)
    requires Run(Initial(tracked), steps).now <= later
    ensures var stock := Run(Initial(tracked), steps).stock;
      0 <= Reserved(stock.holds, v, later) <= OnHand(stock.levels, v)
  {
    RunsKeepAll(tracked, steps);
    var s := Run(Initial(tracked), steps);
    hide Run;
    TimePassesKeeps(s.stock, s.now, later);
    assert Backed(s.stock, later);
  }

  /**
   * At most one order of a cart is ever confirmed, at most one is
   * pending, and not both; a pending one has the cart converted.
   */
  lemma ACartIsBoughtOnce(tracked: set<VariantId>, steps: seq<Step>, o: OrderId, p: OrderId)
    requires var s := Run(Initial(tracked), steps);
      o < |s.orders| && p < |s.orders| && s.orders[o].cart == s.orders[p].cart
    requires var s := Run(Initial(tracked), steps); Live(s.orders[o]) && Live(s.orders[p])
    ensures o == p
    ensures var s := Run(Initial(tracked), steps);
      s.orders[o].cart < |s.carts| && s.carts[s.orders[o].cart] == ConvertedCart
  {
    RunsKeepAll(tracked, steps);
    var s := Run(Initial(tracked), steps);
    hide Run;
    assert CartsOK(s.orders, s.carts);
  }

  /**
   * A cart is converted exactly while it has a live order: no order leaves the buyer without order and without cart.
   */
  lemma NoCartIsLost(tracked: set<VariantId>, steps: seq<Step>, c: CartId)
    requires c < |Run(Initial(tracked), steps).carts|
    ensures var s := Run(Initial(tracked), steps);
      s.carts[c] == ConvertedCart <==> exists o :: 0 <= o < |s.orders| && s.orders[o].cart == c && Live(s.orders[o])
  {
    RunsKeepAll(tracked, steps);
    var s := Run(Initial(tracked), steps);
    hide Run;
    assert CartsOK(s.orders, s.carts);
    assert s.carts[c] == ConvertedCart ==> CheckoutInvariant.Claimed(s.orders, c);
    hide AllInv;
  }

  /**
   * One order per idempotency key and per gateway reference, over every run; and a start with a key that has its order
   * already adds no order and takes no cart.
   */
  lemma OneOrderPerKey(tracked: set<VariantId>, steps: seq<Step>, o: OrderId, p: OrderId)
    requires o < p < |Run(Initial(tracked), steps).orders|
    ensures var s := Run(Initial(tracked), steps);
      && s.orders[o].key != s.orders[p].key
      && (s.orders[o].gatewayRef.Some? ==> s.orders[o].gatewayRef != s.orders[p].gatewayRef)
    ensures var s := Run(Initial(tracked), steps);
      forall cart, request, rows, shop ::
        var t := Apply(s, Start(cart, s.orders[o].key, request, rows, shop));
        t == s || t == Issue(s, {PlaceHold(o, true)})
  {
    hide Run;
    hide MoneyInv;
    hide CartsOK;
    hide StockInv;
    hide BooksInv;
    hide CreateOrder;
    RunsKeepAll(tracked, steps);
    var s := Run(Initial(tracked), steps);
    assert KeysAreUnique(s.orders) && RefsOK(s.orders, s.minted);
  }

  /**
   * Nothing committed is rewritten: from any moment of a run to its end an order keeps its cart, key, request and
   * price, and once it has them its gateway reference and its time of confirmation; and its status only goes on.
   */
  lemma {:induction false} NothingIsRewritten(tracked: set<VariantId>, steps: seq<Step>, n: nat, o: OrderId)
    requires n <= |steps| && o < |Run(Initial(tracked), steps[..n]).orders|
    ensures o < |Run(Initial(tracked), steps).orders|
    ensures var a, b := Run(Initial(tracked), steps[..n]).orders[o], Run(Initial(tracked), steps).orders[o];
      && a.cart == b.cart && a.key == b.key && SameSale(a, b)
      && (a.gatewayRef.Some? ==> b.gatewayRef == a.gatewayRef)
      && (a.confirmedAt.Some? ==> b.confirmedAt == a.confirmedAt)
      && (b.status == a.status || Stage(a.status) < Stage(b.status))
  {
    hide CoreInv;
    hide CanTransition;
    hide Stage;
    hide Apply;
    if n == |steps| {
      assert steps[..n] == steps;
    } else {
      var last := |steps| - 1;
      assert steps[..last][..n] == steps[..n];
      NothingIsRewritten(tracked, steps[..last], n, o);
      RunsKeepAll(tracked, steps[..last]);
      StepKeepsCore(Run(Initial(tracked), steps[..last]), steps[last]);
      var a, b := Run(Initial(tracked), steps[..last]).orders[o], Run(Initial(tracked), steps).orders[o];
      assert OrderEvolves(a, b);
      TransitionsGoOn(a.status, b.status);
    }
  }

  /** On hand is what the staff moved less what confirmed, uncancelled orders have out; and the ledger says so. */
  lemma StockIsConserved(tracked: set<VariantId>, steps: seq<Step>, v: VariantId)
    ensures var s := Run(Initial(tracked), steps);
      && OnHand(s.stock.levels, v) == LedgerSum(s.stock.ledger, v)
      && OnHand(s.stock.levels, v) == LedgerSum(Rows(s.stock.ledger, ByStaff), v) - Sold(s.orders, s.tracked, v)
  {
    RunsKeepAll(tracked, steps);
    var s := Run(Initial(tracked), steps);
    hide Run;
    assert Projected(s.stock) && Conserved(s.orders, s.tracked, s.stock.ledger);
  }

  /**
   * The ledger rows of an order: one sale per tracked line iff it was ever
   * confirmed, one restock per line iff cancelled after that.
   */
  lemma SalesAreExact(tracked: set<VariantId>, steps: seq<Step>, o: OrderId)
    requires o < |Run(Initial(tracked), steps).orders|
    ensures var s := Run(Initial(tracked), steps);
      var order := s.orders[o];
      var sold := SoldLines(order, s.tracked);
      && Rows(s.stock.ledger, ForOrder(Sale, o)) ==
         (if order.confirmedAt.Some? then SaleRows(o, sold) else [])
      && Rows(s.stock.ledger, ForOrder(CancellationRestock, o)) ==
         (if order.confirmedAt.Some? && order.status == Cancelled then RestockRows(o, sold) else [])
  {
    RunsKeepAll(tracked, steps);
    var s := Run(Initial(tracked), steps);
    hide Run;
    assert OrderExplained(o, s.orders[o], s.tracked, s.stock.ledger);
  }

  /**
   * One attempt per order, for the total less the balance. The balance stays due until delivery collects it; what an
   * order being fulfilled has received is the captured advance and, once delivered, the balance: paid in full.
   */
  lemma SettlementBalances(tracked: set<VariantId>, steps: seq<Step>, o: OrderId)
    requires o < |Run(Initial(tracked), steps).orders|
    ensures var s := Run(Initial(tracked), steps);
      var order := s.orders[o];
      && (forall p, q :: 0 <= p < q < |s.money.payments| ==> s.money.payments[p].order != s.money.payments[q].order)
      && (forall p :: 0 <= p < |s.money.payments| && s.money.payments[p].order == o ==>
          s.money.payments[p].amount + order.quote.split.codDue == order.quote.total)
    ensures var s := Run(Initial(tracked), steps);
      var order := s.orders[o];
      var advance := if HasCapture(s.money.payments, o) then order.quote.split.advance else 0;
      var collected := if order.status == Delivered then order.quote.split.codDue else 0;
      && (order.status != Delivered ==> order.codDue == order.quote.split.codDue)
      && (order.status == Delivered ==> order.amountPaid == order.quote.total && order.codDue == 0)
      && (OnLadder(order.status) ==>
          order.amountPaid == advance + collected && order.amountPaid + order.codDue == order.quote.total)
  {
    RunsKeepAll(tracked, steps);
    var s := Run(Initial(tracked), steps);
    hide Run;
    OrderFacts(s, o);
    forall p | 0 <= p < |s.money.payments| && s.money.payments[p].order == o
      ensures s.money.payments[p].amount + s.orders[o].quote.split.codDue == s.orders[o].quote.total
      ensures forall q :: 0 <= q < |s.money.payments| && s.money.payments[q].order == o ==> q == p
    {
      PaymentFacts(s, p);
    }
    hide MoneyInv;
    hide CoreInv;
    hide AllInv;
  }

  /**
   * Confirmed orders and invoices correspond one to one, an invoice has
   * its order's lines and amounts, and a series has no gap.
   */
  lemma InvoicesAreExact(tracked: set<VariantId>, steps: seq<Step>, series: Invoices.Series)
    ensures var s := Run(Initial(tracked), steps);
      && (forall o :: 0 <= o < |s.orders| ==> (s.orders[o].confirmedAt.Some? <==> Invoiced(s.register.invoices, o)))
      && (forall i, j :: 0 <= i < j < |s.register.invoices| ==>
         s.register.invoices[i].order != s.register.invoices[j].order)
      && (forall i :: 0 <= i < |s.register.invoices| ==> InvoiceMatches(s.orders, s.register.invoices[i]))
      && (forall n: nat :: Invoices.Issued(s.register.invoices, series, n) <==>
            Invoices.FIRST_NUMBER <= n < Invoices.NextNumber(s.register.next, series))
  {
    RunsKeepAll(tracked, steps);
    var s := Run(Initial(tracked), steps);
    hide Run;
    Invoices.NumbersAreConsecutive(s.register, series);
    forall i | 0 <= i < |s.register.invoices| ensures InvoiceMatches(s.orders, s.register.invoices[i]) {
    }
  }

  /**
   * Redemptions of a promotion, and of each of its customers, fill the
   * slots 0..n-1; each is of a confirmed order, one per order.
   */
  lemma CouponSlotsAreExact(tracked: set<VariantId>, steps: seq<Step>, p: PromoId, c: Option<CustomerId>)
    ensures var s := Run(Initial(tracked), steps);
      var rows := s.coupons.redemptions;
      && (forall k: nat :: Coupons.Taken(rows, p, c, k) <==> k < Coupons.CountRows(rows, p, c))
      && (forall i, j :: 0 <= i < j < |rows| && Coupons.IsFor(rows[i], p, c) && Coupons.IsFor(rows[j], p, c) ==>
          Coupons.SlotOf(rows[i], c) != Coupons.SlotOf(rows[j], c))
      && (forall i :: 0 <= i < |rows| ==> RedemptionMatches(s.orders, rows[i]))
      && (forall i, j :: 0 <= i < j < |rows| ==> rows[i].order != rows[j].order)
  {
    RunsKeepAll(tracked, steps);
    var s := Run(Initial(tracked), steps);
    hide Run;
    Coupons.SlotsAreExactly(s.coupons.redemptions, p, c);
    assert CouponsOK(s.orders, s.coupons);
    hide AllInv;
    hide Coupons.SlotsInOrder;
    forall i, j | 0 <= i < j < |s.coupons.redemptions|
      ensures s.coupons.redemptions[i].order != s.coupons.redemptions[j].order
    {
      assert RedemptionMatches(s.orders, s.coupons.redemptions[i])
        && RedemptionMatches(s.orders, s.coupons.redemptions[j]);
    }
  }

  /**
   * At most one outbound call per refund row; a payment is sent back
   * never or once in full; processed means sent and recorded.
   */
  lemma RefundsGoOutOnce(tracked: set<VariantId>, steps: seq<Step>, p: PaymentId)
    requires p < |Run(Initial(tracked), steps).money.payments|
    ensures var s := Run(Initial(tracked), steps);
      && (forall k, l :: 0 <= k < l < |s.calls| ==> s.calls[k].refund != s.calls[l].refund)
      && (SentBack(s.calls, p) == 0
          || (SentBack(s.calls, p) == s.money.payments[p].amount && s.money.payments[p].status == Payments.Captured))
      && (forall r :: 0 <= r < |s.money.refunds| && s.money.refunds[r].status == Payments.Processed ==>
          s.money.refunds[r].gatewayRefund.Some? && CallMade(s.calls, r))
  {
    RunsKeepAll(tracked, steps);
    var s := Run(Initial(tracked), steps);
    hide Run;
    SentBackAtMostOnce(s, p);
    forall r | 0 <= r < |s.money.refunds| ensures RefundOK(s.money.payments, s.money.refunds[r]) {
      assert RefundsOK(s.money.payments, s.money.refunds);
    }
  }

  // ----- the exact form of the promise to a buyer in the hold window -----

  /**
   * The invoice of a pending order can be issued unless the seller
   * now issues bills of supply and the order carries tax.
   */
  lemma WhenAnInvoiceCanBeIssued(s: State, o: OrderId, shop: Shop)
    requires AllInv(s) && o < |s.orders| && s.orders[o].status == PendingPayment
    ensures Invoiceable(s, o, shop) <==> shop.registration == Tax.Regular || s.orders[o].quote.tax == 0
  {
    OrderFacts(s, o);
    assert Billable(s.orders[o].quote);
    forall i | 0 <= i < |s.register.invoices| ensures s.register.invoices[i].order != o {
      assert InvoiceMatches(s.orders, s.register.invoices[i]);
    }
    hide AllInv;
    hide MoneyInv;
    hide CartsOK;
  }

  /**
   * The promise to the buyer. An order is held at some moment of some run; whatever anybody does in the next fifteen
   * minutes, if the order is then still pending and its payment is captured for the first time, the order is confirmed,
   * exactly when its invoice fits the seller's registration at that time; it is never cancelled as oversold.
   */
  lemma HeldBuyersGetTheirOrder(tracked: set<VariantId>, before: seq<Step>, o: OrderId, replay: bool, hold: Shop,
                                after: seq<Step>, g: GatewayRef, amount: int, shop: Shop, p: PaymentId)
    requires var s := Run(Initial(tracked), before);
      && PlaceHold(o, replay) in s.issued && o < |s.orders|
      && HoldStock(s.stock, s.now, s.tracked, o, LinesOf(s.orders[o])).Success?
      && var u := Run(PlaceHoldTx(s, o, replay, hold.account), after);
      && u.now < s.now + RESERVATION_TTL_MS
      && Lookup(u, g) == Some((o, p)) && u.orders[o].status == PendingPayment
      && u.money.payments[p].status != Payments.Captured && amount == u.money.payments[p].amount
    ensures var u := Run(PlaceHoldTx(Run(Initial(tracked), before), o, replay, hold.account), after);
      var t := ProcessCaptured(u, g, amount, shop);
      && t.issued == u.issued
      && (if shop.registration == Tax.Regular || u.orders[o].quote.tax == 0
          then t.orders[o].status == Confirmed && t.money.payments[p].status == Payments.Captured
          else t == u)
  {
    hide AllInv;
    hide Run;
    hide PlaceHoldTx;
    hide HoldStock;
    hide Lookup;
    hide ProcessCaptured;
    var s := Run(Initial(tracked), before);
    var held := PlaceHoldTx(s, o, replay, hold.account);
    RunsKeepAll(tracked, before);
    StepKeepsAll(s, Perform(PlaceHold(o, replay), 0, hold));
    RunFromKeepsAll(held, after);
    WhenAnInvoiceCanBeIssued(Run(held, after), o, shop);
    CaptureInTheHoldWindow(tracked, before, o, replay, hold, after, g, amount, shop, p);
  }

  /**
   * The same for a buyer who never sees the gateway, by cash on delivery or with nothing to pay. A placement within
   * fifteen minutes of the hold finds the stock there: it leads to a cancel exactly when the coupon has no slot left,
   * and otherwise confirms the order exactly when its invoice fits the seller's registration.
   */
  lemma HeldPlacementsAreConfirmed(tracked: set<VariantId>, before: seq<Step>, o: OrderId, replay: bool, hold: Shop,
                                   after: seq<Step>, shop: Shop)
    requires var s := Run(Initial(tracked), before);
      && PlaceHold(o, replay) in s.issued && o < |s.orders|
      && HoldStock(s.stock, s.now, s.tracked, o, LinesOf(s.orders[o])).Success?
      && var u := Run(PlaceHoldTx(s, o, replay, hold.account), after);
      u.now < s.now + RESERVATION_TTL_MS && o < |u.orders| && u.orders[o].status == PendingPayment
    ensures var u := Run(PlaceHoldTx(Run(Initial(tracked), before), o, replay, hold.account), after);
      var t := ConfirmAtPlacementTx(u, o, shop);
      if !CouponLeft(u.coupons, u.orders[o]) then t == Issue(u, {CancelPending(o)})
      else if shop.registration == Tax.Regular || u.orders[o].quote.tax == 0 then
        t.orders[o].status == Confirmed && t.issued == u.issued
      else t == u
  {
    hide AllInv;
    hide Run;
    hide PlaceHoldTx;
    hide HoldStock;
    hide ConfirmAtPlacementTx;
    hide ClaimCoupon;
    hide CouponLeft;
    var s := Run(Initial(tracked), before);
    var held := PlaceHoldTx(s, o, replay, hold.account);
    RunsKeepAll(tracked, before);
    StepKeepsAll(s, Perform(PlaceHold(o, replay), 0, hold));
    RunFromKeepsAll(held, after);
    WhenAnInvoiceCanBeIssued(Run(held, after), o, shop);
    WhenACouponIsLeft(Run(held, after), o);
    PlacementInTheHoldWindow(tracked, before, o, replay, hold, after, shop);
  }

  lemma WhenACouponIsLeft(s: State, o: OrderId)
    requires AllInv(s) && o < |s.orders| && s.orders[o].status == PendingPayment
    ensures ClaimCoupon(s, o, s.orders[o]).Some? <==> CouponLeft(s.coupons, s.orders[o])
  {
    hide MoneyInv;
    hide CartsOK;
    hide ClaimCoupon;
    hide CouponLeft;
    hide CouponsOK;
    OrderFacts(s, o);
    ClaimNeedsASlot(s, o);
  }

  lemma {:induction false} RunFromKeepsAll(s: State, steps: seq<Step>)
    requires AllInv(s)
    ensures AllInv(Run(s, steps))
  {
    if steps != [] {
      RunFromKeepsAll(s, steps[..|steps| - 1]);
      StepKeepsAll(Run(s, steps[..|steps| - 1]), steps[|steps| - 1]);
      hide AllInv;
      hide Apply;
    }
  }
}
