/**
 * When money is both kept and sent back. The comment at
 * packages/core/src/checkout/server.ts:1968-1973 promises an oversold cancel
 * that no-ops when all is already done. It does so, except when a duplicate
 * delivery confirmed the order meanwhile: these are the exact steps, and the
 * runs without them.
 */
module KeptAndReturnedMoney {
  import opened Common
  import opened Orders
  import opened Checkout
  import opened MoneyInvariant
  import opened CheckoutInvariant
  import opened CheckoutRuns
  import opened CheckoutTheorems
  import Inventory
  import Payments
  import Quotes

  /** The captured payment of an order being fulfilled, with a refund row. */
  ghost predicate KeptAndReturned(s: State, p: PaymentId) {
    && p < |s.money.payments| && s.money.payments[p].status == Payments.Captured
    && s.money.payments[p].order < |s.orders| && OnLadder(s.orders[s.money.payments[p].order].status)
    && MoneyInvariant.Refunded(s.money.refunds, p)
  }

  /**
   * An issued oversold cancel is run for a captured payment whose order is being fulfilled and has no refund row
   * yet.
   */
  ghost predicate CancelsTooLate(s: State, c: Step, p: PaymentId) {
    && c.Perform? && c.task in s.issued && c.task.CancelOversold?
    && Lookup(s, c.task.gateway).Some? && Lookup(s, c.task.gateway).value.1 == p
    && s.money.payments[p].status == Payments.Captured
    && OnLadder(s.orders[Lookup(s, c.task.gateway).value.0].status)
    && !MoneyInvariant.Refunded(s.money.refunds, p)
  }

  // ----- where refund rows come from -----

  /** The refund rows are for the same payments as before. */
  ghost predicate SameReturns(s: State, t: State) {
    && |t.money.refunds| == |s.money.refunds|
    && forall r :: 0 <= r < |s.money.refunds| ==> t.money.refunds[r].payment == s.money.refunds[r].payment
  }

  lemma ReturnsAgree(s: State, t: State, p: PaymentId)
    requires SameReturns(s, t)
    ensures MoneyInvariant.Refunded(t.money.refunds, p) <==> MoneyInvariant.Refunded(s.money.refunds, p)
  {
    if MoneyInvariant.Refunded(s.money.refunds, p) {
      var r :| 0 <= r < |s.money.refunds| && s.money.refunds[r].payment == p;
      assert t.money.refunds[r].payment == p;
    }
    if MoneyInvariant.Refunded(t.money.refunds, p) {
      var r :| 0 <= r < |t.money.refunds| && t.money.refunds[r].payment == p;
      assert s.money.refunds[r].payment == p;
    }
  }

  /** A refund intent adds a row for its own payment only. */
  lemma IntentReturns(m: Payments.Money, o: OrderId, q: PaymentId, amount: int, reason: Payments.RefundReason,
                      p: PaymentId)
    requires Payments.RefundIntent(m, o, q, amount, reason).Some?
    requires MoneyInvariant.Refunded(Payments.RefundIntent(m, o, q, amount, reason).value.refunds, p)
    ensures p == q || MoneyInvariant.Refunded(m.refunds, p)
  {
    var t := Payments.RefundIntent(m, o, q, amount, reason).value;
    var r :| 0 <= r < |t.refunds| && t.refunds[r].payment == p;
    if r < |m.refunds| {
      assert m.refunds[r].payment == p;
    }
  }

  lemma TaskReturnsNothing(s: State, task: Task, g: GatewayRef, shop: Shop)
    requires !task.CancelOversold?
    ensures SameReturns(s, PerformTask(s, task, g, shop))
  {
    if task.ConfirmAtPlacement? && task.order < |s.orders| && ConfirmCore(s, task.order, shop, false).Success? {
      ConfirmCoreMoves(s, task.order, shop, false);
    }
    hide ConfirmCore;
    hide AfterHold;
    hide Inventory.HoldStock;
  }

  lemma OversoldReturns(s: State, g: GatewayRef, amount: int, p: PaymentId)
    requires MoneyInvariant.Refunded(CancelOversoldTx(s, g, amount).money.refunds, p)
    ensures MoneyInvariant.Refunded(s.money.refunds, p) || (Lookup(s, g).Some? && Lookup(s, g).value.1 == p)
  {
    match Lookup(s, g)
    case None =>
    case Some((o, q)) =>
      var t := if s.money.payments[q].status == Payments.Captured then s else Capture(s, o, q, amount);
      var order := t.orders[o];
      var u := if order.status != PendingPayment then t
               else ReopenCart(SetOrder(t, o, order.(status := Cancelled, payStatus := RefundInitiated)), order.cart);
      assert u.money.refunds == s.money.refunds;
      hide Lookup;
      hide Capture;
      hide ReopenCart;
      var refunded := Payments.RefundIntent(u.money, o, q, amount, Payments.StockShortfall);
      if refunded.Some? {
        IntentReturns(u.money, o, q, amount, Payments.StockShortfall, p);
      }
  }

  /** A capture delivery adds a refund row only for money that arrives on a closed order, which is off the ladder. */
  lemma CaptureReturns(s: State, g: GatewayRef, amount: int, shop: Shop, p: PaymentId)
    requires CoreInv(s) && !MoneyInvariant.Refunded(s.money.refunds, p)
    requires MoneyInvariant.Refunded(ProcessCaptured(s, g, amount, shop).money.refunds, p)
    ensures !KeptAndReturned(ProcessCaptured(s, g, amount, shop), p)
  {
    var t := ProcessCaptured(s, g, amount, shop);
    match Lookup(s, g)
    case None =>
    case Some((o, q)) =>
      if && s.money.payments[q].status != Payments.Captured && amount == s.money.payments[q].amount
         && s.orders[o].status != PendingPayment {
        LateCaptureKeeps(s, o, q);
        LateCaptureReturns(s, o, q, amount, p);
      } else {
        OtherCapturesReturnNothing(s, g, amount, shop, o, q);
        ReturnsAgree(s, t, p);
      }
  }

  lemma LateCaptureReturns(s: State, o: OrderId, q: PaymentId, amount: int, p: PaymentId)
    requires o < |s.orders| && q < |s.money.payments| && s.money.payments[q].order == o && !OnLadder(s.orders[o].status)
    requires !MoneyInvariant.Refunded(s.money.refunds, p)
    ensures !KeptAndReturned(LateCapture(s, o, q, amount), p)
  {
    var t := SetPayStatus(Capture(s, o, q, amount), o, RefundInitiated);
    assert t.money.refunds == s.money.refunds && !OnLadder(t.orders[o].status) && t.money.payments[q].order == o;
    var refunded := Payments.RefundIntent(t.money, o, q, amount, Payments.LateCapture);
    if refunded.Some? && MoneyInvariant.Refunded(refunded.value.refunds, p) {
      IntentReturns(t.money, o, q, amount, Payments.LateCapture, p);
    }
    hide MoneyInvariant.Refunded;
  }

  lemma OtherCapturesReturnNothing(s: State, g: GatewayRef, amount: int, shop: Shop, o: OrderId, q: PaymentId)
    requires Lookup(s, g) == Some((o, q))
    requires s.money.payments[q].status == Payments.Captured || amount != s.money.payments[q].amount
      || s.orders[o].status == PendingPayment
    ensures SameReturns(s, ProcessCaptured(s, g, amount, shop))
  {
    var c := Capture(s, o, q, amount);
    var u := SetPayStatus(c, o, PaidStatus(c.orders[o]));
    if ConfirmCore(u, o, shop, true).Success? {
      ConfirmCoreMoves(u, o, shop, true);
    }
    hide ConfirmCore;
  }

  /** A staff cancel takes the order it refunds off the ladder. */
  lemma StaffCancelReturns(s: State, o: OrderId, p: PaymentId)
    requires CoreInv(s) && o < |s.orders| && !MoneyInvariant.Refunded(s.money.refunds, p)
    ensures !KeptAndReturned(CancelOrder(s, o), p)
  {
    var t := CancelOrder(s, o);
    var paid := Payments.FindCaptured(s.money.payments, o);
    if paid.Some? {
      var amount := s.money.payments[paid.value].amount;
      var refunded := Payments.RefundIntent(s.money, o, paid.value, amount, Payments.MerchantCancelled);
      if refunded.Some? && MoneyInvariant.Refunded(refunded.value.refunds, p) {
        IntentReturns(s.money, o, paid.value, amount, Payments.MerchantCancelled, p);
      }
    }
    hide CoreInv;
    hide MoneyInvariant.Refunded;
    hide Inventory.Restock;
    hide LinesOf;
  }

  lemma OtherStepsReturnNothing(s: State, c: Step)
    requires !c.CaptureEvent? && !c.StaffCancel? && !(c.Perform? && c.task.CancelOversold?)
    ensures SameReturns(s, Apply(s, c))
  {
    match c
    case Perform(task, g, shop) => TaskReturnsNothing(s, task, g, shop); hide PerformTask;
    case Start(cart, key, request, rows, shop) =>
      CreateOrderReturnsNothing(s, cart, key, request, rows, shop);
      hide CreateOrder;
    case _ =>
  }

  lemma CreateOrderReturnsNothing(s: State, c: CartId, key: nat, req: Request, rows: seq<Quotes.Row>, shop: Shop)
    ensures CreateOrder(s, c, key, req, rows, shop).Some? ==>
      CreateOrder(s, c, key, req, rows, shop).value.money == s.money
  {
  }

  // ----- the exact step -----

  /** An order off the ladder whose payment is captured never gets back on it. */
  lemma OffTheLadderForGood(s: State, t: State, p: PaymentId)
    requires CoreInv(s) && Evolves(s, t) && p < |s.money.payments| && s.money.payments[p].status == Payments.Captured
    requires !OnLadder(s.orders[s.money.payments[p].order].status)
    ensures !KeptAndReturned(t, p)
  {
    PaymentFacts(s, p);
    var o := s.money.payments[p].order;
    OrderFacts(s, o);
    assert PaymentEvolves(s.money.payments[p], t.money.payments[p]) && OrderEvolves(s.orders[o], t.orders[o]);
    hide CoreInv;
    hide MoneyInv;
    hide CartsOK;
  }

  /** A new refund row of a payment that stays kept can only come from an oversold cancel. */
  lemma NewReturnsOfKeptMoney(s: State, c: Step, p: PaymentId)
    requires CoreInv(s) && !MoneyInvariant.Refunded(s.money.refunds, p)
    ensures KeptAndReturned(Apply(s, c), p) ==>
      && c.Perform? && c.task in s.issued && c.task.CancelOversold?
      && Lookup(s, c.task.gateway).Some? && Lookup(s, c.task.gateway).value.1 == p
  {
    hide CoreInv;
    hide PerformTask;
    hide ProcessCaptured;
    hide CancelOrder;
    hide StartCheckout;
    hide Lookup;
    if KeptAndReturned(Apply(s, c), p) {
      match c
      case CaptureEvent(g, amount, shop) => CaptureReturns(s, g, amount, shop, p);
      case StaffCancel(o) => if o < |s.orders| { StaffCancelReturns(s, o, p); }
      case Perform(task, g, shop) => if task in s.issued { TaskReturns(s, task, g, shop, p); }
      case _ =>
        OtherStepsReturnNothing(s, c);
        ReturnsAgree(s, Apply(s, c), p);
    }
  }

  lemma TaskReturns(s: State, task: Task, g: GatewayRef, shop: Shop, p: PaymentId)
    ensures var t := PerformTask(s, task, g, shop);
      MoneyInvariant.Refunded(t.money.refunds, p) ==>
      || MoneyInvariant.Refunded(s.money.refunds, p)
      || (task.CancelOversold? && Lookup(s, task.gateway).Some? && Lookup(s, task.gateway).value.1 == p)
  {
    hide CancelOversoldTx;
    var t := PerformTask(s, task, g, shop);
    if task.CancelOversold? {
      if MoneyInvariant.Refunded(t.money.refunds, p) {
        OversoldReturns(s, task.gateway, task.amount, p);
      }
    } else {
      TaskReturnsNothing(s, task, g, shop);
      hide PerformTask;
      ReturnsAgree(s, t, p);
    }
  }

  /** An oversold cancel of money not captured yet leaves the order off the ladder. */
  lemma FirstCaptureIsNotKept(s: State, g: GatewayRef, amount: int, o: OrderId, p: PaymentId)
    requires CoreInv(s) && Lookup(s, g) == Some((o, p)) && s.money.payments[p].amount == amount
    requires s.money.payments[p].status != Payments.Captured
    ensures !KeptAndReturned(CancelOversoldTx(s, g, amount), p)
  {
    OversoldFacts(s, g, amount, o, p);
    OversoldRecords(s, g, amount, o, p);
    OversoldOrderIsOK(s.orders[o], amount);
    hide CancelOversoldTx;
    hide OversoldOrder;
    hide CoreInv;
  }

  /** Money becomes both kept and returned in exactly one way: a too late oversold cancel. */
  lemma KeptAndReturnedExactly(s: State, c: Step, p: PaymentId)
    requires CoreInv(s)
    ensures KeptAndReturned(Apply(s, c), p) && !KeptAndReturned(s, p) <==> CancelsTooLate(s, c, p)
  {
    hide CoreInv;
    hide Apply;
    if CancelsTooLate(s, c, p) {
      TooLateReturnsInFull(s, c, p);
    }
    OnlyTooLateIsBoth(s, c, p);
  }

  lemma OnlyTooLateIsBoth(s: State, c: Step, p: PaymentId)
    requires CoreInv(s)
    ensures KeptAndReturned(Apply(s, c), p) && !KeptAndReturned(s, p) ==> CancelsTooLate(s, c, p)
  {
    hide Apply;
    hide Lookup;
    hide MoneyInv;
    hide CartsOK;
    hide Evolves;
    StepKeepsCore(s, c);
    if KeptAndReturned(Apply(s, c), p) && !KeptAndReturned(s, p) {
      if MoneyInvariant.Refunded(s.money.refunds, p) {
        ReturnedMeansCaptured(s, p);
        OffTheLadderForGood(s, Apply(s, c), p);
      } else {
        NewReturnsOfKeptMoney(s, c, p);
        var (g, amount) := (c.task.gateway, c.task.amount);
        assert TaskOK(s, c.task);
        OnePaymentPerGateway(s, g, amount, p);
        OversoldIsTheStep(s, c);
        if s.money.payments[p].status != Payments.Captured {
          FirstCaptureIsNotKept(s, g, amount, Lookup(s, g).value.0, p);
        } else if !OnLadder(s.orders[s.money.payments[p].order].status) {
          OffTheLadderForGood(s, Apply(s, c), p);
        }
      }
    }
  }

  lemma OversoldIsTheStep(s: State, c: Step)
    requires c.Perform? && c.task in s.issued && c.task.CancelOversold?
    ensures Apply(s, c) == CancelOversoldTx(s, c.task.gateway, c.task.amount)
  {
  }

  lemma ReturnedMeansCaptured(s: State, p: PaymentId)
    requires CoreInv(s) && MoneyInvariant.Refunded(s.money.refunds, p)
    ensures p < |s.money.payments| && s.money.payments[p].status == Payments.Captured
    ensures s.money.payments[p].order < |s.orders|
  {
    var r :| 0 <= r < |s.money.refunds| && s.money.refunds[r].payment == p;
    assert RefundOK(s.money.payments, s.money.refunds[r]);
    PaymentFacts(s, p);
  }

  lemma TooLateIsBoth(s: State, g: GatewayRef, amount: int, o: OrderId, p: PaymentId)
    requires CoreInv(s) && CancelOversold(g, amount) in s.issued && Lookup(s, g) == Some((o, p))
    requires s.money.payments[p].status == Payments.Captured && OnLadder(s.orders[o].status)
    ensures KeptAndReturned(CancelOversoldTx(s, g, amount), p) && CancelOversoldTx(s, g, amount).orders == s.orders
  {
    assert TaskOK(s, CancelOversold(g, amount));
    OnePaymentPerGateway(s, g, amount, p);
    PaymentFacts(s, p);
    RefundAppears(s.orders, s.money, p, Payments.StockShortfall);
    hide CoreInv;
    hide MoneyInv;
    hide Lookup;
  }

  /** Such a step leaves every order as it is, and the kept money with exactly one refund row, in full. */
  lemma TooLateReturnsInFull(s: State, c: Step, p: PaymentId)
    requires CoreInv(s) && CancelsTooLate(s, c, p)
    ensures var t := Apply(s, c); KeptAndReturned(t, p) && t.orders == s.orders && RefundedInFull(t.money, p)
  {
    hide CoreInv;
    hide Lookup;
    hide CancelOversoldTx;
    hide RefundedInFull;
    var (o, q) := Lookup(s, c.task.gateway).value;
    TooLateIsBoth(s, c.task.gateway, c.task.amount, o, p);
    ALateOversoldCancelRefundsAnyway(s, c.task.gateway, c.task.amount, c.shop, o, p);
  }

  // ----- over runs -----

  ghost predicate NeverBoth(tracked: set<VariantId>, steps: seq<Step>) {
    forall n, p: PaymentId :: 0 <= n <= |steps| ==> !KeptAndReturned(Run(Initial(tracked), steps[..n]), p)
  }

  ghost predicate NeverTooLate(tracked: set<VariantId>, steps: seq<Step>) {
    forall n, p: PaymentId :: 0 <= n < |steps| ==> !CancelsTooLate(Run(Initial(tracked), steps[..n]), steps[n], p)
  }

  lemma RunOneMore(tracked: set<VariantId>, steps: seq<Step>, n: nat)
    requires n < |steps|
    ensures Run(Initial(tracked), steps[..n + 1]) == Apply(Run(Initial(tracked), steps[..n]), steps[n])
    ensures CoreInv(Run(Initial(tracked), steps[..n]))
  {
    assert steps[..n + 1][..n] == steps[..n];
    RunsKeepAll(tracked, steps[..n]);
  }

  lemma {:induction false} NotYetBoth(tracked: set<VariantId>, steps: seq<Step>, n: nat, p: PaymentId)
    requires NeverTooLate(tracked, steps) && n <= |steps|
    ensures !KeptAndReturned(Run(Initial(tracked), steps[..n]), p)
  {
    if n == 0 {
      assert Run(Initial(tracked), steps[..0]) == Initial(tracked);
    } else {
      hide Run;
      hide Apply;
      hide CoreInv;
      hide KeptAndReturned;
      hide CancelsTooLate;
      NotYetBoth(tracked, steps, n - 1, p);
      RunOneMore(tracked, steps, n - 1);
      KeptAndReturnedExactly(Run(Initial(tracked), steps[..n - 1]), steps[n - 1], p);
    }
  }

  /** Along a run no money is ever both kept and returned, exactly when no oversold cancel in it comes too late. */
  lemma NeverBothExactly(tracked: set<VariantId>, steps: seq<Step>)
    ensures NeverBoth(tracked, steps) <==> NeverTooLate(tracked, steps)
  {
    if NeverTooLate(tracked, steps) {
      forall n, p: PaymentId | 0 <= n <= |steps| ensures !KeptAndReturned(Run(Initial(tracked), steps[..n]), p) {
        NotYetBoth(tracked, steps, n, p);
      }
    }
    if NeverBoth(tracked, steps) {
      forall n, p: PaymentId | 0 <= n < |steps|
        ensures !CancelsTooLate(Run(Initial(tracked), steps[..n]), steps[n], p)
      {
        RunOneMore(tracked, steps, n);
        KeptAndReturnedExactly(Run(Initial(tracked), steps[..n]), steps[n], p);
        assert !KeptAndReturned(Run(Initial(tracked), steps[..n + 1]), p);
        hide Run;
        hide Apply;
        hide CoreInv;
        hide KeptAndReturned;
        hide CancelsTooLate;
      }
    }
  }

  /**
   * On such runs the promise is exclusive: captured money is kept on an
   * order being fulfilled, or returned in full, never both.
   */
  lemma MoneyIsKeptOrReturned(tracked: set<VariantId>, steps: seq<Step>, p: PaymentId)
    requires NeverTooLate(tracked, steps)
    requires var m := Run(Initial(tracked), steps).money; p < |m.payments| && m.payments[p].status == Payments.Captured
    ensures var s := Run(Initial(tracked), steps);
      && s.money.payments[p].order < |s.orders|
      && (OnLadder(s.orders[s.money.payments[p].order].status) <==> !RefundedInFull(s.money, p))
  {
    MoneyIsSafe(tracked, steps, p);
    assert steps[..|steps|] == steps;
    NotYetBoth(tracked, steps, |steps|, p);
    var s := Run(Initial(tracked), steps);
    hide Run;
    if RefundedInFull(s.money, p) {
      var r :| 0 <= r < |s.money.refunds| && s.money.refunds[r].payment == p
        && s.money.refunds[r].amount == s.money.payments[p].amount
        && forall q :: 0 <= q < |s.money.refunds| && s.money.refunds[q].payment == p ==> q == r;
      assert MoneyInvariant.Refunded(s.money.refunds, p);
    }
  }
}
