/**
 * Whole runs of the checkout: every step keeps the core invariant, so every
 * reachable state has it, and what a later state says about a row agrees with
 * what an earlier one said.
 */
module CheckoutRuns {
  import opened Common
  import opened Orders
  import opened Checkout
  import opened MoneyInvariant
  import opened CheckoutInvariant
  import Payments

  lemma PerformKeeps(s: State, task: Task, g: GatewayRef, shop: Shop)
    requires CoreInv(s) && task in s.issued
    ensures CoreInv(PerformTask(s, task, g, shop)) && Evolves(s, PerformTask(s, task, g, shop))
  {
    assert TaskOK(s, task);
    hide MoneyInv;
    hide CartsOK;
    hide RefsOK;
    hide KeysAreUnique;
    match task
    case PlaceHold(o, replay) => PlaceHoldKeeps(s, o, replay, shop.account);
    case ExtendExpiry(o) => ExtendKeeps(s, o, shop.account);
    case ConfirmAtPlacement(o) => ConfirmAtPlacementKeeps(s, o, shop);
    case StartPayment(o) => StartPaymentKeeps(s, o, g);
    case RecordGatewayOrder(o, ref) => RecordGatewayKeeps(s, o, ref);
    case CancelPending(o) => CancelPendingKeeps(s, o);
    case ReleaseHold(o) => TablesOnly(s, PerformTask(s, task, g, shop));
    case CancelOversold(gateway, amount) => CancelOversoldKeeps(s, gateway, amount);
  }

  /** A step that touches no table of the core invariant. */
  lemma TablesOnly(s: State, t: State)
    requires CoreInv(s) && t.orders == s.orders && t.money == s.money && t.carts == s.carts
    requires t.minted == s.minted && t.issued == s.issued && s.now <= t.now && s.tracked == t.tracked
    ensures CoreInv(t) && Evolves(s, t)
  {
    Unchanged(s);
    hide MoneyInv;
    hide CartsOK;
    TablesChange(s, t);
  }

  lemma NewCartKeeps(s: State)
    requires CoreInv(s)
    ensures CoreInv(Apply(s, NewCart)) && Evolves(s, Apply(s, NewCart))
  {
    Unchanged(s);
    hide MoneyInv;
    TablesChange(s, Apply(s, NewCart));
  }

  /** What a worker step does to the refund rows: at most one moves along. */
  lemma WorkerMovesRows(s: State, c: Step)
    requires c.RunReads? || c.RunClaims? || c.RunCalls? || c.RunRecords?
    ensures var t := Apply(s, c);
      && t == s.(runs := t.runs, calls := t.calls, money := s.money.(refunds := t.money.refunds))
      && |t.money.refunds| == |s.money.refunds|
      && forall r :: 0 <= r < |s.money.refunds| ==> var a, b := s.money.refunds[r], t.money.refunds[r];
           && a.payment == b.payment && a.order == b.order && a.amount == b.amount
           && (b.status == Payments.Processed ==> a.status == Payments.Processed)
           && (a.gatewayRefund.Some? ==> b.gatewayRefund == a.gatewayRefund)
  {
  }

  lemma RefundStepKeeps(s: State, c: Step)
    requires CoreInv(s) && (c.RunReads? || c.RunClaims? || c.RunCalls? || c.RunRecords?)
    ensures CoreInv(Apply(s, c)) && Evolves(s, Apply(s, c))
  {
    var t := Apply(s, c);
    WorkerMovesRows(s, c);
    hide Apply;
    forall r | 0 <= r < |s.money.refunds| ensures RefundOK(s.money.payments, s.money.refunds[r]) {
      assert RefundsOK(s.money.payments, s.money.refunds);
    }
    RefundMoves(s.orders, s.money, t.money.refunds);
    hide MoneyInv;
    hide CartsOK;
    hide RefundOK;
    WorkerKeeps(s, t);
  }

  lemma StepKeepsCore(s: State, c: Step)
    requires CoreInv(s)
    ensures CoreInv(Apply(s, c)) && Evolves(s, Apply(s, c))
  {
    hide CoreInv;
    hide Evolves;
    hide StartCheckout;
    hide PerformTask;
    hide ProcessCaptured;
    hide ProcessFailed;
    hide ProcessRefundProcessed;
    hide ExpireCheckout;
    hide CancelOrder;
    hide ManualTransition;
    Unchanged(s);
    match c
    case NewCart => NewCartKeeps(s);
    case Start(cart, key, request, rows, shop) => StartKeeps(s, cart, key, request, rows, shop);
    case Perform(task, g, shop) => if task in s.issued { PerformKeeps(s, task, g, shop); }
    case CaptureEvent(g, amount, shop) => ProcessCapturedKeeps(s, g, amount, shop);
    case FailureEvent(g) => ProcessFailedKeeps(s, g);
    case RefundEvent(ref) => RefundProcessedKeeps(s, ref);
    case Expire(o) => if o < |s.orders| { ExpireKeeps(s, o); }
    case StaffCancel(o) => if o < |s.orders| { CancelOrderKeeps(s, o); }
    case StaffMove(o, to) => if o < |s.orders| { ManualKeeps(s, o, to); }
    case StaffStock(_, _, _) => TablesOnly(s, Apply(s, c));
    case StaffPromotion(_, _) => TablesOnly(s, Apply(s, c));
    case RunReads(_) => RefundStepKeeps(s, c);
    case RunClaims(_) => RefundStepKeeps(s, c);
    case RunCalls(_, _) => RefundStepKeeps(s, c);
    case RunRecords(_) => RefundStepKeeps(s, c);
    case Tick(_) => TablesOnly(s, Apply(s, c));
  }
}
