/**
 * The refund worker over whole runs (apps/worker/src/jobs/gateway-refund.ts:37-124):
 * duplicate, concurrent, retried and crashed runs together make at most one
 * outbound call per refund row, so no payment is ever sent back twice.
 */
module RefundsOverRuns {
  import opened Common
  import opened Orders
  import opened Checkout
  import opened MoneyInvariant
  import opened CheckoutInvariant
  import Payments
  import Quotes
  import opened Inventory

  /** The run has claimed the row: it is about to call out for it, or has. */
  predicate Holds(run: WorkerRun, r: RefundId) { (run.Claimed? || run.Called?) && run.refund == r }

  ghost predicate CallMade(calls: seq<Call>, r: RefundId) {
    exists k :: 0 <= k < |calls| && calls[k].refund == r
  }

  ghost predicate RunOK(refunds: seq<Payments.Refund>, calls: seq<Call>, run: WorkerRun) {
    && (!run.Finished? ==> run.refund < |refunds|)
    && (run.Claimed? ==> refunds[run.refund].status != Payments.Pending && !CallMade(calls, run.refund))
    && (run.Called? ==> CallMade(calls, run.refund))
  }

  ghost predicate CallOK(refunds: seq<Payments.Refund>, c: Call) {
    && c.refund < |refunds| && refunds[c.refund].status != Payments.Pending
    && c.payment == refunds[c.refund].payment && c.amount == refunds[c.refund].amount
  }

  ghost predicate WorkerInv(refunds: seq<Payments.Refund>, runs: seq<WorkerRun>, calls: seq<Call>) {
    && (forall i :: 0 <= i < |runs| ==> RunOK(refunds, calls, runs[i]))
    && (forall i, j, r: RefundId :: 0 <= i < j < |runs| && Holds(runs[i], r) ==> !Holds(runs[j], r))
    && (forall k :: 0 <= k < |calls| ==> CallOK(refunds, calls[k]))
    && (forall k, l :: 0 <= k < l < |calls| ==> calls[k].refund != calls[l].refund)
    && (forall r :: 0 <= r < |refunds| && refunds[r].gatewayRefund.Some? ==> CallMade(calls, r))
  }

  // ----- the four worker steps -----

  lemma ReadKeeps(s: State, r: RefundId)
    requires WorkerInv(s.money.refunds, s.runs, s.calls)
    ensures var t := ReadRefund(s, r); WorkerInv(t.money.refunds, t.runs, t.calls)
  {
  }

  lemma ClaimKeeps(s: State, i: nat)
    requires WorkerInv(s.money.refunds, s.runs, s.calls)
    ensures var t := ClaimRefund(s, i); WorkerInv(t.money.refunds, t.runs, t.calls)
  {
    if i < |s.runs| && s.runs[i].Read? && s.runs[i].refund < |s.money.refunds| {
      var r, t := s.runs[i].refund, ClaimRefund(s, i);
      if s.money.refunds[r].status == Payments.Pending {
        forall j | 0 <= j < |s.runs| ensures !Holds(s.runs[j], r) && RunOK(t.money.refunds, t.calls, t.runs[j]) {
          assert RunOK(s.money.refunds, s.calls, s.runs[j]);
        }
        forall k | 0 <= k < |s.calls| ensures s.calls[k].refund != r && CallOK(t.money.refunds, t.calls[k]) {
          assert CallOK(s.money.refunds, s.calls[k]);
        }
      } else {
        assert forall j :: 0 <= j < |s.runs| ==> RunOK(s.money.refunds, s.calls, t.runs[j]);
      }
    }
  }

  lemma CallKeeps(s: State, i: nat, ref: GatewayRef)
    requires WorkerInv(s.money.refunds, s.runs, s.calls)
    ensures var t := CallGateway(s, i, ref); WorkerInv(t.money.refunds, t.runs, t.calls)
  {
    if i < |s.runs| && s.runs[i].Claimed? && s.runs[i].refund < |s.money.refunds| {
      var r, t := s.runs[i].refund, CallGateway(s, i, ref);
      assert RunOK(s.money.refunds, s.calls, s.runs[i]) && Holds(s.runs[i], r);
      CallsGrow(s.calls, t.calls[|s.calls|]);
      forall j | 0 <= j < |s.runs| ensures RunOK(t.money.refunds, t.calls, t.runs[j]) {
        assert RunOK(s.money.refunds, s.calls, s.runs[j]);
        if j != i {
          assert !Holds(s.runs[j], r);
        }
      }
      forall a, b, x: RefundId | 0 <= a < b < |s.runs| && Holds(t.runs[a], x) ensures !Holds(t.runs[b], x) {
        assert Holds(s.runs[a], x);
      }
    }
  }

  lemma CallsGrow(calls: seq<Call>, c: Call)
    ensures forall r: RefundId :: CallMade(calls + [c], r) <==> CallMade(calls, r) || r == c.refund
  {
    forall r: RefundId ensures CallMade(calls + [c], r) <==> CallMade(calls, r) || r == c.refund {
      assert (calls + [c])[|calls|] == c;
      if CallMade(calls, r) {
        var k :| 0 <= k < |calls| && calls[k].refund == r;
        assert (calls + [c])[k].refund == r;
      }
      if CallMade(calls + [c], r) && r != c.refund {
        var k :| 0 <= k < |calls + [c]| && (calls + [c])[k].refund == r;
        assert calls[k].refund == r;
      }
    }
  }

  lemma RecordKeeps(s: State, i: nat)
    requires WorkerInv(s.money.refunds, s.runs, s.calls)
    ensures var t := RecordRefund(s, i); WorkerInv(t.money.refunds, t.runs, t.calls)
  {
    if i < |s.runs| && s.runs[i].Called? && s.runs[i].refund < |s.money.refunds| {
      var t := RecordRefund(s, i);
      assert RunOK(s.money.refunds, s.calls, s.runs[i]);
      forall j | 0 <= j < |s.runs| ensures RunOK(t.money.refunds, t.calls, t.runs[j]) {
        assert RunOK(s.money.refunds, s.calls, s.runs[j]);
      }
      forall k | 0 <= k < |s.calls| ensures CallOK(t.money.refunds, t.calls[k]) {
        assert CallOK(s.money.refunds, s.calls[k]);
      }
      forall a, b, x: RefundId | 0 <= a < b < |s.runs| && Holds(t.runs[a], x) ensures !Holds(t.runs[b], x) {
        assert Holds(s.runs[a], x);
      }
    }
  }

  // ----- everybody else -----

  /** Rows are added pending, and existing ones are only marked processed once they carry a gateway reference. */
  ghost predicate RefundsEvolve(a: seq<Payments.Refund>, b: seq<Payments.Refund>) {
    && |a| <= |b|
    && (forall r :: 0 <= r < |a| ==>
        && a[r].payment == b[r].payment && a[r].amount == b[r].amount && a[r].gatewayRefund == b[r].gatewayRefund
        && (a[r].status == b[r].status || b[r].status == Payments.Processed))
    && (forall r :: |a| <= r < |b| ==> b[r].gatewayRefund.None?)
  }

  lemma OthersKeep(s: State, t: State)
    requires WorkerInv(s.money.refunds, s.runs, s.calls) && RefundsEvolve(s.money.refunds, t.money.refunds)
    requires t.runs == s.runs && t.calls == s.calls
    ensures WorkerInv(t.money.refunds, t.runs, t.calls)
  {
  }

  ghost predicate OnlyRefundRows(s: State, t: State) {
    RefundsEvolve(s.money.refunds, t.money.refunds) && t.runs == s.runs && t.calls == s.calls
  }

  lemma CaptureAddsRefunds(s: State, g: GatewayRef, amount: int, shop: Shop)
    ensures OnlyRefundRows(s, ProcessCaptured(s, g, amount, shop))
  {
    if Lookup(s, g).Some? {
      var (o, p) := Lookup(s, g).value;
      var c := Capture(s, o, p, amount);
      var u := SetPayStatus(c, o, PaidStatus(c.orders[o]));
      if ConfirmCore(u, o, shop, true).Success? {
        ConfirmCoreMoves(u, o, shop, true);
      }
    }
    hide ConfirmCore;
  }

  lemma IntentAddsRefunds(m: Payments.Money, o: OrderId, p: PaymentId, amount: int, reason: Payments.RefundReason)
    requires Payments.RefundIntent(m, o, p, amount, reason).Some?
    ensures RefundsEvolve(m.refunds, Payments.RefundIntent(m, o, p, amount, reason).value.refunds)
  {
  }

  lemma OversoldAddsRefunds(s: State, g: GatewayRef, amount: int)
    ensures OnlyRefundRows(s, CancelOversoldTx(s, g, amount))
  {
    match Lookup(s, g)
    case None =>
    case Some((o, p)) =>
      var t := if s.money.payments[p].status == Payments.Captured then s else Capture(s, o, p, amount);
      var order := t.orders[o];
      var u := if order.status != PendingPayment then t
               else Checkout.ReopenCart(SetOrder(t, o, order.(status := Cancelled, payStatus := RefundInitiated)),
                                        order.cart);
      assert u.money.refunds == s.money.refunds && u.runs == s.runs && u.calls == s.calls;
      hide Lookup;
      hide Capture;
      hide RefundsEvolve;
      if Payments.RefundIntent(u.money, o, p, amount, Payments.StockShortfall).Some? {
        IntentAddsRefunds(u.money, o, p, amount, Payments.StockShortfall);
      } else {
        RefundsStay(s.money.refunds);
      }
  }

  lemma RefundsStay(refunds: seq<Payments.Refund>)
    ensures RefundsEvolve(refunds, refunds)
  {
  }

  lemma TaskAddsRefunds(s: State, task: Task, g: GatewayRef, shop: Shop)
    ensures OnlyRefundRows(s, PerformTask(s, task, g, shop))
  {
    if task.CancelOversold? {
      OversoldAddsRefunds(s, task.gateway, task.amount);
    } else if task.ConfirmAtPlacement? && task.order < |s.orders| && ConfirmCore(s, task.order, shop, false).Success? {
      ConfirmCoreMoves(s, task.order, shop, false);
    }
    hide ConfirmCore;
    hide CancelOversoldTx;
    hide AfterHold;
    hide HoldStock;
  }

  lemma StaffCancelAddsRefunds(s: State, o: OrderId)
    requires o < |s.orders|
    ensures OnlyRefundRows(s, CancelOrder(s, o))
  {
    RefundsStay(s.money.refunds);
    var paid := Payments.FindCaptured(s.money.payments, o);
    if paid.Some? {
      var amount := s.money.payments[paid.value].amount;
      if Payments.RefundIntent(s.money, o, paid.value, amount, Payments.MerchantCancelled).Some? {
        IntentAddsRefunds(s.money, o, paid.value, amount, Payments.MerchantCancelled);
      }
    }
    hide RefundsEvolve;
    hide Payments.RefundIntent;
    hide Restock;
    hide LinesOf;
  }

  lemma OtherStepsAddRefunds(s: State, c: Step)
    requires !c.RunReads? && !c.RunClaims? && !c.RunCalls? && !c.RunRecords?
    ensures OnlyRefundRows(s, Apply(s, c))
  {
    hide PerformTask;
    hide ProcessCaptured;
    hide CreateOrder;
    hide CancelOrder;
    match c
    case Perform(task, g, shop) => TaskAddsRefunds(s, task, g, shop);
    case CaptureEvent(g, amount, shop) => CaptureAddsRefunds(s, g, amount, shop);
    case Start(cart, key, request, rows, shop) =>
      CreateOrderLeavesMoney(s, cart, key, request, rows, shop);
    case StaffCancel(o) => if o < |s.orders| { StaffCancelAddsRefunds(s, o); }
    case _ =>
  }

  lemma CreateOrderLeavesMoney(s: State, c: CartId, key: nat, req: Request, rows: seq<Quotes.Row>, shop: Shop)
    ensures CreateOrder(s, c, key, req, rows, shop).Some? ==>
      var t := CreateOrder(s, c, key, req, rows, shop).value;
      t.money == s.money && t.runs == s.runs && t.calls == s.calls
  {
  }

  lemma StepKeepsWorker(s: State, c: Step)
    requires WorkerInv(s.money.refunds, s.runs, s.calls)
    ensures var t := Apply(s, c); WorkerInv(t.money.refunds, t.runs, t.calls)
  {
    hide WorkerInv;
    match c
    case RunReads(r) => ReadKeeps(s, r);
    case RunClaims(i) => ClaimKeeps(s, i);
    case RunCalls(i, ref) => CallKeeps(s, i, ref);
    case RunRecords(i) => RecordKeeps(s, i);
    case _ =>
      OtherStepsAddRefunds(s, c);
      hide Apply;
      OthersKeep(s, Apply(s, c));
  }

  // ----- what the gateway is asked to send back -----

  /** The money all outbound calls ask the gateway to return from a payment. */
  function SentBack(calls: seq<Call>, p: PaymentId): int {
    if calls == [] then 0
    else
      var last := calls[|calls| - 1];
      SentBack(calls[..|calls| - 1], p) + if last.payment == p then last.amount else 0
  }

  lemma {:induction false} NothingSentBack(calls: seq<Call>, p: PaymentId)
    requires forall k :: 0 <= k < |calls| ==> calls[k].payment != p
    ensures SentBack(calls, p) == 0
  {
    if calls != [] {
      NothingSentBack(calls[..|calls| - 1], p);
    }
  }

  lemma {:induction false} SentBackOnce(calls: seq<Call>, p: PaymentId, k: nat)
    requires k < |calls| && calls[k].payment == p
    requires forall l :: 0 <= l < |calls| && l != k ==> calls[l].payment != p
    ensures SentBack(calls, p) == calls[k].amount
  {
    if k < |calls| - 1 {
      SentBackOnce(calls[..|calls| - 1], p, k);
    } else {
      NothingSentBack(calls[..|calls| - 1], p);
    }
  }

  /** A payment is sent back never, or once in full, and then it was captured. */
  lemma SentBackAtMostOnce(s: State, p: PaymentId)
    requires CoreInv(s) && WorkerInv(s.money.refunds, s.runs, s.calls) && p < |s.money.payments|
    ensures SentBack(s.calls, p) == 0
      || (SentBack(s.calls, p) == s.money.payments[p].amount && s.money.payments[p].status == Payments.Captured)
  {
    forall r | 0 <= r < |s.money.refunds| ensures RefundOK(s.money.payments, s.money.refunds[r]) {
    }
    if k :| 0 <= k < |s.calls| && s.calls[k].payment == p {
      forall l | 0 <= l < |s.calls| && l != k ensures s.calls[l].payment != p {
        assert CallOK(s.money.refunds, s.calls[k]) && CallOK(s.money.refunds, s.calls[l]);
      }
      SentBackOnce(s.calls, p, k);
      assert CallOK(s.money.refunds, s.calls[k]);
    } else {
      NothingSentBack(s.calls, p);
    }
  }
}
