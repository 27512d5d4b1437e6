/**
 * The hold window: from the hold of a pending order until its fifteen minutes
 * are over, whatever else happens, the order's own holds cover its lines, and a
 * capture processed in that window is never turned into an oversold cancel.
 */
module HoldWindow {
  import opened Common
  import opened Inventory
  import opened InventoryProofs
  import opened Orders
  import opened Checkout
  import opened MoneyInvariant
  import opened CheckoutInvariant
  import opened CheckoutRuns
  import opened StockOverRuns
  import Payments
  import Quotes
  import Invoices

  /** The order has a hold on the line's variant, for at least its quantity, that lasts to the deadline. */
  ghost predicate HeldTo(holds: seq<Hold>, o: OrderId, line: Line, deadline: int) {
    exists h :: h in holds && h.order == o && h.variant == line.variant && h.quantity >= line.quantity
      && h.expiresAt >= deadline
  }

  ghost predicate OrderHeld(s: State, o: OrderId, deadline: int)
    requires o < |s.orders|
  {
    forall l :: l in LinesOf(s.orders[o]) && l.variant in s.tracked ==> HeldTo(s.stock.holds, o, l, deadline)
  }

  /** A hold is released only after its order has stopped waiting for payment. */
  ghost predicate ReleasesOK(s: State) {
    forall t :: t in s.issued && t.ReleaseHold? ==> t.order < |s.orders| && s.orders[t.order].status != PendingPayment
  }

  /** No transaction but the order's own removes the order's unexpired holds. */
  ghost predicate SparesHoldsOf(a: seq<Hold>, b: seq<Hold>, o: OrderId, now: int) {
    forall h :: h in a && h.order == o && h.expiresAt > now ==> h in b
  }

  lemma {:induction false} CollectSpares(holds: seq<Hold>, lines: seq<Line>, now: int, h: Hold)
    requires h in holds && h.expiresAt > now
    ensures h in Collect(holds, lines, now)
  {
    if lines != [] {
      CollectSpares(holds, lines[..|lines| - 1], now, h);
      DeleteMembers(Collect(holds, lines[..|lines| - 1], now), Lapsed(lines[|lines| - 1].variant, now));
    }
  }

  lemma HoldStockSpares(s: Stock, now: int, tracked: set<VariantId>, other: OrderId, lines: seq<Line>, o: OrderId)
    requires HoldStock(s, now, tracked, other, lines).Success? && other != o
    ensures SparesHoldsOf(s.holds, HoldStock(s, now, tracked, other, lines).value.holds, o, now)
  {
    var wanted := TrackedLines(lines, tracked);
    DeleteMembers(s.holds, OfOrder(other));
    forall h | h in s.holds && h.order == o && h.expiresAt > now
      ensures h in HoldStock(s, now, tracked, other, lines).value.holds
    {
      CollectSpares(Delete(s.holds, OfOrder(other)), wanted, now, h);
    }
  }

  lemma {:induction false} SellLinesSpares(s: Stock, now: int, other: OrderId, lines: seq<Line>, o: OrderId)
    requires SellLines(s, now, other, lines).Success? && other != o
    ensures SparesHoldsOf(s.holds, SellLines(s, now, other, lines).value.holds, o, now)
  {
    if lines != [] {
      SellLinesSpares(s, now, other, lines[..|lines| - 1], o);
      var t := SellLines(s, now, other, lines[..|lines| - 1]).value;
      DeleteMembers(t.holds, OfOrderVariant(other, lines[|lines| - 1].variant));
    }
  }

  lemma ConfirmSpares(s: State, other: OrderId, shop: Shop, overredeem: bool, o: OrderId)
    requires other < |s.orders| && ConfirmCore(s, other, shop, overredeem).Success? && other != o
    ensures SparesHoldsOf(s.stock.holds, ConfirmCore(s, other, shop, overredeem).value.stock.holds, o, s.now)
  {
    var lines := LinesOf(s.orders[other]);
    if lines != [] {
      var sold := SoldLines(s.orders[other], s.tracked);
      SellLinesSpares(s.stock, s.now, other, sold, o);
      DeleteMembers(SellLines(s.stock, s.now, other, sold).value.holds, OfOrder(other));
    }
  }

  lemma PlacementSpares(s: State, other: OrderId, shop: Shop, o: OrderId)
    requires other < |s.orders| && o < |s.orders| && s.orders[o].status == PendingPayment
    requires var t := ConfirmAtPlacementTx(s, other, shop); o < |t.orders| && t.orders[o].status == PendingPayment
    ensures SparesHoldsOf(s.stock.holds, ConfirmAtPlacementTx(s, other, shop).stock.holds, o, s.now)
  {
    if s.orders[other].status == PendingPayment && ConfirmCore(s, other, shop, false).Success? {
      ConfirmCoreMoves(s, other, shop, false);
      ConfirmSpares(s, other, shop, false, o);
    }
  }

  lemma CaptureSpares(s: State, g: GatewayRef, amount: int, shop: Shop, o: OrderId)
    requires o < |s.orders| && s.orders[o].status == PendingPayment
    requires var t := ProcessCaptured(s, g, amount, shop); o < |t.orders| && t.orders[o].status == PendingPayment
    ensures SparesHoldsOf(s.stock.holds, ProcessCaptured(s, g, amount, shop).stock.holds, o, s.now)
  {
    match Lookup(s, g)
    case None =>
    case Some((other, p)) =>
      var c := Capture(s, other, p, amount);
      var u := SetPayStatus(c, other, PaidStatus(c.orders[other]));
      if && s.money.payments[p].status != Payments.Captured && amount == s.money.payments[p].amount
         && s.orders[other].status == PendingPayment && ConfirmCore(u, other, shop, true).Success? {
        ConfirmCoreMoves(u, other, shop, true);
        ConfirmSpares(u, other, shop, true, o);
      }
  }

  /** A hold task of the order itself only replaces its holds by later ones. */
  lemma OwnHoldRenews(s: State, o: OrderId, replay: bool, account: bool, deadline: int)
    requires o < |s.orders| && OrderHeld(s, o, deadline) && deadline <= s.now + RESERVATION_TTL_MS
    ensures OrderHeld(PlaceHoldTx(s, o, replay, account), o, deadline)
  {
    if HoldStock(s.stock, s.now, s.tracked, o, LinesOf(s.orders[o])).Success? {
      FreshHoldLasts(s, o, replay, account);
      assert OrderHeld(PlaceHoldTx(s, o, replay, account), o, s.now + RESERVATION_TTL_MS);
    }
  }

  lemma FreshHoldLasts(s: State, o: OrderId, replay: bool, account: bool)
    requires o < |s.orders| && HoldStock(s.stock, s.now, s.tracked, o, LinesOf(s.orders[o])).Success?
    ensures OrderHeld(PlaceHoldTx(s, o, replay, account), o, s.now + RESERVATION_TTL_MS)
  {
    var lines := LinesOf(s.orders[o]);
    var t := PlaceHoldTx(s, o, replay, account);
    TrackedLinesAre(lines, s.tracked);
    forall l | l in lines && l.variant in s.tracked ensures HeldTo(t.stock.holds, o, l, s.now + RESERVATION_TTL_MS) {
      var wanted := TrackedLines(lines, s.tracked);
      assert l in wanted;
      var i :| 0 <= i < |wanted| && wanted[i] == l;
      assert NewHolds(o, wanted, s.now + RESERVATION_TTL_MS)[i] in t.stock.holds;
    }
  }

  lemma HeldFollows(s: State, t: State, o: OrderId, deadline: int)
    requires o < |s.orders| <= |t.orders| && SameSale(s.orders[o], t.orders[o]) && t.tracked == s.tracked
    requires OrderHeld(s, o, deadline) && SparesHoldsOf(s.stock.holds, t.stock.holds, o, s.now) && s.now < deadline
    ensures OrderHeld(t, o, deadline)
  {
  }

  lemma TaskSpares(s: State, task: Task, g: GatewayRef, shop: Shop, o: OrderId)
    requires CoreInv(s) && ReleasesOK(s) && task in s.issued && o < |s.orders| && s.orders[o].status == PendingPayment
    requires var t := PerformTask(s, task, g, shop); o < |t.orders| && t.orders[o].status == PendingPayment
    requires task.PlaceHold? ==> task.order != o
    ensures SparesHoldsOf(s.stock.holds, PerformTask(s, task, g, shop).stock.holds, o, s.now)
  {
    hide CoreInv;
    match task
    case PlaceHold(other, replay) =>
      if other < |s.orders| && HoldStock(s.stock, s.now, s.tracked, other, LinesOf(s.orders[other])).Success? {
        HoldStockSpares(s.stock, s.now, s.tracked, other, LinesOf(s.orders[other]), o);
      }
    case ReleaseHold(other) => DeleteMembers(s.stock.holds, OfOrder(other));
    case ConfirmAtPlacement(other) => if other < |s.orders| { PlacementSpares(s, other, shop, o); }
    case CancelOversold(gateway, amount) => OversoldStock(s, gateway, amount);
    case _ =>
  }

  lemma OversoldStock(s: State, g: GatewayRef, amount: int)
    ensures CancelOversoldTx(s, g, amount).stock == s.stock
  {
  }

  lemma StaffCancelSpares(s: State, o: OrderId)
    requires o < |s.orders| && StockInv(s)
    ensures CancelOrder(s, o).stock.holds == s.stock.holds
  {
    RestockLinesKeeps(s.stock, s.now, o, SoldLines(s.orders[o], s.tracked));
    RestockLinesLedger(s.stock, s.now, o, SoldLines(s.orders[o], s.tracked));
  }

  lemma OtherStepsSpareStock(s: State, c: Step)
    requires !c.Perform? && !c.CaptureEvent? && !c.StaffCancel? && !c.StaffStock?
    ensures Apply(s, c).stock == s.stock
  {
    hide TermsOf;
  }

  /** A step that is not the order's own hold removes none of its unexpired holds. */
  lemma StepSpares(s: State, c: Step, o: OrderId)
    requires CoreInv(s) && StockInv(s) && ReleasesOK(s) && o < |s.orders| && s.orders[o].status == PendingPayment
    requires o < |Apply(s, c).orders| && Apply(s, c).orders[o].status == PendingPayment
    requires !(c.Perform? && c.task.PlaceHold? && c.task.order == o)
    ensures SparesHoldsOf(s.stock.holds, Apply(s, c).stock.holds, o, s.now)
  {
    hide CoreInv;
    hide StockInv;
    hide ReleasesOK;
    match c
    case Perform(task, g, shop) => if task in s.issued { TaskSpares(s, task, g, shop, o); hide PerformTask; }
    case CaptureEvent(g, amount, shop) => CaptureSpares(s, g, amount, shop, o); hide ProcessCaptured;
    case StaffCancel(other) => if other < |s.orders| { StaffCancelSpares(s, other); hide CancelOrder; }
    case StaffStock(_, _, _) =>
    case _ => OtherStepsSpareStock(s, c); hide Apply;
  }

  /** One step of anybody: a pending order that was held to the deadline still is. */
  lemma StepKeepsHeld(s: State, c: Step, o: OrderId, deadline: int)
    requires CoreInv(s) && StockInv(s) && ReleasesOK(s) && o < |s.orders| && OrderHeld(s, o, deadline)
    requires s.now < deadline <= s.now + RESERVATION_TTL_MS
    requires o < |Apply(s, c).orders| && Apply(s, c).orders[o].status == PendingPayment
    ensures OrderHeld(Apply(s, c), o, deadline)
  {
    hide CoreInv;
    hide StockInv;
    hide ReleasesOK;
    hide OrderHeld;
    hide PlaceHoldTx;
    if c.Perform? && c.task.PlaceHold? && c.task.order == o {
      if c.task in s.issued {
        OwnHoldRenews(s, o, c.task.replay, c.shop.account, deadline);
      }
    } else {
      OthersKeepHeld(s, c, o, deadline);
    }
  }

  lemma OthersKeepHeld(s: State, c: Step, o: OrderId, deadline: int)
    requires CoreInv(s) && StockInv(s) && ReleasesOK(s) && o < |s.orders| && OrderHeld(s, o, deadline)
    requires s.now < deadline && !(c.Perform? && c.task.PlaceHold? && c.task.order == o)
    requires o < |Apply(s, c).orders| && Apply(s, c).orders[o].status == PendingPayment
    ensures OrderHeld(Apply(s, c), o, deadline)
  {
    hide CoreInv;
    hide StockInv;
    hide ReleasesOK;
    hide OrderHeld;
    hide Apply;
    hide SparesHoldsOf;
    StepKeepsCore(s, c);
    assert OrderEvolves(s.orders[o], Apply(s, c).orders[o]);
    StepSpares(s, c, o);
    HeldFollows(s, Apply(s, c), o, deadline);
  }

  // ----- releases wait for the order to close -----

  lemma ReleasesFollow(s: State, t: State)
    requires ReleasesOK(s) && OrdersEvolve(s.orders, t.orders)
    requires forall k :: k in t.issued && k !in s.issued && k.ReleaseHold? ==>
      k.order < |t.orders| && t.orders[k.order].status != PendingPayment
    ensures ReleasesOK(t)
  {
  }

  /** The tasks other than the order's own close never ask for a release, or ask for it once the order is closed. */
  lemma NewReleasesAreClosed(s: State, c: Step)
    requires CoreInv(s)
    ensures ReleasesAreNew(s, Apply(s, c))
  {
    hide CoreInv;
    match c
    case Perform(task, g, shop) => if task in s.issued { TaskReleases(s, task, g, shop); hide PerformTask; }
    case CaptureEvent(g, amount, shop) => CaptureReleases(s, g, amount, shop); hide ProcessCaptured;
    case Start(cart, key, request, rows, shop) => hide CreateOrder; CreateReleases(s, cart, key, request, rows, shop);
    case _ =>
  }

  /** A release that was not there before is of a closed order. */
  ghost predicate ReleasesAreNew(s: State, t: State) {
    forall k :: k in t.issued && k !in s.issued && k.ReleaseHold? ==>
      k.order < |t.orders| && t.orders[k.order].status != PendingPayment
  }

  lemma CreateReleases(s: State, c: CartId, key: nat, req: Request, rows: seq<Quotes.Row>, shop: Shop)
    ensures CreateOrder(s, c, key, req, rows, shop).Some? ==>
      CreateOrder(s, c, key, req, rows, shop).value.issued == s.issued
  {
  }

  lemma TaskReleases(s: State, task: Task, g: GatewayRef, shop: Shop)
    requires CoreInv(s)
    ensures ReleasesAreNew(s, PerformTask(s, task, g, shop))
  {
    if task.CancelOversold? {
      OversoldReleases(s, task.gateway, task.amount);
    } else if task.ConfirmAtPlacement? && task.order < |s.orders| && ConfirmCore(s, task.order, shop, false).Success? {
      ConfirmCoreMoves(s, task.order, shop, false);
    }
    hide CoreInv;
    hide CancelOversoldTx;
    hide ConfirmCore;
    hide HoldStock;
    hide AfterHold;
    AfterHoldReleasesNothing(s, task, shop.account);
  }

  lemma AfterHoldReleasesNothing(s: State, task: Task, account: bool)
    ensures !task.CancelOversold? && task.order < |s.orders| ==>
      forall replay, k :: k in AfterHold(s, task.order, replay, account) ==> !k.ReleaseHold?
  {
  }

  lemma CaptureReleases(s: State, g: GatewayRef, amount: int, shop: Shop)
    ensures ReleasesAreNew(s, ProcessCaptured(s, g, amount, shop))
  {
    if Lookup(s, g).Some? {
      var (o, p) := Lookup(s, g).value;
      var cap := Capture(s, o, p, amount);
      if ConfirmCore(SetPayStatus(cap, o, PaidStatus(cap.orders[o])), o, shop, true).Success? {
        ConfirmCoreMoves(SetPayStatus(cap, o, PaidStatus(cap.orders[o])), o, shop, true);
      }
    }
    hide ConfirmCore;
  }

  lemma OversoldReleases(s: State, g: GatewayRef, amount: int)
    requires CoreInv(s)
    ensures ReleasesAreNew(s, CancelOversoldTx(s, g, amount))
  {
    hide CoreInv;
    hide MoneyInv;
    hide CartsOK;
    match Lookup(s, g)
    case None =>
    case Some((o, p)) =>
      hide CancelOversoldTx;
      hide Lookup;
      assert s.money.payments[p].status == Payments.Captured ==> s.orders[o].status != PendingPayment by {
        PaymentFacts(s, p);
      }
      OversoldWrites(s, g, amount, o, p);
  }

  lemma StepKeepsReleases(s: State, c: Step)
    requires CoreInv(s) && ReleasesOK(s)
    ensures ReleasesOK(Apply(s, c))
  {
    StepKeepsCore(s, c);
    NewReleasesAreClosed(s, c);
    hide Apply;
    ReleasesFollow(s, Apply(s, c));
  }

  ghost predicate Sound(s: State) { CoreInv(s) && StockInv(s) && ReleasesOK(s) }

  /** What an earlier state says about an order still binds a later one. */
  ghost predicate Later(s: State, t: State) {
    && s.now <= t.now && s.tracked == t.tracked && |s.orders| <= |t.orders|
    && (forall o :: 0 <= o < |s.orders| ==>
        && SameSale(s.orders[o], t.orders[o])
        && (t.orders[o].status == PendingPayment ==> s.orders[o].status == PendingPayment))
  }

  lemma StepIsSound(s: State, c: Step)
    requires Sound(s)
    ensures Sound(Apply(s, c)) && Later(s, Apply(s, c))
  {
    hide CoreInv;
    hide StockInv;
    hide ReleasesOK;
    hide Apply;
    hide Evolves;
    hide Later;
    StepKeepsCore(s, c);
    StepKeepsStock(s, c);
    StepKeepsReleases(s, c);
    EvolvedIsLater(s, Apply(s, c));
  }

  lemma EvolvedIsLater(s: State, t: State)
    requires Evolves(s, t)
    ensures Later(s, t)
  {
    forall o | 0 <= o < |s.orders| ensures OrderEvolves(s.orders[o], t.orders[o]) {
    }
  }

  lemma {:induction false} RunIsSound(s: State, steps: seq<Step>)
    requires Sound(s)
    ensures Sound(Run(s, steps)) && Later(s, Run(s, steps))
  {
    if steps != [] {
      RunIsSound(s, steps[..|steps| - 1]);
      StepIsSound(Run(s, steps[..|steps| - 1]), steps[|steps| - 1]);
      hide Apply;
      hide Sound;
    }
  }

  lemma InitialIsSound(tracked: set<VariantId>)
    ensures Sound(Initial(tracked))
  {
  }

  /** Over any run: while the order is pending and the deadline is not reached, its holds are there. */
  lemma {:induction false} HoldLasts(s: State, steps: seq<Step>, o: OrderId, deadline: int)
    requires Sound(s) && o < |s.orders| && OrderHeld(s, o, deadline) && deadline <= s.now + RESERVATION_TTL_MS
    requires Run(s, steps).now < deadline
    requires o < |Run(s, steps).orders| && Run(s, steps).orders[o].status == PendingPayment
    ensures OrderHeld(Run(s, steps), o, deadline)
  {
    if steps != [] {
      var front, c := steps[..|steps| - 1], steps[|steps| - 1];
      RunIsSound(s, front);
      var t := Run(s, front);
      StepIsSound(t, c);
      hide Apply;
      HoldLasts(s, front, o, deadline);
      StepKeepsHeld(t, c, o, deadline);
    }
  }

  /** A held order's stock can be consumed. */
  lemma HeldOrderSells(s: State, o: OrderId, deadline: int, lines: seq<Line>)
    requires StockInv(s) && o < |s.orders| && OrderHeld(s, o, deadline) && s.now < deadline
    requires lines == LinesOf(s.orders[o]) && ValidLines(lines)
    ensures ConsumeStock(s.stock, s.now, s.tracked, o, lines).Success?
  {
    forall l | l in lines && l.variant in s.tracked ensures Covered(s.stock.holds, o, l, s.now) {
      assert HeldTo(s.stock.holds, o, l, deadline);
    }
    HeldOrdersAreNeverRefused(s.stock, s.now, s.tracked, o, lines);
  }

  /** The invoice the confirmation would write is one the register accepts. */
  predicate Invoiceable(s: State, o: OrderId, shop: Shop)
    requires o < |s.orders|
  {
    var q := s.orders[o].quote;
    Invoices.Issue(s.register, o, Invoices.Series(Invoices.DocTypeFor(shop.registration), shop.year), q.lines,
                   Invoices.AmountsOf(q)).Success?
  }

  /**
   * A capture of a held order confirms it, exactly when its invoice
   * can be issued; it never asks for an oversold cancel.
   */
  lemma HeldCaptureConfirms(s: State, g: GatewayRef, amount: int, shop: Shop, o: OrderId, p: PaymentId, deadline: int)
    requires StockInv(s) && Lookup(s, g) == Some((o, p)) && s.orders[o].status == PendingPayment
    requires s.money.payments[p].status != Payments.Captured && amount == s.money.payments[p].amount
    requires OrderHeld(s, o, deadline) && s.now < deadline && ValidLines(LinesOf(s.orders[o]))
    ensures var t := ProcessCaptured(s, g, amount, shop);
      && t.issued == s.issued
      && (if Invoiceable(s, o, shop) then
            t.orders[o].status == Confirmed && t.money.payments[p].status == Payments.Captured
          else t == s)
  {
    HeldOrderSells(s, o, deadline, LinesOf(s.orders[o]));
    var c := Capture(s, o, p, amount);
    var u := SetPayStatus(c, o, PaidStatus(c.orders[o]));
    assert u.stock == s.stock && u.register == s.register && LinesOf(u.orders[o]) == LinesOf(s.orders[o]);
    hide StockInv;
    hide OrderHeld;
    hide ConsumeStock;
    hide ValidLines;
    hide LinesOf;
  }

  lemma HeldLinesAreValid(s: Stock, now: int, tracked: set<VariantId>, o: OrderId, lines: seq<Line>)
    requires HoldStock(s, now, tracked, o, lines).Success?
    ensures ValidLines(lines)
  {
  }

  /** A placement of a held order is refused only by its coupon or its invoice, never over stock. */
  lemma HeldPlacementConfirms(s: State, o: OrderId, shop: Shop, deadline: int)
    requires StockInv(s) && o < |s.orders| && s.orders[o].status == PendingPayment
    requires OrderHeld(s, o, deadline) && s.now < deadline && ValidLines(LinesOf(s.orders[o]))
    ensures var t := ConfirmAtPlacementTx(s, o, shop);
      if ClaimCoupon(s, o, s.orders[o]).None? then t == Issue(s, {CancelPending(o)})
      else if Invoiceable(s, o, shop) then t.orders[o].status == Confirmed && t.issued == s.issued
      else t == s
  {
    hide StockInv;
    hide OrderHeld;
    hide ConsumeStock;
    hide ValidLines;
    hide LinesOf;
    hide ClaimCoupon;
    HeldOrderSells(s, o, deadline, LinesOf(s.orders[o]));
  }

  /** A hold placed at some moment of a run covers the order while it is pending and fifteen minutes are not over. */
  lemma StillHeld(tracked: set<VariantId>, before: seq<Step>, o: OrderId, replay: bool, hold: Shop, after: seq<Step>)
    requires var s := Run(Initial(tracked), before);
      && PlaceHold(o, replay) in s.issued && o < |s.orders|
      && HoldStock(s.stock, s.now, s.tracked, o, LinesOf(s.orders[o])).Success?
      && var u := Run(PlaceHoldTx(s, o, replay, hold.account), after);
      u.now < s.now + RESERVATION_TTL_MS && o < |u.orders| && u.orders[o].status == PendingPayment
    ensures var s := Run(Initial(tracked), before);
      var u := Run(PlaceHoldTx(s, o, replay, hold.account), after);
      StockInv(u) && OrderHeld(u, o, s.now + RESERVATION_TTL_MS) && ValidLines(LinesOf(u.orders[o]))
  {
    hide CoreInv;
    hide StockInv;
    hide ReleasesOK;
    hide Run;
    hide PlaceHoldTx;
    hide HoldStock;
    var s := Run(Initial(tracked), before);
    InitialIsSound(tracked);
    RunIsSound(Initial(tracked), before);
    var held := PlaceHoldTx(s, o, replay, hold.account);
    StepIsSound(s, Perform(PlaceHold(o, replay), 0, hold));
    FreshHoldLasts(s, o, replay, hold.account);
    RunIsSound(held, after);
    var u := Run(held, after);
    assert LinesOf(u.orders[o]) == LinesOf(s.orders[o]);
    HeldLinesAreValid(s.stock, s.now, s.tracked, o, LinesOf(s.orders[o]));
    HoldLasts(held, after, o, s.now + RESERVATION_TTL_MS);
  }

  /**
   * The promise to the buyer. An order is held at some moment of some run; whatever anybody does afterwards, a first
   * capture of its payment that arrives within fifteen minutes, with the order still pending, finds the stock there.
   */
  lemma CaptureInTheHoldWindow(tracked: set<VariantId>, before: seq<Step>, o: OrderId, replay: bool, hold: Shop,
                               after: seq<Step>, g: GatewayRef, amount: int, shop: Shop, p: PaymentId)
    requires var s := Run(Initial(tracked), before);
      && PlaceHold(o, replay) in s.issued && o < |s.orders|
      && HoldStock(s.stock, s.now, s.tracked, o, LinesOf(s.orders[o])).Success?
      && var u := Run(PlaceHoldTx(s, o, replay, hold.account), after);
      && u.now < s.now + RESERVATION_TTL_MS
      && Lookup(u, g) == Some((o, p)) && u.orders[o].status == PendingPayment
      && u.money.payments[p].status != Payments.Captured && amount == u.money.payments[p].amount
    ensures var u := Run(PlaceHoldTx(Run(Initial(tracked), before), o, replay, hold.account), after);
      var t := ProcessCaptured(u, g, amount, shop);
      && t.issued == u.issued
      && (if Invoiceable(u, o, shop) then
            t.orders[o].status == Confirmed && t.money.payments[p].status == Payments.Captured
          else t == u)
  {
    hide StockInv;
    hide OrderHeld;
    hide ValidLines;
    hide Run;
    hide PlaceHoldTx;
    hide HoldStock;
    hide Lookup;
    hide ProcessCaptured;
    var s := Run(Initial(tracked), before);
    var u := Run(PlaceHoldTx(s, o, replay, hold.account), after);
    StillHeld(tracked, before, o, replay, hold, after);
    HeldCaptureConfirms(u, g, amount, shop, o, p, s.now + RESERVATION_TTL_MS);
  }

  /** The same for a placement: cash on delivery, or nothing to pay. */
  lemma PlacementInTheHoldWindow(tracked: set<VariantId>, before: seq<Step>, o: OrderId, replay: bool, hold: Shop,
                                 after: seq<Step>, shop: Shop)
    requires var s := Run(Initial(tracked), before);
      && PlaceHold(o, replay) in s.issued && o < |s.orders|
      && HoldStock(s.stock, s.now, s.tracked, o, LinesOf(s.orders[o])).Success?
      && var u := Run(PlaceHoldTx(s, o, replay, hold.account), after);
      u.now < s.now + RESERVATION_TTL_MS && o < |u.orders| && u.orders[o].status == PendingPayment
    ensures var u := Run(PlaceHoldTx(Run(Initial(tracked), before), o, replay, hold.account), after);
      var t := ConfirmAtPlacementTx(u, o, shop);
      if ClaimCoupon(u, o, u.orders[o]).None? then t == Issue(u, {CancelPending(o)})
      else if Invoiceable(u, o, shop) then t.orders[o].status == Confirmed && t.issued == u.issued
      else t == u
  {
    hide StockInv;
    hide OrderHeld;
    hide ValidLines;
    hide Run;
    hide PlaceHoldTx;
    hide HoldStock;
    hide ConfirmAtPlacementTx;
    hide ClaimCoupon;
    var s := Run(Initial(tracked), before);
    var u := Run(PlaceHoldTx(s, o, replay, hold.account), after);
    StillHeld(tracked, before, o, replay, hold, after);
    HeldPlacementConfirms(u, o, shop, s.now + RESERVATION_TTL_MS);
  }
}
