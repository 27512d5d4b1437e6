/**
 * Stock over whole runs: the projection is the ledger, promises are backed at
 * every clock value, and the ledger holds exactly one sale per tracked line of
 * every order ever confirmed and one restock per line of every staff cancel.
 */
module StockOverRuns {
  import opened Common
  import opened Inventory
  import opened InventoryProofs
  import opened Orders
  import opened Checkout
  import opened MoneyInvariant
  import opened CheckoutInvariant
  import Payments
  import Quotes

  // ----- reading the ledger -----

  datatype Selection = ForOrder(reason: Reason, order: OrderId) | ByStaff

  predicate Selects(w: Selection, m: Movement) {
    match w
    case ForOrder(reason, o) => m.reason == reason && m.order == Some(o)
    case ByStaff => m.order.None?
  }

  function Rows(ledger: seq<Movement>, w: Selection): seq<Movement> {
    if ledger == [] then []
    else Rows(ledger[..|ledger| - 1], w) + if Selects(w, ledger[|ledger| - 1]) then [ledger[|ledger| - 1]] else []
  }

  lemma {:induction false} RowsAppend(a: seq<Movement>, b: seq<Movement>, w: Selection)
    ensures Rows(a + b, w) == Rows(a, w) + Rows(b, w)
  {
    if b == [] {
      assert a + b == a;
    } else {
      assert (a + b)[..|a + b| - 1] == a + b[..|b| - 1];
      RowsAppend(a, b[..|b| - 1], w);
    }
  }

  lemma {:induction false} LedgerSumAppend(a: seq<Movement>, b: seq<Movement>, v: VariantId)
    ensures LedgerSum(a + b, v) == LedgerSum(a, v) + LedgerSum(b, v)
  {
    if b == [] {
      assert a + b == a;
    } else {
      assert (a + b)[..|a + b| - 1] == a + b[..|b| - 1];
      LedgerSumAppend(a, b[..|b| - 1], v);
    }
  }

  lemma {:induction false} AllOrNone(rows: seq<Movement>, w: Selection, all: bool)
    requires forall i :: 0 <= i < |rows| ==> Selects(w, rows[i]) == all
    ensures Rows(rows, w) == if all then rows else []
  {
    if rows != [] {
      AllOrNone(rows[..|rows| - 1], w, all);
    }
  }

  lemma {:induction false} QuantityAppend(a: seq<Line>, b: seq<Line>, v: VariantId)
    ensures Quantity(a + b, v) == Quantity(a, v) + Quantity(b, v)
  {
    if a == [] {
      assert a + b == b;
    } else {
      assert (a + b)[1..] == a[1..] + b;
      QuantityAppend(a[1..], b, v);
    }
  }

  lemma {:induction false} QuantityTracked(lines: seq<Line>, tracked: set<VariantId>, v: VariantId)
    ensures Quantity(TrackedLines(lines, tracked), v) == if v in tracked then Quantity(lines, v) else 0
  {
    if lines != [] {
      QuantityTracked(lines[1..], tracked, v);
      QuantityAppend(if lines[0].variant in tracked then [lines[0]] else [], TrackedLines(lines[1..], tracked), v);
    }
  }

  lemma {:induction false} SaleRowsSum(o: OrderId, lines: seq<Line>, v: VariantId)
    ensures LedgerSum(SaleRows(o, lines), v) == -(Quantity(lines, v) as int)
    ensures forall i :: 0 <= i < |SaleRows(o, lines)| ==>
      SaleRows(o, lines)[i].reason == Sale && SaleRows(o, lines)[i].order == Some(o)
  {
    if lines != [] {
      var front, last := lines[..|lines| - 1], lines[|lines| - 1];
      SaleRowsSum(o, front, v);
      assert lines == front + [last];
      QuantityAppend(front, [last], v);
      LedgerSumAppend(SaleRows(o, front), [SaleRow(o, last)], v);
    }
  }

  lemma {:induction false} RestockRowsSum(o: OrderId, lines: seq<Line>, v: VariantId)
    ensures LedgerSum(RestockRows(o, lines), v) == Quantity(lines, v)
    ensures forall i :: 0 <= i < |RestockRows(o, lines)| ==>
      RestockRows(o, lines)[i].reason == CancellationRestock && RestockRows(o, lines)[i].order == Some(o)
  {
    if lines != [] {
      var front, last := lines[..|lines| - 1], lines[|lines| - 1];
      RestockRowsSum(o, front, v);
      assert lines == front + [last];
      QuantityAppend(front, [last], v);
      LedgerSumAppend(RestockRows(o, front), [RestockRow(o, last)], v);
    }
  }

  // ----- what the orders account for -----

  /** The lines an order takes from stock, in the order they are written. */
  function SoldLines(order: Order, tracked: set<VariantId>): seq<Line>
  {
    SortLines(TrackedLines(LinesOf(order), tracked))
  }

  predicate CancelledAfterSale(order: Order) { order.confirmedAt.Some? && order.status == Cancelled }

  /** What an order has out of stock: its tracked lines, once confirmed and until cancelled. */
  function Out(order: Order, tracked: set<VariantId>, v: VariantId): nat {
    if order.confirmedAt.Some? && order.status != Cancelled && v in tracked then Quantity(LinesOf(order), v) else 0
  }

  function Sold(orders: seq<Order>, tracked: set<VariantId>, v: VariantId): nat {
    if orders == [] then 0 else Sold(orders[..|orders| - 1], tracked, v) + Out(orders[|orders| - 1], tracked, v)
  }

  /** Only order o, if it exists, changes what it has out. */
  lemma {:induction false} SoldChanges(a: seq<Order>, b: seq<Order>, o: nat, tracked: set<VariantId>, v: VariantId)
    requires |a| <= |b|
    requires forall x :: 0 <= x < |a| && x != o ==> Out(a[x], tracked, v) == Out(b[x], tracked, v)
    requires forall x :: |a| <= x < |b| ==> Out(b[x], tracked, v) == 0
    ensures Sold(b, tracked, v) as int == Sold(a, tracked, v)
      + if o < |a| then Out(b[o], tracked, v) - Out(a[o], tracked, v) else 0
  {
    if |b| > |a| {
      SoldChanges(a, b[..|b| - 1], o, tracked, v);
    } else if a != [] {
      SoldChanges(a[..|a| - 1], b[..|b| - 1], o, tracked, v);
    }
  }

  /**
   * The rows an order accounts for: one sale per tracked line if it was
   * ever confirmed, one restock per line if cancelled after that.
   */
  function Account(o: OrderId, order: Order, tracked: set<VariantId>, reason: Reason): seq<Movement> {
    if reason == Sale && order.confirmedAt.Some? then SaleRows(o, SoldLines(order, tracked))
    else if reason == CancellationRestock && CancelledAfterSale(order) then RestockRows(o, SoldLines(order, tracked))
    else []
  }

  ghost predicate OrderExplained(o: OrderId, order: Order, tracked: set<VariantId>, ledger: seq<Movement>) {
    forall reason :: Rows(ledger, ForOrder(reason, o)) == Account(o, order, tracked, reason)
  }

  /** What the staff moved is what is on hand and what the orders have out. */
  ghost predicate Conserved(orders: seq<Order>, tracked: set<VariantId>, ledger: seq<Movement>) {
    forall v :: LedgerSum(ledger, v) == LedgerSum(Rows(ledger, ByStaff), v) - Sold(orders, tracked, v)
  }

  /** The ledger is explained by the orders and the staff. */
  ghost predicate Explained(orders: seq<Order>, tracked: set<VariantId>, ledger: seq<Movement>) {
    && (forall o :: 0 <= o < |orders| ==> OrderExplained(o, orders[o], tracked, ledger))
    && (forall i :: 0 <= i < |ledger| && ledger[i].order.Some? ==> ledger[i].order.value < |orders|)
    && Conserved(orders, tracked, ledger)
  }

  ghost predicate StockInv(s: State) {
    StockInvariant(s.stock, s.now) && Explained(s.orders, s.tracked, s.stock.ledger)
  }

  /** No order is confirmed, and no confirmed one is cancelled. */
  ghost predicate SameSales(a: seq<Order>, b: seq<Order>) {
    && |a| <= |b|
    && (forall o :: 0 <= o < |a| ==>
        SameSale(a[o], b[o]) && a[o].confirmedAt == b[o].confirmedAt
          && CancelledAfterSale(a[o]) == CancelledAfterSale(b[o]))
    && (forall o :: |a| <= o < |b| ==> b[o].confirmedAt.None?)
  }

  lemma SoldQuantity(order: Order, tracked: set<VariantId>, v: VariantId)
    ensures Quantity(SoldLines(order, tracked), v) == if v in tracked then Quantity(LinesOf(order), v) else 0
  {
    SortLinesQuantity(TrackedLines(LinesOf(order), tracked), v);
    QuantityTracked(LinesOf(order), tracked, v);
  }

  /** Nothing but orders, carts, money and tasks moves. */
  ghost predicate SameBooks(s: State, t: State) {
    && t.stock == s.stock && t.now == s.now && t.tracked == s.tracked
    && t.register == s.register && t.coupons == s.coupons && t.firstOrdered == s.firstOrdered
  }

  ghost predicate SellsNothing(s: State, t: State) { SameSales(s.orders, t.orders) && SameBooks(s, t) }

  lemma NoRowsYet(ledger: seq<Movement>, o: OrderId, order: Order, tracked: set<VariantId>)
    requires forall i :: 0 <= i < |ledger| && ledger[i].order.Some? ==> ledger[i].order.value < o
    requires order.confirmedAt.None?
    ensures OrderExplained(o, order, tracked, ledger)
  {
    forall reason ensures Rows(ledger, ForOrder(reason, o)) == [] {
      AllOrNone(ledger, ForOrder(reason, o), false);
    }
  }

  lemma SalesStay(s: State, t: State)
    requires StockInv(s) && SameSales(s.orders, t.orders) && t.tracked == s.tracked
    requires t.stock.ledger == s.stock.ledger && StockInvariant(t.stock, t.now)
    ensures StockInv(t)
  {
    var ledger := s.stock.ledger;
    forall o | 0 <= o < |t.orders| ensures OrderExplained(o, t.orders[o], t.tracked, ledger) {
      if o < |s.orders| {
        assert OrderExplained(o, s.orders[o], s.tracked, ledger);
      } else {
        NoRowsYet(ledger, o, t.orders[o], t.tracked);
      }
    }
    forall v ensures Sold(t.orders, t.tracked, v) == Sold(s.orders, s.tracked, v) {
      SoldChanges(s.orders, t.orders, |s.orders|, s.tracked, v);
    }
  }

  /** New rows keep the balance when they account for the change in what the orders have out. */
  lemma BalanceMoves(a: seq<Order>, b: seq<Order>, tracked: set<VariantId>, ledger: seq<Movement>, rows: seq<Movement>)
    requires Conserved(a, tracked, ledger)
    requires forall v ::
      LedgerSum(rows, v) == LedgerSum(Rows(rows, ByStaff), v) + Sold(a, tracked, v) - Sold(b, tracked, v)
    ensures Conserved(b, tracked, ledger + rows)
  {
    RowsAppend(ledger, rows, ByStaff);
    forall v ensures LedgerSum(ledger + rows, v) == LedgerSum(Rows(ledger + rows, ByStaff), v) - Sold(b, tracked, v) {
      LedgerSumAppend(ledger, rows, v);
      LedgerSumAppend(Rows(ledger, ByStaff), Rows(rows, ByStaff), v);
      assert LedgerSum(ledger, v) == LedgerSum(Rows(ledger, ByStaff), v) - Sold(a, tracked, v);
      assert LedgerSum(rows, v) == LedgerSum(Rows(rows, ByStaff), v) + Sold(a, tracked, v) - Sold(b, tracked, v);
    }
  }

  lemma StaffRowIsInvisible(o: OrderId, order: Order, tracked: set<VariantId>, ledger: seq<Movement>, m: Movement)
    requires OrderExplained(o, order, tracked, ledger) && m.order.None?
    ensures OrderExplained(o, order, tracked, ledger + [m])
  {
    hide Account;
    forall reason ensures Rows(ledger + [m], ForOrder(reason, o)) == Rows(ledger, ForOrder(reason, o)) {
      RowsAppend(ledger, [m], ForOrder(reason, o));
      AllOrNone([m], ForOrder(reason, o), false);
    }
  }

  /** A staff row leaves every order's account as it was. */
  lemma StaffRowExplained(orders: seq<Order>, tracked: set<VariantId>, ledger: seq<Movement>, m: Movement)
    requires Explained(orders, tracked, ledger) && m.order.None?
    ensures Explained(orders, tracked, ledger + [m])
  {
    AllOrNone([m], ByStaff, true);
    BalanceMoves(orders, orders, tracked, ledger, [m]);
    hide Conserved;
    hide OrderExplained;
    forall o | 0 <= o < |orders| ensures OrderExplained(o, orders[o], tracked, ledger + [m]) {
      StaffRowIsInvisible(o, orders[o], tracked, ledger, m);
    }
  }

  lemma StaffMoves(s: State, v: VariantId, delta: int, key: Option<nat>)
    requires StockInv(s)
    ensures StockInv(AdjustStock(s, v, delta, key))
  {
    var t := AdjustStock(s, v, delta, key);
    if t.stock != s.stock {
      RecordMovementKeeps(s.stock, s.now, s.tracked, v, delta, key);
      var m := t.stock.ledger[|s.stock.ledger|];
      assert t.stock.ledger == s.stock.ledger + [m] && m.order.None?;
      StaffRowExplained(s.orders, s.tracked, s.stock.ledger, m);
    }
  }

  lemma {:induction false} OrderRowsBalance(orders: seq<Order>, tracked: set<VariantId>, ledger: seq<Movement>,
                                            o: OrderId, n: Order, rows: seq<Movement>)
    requires Conserved(orders, tracked, ledger) && o < |orders|
    requires forall i :: 0 <= i < |rows| ==> rows[i].order == Some(o)
    requires forall v :: LedgerSum(rows, v) == Out(orders[o], tracked, v) - Out(n, tracked, v)
    ensures Conserved(orders[o := n], tracked, ledger + rows)
  {
    AllOrNone(rows, ByStaff, false);
    forall v ensures Sold(orders[o := n], tracked, v) as int == Sold(orders, tracked, v) - LedgerSum(rows, v) {
      SoldChanges(orders, orders[o := n], o, tracked, v);
    }
    BalanceMoves(orders, orders[o := n], tracked, ledger, rows);
  }

  /** An order writes rows of one reason, and its account grows by exactly those rows. */
  lemma OrderRowsExplained(orders: seq<Order>, tracked: set<VariantId>, ledger: seq<Movement>, o: OrderId, n: Order,
                           reason: Reason, rows: seq<Movement>)
    requires Explained(orders, tracked, ledger) && o < |orders|
    requires forall i :: 0 <= i < |rows| ==> rows[i].reason == reason && rows[i].order == Some(o)
    requires forall r ::
      Account(o, n, tracked, r) == Account(o, orders[o], tracked, r) + if r == reason then rows else []
    requires forall v :: LedgerSum(rows, v) == Out(orders[o], tracked, v) - Out(n, tracked, v)
    ensures Explained(orders[o := n], tracked, ledger + rows)
  {
    var after := orders[o := n];
    OrderRowsBalance(orders, tracked, ledger, o, n, rows);
    hide Conserved;
    forall x | 0 <= x < |after| ensures OrderExplained(x, after[x], tracked, ledger + rows) {
      AccountFollows(x, orders[x], after[x], tracked, ledger, o, reason, rows);
    }
  }

  lemma AccountFollows(x: OrderId, a: Order, b: Order, tracked: set<VariantId>, ledger: seq<Movement>, o: OrderId,
                       reason: Reason, rows: seq<Movement>)
    requires OrderExplained(x, a, tracked, ledger)
    requires forall i :: 0 <= i < |rows| ==> rows[i].reason == reason && rows[i].order == Some(o)
    requires forall r ::
      Account(x, b, tracked, r) == Account(x, a, tracked, r) + if x == o && r == reason then rows else []
    ensures OrderExplained(x, b, tracked, ledger + rows)
  {
    hide Account;
    forall r ensures Rows(ledger + rows, ForOrder(r, x)) == Account(x, b, tracked, r) {
      RowsAppend(ledger, rows, ForOrder(r, x));
      AllOrNone(rows, ForOrder(r, x), r == reason && x == o);
    }
  }

  lemma SaleExplained(orders: seq<Order>, tracked: set<VariantId>, ledger: seq<Movement>, o: OrderId, n: Order)
    requires Explained(orders, tracked, ledger) && o < |orders| && SameSale(orders[o], n)
    requires orders[o].confirmedAt.None? && n.confirmedAt.Some? && n.status != Cancelled
    ensures Explained(orders[o := n], tracked, ledger + SaleRows(o, SoldLines(n, tracked)))
  {
    hide Explained;
    SaleRowsSum(o, SoldLines(n, tracked), 0);
    forall v
      ensures LedgerSum(SaleRows(o, SoldLines(n, tracked)), v) == Out(orders[o], tracked, v) - Out(n, tracked, v)
    {
      SaleRowsSum(o, SoldLines(n, tracked), v);
      SoldQuantity(n, tracked, v);
    }
    OrderRowsExplained(orders, tracked, ledger, o, n, Sale, SaleRows(o, SoldLines(n, tracked)));
  }

  lemma RestockExplained(orders: seq<Order>, tracked: set<VariantId>, ledger: seq<Movement>, o: OrderId, n: Order)
    requires Explained(orders, tracked, ledger) && o < |orders| && SameSale(orders[o], n)
    requires orders[o].confirmedAt.Some? && orders[o].status != Cancelled
    requires n.confirmedAt == orders[o].confirmedAt && n.status == Cancelled
    ensures Explained(orders[o := n], tracked, ledger + RestockRows(o, SoldLines(n, tracked)))
  {
    hide Explained;
    RestockRowsSum(o, SoldLines(n, tracked), 0);
    forall v
      ensures LedgerSum(RestockRows(o, SoldLines(n, tracked)), v) == Out(orders[o], tracked, v) - Out(n, tracked, v)
    {
      RestockRowsSum(o, SoldLines(n, tracked), v);
      SoldQuantity(n, tracked, v);
    }
    OrderRowsExplained(orders, tracked, ledger, o, n, CancellationRestock, RestockRows(o, SoldLines(n, tracked)));
  }

  // ----- every step -----

  /** The confirmation door: one sale row per tracked line, nothing more. */
  lemma ConfirmSells(s: State, o: OrderId, shop: Shop, overredeem: bool)
    requires StockInvariant(s.stock, s.now) && o < |s.orders| && ConfirmCore(s, o, shop, overredeem).Success?
    ensures var t := ConfirmCore(s, o, shop, overredeem).value;
      && StockInvariant(t.stock, s.now)
      && t.stock.ledger == s.stock.ledger + SaleRows(o, SoldLines(s.orders[o], s.tracked))
  {
    var lines := LinesOf(s.orders[o]);
    if lines == [] {
      assert s.stock.ledger + [] == s.stock.ledger;
    } else {
      ConsumeStockKeeps(s.stock, s.now, s.tracked, o, lines);
      SellLinesLedger(s.stock, s.now, o, SoldLines(s.orders[o], s.tracked));
    }
  }

  lemma ConfirmKeepsStock(s: State, before: State, o: OrderId, shop: Shop, overredeem: bool, t: State)
    requires CoreInv(s) && StockInv(s) && o < |s.orders| && s.orders[o].status == PendingPayment
    requires before.stock == s.stock && before.now == s.now && before.tracked == s.tracked
    requires |before.orders| == |s.orders| && before.orders == s.orders[o := before.orders[o]]
    requires SameSale(s.orders[o], before.orders[o]) && ConfirmCore(before, o, shop, overredeem).Success?
    requires var c := ConfirmCore(before, o, shop, overredeem).value;
      && t.stock == c.stock && t.now == c.now && t.tracked == c.tracked && |t.orders| == |s.orders|
      && t.orders == s.orders[o := t.orders[o]] && SameSale(t.orders[o], c.orders[o])
      && t.orders[o].status == c.orders[o].status && t.orders[o].confirmedAt == c.orders[o].confirmedAt
    ensures StockInv(t)
  {
    OrderFacts(s, o);
    ConfirmCoreMoves(before, o, shop, overredeem);
    ConfirmSells(before, o, shop, overredeem);
    hide ConfirmCore;
    SaleExplained(s.orders, s.tracked, s.stock.ledger, o, t.orders[o]);
  }

  lemma PlacementKeepsStock(s: State, o: OrderId, shop: Shop)
    requires CoreInv(s) && StockInv(s) && o < |s.orders|
    ensures StockInv(ConfirmAtPlacementTx(s, o, shop))
  {
    var t := ConfirmAtPlacementTx(s, o, shop);
    if s.orders[o].status == PendingPayment && ConfirmCore(s, o, shop, false).Success? {
      ConfirmCoreMoves(s, o, shop, false);
      ConfirmKeepsStock(s, s, o, shop, false, t);
    } else {
      SalesStay(s, t);
    }
  }

  lemma CaptureKeepsStock(s: State, g: GatewayRef, amount: int, shop: Shop)
    requires CoreInv(s) && StockInv(s)
    ensures StockInv(ProcessCaptured(s, g, amount, shop))
  {
    assert StockInvariant(s.stock, s.now);
    hide CoreInv;
    hide StockInv;
    hide StockInvariant;
    match Lookup(s, g)
    case None =>
    case Some((o, p)) =>
      var c := Capture(s, o, p, amount);
      var u := SetPayStatus(c, o, PaidStatus(c.orders[o]));
      if s.orders[o].status == PendingPayment && ConfirmCore(u, o, shop, true).Success? {
        ConfirmCoreMoves(u, o, shop, true);
        ConfirmKeepsStock(s, u, o, shop, true, ConfirmCore(u, o, shop, true).value);
      } else {
        CaptureSellsNothing(s, g, amount, shop);
        hide ProcessCaptured;
        SalesStay(s, ProcessCaptured(s, g, amount, shop));
      }
  }

  lemma CaptureSellsNothing(s: State, g: GatewayRef, amount: int, shop: Shop)
    requires Lookup(s, g).Some?
    requires var (o, p) := Lookup(s, g).value;
      var c := Capture(s, o, p, amount);
      s.orders[o].status == PendingPayment ==>
        ConfirmCore(SetPayStatus(c, o, PaidStatus(c.orders[o])), o, shop, true).Failure?
    ensures SellsNothing(s, ProcessCaptured(s, g, amount, shop))
  {
    hide ConfirmCore;
  }

  lemma CancelKeepsStock(s: State, o: OrderId)
    requires CoreInv(s) && StockInv(s) && o < |s.orders|
    ensures StockInv(CancelOrder(s, o))
  {
    var t := CancelOrder(s, o);
    OrderFacts(s, o);
    var lines := LinesOf(s.orders[o]);
    var sold := SoldLines(s.orders[o], s.tracked);
    RestockLinesKeeps(s.stock, s.now, o, sold);
    RestockLinesLedger(s.stock, s.now, o, sold);
    if t != s {
      if lines == [] {
        assert s.stock.ledger + [] == s.stock.ledger;
      }
      RestockExplained(s.orders, s.tracked, s.stock.ledger, o, t.orders[o]);
      assert t.orders == s.orders[o := t.orders[o]];
    }
  }

  lemma HoldsKeepStock(s: State, o: OrderId, replay: bool, account: bool)
    requires StockInv(s) && o < |s.orders|
    ensures StockInv(PlaceHoldTx(s, o, replay, account))
    ensures StockInv(s.(stock := ReleaseStock(s.stock, o)))
  {
    if HoldStock(s.stock, s.now, s.tracked, o, LinesOf(s.orders[o])).Success? {
      HoldStockKeeps(s.stock, s.now, s.tracked, o, LinesOf(s.orders[o]));
    }
    PurgeKeeps(s.stock, s.now, OfOrder(o));
  }

  /** The tasks that write no stock. */
  lemma OtherTasksSellNothing(s: State, task: Task, g: GatewayRef, shop: Shop)
    requires CoreInv(s) && !task.PlaceHold? && !task.ReleaseHold? && !task.ConfirmAtPlacement? && !task.CancelOversold?
    requires task.order < |s.orders|
    ensures SellsNothing(s, PerformTask(s, task, g, shop))
  {
    var o, t := task.order, PerformTask(s, task, g, shop);
    OrderFacts(s, o);
    TaskWritesOneRow(s, task, g, shop);
    hide *;
    RowSellsNothing(s, t, o, t.orders[o]);
  }

  lemma TaskWritesOneRow(s: State, task: Task, g: GatewayRef, shop: Shop)
    requires !task.PlaceHold? && !task.ReleaseHold? && !task.ConfirmAtPlacement? && !task.CancelOversold?
    requires task.order < |s.orders| && OrderOK(s.orders[task.order])
    ensures var o, t := task.order, PerformTask(s, task, g, shop);
      && |t.orders| == |s.orders| && t.orders == s.orders[o := t.orders[o]] && SameBooks(s, t)
      && SameSale(s.orders[o], t.orders[o]) && s.orders[o].confirmedAt == t.orders[o].confirmedAt
      && CancelledAfterSale(s.orders[o]) == CancelledAfterSale(t.orders[o])
  {
    hide AfterHold;
  }

  /** The oversold cancel writes one order row at most. */
  lemma OversoldWrites(s: State, g: GatewayRef, amount: int, o: OrderId, p: PaymentId)
    requires Lookup(s, g) == Some((o, p))
    requires s.money.payments[p].status == Payments.Captured ==> s.orders[o].status != PendingPayment
    ensures var t := CancelOversoldTx(s, g, amount);
      && (t.orders == s.orders || t.orders == s.orders[o := OversoldOrder(s.orders[o], amount)])
      && SameBooks(s, t)
      && (t == s || (t.issued == s.issued + {ReleaseHold(o)} && t.orders[o].status != PendingPayment))
  {
    var paid := s.orders[o].(amountPaid := s.orders[o].amountPaid + amount);
    assert s.orders[o := paid][o := paid.(status := Cancelled, payStatus := RefundInitiated)]
        == s.orders[o := paid.(status := Cancelled, payStatus := RefundInitiated)];
  }

  /** One order row changes, and neither is nor was its sale cancelled by it. */
  lemma RowSellsNothing(s: State, t: State, o: OrderId, n: Order)
    requires o < |s.orders| && t.orders == s.orders[o := n] && SameBooks(s, t)
    requires SameSale(s.orders[o], n) && s.orders[o].confirmedAt == n.confirmedAt
    requires CancelledAfterSale(s.orders[o]) == CancelledAfterSale(n)
    ensures SellsNothing(s, t)
  {
  }

  lemma OversoldSellsNothing(s: State, g: GatewayRef, amount: int)
    requires CoreInv(s)
    ensures SellsNothing(s, CancelOversoldTx(s, g, amount))
  {
    match Lookup(s, g)
    case None =>
    case Some((o, p)) =>
      OrderFacts(s, o);
      PaymentFacts(s, p);
      CapturedIsClosed(s, o, p);
      OversoldWrites(s, g, amount, o, p);
      OversoldOrderSellsNothing(s.orders[o], amount);
      var t, n := CancelOversoldTx(s, g, amount), OversoldOrder(s.orders[o], amount);
      hide *;
      if t.orders == s.orders {
        SameOrdersSellNothing(s, t);
      } else {
        RowSellsNothing(s, t, o, n);
      }
  }

  lemma CapturedIsClosed(s: State, o: OrderId, p: PaymentId)
    requires p < |s.money.payments| && s.money.payments[p].order == o < |s.orders|
    requires PaymentOK(s.orders, s.money.payments[p])
    ensures s.money.payments[p].status == Payments.Captured ==> s.orders[o].status != PendingPayment
  {
  }

  lemma OversoldOrderSellsNothing(a: Order, amount: int)
    requires OrderOK(a)
    ensures var n := OversoldOrder(a, amount);
      SameSale(a, n) && a.confirmedAt == n.confirmedAt && CancelledAfterSale(a) == CancelledAfterSale(n)
  {
  }

  lemma SameOrdersSellNothing(s: State, t: State)
    requires t.orders == s.orders && SameBooks(s, t)
    ensures SellsNothing(s, t)
  {
  }

  lemma TaskKeepsStock(s: State, task: Task, g: GatewayRef, shop: Shop)
    requires CoreInv(s) && StockInv(s)
    ensures StockInv(PerformTask(s, task, g, shop))
  {
    var t := PerformTask(s, task, g, shop);
    if task.CancelOversold? {
      OversoldSellsNothing(s, task.gateway, task.amount);
      hide CancelOversoldTx;
      SalesStay(s, t);
    } else if task.order < |s.orders| {
      match task
      case PlaceHold(o, replay) => HoldsKeepStock(s, o, replay, shop.account);
      case ReleaseHold(o) => HoldsKeepStock(s, o, false, false);
      case ConfirmAtPlacement(o) => PlacementKeepsStock(s, o, shop);
      case _ =>
        OtherTasksSellNothing(s, task, g, shop);
        hide PerformTask;
        SalesStay(s, t);
    }
  }

  lemma RefundEventSellsNothing(s: State, ref: GatewayRef)
    ensures SellsNothing(s, ProcessRefundProcessed(s, ref))
  {
    var hit := Payments.FindAwaiting(s.money.refunds, ref, 0);
    if hit.Some? && s.money.refunds[hit.value].order < |s.orders| {
      var o := s.money.refunds[hit.value].order;
      RowSellsNothing(s, ProcessRefundProcessed(s, ref), o, s.orders[o].(payStatus := RefundDone));
    }
  }

  lemma ExpirySellsNothing(s: State, o: OrderId)
    requires o < |s.orders| && OrderOK(s.orders[o])
    ensures SellsNothing(s, ExpireCheckout(s, o))
  {
    if ExpireCheckout(s, o) != s {
      RowSellsNothing(s, ExpireCheckout(s, o), o, s.orders[o].(status := Abandoned));
    }
  }

  lemma StaffMoveSellsNothing(s: State, o: OrderId, to: Status)
    requires o < |s.orders| && OrderOK(s.orders[o])
    ensures SellsNothing(s, ManualTransition(s, o, to))
  {
    if ManualStep(s.orders[o].status, to) {
      RowSellsNothing(s, ManualTransition(s, o, to), o, ManualTransition(s, o, to).orders[o]);
    }
  }

  /** Webhooks, expiry and staff moves that write no stock. */
  lemma OrderStepsSellNothing(s: State, c: Step)
    requires CoreInv(s) && (c.FailureEvent? || c.RefundEvent? || c.Expire? || c.StaffMove?)
    ensures SellsNothing(s, Apply(s, c))
  {
    match c
    case FailureEvent(g) => FailureSellsNothing(s, g);
    case RefundEvent(ref) => RefundEventSellsNothing(s, ref);
    case Expire(o) => if o < |s.orders| { OrderFacts(s, o); ExpirySellsNothing(s, o); }
    case StaffMove(o, to) => if o < |s.orders| { OrderFacts(s, o); StaffMoveSellsNothing(s, o, to); }
    hide CoreInv;
    hide ProcessFailed;
    hide ProcessRefundProcessed;
    hide ExpireCheckout;
    hide ManualTransition;
  }

  lemma FailureSellsNothing(s: State, g: GatewayRef)
    ensures SellsNothing(s, ProcessFailed(s, g))
  {
  }

  lemma StartSellsNothing(s: State, c: CartId, key: nat, req: Request, rows: seq<Quotes.Row>, shop: Shop)
    ensures var t := StartCheckout(s, c, key, req, rows, shop);
      SellsNothing(s, t)
  {
    hide TermsOf;
  }

  lemma StepKeepsStock(s: State, c: Step)
    requires CoreInv(s) && StockInv(s)
    ensures StockInv(Apply(s, c))
  {
    var t := Apply(s, c);
    hide CoreInv;
    match c
    case Perform(task, g, shop) => TaskKeepsStock(s, task, g, shop);
    case CaptureEvent(g, amount, shop) => CaptureKeepsStock(s, g, amount, shop);
    case StaffCancel(o) => if o < |s.orders| { CancelKeepsStock(s, o); }
    case StaffStock(v, delta, key) => StaffMoves(s, v, delta, key);
    case Tick(elapsed) => TimePassesKeeps(s.stock, s.now, s.now + elapsed);
    case Start(cart, key, request, rows, shop) =>
      StartSellsNothing(s, cart, key, request, rows, shop);
      hide Apply;
      SalesStay(s, t);
    case FailureEvent(_) => OrderStepsSellNothing(s, c); hide Apply; SalesStay(s, t);
    case RefundEvent(_) => OrderStepsSellNothing(s, c); hide Apply; SalesStay(s, t);
    case Expire(_) => OrderStepsSellNothing(s, c); hide Apply; SalesStay(s, t);
    case StaffMove(_, _) => OrderStepsSellNothing(s, c); hide Apply; SalesStay(s, t);
    case _ => 
  }
}
