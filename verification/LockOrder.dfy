/**
 * Deadlock discipline: the row locks of every checkout transaction, in the
 * order it first takes them, follow one global order: order, cart, stock level
 * by variant id, promotion, invoice series, customer, order counter
 * (packages/core/src/checkout/server.ts:824-851, 1468-1597;
 * packages/core/src/inventory/server.ts:751-774).
 */
module LockOrder {
  import opened Common
  import opened Inventory
  import opened InventoryProofs
  import opened Orders
  import opened Checkout
  import Invoices
  import Payments

  datatype Table = OrderRows | CartRows | StockRows | PromotionRows | SeriesRows | CustomerRows | CounterRows

  datatype Lock = Lock(table: Table, row: nat)

  function Rank(t: Table): nat {
    match t
    case OrderRows => 0
    case CartRows => 1
    case StockRows => 2
    case PromotionRows => 3
    case SeriesRows => 4
    case CustomerRows => 5
    case CounterRows => 6
  }

  predicate Before(a: Lock, b: Lock) { Rank(a.table) < Rank(b.table) || (a.table == b.table && a.row < b.row) }

  ghost predicate Ascends(trace: seq<Lock>) {
    forall i, j :: 0 <= i < j < |trace| ==> Before(trace[i], trace[j])
  }

  // ----- the locks each transaction takes -----

  /** lockLevels: the projection rows of the tracked lines, sorted; invalid lines are refused before any lock. */
  function LevelLocks(lines: seq<Line>, tracked: set<VariantId>): seq<Lock> {
    if !ValidLines(lines) then []
    else
      var sorted := SortLines(TrackedLines(lines, tracked));
      seq(|sorted|, i requires 0 <= i < |sorted| => Lock(StockRows, sorted[i].variant))
  }

  function PromotionLocks(s: State, coupon: Option<PromoId>): seq<Lock> {
    if coupon.Some? && coupon.value in s.coupons.promotions then [Lock(PromotionRows, coupon.value)] else []
  }

  function SeriesRow(shop: Shop): nat {
    2 * shop.year + if Invoices.DocTypeFor(shop.registration) == Invoices.TaxInvoice then 0 else 1
  }

  /** The confirmation door, under its caller's lock on the order. */
  function ConfirmLocks(s: State, o: OrderId, shop: Shop): seq<Lock>
    requires o < |s.orders|
  {
    var order := s.orders[o];
    LevelLocks(LinesOf(order), s.tracked) + PromotionLocks(s, order.request.coupon)
    + [Lock(SeriesRows, SeriesRow(shop)), Lock(CustomerRows, order.request.phone)]
  }

  function CreateLocks(s: State, c: CartId, req: Request): seq<Lock> {
    if c >= |s.carts| then []
    else if s.carts[c] != ActiveCart || !CouponUsable(s, req.coupon) then [Lock(CartRows, c)]
    else [Lock(CartRows, c)] + PromotionLocks(s, req.coupon) + [Lock(CustomerRows, req.phone), Lock(CounterRows, 0)]
  }

  /** Closing a pending order gives its cart back. */
  function CloseLocks(s: State, o: OrderId): seq<Lock>
    requires o < |s.orders|
  {
    [Lock(OrderRows, o)] + if s.orders[o].status == PendingPayment then [Lock(CartRows, s.orders[o].cart)] else []
  }

  function TaskLocks(s: State, task: Task, shop: Shop): seq<Lock> {
    match task
    case CancelOversold(g, _) => var o := FindByRef(s.orders, g, 0); if o.Some? then CloseLocks(s, o.value) else []
    case _ =>
      var o := task.order;
      if o >= |s.orders| then []
      else
        match task
        case PlaceHold(_, _) => LevelLocks(LinesOf(s.orders[o]), s.tracked)
        case ConfirmAtPlacement(_) =>
          [Lock(OrderRows, o)] + if s.orders[o].status == PendingPayment then ConfirmLocks(s, o, shop) else []
        case CancelPending(_) => CloseLocks(s, o)
        case ReleaseHold(_) => []
        case _ => [Lock(OrderRows, o)]
  }

  /** All the listed rows a transaction may come to lock, in order; a refusal on the way takes a prefix of them. */
  function LocksOf(s: State, c: Step): seq<Lock> {
    match c
    case Start(cart, key, request, _, _) =>
      if FindByKey(s.orders, key, 0).Some? then [] else CreateLocks(s, cart, request)
    case Perform(task, _, shop) => TaskLocks(s, task, shop)
    case CaptureEvent(g, _, shop) =>
      var o := FindByRef(s.orders, g, 0);
      if o.None? then []
      else
        var pending := s.orders[o.value].status == PendingPayment;
        [Lock(OrderRows, o.value)] + if pending then ConfirmLocks(s, o.value, shop) else []
    case FailureEvent(g) => var o := FindByRef(s.orders, g, 0); if o.None? then [] else [Lock(OrderRows, o.value)]
    case RefundEvent(ref) =>
      var hit := ProcessedOrder(s, ref);
      if hit.None? then [] else [Lock(OrderRows, hit.value)]
    case Expire(o) => if o < |s.orders| then CloseLocks(s, o) else []
    case StaffCancel(o) =>
      if o < |s.orders| then [Lock(OrderRows, o)] + LevelLocks(LinesOf(s.orders[o]), s.tracked) else []
    case StaffMove(o, _) => [Lock(OrderRows, o)]
    case StaffStock(v, _, _) => [Lock(StockRows, v)]
    case StaffPromotion(p, _) => [Lock(PromotionRows, p)]
    case _ => []
  }

  function ProcessedOrder(s: State, ref: GatewayRef): Option<OrderId> {
    var hit := Payments.FindAwaiting(s.money.refunds, ref, 0);
    if hit.None? then None else Some(s.money.refunds[hit.value].order)
  }

  /** Ascending, and only in tables ranked from lo up to hi. */
  ghost predicate AscendsWithin(trace: seq<Lock>, lo: nat, hi: nat) {
    Ascends(trace) && forall i :: 0 <= i < |trace| ==> lo <= Rank(trace[i].table) < hi
  }

  lemma Join(a: seq<Lock>, b: seq<Lock>, lo: nat, mid: nat, hi: nat)
    requires lo <= mid <= hi && AscendsWithin(a, lo, mid) && AscendsWithin(b, mid, hi)
    ensures AscendsWithin(a + b, lo, hi)
  {
  }

  lemma LevelsAscend(lines: seq<Line>, tracked: set<VariantId>)
    ensures AscendsWithin(LevelLocks(lines, tracked), 2, 3)
  {
    if ValidLines(lines) {
      TrackedLinesAre(lines, tracked);
      SortLinesSorts(TrackedLines(lines, tracked));
    }
  }

  lemma ConfirmAscends(s: State, o: OrderId, shop: Shop)
    requires o < |s.orders|
    ensures AscendsWithin(ConfirmLocks(s, o, shop), 2, 6)
  {
    var levels := LevelLocks(LinesOf(s.orders[o]), s.tracked);
    var promotion := PromotionLocks(s, s.orders[o].request.coupon);
    var books := [Lock(SeriesRows, SeriesRow(shop)), Lock(CustomerRows, s.orders[o].request.phone)];
    LevelsAscend(LinesOf(s.orders[o]), s.tracked);
    assert AscendsWithin(promotion, 3, 4) && AscendsWithin(books, 4, 6);
    hide AscendsWithin;
    hide LevelLocks;
    hide PromotionLocks;
    Join(levels, promotion, 2, 3, 4);
    Join(levels + promotion, books, 2, 4, 6);
  }

  lemma CreateAscends(s: State, c: CartId, req: Request)
    ensures AscendsWithin(CreateLocks(s, c, req), 1, 7)
  {
    var promotion := PromotionLocks(s, req.coupon);
    Join([Lock(CartRows, c)], promotion, 1, 2, 4);
    Join([Lock(CartRows, c)] + promotion, [Lock(CustomerRows, req.phone), Lock(CounterRows, 0)], 1, 4, 7);
  }

  lemma OrderFirst(o: OrderId, rest: seq<Lock>)
    requires AscendsWithin(rest, 1, 7)
    ensures AscendsWithin([Lock(OrderRows, o)] + rest, 0, 7)
  {
  }

  lemma Widen(trace: seq<Lock>, lo: nat, hi: nat)
    requires 1 <= lo && hi <= 7 && AscendsWithin(trace, lo, hi)
    ensures AscendsWithin(trace, 1, 7)
  {
  }

  /** Every transaction of every state takes its locks in the global order, each of them once. */
  lemma EveryTransactionAscends(s: State, c: Step)
    ensures Ascends(LocksOf(s, c))
  {
    hide LevelLocks;
    hide LinesOf;
    hide ConfirmLocks;
    forall o | 0 <= o < |s.orders|
      ensures AscendsWithin(LevelLocks(LinesOf(s.orders[o]), s.tracked), 1, 7)
      ensures AscendsWithin([Lock(OrderRows, o)] + LevelLocks(LinesOf(s.orders[o]), s.tracked), 0, 7)
    {
      LevelsAscend(LinesOf(s.orders[o]), s.tracked);
      Widen(LevelLocks(LinesOf(s.orders[o]), s.tracked), 2, 3);
      OrderFirst(o, LevelLocks(LinesOf(s.orders[o]), s.tracked));
    }
    match c
    case Start(cart, _, request, _, _) => CreateAscends(s, cart, request);
    case CaptureEvent(g, _, shop) =>
      var o := FindByRef(s.orders, g, 0);
      if o.Some? {
        ConfirmUnderOrder(s, o.value, shop);
      }
    case Perform(task, _, shop) => TaskAscends(s, task, shop);
    case StaffCancel(_) =>
    case _ => hide AscendsWithin;
  }

  lemma TaskAscends(s: State, task: Task, shop: Shop)
    ensures Ascends(TaskLocks(s, task, shop))
  {
    if !task.CancelOversold? && task.order < |s.orders| {
      LevelsAscend(LinesOf(s.orders[task.order]), s.tracked);
      ConfirmUnderOrder(s, task.order, shop);
    }
    hide LevelLocks;
    hide ConfirmLocks;
  }

  lemma ConfirmUnderOrder(s: State, o: OrderId, shop: Shop)
    requires o < |s.orders|
    ensures AscendsWithin([Lock(OrderRows, o)] + ConfirmLocks(s, o, shop), 0, 7)
  {
    ConfirmAscends(s, o, shop);
    hide ConfirmLocks;
    Widen(ConfirmLocks(s, o, shop), 2, 6);
    OrderFirst(o, ConfirmLocks(s, o, shop));
  }

  // ----- no wait cycle -----

  /** A transaction under way: it holds the locks trace[..got] and asks for trace[got], unless it has them all. */
  datatype Process = Process(trace: seq<Lock>, got: nat)

  ghost predicate Disciplined(p: Process) { p.got <= |p.trace| && Ascends(p.trace) }

  predicate Asks(p: Process) { p.got < |p.trace| }

  predicate WaitsFor(p: Process, q: Process) {
    Asks(p) && q.got <= |q.trace| && p.trace[p.got] in q.trace[..q.got]
  }

  lemma WaitingClimbs(p: Process, q: Process)
    requires Disciplined(p) && Disciplined(q) && WaitsFor(p, q) && Asks(q)
    ensures Before(p.trace[p.got], q.trace[q.got])
  {
  }

  /** One that asks for nothing, or for a lock no other asks beyond. */
  lemma {:induction false} SomeoneIsAhead(ps: seq<Process>) returns (k: nat)
    requires ps != []
    ensures k < |ps|
    ensures !Asks(ps[k]) || forall j :: 0 <= j < |ps| ==>
      Asks(ps[j]) && !Before(ps[k].trace[ps[k].got], ps[j].trace[ps[j].got])
  {
    k := |ps| - 1;
    if |ps| > 1 && Asks(ps[k]) {
      var m := SomeoneIsAhead(ps[..|ps| - 1]);
      if !Asks(ps[m]) || Before(ps[k].trace[ps[k].got], ps[m].trace[ps[m].got]) {
        k := m;
      }
    }
  }

  /** Among transactions under way, whatever each has reached, one is waiting for none of them. */
  lemma SomeoneProceeds(ps: seq<Process>) returns (k: nat)
    requires ps != [] && forall i :: 0 <= i < |ps| ==> Disciplined(ps[i])
    ensures k < |ps| && forall j :: 0 <= j < |ps| ==> !WaitsFor(ps[k], ps[j])
  {
    k := SomeoneIsAhead(ps);
    forall j | 0 <= j < |ps| ensures !WaitsFor(ps[k], ps[j]) {
      if WaitsFor(ps[k], ps[j]) {
        WaitingClimbs(ps[k], ps[j]);
      }
    }
  }

  /** A transaction of the shop that has come somewhere along its locks. */
  ghost predicate UnderWay(p: Process) {
    p.got <= |p.trace| && exists s: State, c: Step :: p.trace == LocksOf(s, c)
  }

  /** The next one round the ring. */
  function Next(ring: seq<Process>, i: nat): Process
    requires ring != []
  {
    ring[(i + 1) % |ring|]
  }

  /** No wait cycle of any length: in every ring of transactions under way, one does not wait for the next. */
  lemma NoWaitCycle(ring: seq<Process>)
    requires ring != [] && forall i :: 0 <= i < |ring| ==> UnderWay(ring[i])
    ensures exists i :: 0 <= i < |ring| && !WaitsFor(ring[i], Next(ring, i))
  {
    forall i | 0 <= i < |ring| ensures Disciplined(ring[i]) {
      assert UnderWay(ring[i]);
      var s: State, c: Step :| ring[i].trace == LocksOf(s, c);
      EveryTransactionAscends(s, c);
    }
    var k := SomeoneProceeds(ring);
    assert !WaitsFor(ring[k], Next(ring, k));
  }
}
