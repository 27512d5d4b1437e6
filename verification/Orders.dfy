/** The order row and its status ladder (packages/core/src/orders/index.ts:33-126, orders/server.ts:92-153). */
module Orders {
  import opened Common
  import opened Inventory
  import Quotes

  /** Packing is the status the table calls processing. */
  datatype Status =
    | PendingPayment | Confirmed | Packing | ReadyToShip | Shipped | OutForDelivery | RtoInitiated | Delivered
    | ReturnRequested | ReturnPicked | Abandoned | Cancelled | Refunded | RtoDelivered

  datatype PayStatus = PayPending | PartiallyPaid | Paid | RefundInitiated | RefundDone

  datatype CartStatus = ActiveCart | ConvertedCart

  /** What the buyer asked for; the stored fingerprint is an injective digest of it and of the order's own lines. */
  datatype Request = Request(phone: CustomerId, pincode: nat, stateCode: nat, mode: Quotes.PaymentMode,
                             coupon: Option<PromoId>)

  datatype Order = Order(cart: CartId, key: nat, request: Request, status: Status, payStatus: PayStatus,
                         quote: Quotes.Quote, codDue: int, amountPaid: int, gatewayRef: Option<GatewayRef>,
                         expiresAt: Option<int>, confirmedAt: Option<int>)

  function Transitions(from: Status): set<Status> {
    match from
    case PendingPayment => {Confirmed, Abandoned, Cancelled}
    case Confirmed => {Packing, Cancelled}
    case Packing => {ReadyToShip, Cancelled}
    case ReadyToShip => {Shipped}
    case Shipped => {OutForDelivery, RtoInitiated}
    case OutForDelivery => {Delivered, RtoInitiated}
    case RtoInitiated => {RtoDelivered}
    case Delivered => {ReturnRequested}
    case ReturnRequested => {ReturnPicked}
    case ReturnPicked => {Refunded}
    case Abandoned => {}
    case Cancelled => {}
    case Refunded => {}
    case RtoDelivered => {}
  }

  predicate CanTransition(from: Status, to: Status) { to in Transitions(from) }

  /** How far along its life an order is in a status. */
  function Stage(s: Status): nat {
    match s
    case PendingPayment => 0
    case Confirmed => 1
    case Packing => 2
    case ReadyToShip => 3
    case Shipped => 4
    case OutForDelivery => 5
    case RtoInitiated => 6
    case Delivered => 6
    case ReturnRequested => 7
    case ReturnPicked => 8
    case Abandoned => 9
    case Cancelled => 9
    case Refunded => 9
    case RtoDelivered => 9
  }

  /** Every transition goes on, the four ends have none, every other status has one, and every status can be come to. */
  lemma TransitionsGoOn(a: Status, b: Status)
    ensures CanTransition(a, b) ==> Stage(a) < Stage(b)
    ensures Transitions(a) == {} <==> Stage(a) == 9
    ensures a != PendingPayment ==> exists from :: CanTransition(from, a)
    ensures ManualStep(a, b) ==> CanTransition(a, b)
    ensures CanTransition(a, Cancelled) <==> a in {PendingPayment, Confirmed, Packing}
  {
    var before := match a
      case Confirmed => PendingPayment case Packing => Confirmed case ReadyToShip => Packing case Shipped => ReadyToShip
      case OutForDelivery => Shipped case RtoInitiated => Shipped case Delivered => OutForDelivery
      case ReturnRequested => Delivered case ReturnPicked => ReturnRequested case Refunded => ReturnPicked
      case RtoDelivered => RtoInitiated case _ => PendingPayment;
    assert a != PendingPayment ==> CanTransition(before, a);
  }

  /** The staff-clickable forward ladder. */
  predicate ManualStep(from: Status, to: Status) {
    || (from == Confirmed && to == Packing)
    || (from == Packing && to == ReadyToShip)
    || (from == ReadyToShip && to == Shipped)
    || (from == Shipped && to == OutForDelivery)
    || (from == OutForDelivery && to == Delivered)
  }

  /** Confirmed or later on the ladder, as far as anything in the platform moves an order. */
  predicate OnLadder(s: Status) {
    s in {Confirmed, Packing, ReadyToShip, Shipped, OutForDelivery, Delivered}
  }

  /** The status write door: the table is checked, and confirming stamps the time and clears the expiry. */
  function Move(order: Order, to: Status, now: int): Option<Order> {
    if !CanTransition(order.status, to) then None
    else if to == Confirmed then Some(order.(status := to, confirmedAt := Some(now), expiresAt := None))
    else Some(order.(status := to))
  }

  /** The item lines of an order, as consumable quantities. */
  function HoldLines(lines: seq<Quotes.OrderLine>): seq<Line> {
    if lines == [] then []
    else
      var first := lines[0];
      (if first.variant.Some? then [Line(first.variant.value, first.quantity)] else []) + HoldLines(lines[1..])
  }

  /** The order that carries a gateway order reference. */
  function FindByRef(orders: seq<Order>, g: GatewayRef, from: nat): (r: Option<OrderId>)
    requires from <= |orders|
    ensures r.Some? ==> r.value < |orders| && orders[r.value].gatewayRef == Some(g)
    ensures r.None? ==> forall i :: from <= i < |orders| ==> orders[i].gatewayRef != Some(g)
    decreases |orders| - from
  {
    if from == |orders| then None
    else if orders[from].gatewayRef == Some(g) then Some(from) else FindByRef(orders, g, from + 1)
  }

  function FindByKey(orders: seq<Order>, key: nat, from: nat): (r: Option<OrderId>)
    requires from <= |orders|
    ensures r.Some? ==> r.value < |orders| && orders[r.value].key == key
    ensures r.None? ==> forall i :: from <= i < |orders| ==> orders[i].key != key
    decreases |orders| - from
  {
    if from == |orders| then None
    else if orders[from].key == key then Some(from) else FindByKey(orders, key, from + 1)
  }

  /** Pending, unexpired orders that would claim a coupon; of one customer when one is given. */
  function PendingClaims(orders: seq<Order>, p: PromoId, c: Option<CustomerId>, now: int): nat {
    if orders == [] then 0
    else
      var o := orders[|orders| - 1];
      PendingClaims(orders[..|orders| - 1], p, c, now)
      + if && o.request.coupon == Some(p)
           && o.status == PendingPayment
           && o.expiresAt.Some? && o.expiresAt.value > now
           && (c.Some? ==> c.value == o.request.phone)
        then 1 else 0
  }
}
