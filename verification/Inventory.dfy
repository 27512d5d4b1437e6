/**
 * The inventory ledger (packages/core/src/inventory/server.ts): the movement
 * ledger, its on-hand projection and the checkout holds, at one location.
 * The functions say what each transaction commits; class StockRoom runs the
 * transactions statement by statement and is proved against them.
 */
module Inventory {
  import opened Common

  const STOCK_ADJUSTMENT_MAX := 1_000_000
  /** Fifteen minutes, on a clock of milliseconds. */
  const RESERVATION_TTL_MS := 15 * 60_000
  const MAX_HOLD_LINES := 100

  datatype Line = Line(variant: VariantId, quantity: nat)

  datatype Reason = OpeningBalance | Adjustment | Sale | CancellationRestock

  /** One ledger row. `order` is the reference of a sale or a restock, `key` a client idempotency key. */
  datatype Movement = Movement(variant: VariantId, delta: int, reason: Reason, order: Option<OrderId>, key: Option<nat>)

  datatype Hold = Hold(order: OrderId, variant: VariantId, quantity: nat, expiresAt: int)

  datatype Stock = Stock(levels: map<VariantId, int>, ledger: seq<Movement>, holds: seq<Hold>)

  datatype FailedLine = FailedLine(variant: VariantId, requested: nat, available: int)

  datatype StockError =
    | InvalidLines
    | InvalidDelta
    | Untracked
    | IdempotencyKeyReuse
    | InsufficientAvailability(failed: seq<FailedLine>)
    | OnHandCheck
    | StockHeld

  // ----- reading the tables -----

  /** A variant with no projection row has nothing on hand. */
  function OnHand(levels: map<VariantId, int>, v: VariantId): int {
    if v in levels then levels[v] else 0
  }

  function LedgerSum(ledger: seq<Movement>, v: VariantId): int {
    if ledger == [] then 0
    else
      var last := ledger[|ledger| - 1];
      LedgerSum(ledger[..|ledger| - 1], v) + if last.variant == v then last.delta else 0
  }

  /** The quantity of v in holds that are still unexpired at `now`. */
  function Reserved(holds: seq<Hold>, v: VariantId, now: int): nat {
    if holds == [] then 0
    else
      var first := if holds[0].variant == v && holds[0].expiresAt > now then holds[0].quantity else 0;
      first + Reserved(holds[1..], v, now)
  }

  function Available(s: Stock, v: VariantId, now: int): int {
    Max(OnHand(s.levels, v) - Reserved(s.holds, v, now), 0)
  }

  function Quantity(lines: seq<Line>, v: VariantId): nat {
    if lines == [] then 0
    else (if lines[0].variant == v then lines[0].quantity else 0) + Quantity(lines[1..], v)
  }

  predicate ValidLines(lines: seq<Line>) {
    && 1 <= |lines| <= MAX_HOLD_LINES
    && (forall i :: 0 <= i < |lines| ==> 0 < lines[i].quantity <= STOCK_ADJUSTMENT_MAX)
    && Distinct(lines)
  }

  predicate Distinct(lines: seq<Line>) {
    forall i, j :: 0 <= i < j < |lines| ==> lines[i].variant != lines[j].variant
  }

  /** The lines of variants that track inventory; the others cannot run out and are skipped. */
  function TrackedLines(lines: seq<Line>, tracked: set<VariantId>): seq<Line> {
    if lines == [] then []
    else (if lines[0].variant in tracked then [lines[0]] else []) + TrackedLines(lines[1..], tracked)
  }

  /** Insertion into a list in ascending variant order. */
  function InsertLine(line: Line, sorted: seq<Line>): seq<Line> {
    if sorted == [] || line.variant <= sorted[0].variant then [line] + sorted
    else [sorted[0]] + InsertLine(line, sorted[1..])
  }

  /** The lines in ascending variant-id order, the order in which rows are locked. */
  function SortLines(lines: seq<Line>): seq<Line> {
    if lines == [] then [] else InsertLine(lines[0], SortLines(lines[1..]))
  }

  // ----- deleting holds -----

  /** The WHERE clause of a DELETE on the holds. */
  datatype Purge =
    | OfOrder(order: OrderId)
    | OfOrderVariant(order: OrderId, variant: VariantId)
    | Lapsed(variant: VariantId, now: int)

  predicate Matches(p: Purge, h: Hold) {
    match p
    case OfOrder(o) => h.order == o
    case OfOrderVariant(o, v) => h.order == o && h.variant == v
    case Lapsed(v, now) => h.variant == v && h.expiresAt <= now
  }

  function Delete(holds: seq<Hold>, p: Purge): seq<Hold> {
    if holds == [] then []
    else (if Matches(p, holds[0]) then [] else [holds[0]]) + Delete(holds[1..], p)
  }

  /** Garbage collection of the lapsed holds of every line's variant. */
  function Collect(holds: seq<Hold>, lines: seq<Line>, now: int): seq<Hold> {
    if lines == [] then holds
    else Delete(Collect(holds, lines[..|lines| - 1], now), Lapsed(lines[|lines| - 1].variant, now))
  }

  // ----- what each transaction commits -----

  /** The ledger insert and the projection write, refused by the CHECK on on_hand or by the hold guard. */
  function ApplyMovement(s: Stock, now: int, m: Movement): Result<Stock, StockError> {
    var onHand := OnHand(s.levels, m.variant) + m.delta;
    if onHand < 0 then Failure(OnHandCheck)
    else if m.delta < 0 && onHand < Reserved(s.holds, m.variant, now) then Failure(StockHeld)
    else Success(Stock(s.levels[m.variant := onHand], s.ledger + [m], s.holds))
  }

  /** The first ledger row that carries the key, if any. */
  function FindKey(ledger: seq<Movement>, key: nat, from: nat): (r: Option<nat>)
    requires from <= |ledger|
    ensures r.Some? ==> from <= r.value < |ledger| && ledger[r.value].key == Some(key)
    ensures r.None? ==> forall i :: from <= i < |ledger| ==> ledger[i].key != Some(key)
    decreases |ledger| - from
  {
    if from == |ledger| then None
    else if ledger[from].key == Some(key) then Some(from)
    else FindKey(ledger, key, from + 1)
  }

  predicate HasMovement(ledger: seq<Movement>, v: VariantId) {
    exists i :: 0 <= i < |ledger| && ledger[i].variant == v
  }

  /** A staff adjustment; the first movement of a variant is its opening balance, a known key replays. */
  function RecordMovement(s: Stock, now: int, tracked: set<VariantId>, v: VariantId, delta: int, key: Option<nat>)
    : Result<Stock, StockError>
  {
    if delta == 0 || delta > STOCK_ADJUSTMENT_MAX || -delta > STOCK_ADJUSTMENT_MAX then Failure(InvalidDelta)
    else if v !in tracked then Failure(Untracked)
    else
      var found := if key.Some? then FindKey(s.ledger, key.value, 0) else None;
      if found.Some? then
        var row := s.ledger[found.value];
        if row.variant != v || row.delta != delta then Failure(IdempotencyKeyReuse) else Success(s)
      else
        var reason := if HasMovement(s.ledger, v) then Adjustment else OpeningBalance;
        ApplyMovement(s, now, Movement(v, delta, reason, None, key))
  }

  function Failures(s: Stock, lines: seq<Line>, now: int): seq<FailedLine> {
    if lines == [] then []
    else
      var line := lines[|lines| - 1];
      Failures(s, lines[..|lines| - 1], now)
      + if line.quantity > Available(s, line.variant, now)
        then [FailedLine(line.variant, line.quantity, Available(s, line.variant, now))] else []
  }

  function NewHolds(o: OrderId, lines: seq<Line>, expiresAt: int): seq<Hold> {
    seq(|lines|, i requires 0 <= i < |lines| => Hold(o, lines[i].variant, lines[i].quantity, expiresAt))
  }

  /** Place or replace an order's hold: all its tracked lines fit, or nothing changes. */
  function HoldStock(s: Stock, now: int, tracked: set<VariantId>, o: OrderId, lines: seq<Line>)
    : Result<Stock, StockError>
  {
    if !ValidLines(lines) then Failure(InvalidLines)
    else
      var wanted := TrackedLines(lines, tracked);
      var freed := s.(holds := Delete(s.holds, OfOrder(o)));
      var failed := Failures(freed, wanted, now);
      if failed != [] then Failure(InsufficientAvailability(failed))
      else Success(s.(holds := Collect(freed.holds, wanted, now) + NewHolds(o, wanted, now + RESERVATION_TTL_MS)))
  }

  function ReleaseStock(s: Stock, o: OrderId): Stock {
    s.(holds := Delete(s.holds, OfOrder(o)))
  }

  function SaleRow(o: OrderId, line: Line): Movement {
    Movement(line.variant, 0 - line.quantity, Sale, Some(o), None)
  }

  function RestockRow(o: OrderId, line: Line): Movement {
    Movement(line.variant, line.quantity, CancellationRestock, Some(o), None)
  }

  /** Per line the order's own hold goes first, so the hold guard no longer counts it; then the sale. */
  function SellLines(s: Stock, now: int, o: OrderId, lines: seq<Line>): Result<Stock, StockError> {
    if lines == [] then Success(s)
    else
      match SellLines(s, now, o, lines[..|lines| - 1])
      case Failure(e) => Failure(e)
      case Success(t) =>
        var line := lines[|lines| - 1];
        ApplyMovement(t.(holds := Delete(t.holds, OfOrderVariant(o, line.variant))), now, SaleRow(o, line))
  }

  function ConsumeStock(s: Stock, now: int, tracked: set<VariantId>, o: OrderId, lines: seq<Line>)
    : Result<Stock, StockError>
  {
    if !ValidLines(lines) then Failure(InvalidLines)
    else
      match SellLines(s, now, o, SortLines(TrackedLines(lines, tracked)))
      case Failure(e) => Failure(e)
      case Success(t) => Success(t.(holds := Delete(t.holds, OfOrder(o))))
  }

  function RestockLines(s: Stock, now: int, o: OrderId, lines: seq<Line>): Result<Stock, StockError> {
    if lines == [] then Success(s)
    else
      match RestockLines(s, now, o, lines[..|lines| - 1])
      case Failure(e) => Failure(e)
      case Success(t) => ApplyMovement(t, now, RestockRow(o, lines[|lines| - 1]))
  }

  function Restock(s: Stock, now: int, tracked: set<VariantId>, o: OrderId, lines: seq<Line>)
    : Result<Stock, StockError>
  {
    if !ValidLines(lines) then Failure(InvalidLines)
    else RestockLines(s, now, o, SortLines(TrackedLines(lines, tracked)))
  }
}
