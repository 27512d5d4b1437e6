/**
 * Pricing an order: subtotal, shipping, coupon, tax per line and the advance
 * split (packages/core/src/checkout/server.ts:852-1003, 1067-1116;
 * packages/core/src/payments/index.ts:116-180).
 */
module Quotes {
  import opened Common
  import opened Allocation
  import opened Promotions
  import opened Tax

  const GATEWAY_MIN_ORDER_PAISE := 100

  datatype PaymentMode = Prepaid | Cod | CodAdvance

  datatype AdvancePolicy = AdvancePolicy(codEnabled: bool, advanceBps: Option<int>, minAdvance: int)

  datatype ShippingRule = ShippingRule(flatFee: int, freeAbove: Option<int>)

  datatype Split = Split(advance: int, codDue: int)

  datatype PriceError =
    | CartEmpty
    | InvalidAmount
    | CouponNotApplicable(reason: Refusal)
    | TaxRejected(error: TaxError)
    | CodUnavailable
    | AdvanceNotConfigured

  datatype Row = Row(variant: VariantId, product: nat, categories: seq<nat>, quantity: nat, price: nat,
                     rateBps: Option<nat>)

  /** An order line; the shipping line carries no variant. */
  datatype OrderLine = OrderLine(variant: Option<VariantId>, quantity: nat, unitPrice: nat, discount: int,
                                 taxable: int, rateBps: nat, cgst: int, sgst: int, igst: int, tax: int, total: int)

  datatype Quote = Quote(lines: seq<OrderLine>, subtotal: nat, discount: nat, shipping: nat, tax: int, total: int,
                         split: Split)

  datatype Terms = Terms(coupon: Option<Rule>, customer: Customer, now: int, channel: nat, shipping: ShippingRule,
                         registration: Registration, intraState: bool, policy: AdvancePolicy, mode: PaymentMode)

  // ----- the advance split -----

  function AdvanceSplit(total: int, policy: AdvancePolicy, mode: PaymentMode): Result<Split, PriceError> {
    if total < 0 || total > MAX_SAFE / 10_000 then Failure(InvalidAmount)
    else if mode.Prepaid? then Success(Split(total, 0))
    else if !policy.codEnabled then Failure(CodUnavailable)
    else if mode.Cod? then Success(Split(0, total))
    else if policy.advanceBps.None? then Failure(AdvanceNotConfigured)
    else if policy.advanceBps.value < 0 || policy.advanceBps.value > 10_000 then Failure(InvalidAmount)
    else if policy.minAdvance < 0 || policy.minAdvance > MAX_SAFE then Failure(InvalidAmount)
    else
      var raw := (total * policy.advanceBps.value + 5_000) / 10_000;
      var clamped := Min(Max(raw, policy.minAdvance), total);
      var advance := if 0 < clamped < GATEWAY_MIN_ORDER_PAISE then Min(GATEWAY_MIN_ORDER_PAISE, total) else clamped;
      Success(Split(advance, total - advance))
  }

  predicate CanSplit(total: int, policy: AdvancePolicy, mode: PaymentMode) {
    && 0 <= total <= MAX_SAFE / 10_000
    && (mode != Prepaid ==> policy.codEnabled)
    && (mode == CodAdvance ==>
        && policy.advanceBps.Some? && 0 <= policy.advanceBps.value <= 10_000 && 0 <= policy.minAdvance <= MAX_SAFE)
  }

  /** A part in advance: the nearest paisa to its percentage, no less than the floor, no more than the total. */
  ghost predicate AdvanceOf(total: nat, bps: nat, minAdvance: nat, advance: int) {
    exists r: nat :: NearestPercent(total, bps, r) &&
      var clamped := Min(Max(r, minAdvance), total);
      // The gateway takes nothing below a rupee.
      advance == if 0 < clamped < 100 then Min(100, total) else clamped
  }

  ghost predicate SplitMeans(total: nat, policy: AdvancePolicy, mode: PaymentMode, s: Split)
    requires CanSplit(total, policy, mode)
  {
    && s.codDue == total - s.advance
    && match mode
       case Prepaid => s.advance == total
       case Cod => s.advance == 0
       case CodAdvance => AdvanceOf(total, policy.advanceBps.value, policy.minAdvance, s.advance)
  }

  /**
   * For every total, policy and mode: refused exactly when it cannot be split, and otherwise split as said. The two
   * parts are the total, and an advance is nothing, or at least what the gateway accepts and the merchant's floor.
   */
  lemma AdvanceSplitIsExact(total: int, policy: AdvancePolicy, mode: PaymentMode)
    ensures AdvanceSplit(total, policy, mode).Success? <==> CanSplit(total, policy, mode)
    ensures CanSplit(total, policy, mode) ==> SplitMeans(total, policy, mode, AdvanceSplit(total, policy, mode).value)
    ensures CanSplit(total, policy, mode) ==>
      var s := AdvanceSplit(total, policy, mode).value;
      && s.advance + s.codDue == total && 0 <= s.advance && 0 <= s.codDue
      && (mode == Cod ==> s.advance == 0)
      && (mode == Prepaid ==> s.codDue == 0)
      && (mode == CodAdvance ==> s.advance >= Min(policy.minAdvance, total))
      && (s.advance == 0 || s.advance >= Min(GATEWAY_MIN_ORDER_PAISE, total))
  {
    if CanSplit(total, policy, mode) && mode == CodAdvance {
      PercentMeans(total, policy.advanceBps.value);
      hide NearestPercent;
    }
  }

  // ----- shipping -----

  predicate ValidAmount(x: int) { 0 <= x <= MAX_SAFE }

  function ShippingFee(subtotal: nat, rule: ShippingRule): Result<nat, PriceError> {
    if !ValidAmount(subtotal) || !ValidAmount(rule.flatFee)
      || (rule.freeAbove.Some? && !ValidAmount(rule.freeAbove.value))
    then Failure(InvalidAmount)
    else if rule.freeAbove.Some? && subtotal >= rule.freeAbove.value then Success(0)
    else Success(rule.flatFee)
  }

  // ----- the parts of a price -----

  function LineTotals(rows: seq<Row>): (r: seq<nat>)
    ensures |r| == |rows|
  {
    seq(|rows|, i requires 0 <= i < |rows| => rows[i].price * rows[i].quantity)
  }

  function CartOf(rows: seq<Row>, subtotal: nat, channel: nat): Cart {
    Cart(seq(|rows|, i requires 0 <= i < |rows| =>
           CartLine(rows[i].variant, rows[i].product, rows[i].categories, rows[i].quantity, rows[i].price)),
         subtotal, channel)
  }

  /** No coupon is a coupon worth nothing. */
  function CouponValue(rows: seq<Row>, subtotal: nat, t: Terms): Evaluation {
    if t.coupon.None? then Applicable(0, false)
    else Evaluate(t.coupon.value, CartOf(rows, subtotal, t.channel), Some(t.customer), t.now)
  }

  function Taxables(totals: seq<nat>, discounts: seq<int>): (r: seq<int>)
    requires |discounts| == |totals|
    ensures |r| == |totals|
  {
    seq(|totals|, i requires 0 <= i < |totals| => totals[i] - discounts[i])
  }

  function RateOf(row: Row): nat { if row.rateBps.Some? then row.rateBps.value else 0 }

  /** The highest value and the rate of the first line that has it: the rate shipping is taxed at. */
  function Principal(values: seq<int>, rows: seq<Row>): (int, nat)
    requires |values| == |rows|
  {
    if values == [] then (-1, 0)
    else
      var p := Principal(values[..|values| - 1], rows[..|rows| - 1]);
      if values[|values| - 1] > p.0 then (values[|values| - 1], RateOf(rows[|rows| - 1])) else p
  }

  function ItemTaxInput(values: seq<int>, rows: seq<Row>): (r: seq<TaxableLine>)
    requires |values| == |rows|
    ensures |r| == |rows|
  {
    seq(|rows|, i requires 0 <= i < |rows| => TaxableLine(values[i], RateOf(rows[i])))
  }

  function TaxInput(values: seq<int>, rows: seq<Row>, shipping: nat): seq<TaxableLine>
    requires |values| == |rows|
  {
    ItemTaxInput(values, rows) + if shipping > 0 then [TaxableLine(shipping, Principal(values, rows).1)] else []
  }

  function ItemLine(row: Row, discount: int, value: int, tax: LineTax): OrderLine {
    OrderLine(Some(row.variant), row.quantity, row.price, discount, tax.base, RateOf(row), tax.cgst, tax.sgst,
              tax.igst, tax.tax, value)
  }

  function ShippingLine(fee: nat, rate: nat, tax: LineTax): OrderLine {
    OrderLine(None, 1, fee, 0, tax.base, rate, tax.cgst, tax.sgst, tax.igst, tax.tax, fee)
  }

  function ItemLines(rows: seq<Row>, discounts: seq<int>, values: seq<int>, taxes: seq<LineTax>): (r: seq<OrderLine>)
    requires |discounts| == |values| == |rows| <= |taxes|
    ensures |r| == |rows|
  {
    seq(|rows|, i requires 0 <= i < |rows| => ItemLine(rows[i], discounts[i], values[i], taxes[i]))
  }

  function TotalTax(taxes: seq<LineTax>): int {
    if taxes == [] then 0 else TotalTax(taxes[..|taxes| - 1]) + taxes[|taxes| - 1].tax
  }

  function TaxContextOf(t: Terms): TaxContext { TaxContext(t.registration, t.intraState, true) }

  /** The snapshot: items, then the shipping line when shipping costs anything. */
  function SnapshotLines(rows: seq<Row>, discounts: seq<int>, values: seq<int>, shipping: nat,
                         taxes: seq<LineTax>): seq<OrderLine>
    requires |discounts| == |values| == |rows| && |taxes| == |TaxInput(values, rows, shipping)|
  {
    ItemLines(rows, discounts, values, taxes)
    + if shipping > 0 then [ShippingLine(shipping, Principal(values, rows).1, taxes[|rows|])] else []
  }

  /** The header of an order, once its lines are known. */
  function Head(lines: seq<OrderLine>, subtotal: nat, discount: nat, shipping: nat, tax: int,
                t: Terms): Result<Quote, PriceError> {
    var total := subtotal - discount + shipping;
    match AdvanceSplit(total, t.policy, t.mode)
    case Failure(e) => Failure(e)
    case Success(split) => Success(Quote(lines, subtotal, discount, shipping, tax, total, split))
  }

  /** The last steps, once the discount is settled. */
  function Settle(rows: seq<Row>, t: Terms, discount: nat, discounts: seq<int>, shipping: nat)
    : Result<Quote, PriceError>
    requires |discounts| == |rows|
  {
    var totals := LineTotals(rows);
    SumNonNegative(totals);
    var values := Taxables(totals, discounts);
    match ComputeLineTaxes(TaxInput(values, rows, shipping), TaxContextOf(t))
    case Failure(e) => Failure(TaxRejected(e))
    case Success(taxes) =>
      Head(SnapshotLines(rows, discounts, values, shipping, taxes), Sum(totals), discount, shipping, TotalTax(taxes), t)
  }

  function PriceOrder(rows: seq<Row>, t: Terms): Result<Quote, PriceError> {
    if rows == [] then Failure(CartEmpty)
    else
      var totals := LineTotals(rows);
      assert Sum(totals) >= 0 by { SumNonNegative(totals); }
      match ShippingFee(Sum(totals), t.shipping)
      case Failure(e) => Failure(e)
      case Success(fee) =>
        match CouponValue(rows, Sum(totals), t)
        case Refused(reason) => Failure(CouponNotApplicable(reason))
        case Applicable(discount, freeShipping) =>
          Settle(rows, t, discount, LineDiscounts(totals, discount), if freeShipping then 0 else fee)
  }

  // ----- the invoice foots -----

  datatype Column = Discount | Taxable | Cgst | Sgst | Igst | Parts | TaxTotal | Total

  function Field(l: OrderLine, c: Column): int {
    match c
    case Discount => l.discount
    case Taxable => l.taxable
    case Cgst => l.cgst
    case Sgst => l.sgst
    case Igst => l.igst
    case Parts => l.taxable + l.cgst + l.sgst + l.igst
    case TaxTotal => l.tax
    case Total => l.total
  }

  function SumOf(lines: seq<OrderLine>, c: Column): int {
    if lines == [] then 0 else SumOf(lines[..|lines| - 1], c) + Field(lines[|lines| - 1], c)
  }

  ghost predicate LineFoots(l: OrderLine) {
    && l.taxable + l.cgst + l.sgst + l.igst == l.total
    && l.tax == l.cgst + l.sgst + l.igst
    && (l.discount >= 0 && l.taxable >= 0 && l.cgst >= 0 && l.sgst >= 0 && l.igst >= 0 && l.total >= 0)
    && l.discount + l.total == l.unitPrice * l.quantity
  }

  /** The tax contained in a line's total, at its rate, in its parts. */
  ghost predicate IsTaxed(l: OrderLine, ctx: TaxContext) {
    && Bears(l.total, l.rateBps, l.tax, ctx.registration, true)
    && Splits(LineTax(l.taxable, l.cgst, l.sgst, l.igst, l.tax), ctx.intraState)
  }

  /** The amounts of an order, read down its lines and across its header. */
  ghost predicate InvoiceFoots(q: Quote) {
    && (forall i :: 0 <= i < |q.lines| ==> LineFoots(q.lines[i]))
    && SumOf(q.lines, Discount) == q.discount
    && SumOf(q.lines, Total) == q.total == q.subtotal - q.discount + q.shipping
    && SumOf(q.lines, Parts) == q.total
    && SumOf(q.lines, TaxTotal) == q.tax
    && q.split.advance + q.split.codDue == q.total
    && q.discount <= q.subtotal && q.tax >= 0 && q.split.advance >= 0 && q.split.codDue >= 0
  }

  lemma {:induction false} ColumnSum(lines: seq<OrderLine>, c: Column, xs: seq<int>)
    requires |xs| == |lines| && forall i :: 0 <= i < |lines| ==> Field(lines[i], c) == xs[i]
    ensures SumOf(lines, c) == Sum(xs)
  {
    if lines != [] {
      ColumnSum(lines[..|lines| - 1], c, xs[..|xs| - 1]);
    }
  }

  lemma {:induction false} SumDifference(totals: seq<nat>, discounts: seq<int>)
    requires |discounts| == |totals|
    ensures Sum(Taxables(totals, discounts)) == Sum(totals) - Sum(discounts)
  {
    if totals != [] {
      var n := |totals| - 1;
      assert Taxables(totals, discounts)[..n] == Taxables(totals[..n], discounts[..n]);
      SumDifference(totals[..n], discounts[..n]);
    }
  }

  lemma {:induction false} PartsAreTotals(lines: seq<OrderLine>)
    requires forall i :: 0 <= i < |lines| ==> LineFoots(lines[i])
    ensures SumOf(lines, Parts) == SumOf(lines, Total) && SumOf(lines, TaxTotal) >= 0
  {
    if lines != [] {
      PartsAreTotals(lines[..|lines| - 1]);
    }
  }

  lemma {:induction false} TaxColumn(lines: seq<OrderLine>, taxes: seq<LineTax>)
    requires |lines| == |taxes| && forall i :: 0 <= i < |lines| ==> lines[i].tax == taxes[i].tax
    ensures SumOf(lines, TaxTotal) == TotalTax(taxes)
  {
    if lines != [] {
      TaxColumn(lines[..|lines| - 1], taxes[..|taxes| - 1]);
    }
  }

  /** Everything taxed is in range, because the shipping rule has already refused an unsafe subtotal. */
  lemma TaxInputIsValid(rows: seq<Row>, discounts: seq<int>, shipping: nat)
    requires |discounts| == |rows| && 0 <= Sum(LineTotals(rows)) <= MAX_SAFE && shipping <= MAX_SAFE
    requires forall i :: 0 <= i < |rows| ==> 0 <= discounts[i] <= LineTotals(rows)[i] && RateOf(rows[i]) <= MAX_SAFE
    ensures var input := TaxInput(Taxables(LineTotals(rows), discounts), rows, shipping);
      forall i :: 0 <= i < |input| ==> ValidLine(input[i])
  {
    var values := Taxables(LineTotals(rows), discounts);
    forall i | 0 <= i < |rows| ensures ValidLine(ItemTaxInput(values, rows)[i]) {
      SumAtLeast(LineTotals(rows), i);
    }
    PrincipalIsARate(values, rows);
  }

  /** No line is worth more than line i, and every earlier line is worth less. */
  predicate FirstHighest(values: seq<int>, i: nat) {
    && i < |values|
    && (forall k :: 0 <= k < |values| ==> values[k] <= values[i])
    && (forall k :: 0 <= k < i ==> values[k] < values[i])
  }

  /** Shipping is taxed at the rate of the first line of highest value; at none when every line is below zero. */
  ghost predicate TakesTheFirstHighest(values: seq<int>, rows: seq<Row>, highest: int, rate: nat)
    requires |values| == |rows|
  {
    || (highest == -1 && rate == 0 && forall i :: 0 <= i < |values| ==> values[i] < 0)
    || exists i: nat :: FirstHighest(values, i) && highest == values[i] >= 0 && rate == RateOf(rows[i])
  }

  lemma {:induction false} PrincipalIsARate(values: seq<int>, rows: seq<Row>)
    requires |values| == |rows|
    ensures TakesTheFirstHighest(values, rows, Principal(values, rows).0, Principal(values, rows).1)
  {
    if values != [] {
      var n := |values| - 1;
      PrincipalIsARate(values[..n], rows[..n]);
      var p := Principal(values[..n], rows[..n]);
      if values[n] > p.0 {
        assert FirstHighest(values, n);
      } else if p.0 >= 0 {
        var i: nat :| FirstHighest(values[..n], i) && p.0 == values[..n][i] && p.1 == RateOf(rows[..n][i]);
        assert FirstHighest(values, i) && p.1 == RateOf(rows[i]);
      }
    }
  }

  /** Every line of the snapshot foots, and carries the tax computed for it. */
  lemma SnapshotLinesFoot(rows: seq<Row>, discounts: seq<int>, shipping: nat, taxes: seq<LineTax>, ctx: TaxContext)
    requires |discounts| == |rows| && ctx.inclusive
    requires forall i :: 0 <= i < |rows| ==> 0 <= discounts[i] <= LineTotals(rows)[i]
    requires var input := TaxInput(Taxables(LineTotals(rows), discounts), rows, shipping);
      |taxes| == |input| && forall i :: 0 <= i < |input| ==> Foots(input[i], ctx, taxes[i])
    ensures var lines := SnapshotLines(rows, discounts, Taxables(LineTotals(rows), discounts), shipping, taxes);
      && |lines| == |taxes|
      && forall i :: 0 <= i < |lines| ==>
        LineFoots(lines[i]) && IsTaxed(lines[i], ctx) && lines[i].tax == taxes[i].tax
  {
    var values := Taxables(LineTotals(rows), discounts);
    var input := TaxInput(values, rows, shipping);
    var lines := SnapshotLines(rows, discounts, values, shipping, taxes);
    hide Bears;
    forall i | 0 <= i < |lines|
      ensures LineFoots(lines[i]) && IsTaxed(lines[i], ctx) && lines[i].tax == taxes[i].tax
    {
      assert Foots(input[i], ctx, taxes[i]);
      if i < |rows| {
        assert input[i] == TaxableLine(values[i], RateOf(rows[i]));
        assert values[i] == LineTotals(rows)[i] - discounts[i];
      } else {
        assert input[i].taxable == shipping;
      }
    }
  }

  /** Down the discount column and down the total column. */
  lemma SnapshotColumns(rows: seq<Row>, discounts: seq<int>, shipping: nat, taxes: seq<LineTax>)
    requires |discounts| == |rows| && |taxes| == |TaxInput(Taxables(LineTotals(rows), discounts), rows, shipping)|
    ensures var lines := SnapshotLines(rows, discounts, Taxables(LineTotals(rows), discounts), shipping, taxes);
      SumOf(lines, Discount) == Sum(discounts)
        && SumOf(lines, Total) == Sum(LineTotals(rows)) - Sum(discounts) + shipping
  {
    var values := Taxables(LineTotals(rows), discounts);
    var items := ItemLines(rows, discounts, values, taxes);
    ColumnSum(items, Discount, discounts);
    ColumnSum(items, Total, values);
    SumDifference(LineTotals(rows), discounts);
    var lines := SnapshotLines(rows, discounts, values, shipping, taxes);
    if shipping > 0 {
      assert lines[..|lines| - 1] == items;
    } else {
      assert lines == items;
    }
  }

  /** The taxes computed for a settled cart, and the lines they go on. */
  lemma SettledLinesFoot(rows: seq<Row>, t: Terms, discounts: seq<int>, shipping: nat)
    requires |discounts| == |rows| && 0 <= Sum(LineTotals(rows)) <= MAX_SAFE && shipping <= MAX_SAFE
    requires forall i :: 0 <= i < |rows| ==> 0 <= discounts[i] <= LineTotals(rows)[i] && RateOf(rows[i]) <= MAX_SAFE
    ensures var values := Taxables(LineTotals(rows), discounts);
      var taxes := ComputeLineTaxes(TaxInput(values, rows, shipping), TaxContextOf(t));
      && taxes.Success?
      && (t.registration != Regular ==> TotalTax(taxes.value) == 0)
      && var lines := SnapshotLines(rows, discounts, values, shipping, taxes.value);
      && (forall i :: 0 <= i < |lines| ==> LineFoots(lines[i]) && IsTaxed(lines[i], TaxContextOf(t)))
      && SumOf(lines, TaxTotal) == TotalTax(taxes.value) >= 0
      && SumOf(lines, Parts) == SumOf(lines, Total)
  {
    var input, ctx := TaxInput(Taxables(LineTotals(rows), discounts), rows, shipping), TaxContextOf(t);
    TaxInputIsValid(rows, discounts, shipping);
    InclusiveLinesFoot(input, ctx);
    var taxes := TaxLines(input, ctx).value;
    assert ComputeLineTaxes(input, ctx) == Success(taxes);
    SnapshotLinesFoot(rows, discounts, shipping, taxes, ctx);
    var lines := SnapshotLines(rows, discounts, Taxables(LineTotals(rows), discounts), shipping, taxes);
    PartsAreTotals(lines);
    TaxColumn(lines, taxes);
    if t.registration != Regular {
      NoTax(taxes);
    }
  }

  lemma HeadFoots(lines: seq<OrderLine>, subtotal: nat, discount: nat, shipping: nat, tax: int, t: Terms)
    requires forall i :: 0 <= i < |lines| ==> LineFoots(lines[i])
    requires SumOf(lines, Discount) == discount <= subtotal && SumOf(lines, TaxTotal) == tax >= 0
    requires SumOf(lines, Parts) == SumOf(lines, Total) == subtotal - discount + shipping
    ensures Head(lines, subtotal, discount, shipping, tax, t).Failure? ==>
      !Head(lines, subtotal, discount, shipping, tax, t).error.TaxRejected?
    ensures Head(lines, subtotal, discount, shipping, tax, t).Success? ==>
      InvoiceFoots(Head(lines, subtotal, discount, shipping, tax, t).value)
  {
  }

  lemma SettleFoots(rows: seq<Row>, t: Terms, discount: nat, discounts: seq<int>, shipping: nat)
    requires |discounts| == |rows| && 0 <= Sum(LineTotals(rows)) <= MAX_SAFE && shipping <= MAX_SAFE
    requires forall i :: 0 <= i < |rows| ==> 0 <= discounts[i] <= LineTotals(rows)[i] && RateOf(rows[i]) <= MAX_SAFE
    requires Sum(discounts) == discount <= Sum(LineTotals(rows))
    ensures var r := Settle(rows, t, discount, discounts, shipping);
      && (r.Failure? ==> !r.error.TaxRejected?)
      && (r.Success? ==> InvoiceFoots(r.value) && (t.registration != Regular ==> r.value.tax == 0))
      && (r.Success? ==> forall i :: 0 <= i < |r.value.lines| ==> IsTaxed(r.value.lines[i], TaxContextOf(t)))
  {
    SettledLinesFoot(rows, t, discounts, shipping);
    var values := Taxables(LineTotals(rows), discounts);
    var taxes := ComputeLineTaxes(TaxInput(values, rows, shipping), TaxContextOf(t)).value;
    SnapshotColumns(rows, discounts, shipping, taxes);
    HeadFoots(SnapshotLines(rows, discounts, values, shipping, taxes), Sum(LineTotals(rows)), discount, shipping,
              TotalTax(taxes), t);
  }

  lemma {:induction false} NoTax(taxes: seq<LineTax>)
    requires forall i :: 0 <= i < |taxes| ==> taxes[i].tax == 0
    ensures TotalTax(taxes) == 0
  {
    if taxes != [] {
      NoTax(taxes[..|taxes| - 1]);
    }
  }

  ghost predicate RatesAreSafe(rows: seq<Row>) {
    forall i :: 0 <= i < |rows| ==> RateOf(rows[i]) <= MAX_SAFE
  }

  /** A rate beyond the safe integers is the one thing the tax engine can object to. */
  lemma UnsafeRateIsRejected(rows: seq<Row>, t: Terms, discount: nat, discounts: seq<int>, shipping: nat)
    requires |discounts| == |rows| && !RatesAreSafe(rows)
    ensures Settle(rows, t, discount, discounts, shipping) == Failure(TaxRejected(InvalidPayload))
  {
    var values := Taxables(LineTotals(rows), discounts);
    var i :| 0 <= i < |rows| && RateOf(rows[i]) > MAX_SAFE;
    assert TaxInput(values, rows, shipping)[i] == TaxableLine(values[i], RateOf(rows[i]));
  }

  /**
   * For every cart, coupon, shipping rule, registration, state and payment mode:
   * the tax engine never rejects an amount that checkout hands it, a priced order
   * foots to the paisa, and every line bears its rate of tax.
   */
  lemma EveryPricedOrderFoots(rows: seq<Row>, t: Terms)
    ensures PriceOrder(rows, t).Failure? && PriceOrder(rows, t).error.TaxRejected? ==> !RatesAreSafe(rows)
    ensures PriceOrder(rows, t).Success? ==> InvoiceFoots(PriceOrder(rows, t).value)
    ensures PriceOrder(rows, t).Success? ==> forall i :: 0 <= i < |PriceOrder(rows, t).value.lines| ==>
      IsTaxed(PriceOrder(rows, t).value.lines[i], TaxContextOf(t))
    ensures PriceOrder(rows, t).Success? && t.registration != Regular ==> PriceOrder(rows, t).value.tax == 0
  {
    var totals := LineTotals(rows);
    SumNonNegative(totals);
    if rows != [] && ShippingFee(Sum(totals), t.shipping).Success? && CouponValue(rows, Sum(totals), t).Applicable? {
      var v := CouponValue(rows, Sum(totals), t);
      var shipping := if v.freeShipping then 0 else ShippingFee(Sum(totals), t.shipping).value;
      if RatesAreSafe(rows) {
        DiscountsFit(totals, v.discount);
        SettleFoots(rows, t, v.discount, LineDiscounts(totals, v.discount), shipping);
      } else {
        UnsafeRateIsRejected(rows, t, v.discount, LineDiscounts(totals, v.discount), shipping);
      }
    }
  }

  /** The split of a priced order follows its payment mode. */
  lemma SplitFollowsMode(rows: seq<Row>, t: Terms)
    requires PriceOrder(rows, t).Success?
    ensures var s := PriceOrder(rows, t).value.split;
      (t.mode == Cod ==> s.advance == 0) && (t.mode == Prepaid ==> s.codDue == 0)
  {
    var totals := LineTotals(rows);
    var v := CouponValue(rows, Sum(totals), t);
    var shipping := if v.freeShipping then 0 else ShippingFee(Sum(totals), t.shipping).value;
    AdvanceSplitIsExact(Sum(totals) - v.discount + shipping, t.policy, t.mode);
  }

  // ----- the same, as createOrderTx runs it -----

  /** The first line of highest value decides the rate of the shipping line. */
  method ShippingRate(values: seq<int>, rows: seq<Row>) returns (rate: nat)
    requires |values| == |rows|
    ensures rate == Principal(values, rows).1
    ensures exists highest :: TakesTheFirstHighest(values, rows, highest, rate)
  {
    var highest := -1;
    rate := 0;
    for i := 0 to |rows|
      invariant (highest, rate) == Principal(values[..i], rows[..i])
    {
      assert values[..i + 1][..i] == values[..i] && rows[..i + 1][..i] == rows[..i];
      if values[i] > highest {
        highest, rate := values[i], RateOf(rows[i]);
      }
    }
    assert values[..|rows|] == values && rows[..|rows|] == rows;
    PrincipalIsARate(values, rows);
  }

  method SumTaxes(taxes: seq<LineTax>) returns (tax: int)
    ensures tax == TotalTax(taxes)
  {
    tax := 0;
    for i := 0 to |taxes|
      invariant tax == TotalTax(taxes[..i])
    {
      assert taxes[..i + 1][..i] == taxes[..i];
      tax := tax + taxes[i].tax;
    }
    assert taxes[..|taxes|] == taxes;
  }

  method SettleOrder(rows: seq<Row>, t: Terms, discount: nat, discounts: seq<int>,
                     shipping: nat) returns (r: Result<Quote, PriceError>)
    requires |discounts| == |rows|
    ensures r == Settle(rows, t, discount, discounts, shipping)
  {
    var totals := LineTotals(rows);
    SumNonNegative(totals);
    var values := Taxables(totals, discounts);
    var rate := ShippingRate(values, rows);
    var input := ItemTaxInput(values, rows);
    if shipping > 0 {
      input := input + [TaxableLine(shipping, rate)];
    }
    assert input == TaxInput(values, rows, shipping);
    var taxes := ComputeLineTaxes(input, TaxContextOf(t));
    if taxes.Failure? {
      return Failure(TaxRejected(taxes.error));
    }
    var tax := SumTaxes(taxes.value);
    var lines := ItemLines(rows, discounts, values, taxes.value);
    if shipping > 0 {
      lines := lines + [ShippingLine(shipping, rate, taxes.value[|rows|])];
    }
    assert lines == SnapshotLines(rows, discounts, values, shipping, taxes.value);
    r := Head(lines, Sum(totals), discount, shipping, tax, t);
  }

  method ComputePrice(rows: seq<Row>, t: Terms) returns (r: Result<Quote, PriceError>)
    ensures r == PriceOrder(rows, t)
  {
    if rows == [] {
      return Failure(CartEmpty);
    }
    var totals := LineTotals(rows);
    SumNonNegative(totals);
    var subtotal := Sum(totals);
    var fee := ShippingFee(subtotal, t.shipping);
    if fee.Failure? {
      return Failure(fee.error);
    }
    var discount: nat, freeShipping := 0, false;
    if t.coupon.Some? {
      var evaluation := EvaluatePromotion(t.coupon.value, CartOf(rows, subtotal, t.channel), Some(t.customer), t.now);
      if evaluation.Refused? {
        return Failure(CouponNotApplicable(evaluation.reason));
      }
      discount, freeShipping := evaluation.discount, evaluation.freeShipping;
    }
    var discounts, shipping := ApplyDiscountToLines(totals, discount, freeShipping, fee.value);
    r := SettleOrder(rows, t, discount, discounts, shipping);
  }
}
