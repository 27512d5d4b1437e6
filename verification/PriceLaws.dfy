/**
 * What a price means: every line and header amount of a priced order, said of
 * the cart's rows and the terms (packages/core/src/checkout/server.ts:852-1116).
 */
module PriceLaws {
  import opened Common
  import opened Quotes
  import Allocation
  import Promotions
  import Tax

  // ----- the cart as it is priced -----

  function Subtotal(rows: seq<Row>): nat {
    if rows == [] then 0 else Subtotal(rows[..|rows| - 1]) + rows[|rows| - 1].price * rows[|rows| - 1].quantity
  }

  /** The cart a coupon is evaluated on has the rows' lines and their subtotal. */
  ghost predicate IsTheCart(cart: Promotions.Cart, rows: seq<Row>, channel: nat) {
    && |cart.lines| == |rows| && cart.subtotal == Subtotal(rows) && cart.channel == channel
    && forall i :: 0 <= i < |rows| ==>
      && cart.lines[i].variant == rows[i].variant && cart.lines[i].product == rows[i].product
      && cart.lines[i].categories == rows[i].categories
      && cart.lines[i].quantity == rows[i].quantity && cart.lines[i].unitPrice == rows[i].price
  }

  predicate FeesAreValid(rule: ShippingRule) {
    0 <= rule.flatFee <= Tax.MAX_SAFE && (rule.freeAbove.Some? ==> 0 <= rule.freeAbove.value <= Tax.MAX_SAFE)
  }

  /** What shipping costs: nothing from the threshold on or by the coupon, else the flat fee. */
  function ShippingCost(subtotal: nat, rule: ShippingRule, free: bool): int {
    if free || (rule.freeAbove.Some? && subtotal >= rule.freeAbove.value) then 0 else rule.flatFee
  }

  /** The coupon's evaluation on this cart; no coupon is worth nothing. */
  ghost predicate CouponGives(rows: seq<Row>, t: Terms, discount: nat, freeShipping: bool) {
    if t.coupon.None? then discount == 0 && !freeShipping
    else
      var gives := Promotions.Applicable(discount, freeShipping);
      exists cart :: IsTheCart(cart, rows, t.channel)
                     && Promotions.Evaluate(t.coupon.value, cart, Some(t.customer), t.now) == gives
  }

  ghost predicate IsItem(l: OrderLine, row: Row) {
    && l.variant == Some(row.variant) && l.quantity == row.quantity && l.unitPrice == row.price
    && l.rateBps == if row.rateBps.Some? then row.rateBps.value else 0
  }

  /** The shipping line: one unit of the fee, without discount, at the rate of the first item line of highest total. */
  ghost predicate IsShipping(l: OrderLine, items: seq<OrderLine>, fee: nat) {
    && l.variant == None && l.quantity == 1 && l.unitPrice == fee && l.discount == 0 && l.total == fee
    && exists k: nat :: IsFirstHighest(items, k) && l.rateBps == items[k].rateBps
  }

  ghost predicate IsFirstHighest(items: seq<OrderLine>, k: nat) {
    && k < |items|
    && (forall i :: 0 <= i < |items| ==> items[i].total <= items[k].total)
    && (forall i :: 0 <= i < k ==> items[i].total < items[k].total)
  }

  /**
   * The discount is spread over the item lines in proportion, exactly
   * and fairly, ties to the larger line and then the earlier.
   */
  ghost predicate IsSpread(items: seq<OrderLine>, rows: seq<Row>, discount: nat)
    requires |items| == |rows|
  {
    if discount == 0 then forall i :: 0 <= i < |items| ==> items[i].discount == 0
    else
      var totals: seq<nat> := seq(|rows|, i requires 0 <= i < |rows| => rows[i].price * rows[i].quantity);
      && Allocation.Sum(totals) > 0
      && var discounts := seq(|items|, i requires 0 <= i < |items| => items[i].discount);
      Allocation.FairInOrder(discounts, discount, totals, totals)
  }

  /** The lines: the rows in order, then the shipping line when shipping costs anything. */
  ghost predicate LinesOf(rows: seq<Row>, t: Terms, lines: seq<OrderLine>, discount: nat, fee: nat) {
    && |lines| == |rows| + (if fee > 0 then 1 else 0)
    && var items := lines[..|rows|];
    && (forall i :: 0 <= i < |rows| ==> IsItem(items[i], rows[i]))
    && (forall i :: 0 <= i < |rows| ==> items[i].total == items[i].unitPrice * items[i].quantity - items[i].discount)
    && IsSpread(items, rows, discount)
    && (fee > 0 ==> IsShipping(lines[|rows|], items, fee))
    && (forall i :: 0 <= i < |lines| ==> IsTaxed(lines[i], TaxContextOf(t)))
  }

  /** The order as priced, when the coupon is worth this discount and shipping costs this fee. */
  ghost predicate IsPriced(rows: seq<Row>, t: Terms, q: Quote, discount: nat, fee: nat) {
    && q.subtotal == Subtotal(rows) && q.discount == discount <= q.subtotal && q.shipping == fee
    && q.total == q.subtotal - discount + fee
    && LinesOf(rows, t, q.lines, discount, fee)
    && q.tax == SumOf(q.lines, TaxTotal)
    && CanSplit(q.total, t.policy, t.mode) && SplitMeans(q.total, t.policy, t.mode, q.split)
  }

  // ----- the proofs -----

  lemma {:induction false} SubtotalIsSum(rows: seq<Row>)
    ensures Subtotal(rows) == Allocation.Sum(LineTotals(rows))
  {
    if rows != [] {
      SubtotalIsSum(rows[..|rows| - 1]);
      assert LineTotals(rows)[..|rows| - 1] == LineTotals(rows[..|rows| - 1]);
    }
  }

  lemma CouponMeans(rows: seq<Row>, t: Terms, discount: nat, freeShipping: bool)
    ensures CouponGives(rows, t, discount, freeShipping) <==>
      CouponValue(rows, Subtotal(rows), t) == Promotions.Applicable(discount, freeShipping)
  {
    var cart := CartOf(rows, Subtotal(rows), t.channel);
    assert IsTheCart(cart, rows, t.channel);
    forall other | IsTheCart(other, rows, t.channel) ensures other == cart {
      forall i | 0 <= i < |rows| ensures other.lines[i] == cart.lines[i] {
      }
    }
    hide IsTheCart;
  }

  lemma ShippingMeans(subtotal: nat, rule: ShippingRule)
    ensures ShippingFee(subtotal, rule).Success? <==> subtotal <= Tax.MAX_SAFE && FeesAreValid(rule)
    ensures ShippingFee(subtotal, rule).Success? ==>
      ShippingFee(subtotal, rule).value == ShippingCost(subtotal, rule, false)
  {
  }

  lemma {:induction false} PrincipalIsShipping(rows: seq<Row>, items: seq<OrderLine>, values: seq<int>, fee: nat,
                                               tax: Tax.LineTax)
    requires rows != [] && |items| == |values| == |rows| && fee > 0
    requires forall i :: 0 <= i < |rows| ==> items[i].total == values[i] >= 0 && items[i].rateBps == RateOf(rows[i])
    ensures IsShipping(ShippingLine(fee, Principal(values, rows).1, tax), items, fee)
  {
    PrincipalIsARate(values, rows);
    var p := Principal(values, rows);
    assert values[0] >= 0;
    var k: nat :| FirstHighest(values, k) && p.0 == values[k] && p.1 == RateOf(rows[k]);
    assert IsFirstHighest(items, k) && items[k].rateBps == p.1;
  }

  function Discounts(rows: seq<Row>, discount: nat): (r: seq<int>)
    ensures |r| == |rows|
  {
    Promotions.LineDiscounts(LineTotals(rows), discount)
  }

  lemma {:induction false} SpreadMeans(rows: seq<Row>, items: seq<OrderLine>, discount: nat)
    requires |items| == |rows| && discount <= Subtotal(rows)
    requires forall i :: 0 <= i < |rows| ==> items[i].discount == Discounts(rows, discount)[i]
    ensures IsSpread(items, rows, discount)
  {
    var totals := LineTotals(rows);
    SubtotalIsSum(rows);
    if discount > 0 {
      Allocation.AllocateIsFair(discount, totals, totals);
      var discounts := seq(|items|, i requires 0 <= i < |items| => items[i].discount);
      assert discounts == Discounts(rows, discount);
      assert totals == seq(|rows|, i requires 0 <= i < |rows| => rows[i].price * rows[i].quantity);
    }
  }

  /** One line of the snapshot and the tax computed for it. */
  lemma {:induction false} LineIsTaxed(rows: seq<Row>, t: Terms, discounts: seq<int>, fee: nat,
                                       taxes: seq<Tax.LineTax>, i: nat)
    requires |discounts| == |rows|
    requires var input := TaxInput(Taxables(LineTotals(rows), discounts), rows, fee);
      |taxes| == |input| && i < |input| && Tax.Foots(input[i], TaxContextOf(t), taxes[i])
    ensures var values := Taxables(LineTotals(rows), discounts);
      var lines := SnapshotLines(rows, discounts, values, fee, taxes);
      |lines| == |taxes| && IsTaxed(lines[i], TaxContextOf(t))
  {
    hide Tax.Bears;
    hide Principal;
  }

  lemma ItemsMean(rows: seq<Row>, discounts: seq<int>, taxes: seq<Tax.LineTax>)
    requires |discounts| == |rows| <= |taxes|
    ensures var values := Taxables(LineTotals(rows), discounts);
      var items := ItemLines(rows, discounts, values, taxes);
      forall i :: 0 <= i < |rows| ==>
        && IsItem(items[i], rows[i]) && items[i].discount == discounts[i] && items[i].total == values[i]
        && items[i].rateBps == RateOf(rows[i])
        && items[i].total == items[i].unitPrice * items[i].quantity - items[i].discount
  {
  }

  lemma LinesMean(rows: seq<Row>, t: Terms, discount: nat, fee: nat, taxes: seq<Tax.LineTax>)
    requires rows != [] && discount <= Subtotal(rows) <= Tax.MAX_SAFE && fee <= Tax.MAX_SAFE
    requires var values := Taxables(LineTotals(rows), Discounts(rows, discount));
      Tax.ComputeLineTaxes(TaxInput(values, rows, fee), TaxContextOf(t)) == Success(taxes)
    ensures var discounts := Discounts(rows, discount);
      LinesOf(rows, t, SnapshotLines(rows, discounts, Taxables(LineTotals(rows), discounts), fee, taxes), discount, fee)
  {
    hide IsSpread;
    hide IsShipping;
    hide IsTaxed;
    hide IsItem;
    hide Tax.ComputeLineTaxes;
    hide Tax.Foots;
    hide Principal;
    hide Promotions.LineDiscounts;
    var discounts := Discounts(rows, discount);
    var values := Taxables(LineTotals(rows), discounts);
    var input, ctx := TaxInput(values, rows, fee), TaxContextOf(t);
    var lines := SnapshotLines(rows, discounts, values, fee, taxes);
    var items := lines[..|rows|];
    assert items == ItemLines(rows, discounts, values, taxes);
    SubtotalIsSum(rows);
    Promotions.DiscountsFit(LineTotals(rows), discount);
    Tax.LineTaxesAreExact(input, ctx);
    ItemsMean(rows, discounts, taxes);
    SpreadMeans(rows, items, discount);
    forall i | 0 <= i < |lines| ensures IsTaxed(lines[i], TaxContextOf(t)) {
      LineIsTaxed(rows, t, discounts, fee, taxes, i);
    }
    if fee > 0 {
      PrincipalIsShipping(rows, items, values, fee, taxes[|rows|]);
    }
  }

  /** Safe rates are never refused by the tax engine, and the lines are what they should be. */
  lemma SafeRatesAreTaxed(rows: seq<Row>, t: Terms, discount: nat, fee: nat)
    requires rows != [] && discount <= Subtotal(rows) <= Tax.MAX_SAFE && fee <= Tax.MAX_SAFE && RatesAreSafe(rows)
    ensures var discounts := Discounts(rows, discount);
      var values := Taxables(LineTotals(rows), discounts);
      var taxes := Tax.ComputeLineTaxes(TaxInput(values, rows, fee), TaxContextOf(t));
      && taxes.Success?
      && var lines := SnapshotLines(rows, discounts, values, fee, taxes.value);
      LinesOf(rows, t, lines, discount, fee) && SumOf(lines, TaxTotal) == TotalTax(taxes.value)
  {
    hide SnapshotLines;
    hide TaxInput;
    hide Taxables;
    hide LinesOf;
    hide Tax.ComputeLineTaxes;
    hide TotalTax;
    hide SumOf;
    hide Promotions.LineDiscounts;
    var discounts := Discounts(rows, discount);
    SubtotalIsSum(rows);
    Promotions.DiscountsFit(LineTotals(rows), discount);
    SettledLinesFoot(rows, t, discounts, fee);
    var taxes := Tax.ComputeLineTaxes(TaxInput(Taxables(LineTotals(rows), discounts), rows, fee),
                                      TaxContextOf(t)).value;
    LinesMean(rows, t, discount, fee, taxes);
  }

  /**
   * The price, once coupon and shipping are known: refused exactly
   * for an unsafe rate or a total that cannot be split.
   */
  lemma SettledMeans(rows: seq<Row>, t: Terms, discount: nat, fee: nat)
    requires rows != [] && discount <= Subtotal(rows) <= Tax.MAX_SAFE && fee <= Tax.MAX_SAFE
    ensures var r := Settle(rows, t, discount, Discounts(rows, discount), fee);
      && (r.Success? <==> RatesAreSafe(rows) && CanSplit(Subtotal(rows) - discount + fee, t.policy, t.mode))
      && (r.Success? ==> IsPriced(rows, t, r.value, discount, fee))
  {
    hide SnapshotLines;
    hide TaxInput;
    hide Taxables;
    hide AdvanceSplit;
    hide SplitMeans;
    hide LinesOf;
    hide Tax.ComputeLineTaxes;
    hide RatesAreSafe;
    hide TotalTax;
    hide SumOf;
    hide Discounts;
    hide Subtotal;
    SubtotalIsSum(rows);
    AdvanceSplitIsExact(Subtotal(rows) - discount + fee, t.policy, t.mode);
    if RatesAreSafe(rows) {
      SafeRatesAreTaxed(rows, t, discount, fee);
    } else {
      UnsafeRateIsRejected(rows, t, discount, Discounts(rows, discount), fee);
    }
  }

  /**
   * What it takes to price a cart: rows, amounts in range, a coupon
   * that applies, safe rates and a total that can be split.
   */
  ghost predicate CanPrice(rows: seq<Row>, t: Terms, discount: nat, freeShipping: bool) {
    && rows != [] && Subtotal(rows) <= Tax.MAX_SAFE && FeesAreValid(t.shipping)
    && CouponGives(rows, t, discount, freeShipping) && RatesAreSafe(rows)
    && CanSplit(Subtotal(rows) - discount + ShippingCost(Subtotal(rows), t.shipping, freeShipping), t.policy, t.mode)
  }

  /**
   * For every cart and all terms: an order is priced exactly when it can be, and every amount of it, down its lines and
   * across its header, is what the rows, the coupon, the shipping rule, the tax rates and the advance policy make it.
   */
  lemma PricedOrderMeans(rows: seq<Row>, t: Terms)
    ensures PriceOrder(rows, t).Success? <==> exists discount, freeShipping :: CanPrice(rows, t, discount, freeShipping)
    ensures PriceOrder(rows, t).Success? ==>
      exists discount: nat, freeShipping :: CanPrice(rows, t, discount, freeShipping)
        && var fee := ShippingCost(Subtotal(rows), t.shipping, freeShipping);
        fee >= 0 && IsPriced(rows, t, PriceOrder(rows, t).value, discount, fee)
  {
    hide CouponGives;
    hide CouponValue;
    hide Settle;
    hide IsPriced;
    hide RatesAreSafe;
    hide FeesAreValid;
    var subtotal := Subtotal(rows);
    SubtotalIsSum(rows);
    ShippingMeans(subtotal, t.shipping);
    forall discount, freeShipping ensures CouponGives(rows, t, discount, freeShipping) <==>
      CouponValue(rows, subtotal, t) == Promotions.Applicable(discount, freeShipping)
    {
      CouponMeans(rows, t, discount, freeShipping);
    }
    if rows != [] && ShippingFee(subtotal, t.shipping).Success? && CouponValue(rows, subtotal, t).Applicable? {
      var v := CouponValue(rows, subtotal, t);
      var fee := if v.freeShipping then 0 else ShippingFee(subtotal, t.shipping).value;
      DiscountIsWithin(rows, t);
      SettledMeans(rows, t, v.discount, fee);
      assert PriceOrder(rows, t) == Settle(rows, t, v.discount, Discounts(rows, v.discount), fee);
      assert fee == ShippingCost(subtotal, t.shipping, v.freeShipping);
      assert CanPrice(rows, t, v.discount, v.freeShipping) <==> PriceOrder(rows, t).Success?;
    }
  }

  lemma DiscountIsWithin(rows: seq<Row>, t: Terms)
    requires CouponValue(rows, Subtotal(rows), t).Applicable?
    ensures CouponValue(rows, Subtotal(rows), t).discount <= Subtotal(rows)
  {
  }

  // ----- refusals -----

  /** Why a total is not split. */
  function WhyNotSplit(total: int, policy: AdvancePolicy, mode: PaymentMode): PriceError {
    if !(0 <= total <= Tax.MAX_SAFE / 10_000) then InvalidAmount
    else if !policy.codEnabled then CodUnavailable
    else if policy.advanceBps.None? then AdvanceNotConfigured
    else InvalidAmount
  }

  /** The reason a coupon of this cart is refused for. */
  ghost predicate CouponIsRefused(rows: seq<Row>, t: Terms, reason: Promotions.Refusal) {
    t.coupon.Some? && exists cart ::
      IsTheCart(cart, rows, t.channel)
      && Promotions.Evaluate(t.coupon.value, cart, Some(t.customer), t.now) == Promotions.Refused(reason)
  }

  lemma CouponRefusalMeans(rows: seq<Row>, t: Terms, reason: Promotions.Refusal)
    ensures CouponIsRefused(rows, t, reason) <==> CouponValue(rows, Subtotal(rows), t) == Promotions.Refused(reason)
  {
    var cart := CartOf(rows, Subtotal(rows), t.channel);
    assert IsTheCart(cart, rows, t.channel);
    forall other | IsTheCart(other, rows, t.channel) ensures other == cart {
      forall i | 0 <= i < |rows| ensures other.lines[i] == cart.lines[i] {
      }
    }
    hide IsTheCart;
  }

  lemma SplitRefusalMeans(total: int, policy: AdvancePolicy, mode: PaymentMode)
    ensures AdvanceSplit(total, policy, mode).Failure? ==>
      AdvanceSplit(total, policy, mode).error == WhyNotSplit(total, policy, mode)
  {
  }

  /** Why an order is not priced: the first reason in this order. */
  lemma PriceRefusalMeans(rows: seq<Row>, t: Terms)
    requires PriceOrder(rows, t).Failure?
    ensures var e := PriceOrder(rows, t).error;
      if rows == [] then e == CartEmpty
      else if !(Subtotal(rows) <= Tax.MAX_SAFE && FeesAreValid(t.shipping)) then e == InvalidAmount
      else if exists reason :: CouponIsRefused(rows, t, reason) then
        exists reason :: CouponIsRefused(rows, t, reason) && e == CouponNotApplicable(reason)
      else if !RatesAreSafe(rows) then e == TaxRejected(Tax.InvalidPayload)
      else exists discount: nat, freeShipping ::
        && CouponGives(rows, t, discount, freeShipping)
        && var fee := ShippingCost(Subtotal(rows), t.shipping, freeShipping);
           e == WhyNotSplit(Subtotal(rows) - discount + fee, t.policy, t.mode)
  {
    hide CouponGives;
    hide CouponIsRefused;
    hide CouponValue;
    hide Settle;
    hide RatesAreSafe;
    hide FeesAreValid;
    hide WhyNotSplit;
    var subtotal := Subtotal(rows);
    SubtotalIsSum(rows);
    ShippingMeans(subtotal, t.shipping);
    forall discount, freeShipping ensures CouponGives(rows, t, discount, freeShipping) <==>
      CouponValue(rows, subtotal, t) == Promotions.Applicable(discount, freeShipping)
    {
      CouponMeans(rows, t, discount, freeShipping);
    }
    forall reason ensures CouponIsRefused(rows, t, reason) <==>
      CouponValue(rows, subtotal, t) == Promotions.Refused(reason)
    {
      CouponRefusalMeans(rows, t, reason);
    }
    if rows != [] && ShippingFee(subtotal, t.shipping).Success? && CouponValue(rows, subtotal, t).Applicable? {
      var v := CouponValue(rows, subtotal, t);
      var fee := if v.freeShipping then 0 else ShippingFee(subtotal, t.shipping).value;
      DiscountIsWithin(rows, t);
      SettleRefusalMeans(rows, t, v.discount, fee);
      assert PriceOrder(rows, t) == Settle(rows, t, v.discount, Discounts(rows, v.discount), fee);
      assert fee == ShippingCost(subtotal, t.shipping, v.freeShipping);
      assert CouponGives(rows, t, v.discount, v.freeShipping);
    }
  }

  lemma SettleRefusalMeans(rows: seq<Row>, t: Terms, discount: nat, fee: nat)
    requires rows != [] && discount <= Subtotal(rows) <= Tax.MAX_SAFE && fee <= Tax.MAX_SAFE
    ensures var r := Settle(rows, t, discount, Discounts(rows, discount), fee);
      var why := if RatesAreSafe(rows) then WhyNotSplit(Subtotal(rows) - discount + fee, t.policy, t.mode)
                 else TaxRejected(Tax.InvalidPayload);
      r.Failure? ==> r.error == why
  {
    hide SnapshotLines;
    hide TaxInput;
    hide Taxables;
    hide AdvanceSplit;
    hide WhyNotSplit;
    hide LinesOf;
    hide Tax.ComputeLineTaxes;
    hide RatesAreSafe;
    hide TotalTax;
    hide SumOf;
    hide Discounts;
    hide Subtotal;
    SubtotalIsSum(rows);
    SplitRefusalMeans(Subtotal(rows) - discount + fee, t.policy, t.mode);
    if RatesAreSafe(rows) {
      SafeRatesAreTaxed(rows, t, discount, fee);
    } else {
      UnsafeRateIsRejected(rows, t, discount, Discounts(rows, discount), fee);
    }
  }
}
