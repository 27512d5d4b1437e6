/**
 * Two runs from the empty shop, of one buyer and one unit of stock: one in
 * which the same money is kept and sent back, and one in which a paid order
 * cannot be confirmed because the seller's registration changed.
 */
module Witnesses {
  import opened Common
  import opened Inventory
  import opened Orders
  import opened Checkout
  import opened CheckoutTheorems
  import opened KeptAndReturnedMoney
  import Payments
  import Quotes
  import Tax
  import Allocation
  import Promotions

  const SHOP: Shop :=
    Shop(Quotes.ShippingRule(0, None), Quotes.AdvancePolicy(false, None, 0), Tax.Regular, true, 0, true, 2025)

  const BUYER: Request := Request(7, 560001, 29, Quotes.Prepaid, None)

  /** One unit for a rupee, taxed at 18 percent. */
  const ROW: Quotes.Row := Quotes.Row(1, 0, [], 1, 100, Some(1_800))

  // ----- the price -----

  /** The one order costs a rupee, all of it prepaid, and carries fifteen paise of tax. */
  ghost predicate OneRupee(q: Quotes.Quote) {
    Billable(q) && q.total == 100 && q.split == Quotes.Split(100, 0) && q.tax == 15
      && HoldLines(q.lines) == [Line(1, 1)]
  }

  lemma ThePrice(t: Quotes.Terms)
    requires t.coupon.None? && t.shipping == SHOP.shipping && t.mode == Quotes.Prepaid
    requires t.registration == Tax.Regular && t.intraState
    ensures Quotes.PriceOrder([ROW], t).Success? && OneRupee(Quotes.PriceOrder([ROW], t).value)
  {
    var totals := Quotes.LineTotals([ROW]);
    assert totals == [100] && totals[..0] == [];
    assert Allocation.Sum(totals) == 100;
    assert Promotions.LineDiscounts(totals, 0) == [0];
    TheTax(t);
    var q := Quotes.PriceOrder([ROW], t).value;
    PricedOrdersAreBillable([ROW], t);
  }

  lemma TheTax(t: Quotes.Terms)
    requires t.registration == Tax.Regular && t.intraState
    ensures var values := Quotes.Taxables([100], [0]);
      var taxes := Tax.ComputeLineTaxes(Quotes.TaxInput(values, [ROW], 0), Quotes.TaxContextOf(t));
      && taxes == Success([Tax.LineTax(85, 8, 7, 0, 15)]) && Quotes.TotalTax(taxes.value) == 15
      && HoldLines(Quotes.SnapshotLines([ROW], [0], values, 0, taxes.value)) == [Line(1, 1)]
  {
    var values := Quotes.Taxables([100], [0]);
    var input := Quotes.TaxInput(values, [ROW], 0);
    assert input == [Tax.TaxableLine(100, 1_800)] && input[..0] == [];
    var ctx := Quotes.TaxContextOf(t);
    assert Tax.HalfUp(180_000, 11_800) == 15 && Tax.HalfUp(15, 2) == 8;
    assert Tax.TaxOfLine(input[0], ctx) == Success(Tax.LineTax(85, 8, 7, 0, 15));
    var taxes := [Tax.LineTax(85, 8, 7, 0, 15)];
    assert taxes[..0] == [];
    var none: seq<Tax.LineTax> := [];
    assert Tax.TaxLines(input[..0], ctx) == Success(none);
    assert none + [taxes[0]] == taxes;
    assert Tax.TaxLines(input, ctx) == Success(none + [taxes[0]]);
    var lines := Quotes.SnapshotLines([ROW], [0], values, 0, taxes);
    assert lines == [lines[0]] && lines[1..] == [];
  }

  // ----- one unit in stock -----

  lemma TheUnitIsHeld(s: Stock, now: int)
    requires OnHand(s.levels, 1) == 1 && s.holds == []
    ensures HoldStock(s, now, {1}, 0, [Line(1, 1)]) == Success(s.(holds := [Hold(0, 1, 1, now + RESERVATION_TTL_MS)]))
  {
    var lines := [Line(1, 1)];
    assert lines[1..] == [] && lines[..0] == [];
    assert TrackedLines(lines, {1}) == lines;
    assert Failures(s, lines, now) == [];
    assert Collect(s.holds, lines, now) == [];
    assert ValidLines(lines) && Delete(s.holds, OfOrder(0)) == [];
    var held := [Hold(0, 1, 1, now + RESERVATION_TTL_MS)];
    assert NewHolds(0, lines, now + RESERVATION_TTL_MS) == held;
    assert Collect(s.holds, lines, now) + held == held;
  }

  /** The buyer's own hold is no obstacle, lapsed or not; what counts is whether the unit is there. */
  lemma TheUnitIsSoldIfThere(s: Stock, now: int, h: Hold)
    requires s.holds == [h] && h.order == 0 && h.variant == 1
    ensures var sold := ConsumeStock(s, now, {1}, 0, [Line(1, 1)]);
      (OnHand(s.levels, 1) == 1 ==> sold.Success?) && (OnHand(s.levels, 1) == 0 ==> sold == Failure(OnHandCheck))
  {
    var lines := [Line(1, 1)];
    assert lines[1..] == [] && lines[..0] == [];
    assert TrackedLines(lines, {1}) == lines;
    assert ValidLines(lines) && SortLines(lines) == lines;
    assert s.holds[1..] == [];
    assert Delete(s.holds, OfOrderVariant(0, 1)) == [];
    assert SellLines(s, now, 0, lines[..0]) == Success(s);
    assert Reserved([], 1, now) == 0;
    var sale := ApplyMovement(s.(holds := []), now, SaleRow(0, lines[0]));
    assert SellLines(s, now, 0, lines) == sale;
  }

  /** Staff move one unit; a hold stands in the way of taking it away only until it lapses. */
  lemma StaffMovesTheUnit(s: State, delta: int)
    requires s.tracked == {1} && -1 <= delta <= 1 && delta != 0 && OnHand(s.stock.levels, 1) >= 0
    requires OnHand(s.stock.levels, 1) + delta >= 0
    requires s.stock.holds == [] || (|s.stock.holds| == 1 && s.stock.holds[0].expiresAt <= s.now)
    ensures var t := Apply(s, StaffStock(1, delta, None));
      && t == s.(stock := t.stock) && t.stock.holds == s.stock.holds
      && OnHand(t.stock.levels, 1) == OnHand(s.stock.levels, 1) + delta
  {
    assert s.stock.holds != [] ==> s.stock.holds[1..] == [];
    assert Reserved(s.stock.holds, 1, s.now) == 0;
  }

  // ----- up to the payment -----

  lemma RunTo(s: State, steps: seq<Step>, k: nat)
    requires k < |steps|
    ensures Run(s, steps[..k + 1]) == Apply(Run(s, steps[..k]), steps[k])
  {
    assert steps[..k + 1][..k] == steps[..k];
  }

  lemma RunOfFive(s: State, steps: seq<Step>)
    requires |steps| >= 5
    ensures Run(s, steps[..5]) == Apply(Apply(Apply(Apply(Apply(s, steps[0]), steps[1]), steps[2]), steps[3]), steps[4])
  {
    assert Run(s, steps[..0]) == s;
    hide *;
    forall k | 0 <= k < 5 ensures Run(s, steps[..k + 1]) == Apply(Run(s, steps[..k]), steps[k]) {
      RunTo(s, steps, k);
    }
    assert Run(s, steps[..1]) == Apply(s, steps[0]);
    assert Run(s, steps[..2]) == Apply(Run(s, steps[..1]), steps[1]);
    assert Run(s, steps[..3]) == Apply(Run(s, steps[..2]), steps[2]);
    assert Run(s, steps[..4]) == Apply(Run(s, steps[..3]), steps[3]);
    assert Run(s, steps[..5]) == Apply(Run(s, steps[..4]), steps[4]);
  }

  /** The only order: pending, with the gateway reference if it has one already. */
  function Placed(q: Quotes.Quote, ref: Option<GatewayRef>): Order {
    Order(0, 0, BUYER, PendingPayment, PayPending, q, 0, 0, ref, Some(CHECKOUT_EXPIRY_MS), None)
  }

  ghost predicate Scene(s: State, onHand: int, holds: seq<Hold>, order: Order, payments: seq<Payments.Payment>) {
    && s.tracked == {1} && OnHand(s.stock.levels, 1) == onHand && s.stock.holds == holds
    && s.orders == [order] && s.money == Payments.Money(payments, []) && s.register.invoices == []
  }

  const SETUP: seq<Step> :=
    [NewCart, StaffStock(1, 1, None), Start(0, 0, BUYER, [ROW], SHOP), Perform(PlaceHold(0, false), 0, SHOP),
     Perform(StartPayment(0), 5, SHOP), Perform(RecordGatewayOrder(0, 5), 0, SHOP)]

  const THE_HOLD: Hold := Hold(0, 1, 1, RESERVATION_TTL_MS)

  const THE_PAYMENT: Payments.Payment := Payments.Payment(0, 100, 5, Payments.Created)

  lemma OrderIsPlaced(s: State) returns (q: Quotes.Quote)
    requires s == Apply(Apply(Initial({1}), NewCart), StaffStock(1, 1, None))
    ensures var t := Apply(s, Start(0, 0, BUYER, [ROW], SHOP));
      OneRupee(q) && Scene(t, 1, [], Placed(q, None), []) && t.now == 0 && t.minted == map[]
        && PlaceHold(0, false) in t.issued
  {
    var terms := TermsOf(s, BUYER, SHOP);
    StaffMovesTheUnit(Apply(Initial({1}), NewCart), 1);
    ThePrice(terms);
    q := Quotes.PriceOrder([ROW], terms).value;
    hide Quotes.PriceOrder;
    hide OneRupee;
    assert q.split == Quotes.Split(100, 0);
    assert s.orders == [] && s.carts == [ActiveCart];
  }

  lemma UnitIsHeld(s: State, q: Quotes.Quote)
    requires OneRupee(q) && Scene(s, 1, [], Placed(q, None), []) && s.now == 0 && PlaceHold(0, false) in s.issued
    ensures var t := Apply(s, Perform(PlaceHold(0, false), 0, SHOP));
      Scene(t, 1, [THE_HOLD], Placed(q, None), []) && t.now == 0 && t.minted == s.minted && StartPayment(0) in t.issued
  {
    TheUnitIsHeld(s.stock, 0);
    hide HoldStock;
  }

  lemma PaymentIsStarted(s: State, q: Quotes.Quote)
    requires OneRupee(q) && Scene(s, 1, [THE_HOLD], Placed(q, None), []) && s.now == 0 && s.minted == map[]
    requires StartPayment(0) in s.issued
    ensures var t := Apply(Apply(s, Perform(StartPayment(0), 5, SHOP)), Perform(RecordGatewayOrder(0, 5), 0, SHOP));
      Scene(t, 1, [THE_HOLD], Placed(q, Some(5)), [THE_PAYMENT]) && t.now == 0
  {
  }

  /** A taxed order waits for its payment, with its unit held. */
  lemma TheSetup() returns (q: Quotes.Quote)
    ensures var s := Run(Initial({1}), SETUP);
      OneRupee(q) && Scene(s, 1, [THE_HOLD], Placed(q, Some(5)), [THE_PAYMENT]) && s.now == 0
  {
    var s2 := Apply(Apply(Initial({1}), NewCart), StaffStock(1, 1, None));
    q := OrderIsPlaced(s2);
    var s3 := Apply(s2, SETUP[2]);
    UnitIsHeld(s3, q);
    PaymentIsStarted(Apply(s3, SETUP[3]), q);
    hide *;
    RunOfFive(Initial({1}), SETUP);
    RunTo(Initial({1}), SETUP, 5);
    assert SETUP[..6] == SETUP;
  }

  lemma {:induction false} RunAppend(s: State, a: seq<Step>, b: seq<Step>)
    ensures Run(s, a + b) == Run(Run(s, a), b)
  {
    if b == [] {
      assert a + b == a;
    } else {
      assert (a + b)[..|a + b| - 1] == a + b[..|b| - 1];
      RunAppend(s, a, b[..|b| - 1]);
    }
  }

  // ----- the payment arrives -----

  /** The gateway order leads to the one payment, and the books have room for the invoice. */
  lemma PaymentArrives(s: State, onHand: int, q: Quotes.Quote, shop: Shop)
    requires OneRupee(q) && Scene(s, onHand, [THE_HOLD], Placed(q, Some(5)), [THE_PAYMENT]) && 0 <= onHand <= 1
    ensures Lookup(s, 5) == Some((0, 0))
    ensures var t := ProcessCaptured(s, 5, 100, shop);
      && (onHand == 0 ==> t == Issue(s, {CancelOversold(5, 100)}))
      && (onHand == 1 && shop.registration != Tax.Regular ==> t == s)
      && (onHand == 1 && shop.registration == Tax.Regular ==>
          && t.issued == s.issued && |t.orders| == 1
          && t.orders[0].status == Confirmed && t.orders[0].gatewayRef == Some(5)
          && t.money == Payments.Money([THE_PAYMENT.(status := Payments.Captured)], []))
  {
    TheUnitIsSoldIfThere(s.stock, s.now, THE_HOLD);
    hide ConsumeStock;
  }

  /**
   * A taxed order is pending with its unit held, and the seller's registration changes to one that issues bills of
   * supply: every delivery of its capture is then refused without a trace, and under the old one it would be confirmed.
   */
  lemma APaidOrderCanBeStuck(shop: Shop)
    ensures var s := Run(Initial({1}), SETUP);
      && |s.orders| == 1 && s.orders[0].status == PendingPayment && s.orders[0].quote.tax > 0
      && Lookup(s, 5) == Some((0, 0)) && s.money.payments[0].amount == 100
      && (shop.registration != Tax.Regular ==> ProcessCaptured(s, 5, 100, shop) == s)
      && (shop.registration == Tax.Regular ==> ProcessCaptured(s, 5, 100, shop).orders[0].status == Confirmed)
  {
    var q := TheSetup();
    var s := Run(Initial({1}), SETUP);
    hide Run;
    PaymentArrives(s, 1, q, shop);
    hide ProcessCaptured;
    hide Lookup;
    hide Billable;
  }

  // ----- the same money, kept and sent back -----

  /**
   * The hold lapses and staff take the unit away, so the first delivery of the capture is refused and asks for an
   * oversold cancel. The unit comes back, the redelivery confirms the order, and only then the cancel is run.
   */
  const TOO_LATE: seq<Step> :=
    [Tick(RESERVATION_TTL_MS), StaffStock(1, -1, None), CaptureEvent(5, 100, SHOP), StaffStock(1, 1, None),
     CaptureEvent(5, 100, SHOP), Perform(CancelOversold(5, 100), 0, SHOP)]

  lemma TheUnitIsTakenAway(s: State, q: Quotes.Quote)
    requires OneRupee(q) && Scene(s, 1, [THE_HOLD], Placed(q, Some(5)), [THE_PAYMENT]) && s.now == 0
    ensures var t := Apply(Apply(Apply(s, TOO_LATE[0]), TOO_LATE[1]), TOO_LATE[2]);
      && Scene(t, 0, [THE_HOLD], Placed(q, Some(5)), [THE_PAYMENT]) && t.now == RESERVATION_TTL_MS
      && CancelOversold(5, 100) in t.issued
  {
    var lapsed := Apply(s, TOO_LATE[0]);
    StaffMovesTheUnit(lapsed, -1);
    PaymentArrives(Apply(lapsed, TOO_LATE[1]), 0, q, SHOP);
    hide ProcessCaptured;
    hide AdjustStock;
    hide OneRupee;
  }

  lemma TheUnitComesBack(s: State, q: Quotes.Quote)
    requires OneRupee(q) && Scene(s, 0, [THE_HOLD], Placed(q, Some(5)), [THE_PAYMENT]) && s.now == RESERVATION_TTL_MS
    requires CancelOversold(5, 100) in s.issued
    ensures var t := Apply(Apply(s, TOO_LATE[3]), TOO_LATE[4]);
      t.orders != [] && t.orders[0].status == Confirmed && CancelsTooLate(t, TOO_LATE[5], 0)
  {
    StaffMovesTheUnit(s, 1);
    PaymentArrives(Apply(s, TOO_LATE[3]), 1, q, SHOP);
    hide ProcessCaptured;
    hide AdjustStock;
    hide OneRupee;
  }

  lemma TheCancelComesTooLate()
    ensures var s := Run(Initial({1}), SETUP + TOO_LATE[..5]);
      s.orders != [] && s.orders[0].status == Confirmed && CancelsTooLate(s, TOO_LATE[5], 0)
  {
    var q := TheSetup();
    var s := Run(Initial({1}), SETUP);
    TheUnitIsTakenAway(s, q);
    TheUnitComesBack(Apply(Apply(Apply(s, TOO_LATE[0]), TOO_LATE[1]), TOO_LATE[2]), q);
    hide *;
    RunAppend(Initial({1}), SETUP, TOO_LATE[..5]);
    RunOfFive(s, TOO_LATE);
  }

  /**
   * A reachable state: the order is confirmed, its payment captured and kept, and the same payment refunded in full.
   */
  lemma MoneyCanBeKeptAndReturned()
    ensures var s := Run(Initial({1}), SETUP + TOO_LATE);
      s.orders != [] && s.orders[0].status == Confirmed && KeptAndReturned(s, 0) && RefundedInFull(s.money, 0)
  {
    var before, steps := Run(Initial({1}), SETUP + TOO_LATE[..5]), SETUP + TOO_LATE;
    TheCancelComesTooLate();
    assert steps[..11] == SETUP + TOO_LATE[..5] && steps[..12] == steps;
    RunOneMore({1}, steps, 11);
    hide *;
    TooLateReturnsInFull(before, TOO_LATE[5], 0);
  }
}
