/**
 * Coupon rules as data: evaluation and the spreading of a discount
 * over lines (packages/core/src/promotions/index.ts).
 */
module Promotions {
  import opened Common
  import opened Allocation

  type Positive = n: nat | n > 0 witness 1

  datatype Condition =
    | CartSubtotalMin(paise: nat)
    | ContainsProduct(productIds: seq<nat>)
    | ContainsCategory(categoryIds: seq<nat>)
    | CustomerSegment(segmentId: nat)
    | FirstOrder
    | Channel(channels: seq<nat>)
    | UnknownCondition

  datatype Effect =
    | FlatOff(paise: nat)
    | PercentOff(bps: nat, maxDiscount: Option<nat>)
    | FreeShipping
    | BuyXGetY(buyQty: Positive, getQty: Positive, getVariantIds: seq<VariantId>)
    | UnknownEffect

  datatype Rule = Rule(startsAt: Option<int>, endsAt: Option<int>, conditions: seq<Condition>, effects: seq<Effect>,
                       limitPerCustomer: Option<nat>)

  datatype CartLine = CartLine(variant: VariantId, product: nat, categories: seq<nat>, quantity: nat, unitPrice: nat)

  datatype Cart = Cart(lines: seq<CartLine>, subtotal: nat, channel: nat)

  datatype Customer = Customer(id: Option<CustomerId>, isFirstOrder: bool)

  datatype Refusal =
    | NotStarted
    | Expired
    | ConditionsNotMet
    | RequiresCustomer
    | UnknownVocabulary
    | UnsupportedCondition

  datatype Evaluation = Applicable(discount: nat, freeShipping: bool) | Refused(reason: Refusal)

  // ----- evaluation -----

  /** Basis points of an amount, HALF_UP in integers. */
  function BpsOf(amount: nat, bps: nat): nat {
    (amount * bps + 5_000) / 10_000
  }

  /** The nearest paisa to the percentage, halves up. */
  ghost predicate NearestPercent(amount: nat, bps: nat, r: nat) {
    2 * (amount * bps) - 10_000 < 20_000 * r <= 2 * (amount * bps) + 10_000
  }

  lemma PercentMeans(amount: nat, bps: nat)
    ensures NearestPercent(amount, bps, BpsOf(amount, bps))
  {
    var n := amount * bps + 5_000;
    assert amount * bps >= 0;
    assert n == 10_000 * (n / 10_000) + n % 10_000;
  }

  function CheckCondition(c: Condition, cart: Cart, customer: Option<Customer>): Option<Refusal> {
    match c
    case CartSubtotalMin(paise) => if cart.subtotal >= paise then None else Some(ConditionsNotMet)
    case ContainsProduct(ids) => if exists l <- cart.lines :: l.product in ids then None else Some(ConditionsNotMet)
    case ContainsCategory(ids) =>
      if exists l <- cart.lines :: exists c <- l.categories :: c in ids then None else Some(ConditionsNotMet)
    case CustomerSegment(_) => Some(UnsupportedCondition)
    case FirstOrder =>
      // An anonymous preview may still apply.
      if customer.None? || customer.value.isFirstOrder then None else Some(ConditionsNotMet)
    case Channel(channels) => if cart.channel in channels then None else Some(ConditionsNotMet)
    case UnknownCondition => Some(UnknownVocabulary)
  }

  function FirstRefusal(conditions: seq<Condition>, cart: Cart, customer: Option<Customer>): Option<Refusal> {
    if conditions == [] then None
    else
      var earlier := FirstRefusal(conditions[..|conditions| - 1], cart, customer);
      if earlier.Some? then earlier else CheckCondition(conditions[|conditions| - 1], cart, customer)
  }

  function Eligible(lines: seq<CartLine>, variants: seq<VariantId>): seq<CartLine> {
    if lines == [] then []
    else (if lines[0].variant in variants then [lines[0]] else []) + Eligible(lines[1..], variants)
  }

  function InsertByPrice(line: CartLine, sorted: seq<CartLine>): seq<CartLine> {
    if sorted == [] || line.unitPrice <= sorted[0].unitPrice then [line] + sorted
    else [sorted[0]] + InsertByPrice(line, sorted[1..])
  }

  function SortByPrice(lines: seq<CartLine>): seq<CartLine> {
    if lines == [] then [] else InsertByPrice(lines[0], SortByPrice(lines[1..]))
  }

  function TotalQuantity(lines: seq<CartLine>): nat {
    if lines == [] then 0 else lines[0].quantity + TotalQuantity(lines[1..])
  }

  /** Give away units in list order until none are left to give. */
  function GiveAway(free: nat, lines: seq<CartLine>): nat {
    if lines == [] || free == 0 then 0
    else
      var take := Min(free, lines[0].quantity);
      take * lines[0].unitPrice + GiveAway(free - take, lines[1..])
  }

  /** None when nothing eligible is in the cart or the buy threshold is not reached. */
  function BuyXGetYDiscount(e: Effect, cart: Cart): Option<nat>
    requires e.BuyXGetY?
  {
    var eligible := SortByPrice(Eligible(cart.lines, e.getVariantIds));
    var batches := TotalQuantity(cart.lines) / e.buyQty;
    if eligible == [] || batches == 0 then None else Some(GiveAway(batches * e.getQty, eligible))
  }

  function EffectDiscount(e: Effect, cart: Cart): Result<nat, Refusal> {
    match e
    case FlatOff(paise) => Success(paise)
    case PercentOff(bps, cap) =>
      var off := BpsOf(cart.subtotal, bps);
      Success(if cap.Some? && off > cap.value then cap.value else off)
    case FreeShipping => Success(0)
    case BuyXGetY(_, _, _) =>
      var off := BuyXGetYDiscount(e, cart);
      if off.None? then Failure(ConditionsNotMet) else Success(off.value)
    case UnknownEffect => Failure(UnknownVocabulary)
  }

  function AddEffects(effects: seq<Effect>, cart: Cart): Evaluation {
    if effects == [] then Applicable(0, false)
    else
      match AddEffects(effects[..|effects| - 1], cart)
      case Refused(reason) => Refused(reason)
      case Applicable(discount, freeShipping) =>
        var e := effects[|effects| - 1];
        match EffectDiscount(e, cart)
        case Failure(reason) => Refused(reason)
        case Success(off) => Applicable(discount + off, freeShipping || e.FreeShipping?)
  }

  function Evaluate(rule: Rule, cart: Cart, customer: Option<Customer>, now: int): Evaluation {
    if rule.startsAt.Some? && now < rule.startsAt.value then Refused(NotStarted)
    else if rule.endsAt.Some? && now >= rule.endsAt.value then Refused(Expired)
    else
      var refusal := FirstRefusal(rule.conditions, cart, customer);
      if refusal.Some? then Refused(refusal.value)
      else if rule.limitPerCustomer.Some? && customer.Some? && customer.value.id.None? then Refused(RequiresCustomer)
      else
        match AddEffects(rule.effects, cart)
        case Refused(reason) => Refused(reason)
        case Applicable(discount, freeShipping) => Applicable(Min(discount, cart.subtotal), freeShipping)
  }

  // ----- the same, as the loops run -----

  method ComputeBuyXGetY(e: Effect, cart: Cart) returns (discount: Option<nat>)
    requires e.BuyXGetY?
    ensures discount == BuyXGetYDiscount(e, cart)
  {
    var eligible := SortByPrice(Eligible(cart.lines, e.getVariantIds));
    if eligible == [] {
      return None;
    }
    var batches := TotalQuantity(cart.lines) / e.buyQty;
    if batches == 0 {
      return None;
    }
    var freeUnits: nat := batches * e.getQty;
    var off := 0;
    for i := 0 to |eligible|
      invariant off + GiveAway(freeUnits, eligible[i..]) == GiveAway(batches * e.getQty, eligible)
    {
      if freeUnits == 0 {
        break;
      }
      assert eligible[i..][0] == eligible[i] && eligible[i..][1..] == eligible[i + 1..];
      var take := Min(freeUnits, eligible[i].quantity);
      off := off + take * eligible[i].unitPrice;
      freeUnits := freeUnits - take;
    }
    discount := Some(off);
  }

  method CheckConditions(conditions: seq<Condition>, cart: Cart,
                         customer: Option<Customer>) returns (refusal: Option<Refusal>)
    ensures refusal == FirstRefusal(conditions, cart, customer)
  {
    for i := 0 to |conditions|
      invariant FirstRefusal(conditions[..i], cart, customer) == None
    {
      assert conditions[..i + 1][..i] == conditions[..i];
      refusal := CheckCondition(conditions[i], cart, customer);
      if refusal.Some? {
        RefusalStands(conditions, cart, customer, i + 1);
        return;
      }
    }
    assert conditions[..|conditions|] == conditions;
    refusal := None;
  }

  /** One effect; a refusal leaves the sums to the caller's rollback. */
  method ApplyEffect(e: Effect, cart: Cart) returns (off: Result<nat, Refusal>)
    ensures off == EffectDiscount(e, cart)
  {
    match e {
      case FlatOff(paise) => return Success(paise);
      case PercentOff(bps, cap) =>
        var percent := BpsOf(cart.subtotal, bps);
        if cap.Some? && percent > cap.value {
          percent := cap.value;
        }
        return Success(percent);
      case FreeShipping => return Success(0);
      case BuyXGetY(_, _, _) =>
        var free := ComputeBuyXGetY(e, cart);
        return if free.None? then Failure(ConditionsNotMet) else Success(free.value);
      case UnknownEffect => return Failure(UnknownVocabulary);
    }
  }

  method EvaluatePromotion(rule: Rule, cart: Cart, customer: Option<Customer>, now: int) returns (r: Evaluation)
    ensures r == Evaluate(rule, cart, customer, now)
  {
    if rule.startsAt.Some? && now < rule.startsAt.value {
      return Refused(NotStarted);
    }
    if rule.endsAt.Some? && now >= rule.endsAt.value {
      return Refused(Expired);
    }
    var refusal := CheckConditions(rule.conditions, cart, customer);
    if refusal.Some? {
      return Refused(refusal.value);
    }
    if rule.limitPerCustomer.Some? && customer.Some? && customer.value.id.None? {
      return Refused(RequiresCustomer);
    }
    var discount: nat, freeShipping := 0, false;
    for i := 0 to |rule.effects|
      invariant AddEffects(rule.effects[..i], cart) == Applicable(discount, freeShipping)
    {
      assert rule.effects[..i + 1][..i] == rule.effects[..i];
      hide EffectDiscount;
      var off := ApplyEffect(rule.effects[i], cart);
      if off.Failure? {
        EffectRefusalStands(rule.effects, cart, i + 1);
        return Refused(off.error);
      }
      discount := discount + off.value;
      freeShipping := freeShipping || rule.effects[i].FreeShipping?;
    }
    assert rule.effects[..|rule.effects|] == rule.effects;
    r := Applicable(Min(discount, cart.subtotal), freeShipping);
  }

  lemma {:induction false} RefusalStands(conditions: seq<Condition>, cart: Cart, customer: Option<Customer>, k: nat)
    requires k <= |conditions| && FirstRefusal(conditions[..k], cart, customer).Some?
    ensures FirstRefusal(conditions, cart, customer) == FirstRefusal(conditions[..k], cart, customer)
  {
    if k == |conditions| {
      assert conditions[..k] == conditions;
    } else {
      assert conditions[..|conditions| - 1][..k] == conditions[..k];
      RefusalStands(conditions[..|conditions| - 1], cart, customer, k);
    }
  }

  lemma {:induction false} EffectRefusalStands(effects: seq<Effect>, cart: Cart, k: nat)
    requires k <= |effects| && AddEffects(effects[..k], cart).Refused?
    ensures AddEffects(effects, cart) == AddEffects(effects[..k], cart)
  {
    if k == |effects| {
      assert effects[..k] == effects;
    } else {
      assert effects[..|effects| - 1][..k] == effects[..k];
      EffectRefusalStands(effects[..|effects| - 1], cart, k);
    }
  }

  // ----- what evaluation promises -----

  /** Vocabulary from the future, anywhere in the rule, is never a silent pass. */
  lemma UnknownVocabularyNeverApplies(rule: Rule, cart: Cart, customer: Option<Customer>, now: int)
    requires UnknownCondition in rule.conditions || UnknownEffect in rule.effects
    ensures Evaluate(rule, cart, customer, now).Refused?
  {
    if UnknownCondition in rule.conditions {
      var i :| 0 <= i < |rule.conditions| && rule.conditions[i] == UnknownCondition;
      assert rule.conditions[..i + 1][..i] == rule.conditions[..i];
      RefusalStands(rule.conditions, cart, customer, i + 1);
    } else {
      var i :| 0 <= i < |rule.effects| && rule.effects[i] == UnknownEffect;
      assert rule.effects[..i + 1][..i] == rule.effects[..i];
      EffectRefusalStands(rule.effects, cart, i + 1);
    }
  }

  predicate Cheapest(lines: seq<CartLine>) {
    forall i, j :: 0 <= i < j < |lines| ==> lines[i].unitPrice <= lines[j].unitPrice
  }

  lemma {:induction false} InsertByPriceSorts(line: CartLine, sorted: seq<CartLine>)
    requires Cheapest(sorted)
    ensures Cheapest(InsertByPrice(line, sorted))
    ensures multiset(InsertByPrice(line, sorted)) == multiset{line} + multiset(sorted)
  {
    if sorted != [] && line.unitPrice > sorted[0].unitPrice {
      assert sorted == [sorted[0]] + sorted[1..];
      InsertByPriceSorts(line, sorted[1..]);
      var rest := InsertByPrice(line, sorted[1..]);
      assert InsertByPrice(line, sorted) == [sorted[0]] + rest;
      hide InsertByPrice;
      forall j | 0 <= j < |rest| ensures sorted[0].unitPrice <= rest[j].unitPrice {
        assert rest[j] in multiset(rest);
        assert rest[j] in multiset{line} + multiset(sorted[1..]);
      }
    }
  }

  lemma {:induction false} SortByPriceSorts(lines: seq<CartLine>)
    ensures Cheapest(SortByPrice(lines)) && multiset(SortByPrice(lines)) == multiset(lines)
  {
    if lines != [] {
      assert lines == [lines[0]] + lines[1..];
      SortByPriceSorts(lines[1..]);
      InsertByPriceSorts(lines[0], SortByPrice(lines[1..]));
    }
  }

  /** A way to choose free units: how many of each eligible line. */
  ghost predicate Picks(picks: seq<nat>, lines: seq<CartLine>) {
    |picks| == |lines| && forall i :: 0 <= i < |lines| ==> picks[i] <= lines[i].quantity
  }

  function Count(picks: seq<nat>): nat {
    if picks == [] then 0 else picks[0] + Count(picks[1..])
  }

  function Value(picks: seq<nat>, lines: seq<CartLine>): nat
    requires |picks| == |lines|
  {
    if picks == [] then 0 else picks[0] * lines[0].unitPrice + Value(picks[1..], lines[1..])
  }

  /** Any choice of `spare` more units than are given away is worth at least `spare` cheapest units more. */
  lemma {:induction false} CheapestFirst(free: nat, lines: seq<CartLine>, picks: seq<nat>, spare: nat, price: nat)
    requires Cheapest(lines) && Picks(picks, lines)
    requires forall i :: 0 <= i < |lines| ==> price <= lines[i].unitPrice
    requires Count(picks) >= Min(free, TotalQuantity(lines)) + spare
    ensures Value(picks, lines) >= GiveAway(free, lines) + spare * price
  {
    if lines != [] {
      var head, a := lines[0], picks[0];
      var take := Min(free, head.quantity);
      var d := take + spare - a;
      if d >= 0 {
        CheapestFirst(free - take, lines[1..], picks[1..], d, head.unitPrice);
        Exchange(a, take, spare, d, head.unitPrice, price);
      } else {
        CheapestFirst(free - take, lines[1..], picks[1..], 0, head.unitPrice);
        Scale(take + spare, a, head.unitPrice);
        assert (take + spare) * head.unitPrice == take * head.unitPrice + spare * head.unitPrice;
        ScaleFactor(spare, price, head.unitPrice);
      }
    }
  }

  lemma ScaleFactor(n: nat, a: nat, b: nat)
    requires a <= b
    ensures n * a <= n * b
  {
  }

  lemma Exchange(a: nat, take: nat, spare: nat, d: nat, unit: nat, price: nat)
    requires d == take + spare - a && price <= unit
    ensures a * unit + d * unit >= take * unit + spare * price
  {
  }

  /** The discount is the least any choice of that many free eligible units could be worth. */
  lemma FreeUnitsAreTheCheapest(e: Effect, cart: Cart, picks: seq<nat>)
    requires e.BuyXGetY? && BuyXGetYDiscount(e, cart).Some?
    requires var eligible := SortByPrice(Eligible(cart.lines, e.getVariantIds));
      && Picks(picks, eligible)
      && Count(picks) >= Min(TotalQuantity(cart.lines) / e.buyQty * e.getQty, TotalQuantity(eligible))
    ensures BuyXGetYDiscount(e, cart).value <= Value(picks, SortByPrice(Eligible(cart.lines, e.getVariantIds)))
  {
    var eligible := Eligible(cart.lines, e.getVariantIds);
    SortByPriceSorts(eligible);
    CheapestFirst(TotalQuantity(cart.lines) / e.buyQty * e.getQty, SortByPrice(eligible), picks, 0, 0);
  }

  /** The units actually given away: a choice within the cart that is worth exactly the discount. */
  function Given(free: nat, lines: seq<CartLine>): (picks: seq<nat>)
    ensures |picks| == |lines|
  {
    if lines == [] then []
    else
      var take := Min(free, lines[0].quantity);
      [take] + Given(free - take, lines[1..])
  }

  /** The bound is attained: as many units as promised or available, none beyond what is in the cart. */
  lemma {:induction false} GivenIsAChoice(free: nat, lines: seq<CartLine>)
    ensures Picks(Given(free, lines), lines)
    ensures Count(Given(free, lines)) == Min(free, TotalQuantity(lines))
    ensures Value(Given(free, lines), lines) == GiveAway(free, lines)
  {
    if lines != [] {
      var take := Min(free, lines[0].quantity);
      GivenIsAChoice(free - take, lines[1..]);
      assert Given(free, lines)[1..] == Given(free - take, lines[1..]);
    }
  }

  // ----- spreading the discount -----

  /** Ties between equal remainders go to the larger line, then to the earlier one. */
  function LineDiscounts(lines: seq<nat>, target: nat): (r: seq<int>)
    ensures |r| == |lines|
  {
    if Sum(lines) <= 0 || target == 0 then seq(|lines|, _ => 0) else Allocate(target, lines, lines)
  }

  method ApplyDiscountToLines(lines: seq<nat>, target: nat, freeShipping: bool, shipping: nat)
    returns (discounts: seq<int>, shippingAfter: nat)
    ensures discounts == LineDiscounts(lines, target)
    ensures shippingAfter == if freeShipping then 0 else shipping
    ensures Sum(lines) > 0 && target > 0 ==> FairInOrder(discounts, target, lines, lines)
  {
    shippingAfter := if freeShipping then 0 else shipping;
    SumNonNegative(lines);
    var total := Sum(lines);
    if |lines| == 0 || total == 0 || target == 0 {
      return seq(|lines|, _ => 0), shippingAfter;
    }
    AllocateIsFair(target, lines, lines);
    LeftoverBounds(target, lines);
    var floors := Floors(target, lines, total);
    var order := Rank(|lines|, Remainders(target, lines, total), lines);
    discounts := HandOutInTurn(floors, order, target - Sum(floors));
  }

  /** One paisa each, in ranking order, wrapping round at the end of the list. */
  method HandOutInTurn(floors: seq<int>, order: seq<nat>, owed: nat) returns (shares: seq<int>)
    requires Indices(order, |floors|) && owed < |order|
    ensures shares == HandOut(floors, order, owed)
  {
    shares := floors;
    var leftover, i := owed, 0;
    while leftover > 0
      invariant 0 <= leftover <= owed && |shares| == |floors|
      // The index never comes back round: it is the number of paise handed out.
      invariant i == owed - leftover
      invariant shares == HandOut(floors, order, owed - leftover)
    {
      shares := shares[order[i] := shares[order[i]] + 1];
      leftover := leftover - 1;
      i := (i + 1) % |order|;
    }
  }

  /** The discount is spread exactly: it is all on the lines, and no line is discounted below zero. */
  lemma DiscountsFit(lines: seq<nat>, target: nat)
    requires target <= Sum(lines)
    ensures Sum(LineDiscounts(lines, target)) == target
    ensures forall i :: 0 <= i < |lines| ==> 0 <= LineDiscounts(lines, target)[i] <= lines[i]
  {
    if target == 0 || Sum(lines) <= 0 {
      ZeroSum(|lines|);
    } else {
      AllocateIsFair(target, lines, lines);
      SharesFitWeights(LineDiscounts(lines, target), target, lines);
    }
  }

  lemma {:induction false} ZeroSum(n: nat)
    ensures Sum(seq(n, _ => 0)) == 0
  {
    if n > 0 {
      assert seq(n, _ => 0)[..n - 1] == seq(n - 1, _ => 0);
      ZeroSum(n - 1);
    }
  }

  /** Splitting a discount with either allocator gives line shares at most one paisa apart. */
  lemma AllocatorsAreClose(lines: seq<nat>, target: nat, ties: seq<int>)
    requires Sum(lines) > 0 && target > 0 && |ties| == |lines|
    ensures forall i :: 0 <= i < |lines| ==>
      -1 <= LineDiscounts(lines, target)[i] - Allocate(target, lines, ties)[i] <= 1
  {
    AllocateIsFair(target, lines, lines);
    AllocateIsFair(target, lines, ties);
    FairAllocationsAreClose(LineDiscounts(lines, target), Allocate(target, lines, ties), target, lines);
  }
}
