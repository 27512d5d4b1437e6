/**
 * What a promotion means: when it applies, why it does not, and what it is
 * worth, said of the cart and the rule alone
 * (packages/core/src/promotions/index.ts:135-285).
 */
module PromotionLaws {
  import opened Common
  import opened Promotions
  import Allocation

  // ----- what each part of a rule asks and gives -----

  ghost predicate Met(c: Condition, cart: Cart, customer: Option<Customer>) {
    match c
    case CartSubtotalMin(paise) => paise <= cart.subtotal
    case ContainsProduct(ids) => exists i :: 0 <= i < |cart.lines| && cart.lines[i].product in ids
    case ContainsCategory(ids) => exists i, c ::
      0 <= i < |cart.lines| && c in cart.lines[i].categories && c in ids
    case CustomerSegment(_) => false
    case FirstOrder => customer.Some? ==> customer.value.isFirstOrder
    case Channel(channels) => cart.channel in channels
    case UnknownCondition => false
  }

  function WhyUnmet(c: Condition): Refusal {
    match c
    case CustomerSegment(_) => UnsupportedCondition
    case UnknownCondition => UnknownVocabulary
    case _ => ConditionsNotMet
  }

  /** Some line is of a variant that can be had free. */
  ghost predicate HasEligible(e: Effect, cart: Cart)
    requires e.BuyXGetY?
  {
    exists i :: 0 <= i < |cart.lines| && cart.lines[i].variant in e.getVariantIds
  }

  /** The effect is of a known kind, and a buy-x-get-y has something to give and is reached by the whole cart. */
  ghost predicate Applies(e: Effect, cart: Cart) {
    match e
    case BuyXGetY(buyQty, _, _) => HasEligible(e, cart) && TotalQuantity(cart.lines) >= buyQty
    case UnknownEffect => false
    case _ => true
  }

  function WhyNot(e: Effect): Refusal { if e.UnknownEffect? then UnknownVocabulary else ConditionsNotMet }

  /** The units of a cart that can be had free. */
  function EligibleUnits(lines: seq<CartLine>, variants: seq<VariantId>): nat {
    if lines == [] then 0
    else (if lines[0].variant in variants then lines[0].quantity else 0) + EligibleUnits(lines[1..], variants)
  }

  /** A choice of units of the cart, all of variants that can be had free. */
  ghost predicate Choice(picks: seq<nat>, lines: seq<CartLine>, variants: seq<VariantId>) {
    Picks(picks, lines) && forall i :: 0 <= i < |lines| && picks[i] > 0 ==> lines[i].variant in variants
  }

  /** As many units as promised, or all there are. */
  function FreeUnits(e: Effect, cart: Cart): nat
    requires e.BuyXGetY?
  {
    Min(TotalQuantity(cart.lines) / e.buyQty * e.getQty, EligibleUnits(cart.lines, e.getVariantIds))
  }

  ghost predicate ChoiceWorth(e: Effect, cart: Cart, picks: seq<nat>, w: nat)
    requires e.BuyXGetY?
  {
    Choice(picks, cart.lines, e.getVariantIds) && Count(picks) == FreeUnits(e, cart) && Value(picks, cart.lines) == w
  }

  /** Some choice of the free units is worth w, and none is worth less. */
  ghost predicate LeastWorth(e: Effect, cart: Cart, w: nat)
    requires e.BuyXGetY?
  {
    && (exists picks :: ChoiceWorth(e, cart, picks, w))
    && forall picks, v :: ChoiceWorth(e, cart, picks, v) ==> w <= v
  }

  ghost predicate Worth(e: Effect, cart: Cart, w: nat) {
    match e
    case FlatOff(paise) => w == paise
    case PercentOff(bps, cap) =>
      exists r: nat :: NearestPercent(cart.subtotal, bps, r) && w == if cap.Some? then Min(r, cap.value) else r
    case FreeShipping => w == 0
    case BuyXGetY(_, _, _) => LeastWorth(e, cart, w)
    case UnknownEffect => false
  }

  ghost predicate Worths(effects: seq<Effect>, cart: Cart, ws: seq<nat>) {
    |ws| == |effects| && forall i :: 0 <= i < |effects| ==> Worth(effects[i], cart, ws[i])
  }

  ghost predicate InWindow(rule: Rule, now: int) {
    (rule.startsAt.Some? ==> rule.startsAt.value <= now) && (rule.endsAt.Some? ==> now < rule.endsAt.value)
  }

  /** A limit per customer needs a customer, unless nobody is asking yet. */
  ghost predicate Identified(rule: Rule, customer: Option<Customer>) {
    rule.limitPerCustomer.Some? && customer.Some? ==> customer.value.id.Some?
  }

  ghost predicate RuleApplies(rule: Rule, cart: Cart, customer: Option<Customer>, now: int) {
    && InWindow(rule, now)
    && (forall i :: 0 <= i < |rule.conditions| ==> Met(rule.conditions[i], cart, customer))
    && Identified(rule, customer)
    && forall i :: 0 <= i < |rule.effects| ==> Applies(rule.effects[i], cart)
  }

  // ----- conditions -----

  lemma ConditionMeans(c: Condition, cart: Cart, customer: Option<Customer>)
    ensures CheckCondition(c, cart, customer) == if Met(c, cart, customer) then None else Some(WhyUnmet(c))
  {
    if c.ContainsCategory? && CheckCondition(c, cart, customer).None? {
      var l :| l in cart.lines && exists x <- l.categories :: x in c.categoryIds;
      var i :| 0 <= i < |cart.lines| && cart.lines[i] == l;
    }
    if c.ContainsProduct? && CheckCondition(c, cart, customer).None? {
      var l :| l in cart.lines && l.product in c.productIds;
      var i :| 0 <= i < |cart.lines| && cart.lines[i] == l;
    }
  }

  /** The refusal is that of the first condition that is not met. */
  ghost predicate FirstUnmet(conditions: seq<Condition>, cart: Cart, customer: Option<Customer>, k: nat) {
    && k < |conditions| && !Met(conditions[k], cart, customer)
    && forall i :: 0 <= i < k ==> Met(conditions[i], cart, customer)
  }

  lemma {:induction false} ConditionsMean(conditions: seq<Condition>, cart: Cart, customer: Option<Customer>)
    ensures var r := FirstRefusal(conditions, cart, customer);
      if r.None? then forall i :: 0 <= i < |conditions| ==> Met(conditions[i], cart, customer)
      else exists k: nat :: FirstUnmet(conditions, cart, customer, k) && r.value == WhyUnmet(conditions[k])
  {
    hide Met;
    hide CheckCondition;
    if conditions != [] {
      var n := |conditions| - 1;
      ConditionsMean(conditions[..n], cart, customer);
      ConditionMeans(conditions[n], cart, customer);
      var earlier := FirstRefusal(conditions[..n], cart, customer);
      if earlier.Some? {
        var k: nat :| FirstUnmet(conditions[..n], cart, customer, k) && earlier.value == WhyUnmet(conditions[..n][k]);
        assert FirstUnmet(conditions, cart, customer, k);
      } else if !Met(conditions[n], cart, customer) {
        assert FirstUnmet(conditions, cart, customer, n);
      }
    }
  }

  // ----- free units -----

  /** A choice from a list with one line inserted is a choice from the list with the line in front, and back. */
  lemma {:induction false} CarryIn(line: CartLine, sorted: seq<CartLine>, picks: seq<nat>) returns (q: seq<nat>)
    requires Picks(picks, [line] + sorted)
    ensures Picks(q, InsertByPrice(line, sorted))
    ensures Count(q) == Count(picks) && Value(q, InsertByPrice(line, sorted)) == Value(picks, [line] + sorted)
    decreases |sorted|
  {
    if sorted == [] || line.unitPrice <= sorted[0].unitPrice {
      q := picks;
    } else {
      var a, b, rest := picks[0], picks[1], picks[2..];
      assert picks[1..][1..] == rest && ([line] + sorted)[1..] == sorted;
      assert ([line] + sorted[1..])[1..] == sorted[1..] && ([a] + rest)[1..] == rest;
      var inner := CarryIn(line, sorted[1..], [a] + rest);
      q := [b] + inner;
      assert q[1..] == inner && InsertByPrice(line, sorted)[1..] == InsertByPrice(line, sorted[1..]);
    }
  }

  lemma {:induction false} CarryOut(line: CartLine, sorted: seq<CartLine>, q: seq<nat>) returns (picks: seq<nat>)
    requires Picks(q, InsertByPrice(line, sorted))
    ensures Picks(picks, [line] + sorted)
    ensures Count(q) == Count(picks) && Value(q, InsertByPrice(line, sorted)) == Value(picks, [line] + sorted)
    decreases |sorted|
  {
    if sorted == [] || line.unitPrice <= sorted[0].unitPrice {
      picks := q;
    } else {
      assert InsertByPrice(line, sorted)[1..] == InsertByPrice(line, sorted[1..]);
      var inner := CarryOut(line, sorted[1..], q[1..]);
      var rest := inner[1..];
      picks := [inner[0], q[0]] + rest;
      assert picks[1..] == [q[0]] + rest && picks[1..][1..] == rest && ([line] + sorted)[1..] == sorted;
      assert ([line] + sorted[1..])[1..] == sorted[1..];
    }
  }

  lemma {:induction false} SortIn(lines: seq<CartLine>, picks: seq<nat>) returns (q: seq<nat>)
    requires Picks(picks, lines)
    ensures Picks(q, SortByPrice(lines))
    ensures Count(q) == Count(picks) && Value(q, SortByPrice(lines)) == Value(picks, lines)
  {
    q := picks;
    if lines != [] {
      var rest := SortIn(lines[1..], picks[1..]);
      var before := [picks[0]] + rest;
      assert before[1..] == rest && ([lines[0]] + SortByPrice(lines[1..]))[1..] == SortByPrice(lines[1..]);
      q := CarryIn(lines[0], SortByPrice(lines[1..]), before);
    }
  }

  lemma {:induction false} SortOut(lines: seq<CartLine>, q: seq<nat>) returns (picks: seq<nat>)
    requires Picks(q, SortByPrice(lines))
    ensures Picks(picks, lines)
    ensures Count(q) == Count(picks) && Value(q, SortByPrice(lines)) == Value(picks, lines)
  {
    picks := q;
    if lines != [] {
      var before := CarryOut(lines[0], SortByPrice(lines[1..]), q);
      var rest := SortOut(lines[1..], before[1..]);
      picks := [before[0]] + rest;
      assert picks[1..] == rest && ([lines[0]] + SortByPrice(lines[1..]))[1..] == SortByPrice(lines[1..]);
    }
  }

  lemma {:induction false} EligibleIn(lines: seq<CartLine>, variants: seq<VariantId>, picks: seq<nat>)
    returns (q: seq<nat>)
    requires Choice(picks, lines, variants)
    ensures Picks(q, Eligible(lines, variants))
    ensures Count(q) == Count(picks) && Value(q, Eligible(lines, variants)) == Value(picks, lines)
  {
    q := picks;
    if lines != [] {
      var rest := EligibleIn(lines[1..], variants, picks[1..]);
      if lines[0].variant in variants {
        q := [picks[0]] + rest;
        assert q[1..] == rest && Eligible(lines, variants)[1..] == Eligible(lines[1..], variants);
      } else {
        q := rest;
        assert Eligible(lines, variants) == Eligible(lines[1..], variants);
      }
    }
  }

  lemma {:induction false} EligibleOut(lines: seq<CartLine>, variants: seq<VariantId>, q: seq<nat>)
    returns (picks: seq<nat>)
    requires Picks(q, Eligible(lines, variants))
    ensures Choice(picks, lines, variants)
    ensures Count(q) == Count(picks) && Value(q, Eligible(lines, variants)) == Value(picks, lines)
  {
    picks := q;
    if lines != [] {
      if lines[0].variant in variants {
        assert Eligible(lines, variants)[1..] == Eligible(lines[1..], variants);
        var rest := EligibleOut(lines[1..], variants, q[1..]);
        picks := [q[0]] + rest;
        assert picks[1..] == rest;
      } else {
        assert Eligible(lines, variants) == Eligible(lines[1..], variants);
        var rest := EligibleOut(lines[1..], variants, q);
        picks := [0] + rest;
        assert picks[1..] == rest;
      }
    }
  }

  lemma {:induction false} InsertedQuantity(line: CartLine, sorted: seq<CartLine>)
    ensures TotalQuantity(InsertByPrice(line, sorted)) == line.quantity + TotalQuantity(sorted)
  {
    if sorted != [] && line.unitPrice > sorted[0].unitPrice {
      InsertedQuantity(line, sorted[1..]);
    }
  }

  lemma {:induction false} SortedQuantity(lines: seq<CartLine>)
    ensures TotalQuantity(SortByPrice(lines)) == TotalQuantity(lines)
  {
    if lines != [] {
      SortedQuantity(lines[1..]);
      InsertedQuantity(lines[0], SortByPrice(lines[1..]));
    }
  }

  lemma {:induction false} EligibleQuantity(lines: seq<CartLine>, variants: seq<VariantId>)
    ensures TotalQuantity(Eligible(lines, variants)) == EligibleUnits(lines, variants)
    ensures Eligible(lines, variants) == [] <==> forall i :: 0 <= i < |lines| ==> lines[i].variant !in variants
  {
    if lines != [] {
      EligibleQuantity(lines[1..], variants);
      if lines[0].variant in variants {
        assert Eligible(lines, variants)[1..] == Eligible(lines[1..], variants);
      } else {
        assert Eligible(lines, variants) == Eligible(lines[1..], variants);
        forall i | 0 <= i < |lines| && Eligible(lines, variants) == [] ensures lines[i].variant !in variants {
          assert i > 0 ==> lines[i] == lines[1..][i - 1];
        }
      }
    }
  }

  lemma SortedIsEmpty(lines: seq<CartLine>)
    ensures SortByPrice(lines) == [] <==> lines == []
  {
    SortByPriceSorts(lines);
  }

  /** Buy-x-get-y gives exactly the cheapest choice of the free units, and nothing when it does not apply. */
  lemma FreeUnitsMean(e: Effect, cart: Cart)
    requires e.BuyXGetY?
    ensures BuyXGetYDiscount(e, cart).Some? <==> Applies(e, cart)
    ensures Applies(e, cart) ==> LeastWorth(e, cart, BuyXGetYDiscount(e, cart).value)
  {
    var eligible := Eligible(cart.lines, e.getVariantIds);
    EligibleQuantity(cart.lines, e.getVariantIds);
    SortedQuantity(eligible);
    SortedIsEmpty(eligible);
    ReachedMeans(TotalQuantity(cart.lines), e.buyQty);
    if Applies(e, cart) {
      var w := BuyXGetYDiscount(e, cart).value;
      CheapestIsAChoice(e, cart);
      forall picks, v | ChoiceWorth(e, cart, picks, v) ensures w <= v {
        var q := EligibleIn(cart.lines, e.getVariantIds, picks);
        var sorted := SortIn(eligible, q);
        FreeUnitsAreTheCheapest(e, cart, sorted);
      }
    }
  }

  lemma ReachedMeans(total: nat, buyQty: Positive)
    ensures total / buyQty != 0 <==> total >= buyQty
  {
  }

  lemma CheapestIsAChoice(e: Effect, cart: Cart)
    requires e.BuyXGetY? && BuyXGetYDiscount(e, cart).Some?
    ensures exists picks :: ChoiceWorth(e, cart, picks, BuyXGetYDiscount(e, cart).value)
  {
    var eligible := Eligible(cart.lines, e.getVariantIds);
    EligibleQuantity(cart.lines, e.getVariantIds);
    SortedQuantity(eligible);
    var free := TotalQuantity(cart.lines) / e.buyQty * e.getQty;
    GivenIsAChoice(free, SortByPrice(eligible));
    var q := SortOut(eligible, Given(free, SortByPrice(eligible)));
    var picks := EligibleOut(cart.lines, e.getVariantIds, q);
    assert ChoiceWorth(e, cart, picks, BuyXGetYDiscount(e, cart).value);
  }

  // ----- effects -----

  lemma EffectMeans(e: Effect, cart: Cart)
    ensures EffectDiscount(e, cart).Success? <==> Applies(e, cart)
    ensures EffectDiscount(e, cart).Success? ==> Worth(e, cart, EffectDiscount(e, cart).value)
    ensures EffectDiscount(e, cart).Failure? ==> EffectDiscount(e, cart).error == WhyNot(e)
  {
    if e.PercentOff? {
      PercentMeans(cart.subtotal, e.bps);
    } else if e.BuyXGetY? {
      FreeUnitsMean(e, cart);
    }
    hide NearestPercent;
    hide LeastWorth;
    hide BuyXGetYDiscount;
  }

  ghost predicate FirstInapplicable(effects: seq<Effect>, cart: Cart, k: nat) {
    k < |effects| && !Applies(effects[k], cart) && forall i :: 0 <= i < k ==> Applies(effects[i], cart)
  }

  lemma {:induction false} EffectsMean(effects: seq<Effect>, cart: Cart)
    ensures match AddEffects(effects, cart)
      case Applicable(discount, freeShipping) =>
        && (forall i :: 0 <= i < |effects| ==> Applies(effects[i], cart))
        && (exists ws: seq<nat> :: Worths(effects, cart, ws) && discount == Allocation.Sum(ws))
        && (freeShipping <==> FreeShipping in effects)
      case Refused(reason) => exists k: nat :: FirstInapplicable(effects, cart, k) && reason == WhyNot(effects[k])
  {
    hide Applies;
    hide Worth;
    hide EffectDiscount;
    if effects == [] {
      var none: seq<nat> := [];
      assert Worths(effects, cart, none) && Allocation.Sum(none) == 0;
    } else {
      var n := |effects| - 1;
      EffectsMean(effects[..n], cart);
      EffectMeans(effects[n], cart);
      match AddEffects(effects[..n], cart)
      case Refused(reason) =>
        var k: nat :| FirstInapplicable(effects[..n], cart, k) && reason == WhyNot(effects[..n][k]);
        assert FirstInapplicable(effects, cart, k);
      case Applicable(discount, freeShipping) =>
        if EffectDiscount(effects[n], cart).Failure? {
          assert FirstInapplicable(effects, cart, n);
        } else {
          var ws: seq<nat> :| Worths(effects[..n], cart, ws) && discount == Allocation.Sum(ws);
          var all := ws + [EffectDiscount(effects[n], cart).value];
          assert all[..n] == ws && Worths(effects, cart, all);
          assert effects == effects[..n] + [effects[n]];
        }
    }
  }

  // ----- the rule -----

  /** A promotion applies exactly when its rule does; the discount is what its effects are worth, up to the subtotal. */
  lemma EvaluationMeans(rule: Rule, cart: Cart, customer: Option<Customer>, now: int)
    ensures var r := Evaluate(rule, cart, customer, now);
      && (r.Applicable? <==> RuleApplies(rule, cart, customer, now))
      && (r.Applicable? ==>
          && (exists ws: seq<nat> ::
              Worths(rule.effects, cart, ws) && r.discount == Min(Allocation.Sum(ws), cart.subtotal))
          && (r.freeShipping <==> FreeShipping in rule.effects))
  {
    hide Met;
    hide Applies;
    hide Worths;
    hide FirstRefusal;
    hide AddEffects;
    ConditionsMean(rule.conditions, cart, customer);
    EffectsMean(rule.effects, cart);
  }

  /** Why a promotion does not apply: the first reason in this order. */
  lemma RefusalMeans(rule: Rule, cart: Cart, customer: Option<Customer>, now: int)
    requires Evaluate(rule, cart, customer, now).Refused?
    ensures var reason := Evaluate(rule, cart, customer, now).reason;
      if rule.startsAt.Some? && now < rule.startsAt.value then reason == NotStarted
      else if rule.endsAt.Some? && now >= rule.endsAt.value then reason == Expired
      else if exists i :: 0 <= i < |rule.conditions| && !Met(rule.conditions[i], cart, customer) then
        exists k: nat :: FirstUnmet(rule.conditions, cart, customer, k) && reason == WhyUnmet(rule.conditions[k])
      else if !Identified(rule, customer) then reason == RequiresCustomer
      else exists k: nat :: FirstInapplicable(rule.effects, cart, k) && reason == WhyNot(rule.effects[k])
  {
    hide Met;
    hide Applies;
    hide Worths;
    hide FirstRefusal;
    hide AddEffects;
    ConditionsMean(rule.conditions, cart, customer);
    EffectsMean(rule.effects, cart);
  }
}
