/** The GST engine (packages/core/src/tax/index.ts). */
module Tax {
  import opened Common
  import opened Allocation

  /** Number.MAX_SAFE_INTEGER. */
  const MAX_SAFE := 9_007_199_254_740_991

  datatype Registration = Regular | Composition | Unregistered

  datatype TaxError = InvalidPayload | ResultUnsafe

  datatype TaxableLine = TaxableLine(taxable: int, rateBps: int)

  /** `intraState` is the comparison of the two normalised state codes. */
  datatype TaxContext = TaxContext(registration: Registration, intraState: bool, inclusive: bool)

  datatype LineTax = LineTax(base: int, cgst: int, sgst: int, igst: int, tax: int)

  function Abs(x: int): nat { if x < 0 then -x else x }

  predicate Safe(x: int) { -MAX_SAFE <= x <= MAX_SAFE }

  /** Rounding division, half away from zero; BigInt division truncates, so signs are taken off first. */
  function HalfUp(numer: int, denom: int): int
    requires denom != 0
  {
    var n, d := Abs(numer), Abs(denom);
    var magnitude := if n % d * 2 >= d then n / d + 1 else n / d;
    if (numer < 0) != (denom < 0) then -magnitude else magnitude
  }

  function DivHalfUp(numer: int, denom: int): Result<int, TaxError>
    requires denom != 0
  {
    if Safe(HalfUp(numer, denom)) then Success(HalfUp(numer, denom)) else Failure(ResultUnsafe)
  }

  predicate ValidLine(line: TaxableLine) {
    0 <= line.taxable <= MAX_SAFE && 0 <= line.rateBps <= MAX_SAFE
  }

  /** One line's tax; rounded per line, never after summing. */
  function TaxOfLine(line: TaxableLine, ctx: TaxContext): Result<LineTax, TaxError>
    requires ValidLine(line)
  {
    if ctx.registration != Regular || line.rateBps == 0 || line.taxable == 0 then
      Success(LineTax(line.taxable, 0, 0, 0, 0))
    else
      match DivHalfUp(line.taxable * line.rateBps, if ctx.inclusive then 10_000 + line.rateBps else 10_000)
      case Failure(e) => Failure(e)
      case Success(tax) =>
        var base := if ctx.inclusive then line.taxable - tax else line.taxable;
        if ctx.intraState then
          match DivHalfUp(tax, 2)
          case Failure(e) => Failure(e)
          case Success(cgst) => Success(LineTax(base, cgst, tax - cgst, 0, tax))
        else Success(LineTax(base, 0, 0, tax, tax))
  }

  function TaxLines(lines: seq<TaxableLine>, ctx: TaxContext): (r: Result<seq<LineTax>, TaxError>)
    requires forall i :: 0 <= i < |lines| ==> ValidLine(lines[i])
    ensures r.Success? ==> |r.value| == |lines|
  {
    if lines == [] then Success([])
    else
      match TaxLines(lines[..|lines| - 1], ctx)
      case Failure(e) => Failure(e)
      case Success(front) =>
        match TaxOfLine(lines[|lines| - 1], ctx)
        case Failure(e) => Failure(e)
        case Success(last) => Success(front + [last])
  }

  function ComputeLineTaxes(lines: seq<TaxableLine>, ctx: TaxContext): (r: Result<seq<LineTax>, TaxError>)
    ensures r.Success? ==> |r.value| == |lines|
  {
    if forall i :: 0 <= i < |lines| ==> ValidLine(lines[i]) then TaxLines(lines, ctx) else Failure(InvalidPayload)
  }

  // ----- what HALF_UP means -----

  /** The nearest integer, and the one further from zero when two are equally near. */
  lemma HalfUpIsNearest(numer: nat, denom: int)
    requires denom > 0
    ensures 2 * numer - denom < 2 * (HalfUp(numer, denom) * denom) <= 2 * numer + denom
    ensures HalfUp(numer, denom) >= 0
    ensures HalfUp(0 - numer, denom) == -HalfUp(numer, denom) == HalfUp(numer, -denom)
  {
    var q, r := numer / denom, numer % denom;
    assert q * denom + r == numer;
    assert (q + 1) * denom == q * denom + denom;
  }

  /** Only one integer is nearest in that sense. */
  lemma HalfUpIsUnique(numer: nat, denom: int, t: int)
    requires denom > 0 && 2 * numer - denom < 2 * (t * denom) <= 2 * numer + denom
    ensures HalfUp(numer, denom) == t
  {
    HalfUpIsNearest(numer, denom);
    var u := HalfUp(numer, denom);
    Distribute(u, t, denom);
    if u > t {
      Scale(1, u - t, denom);
    } else if u < t {
      Scale(1, t - u, denom);
    }
  }

  lemma Distribute(a: int, b: int, c: int)
    ensures (a - b) * c == a * c - b * c && (b - a) * c == b * c - a * c
  {
  }

  /**
   * Inclusive extraction undoes exclusive tax: from a base and the tax charged
   * on it, extraction gives back exactly that tax, and so exactly that base.
   */
  lemma ExtractionUndoesTaxing(base: nat, rate: nat)
    ensures HalfUp((base + HalfUp(base * rate, 10_000)) * rate, 10_000 + rate) == HalfUp(base * rate, 10_000)
  {
    var t := HalfUp(base * rate, 10_000);
    HalfUpIsNearest(base * rate, 10_000);
    assert (base + t) * rate == base * rate + t * rate;
    assert t * (10_000 + rate) == 10_000 * t + t * rate;
    HalfUpIsUnique((base + t) * rate, 10_000 + rate, t);
  }

  /** The same on whole lines, within the safe range: the two modes agree on base, tax and split. */
  lemma InclusiveUndoesExclusive(base: nat, rate: nat, ctx: TaxContext)
    requires ctx.registration == Regular && !ctx.inclusive && ValidLine(TaxableLine(base, rate))
    requires TaxOfLine(TaxableLine(base, rate), ctx).Success?
    requires base + TaxOfLine(TaxableLine(base, rate), ctx).value.tax <= MAX_SAFE
    ensures TaxOfLine(TaxableLine(base + TaxOfLine(TaxableLine(base, rate), ctx).value.tax, rate),
                      ctx.(inclusive := true))
         == TaxOfLine(TaxableLine(base, rate), ctx)
  {
    if base != 0 && rate != 0 {
      HalfUpIsNearest(base * rate, 10_000);
      ExtractionUndoesTaxing(base, rate);
    }
  }

  /** Conversely, taxing an extracted base again is off by at most one paisa, for rates up to 200 percent. */
  lemma RetaxingIsClose(gross: nat, rate: nat)
    requires rate <= 20_000
    ensures var tax := HalfUp(gross * rate, 10_000 + rate);
      0 <= tax <= gross && -1 <= HalfUp((gross - tax) * rate, 10_000) - tax <= 1
  {
    HalfUpIsNearest(gross * rate, 10_000 + rate);
    ExtractedTaxFits(gross, rate);
    RetaxingNearest(gross, rate, HalfUp(gross * rate, 10_000 + rate));
  }

  lemma RetaxingNearest(gross: nat, rate: nat, tax: nat)
    requires rate <= 20_000 && tax <= gross
    requires 2 * (gross * rate) - (10_000 + rate) < 2 * (tax * (10_000 + rate)) <= 2 * (gross * rate) + (10_000 + rate)
    ensures -1 <= HalfUp((gross - tax) * rate, 10_000) - tax <= 1
  {
  }


  /** Extracting from g and taxing again stays within one paisa. */
  predicate RetaxesClosely(gross: nat, rate: nat) {
    var tax := HalfUp(gross * rate, 10_000 + rate);
    -1 <= HalfUp((gross - tax) * rate, 10_000) - tax <= 1
  }

  /**
   * The least j for which j paise of base, taxed at 200 percent and
   * t basis points, fall past the window around a half.
   */
  function WindowStep(t: nat): (j: nat)
    requires t > 0
    ensures 10_000 - t <= 2 * (t * j)
    ensures t * j < 5_000 || 2 * (t * j) < 10_000 + t
  {
    if t >= 10_000 then 0
    else
      var j := (10_000 - t + 2 * t - 1) / (2 * t);
      CeilBounds(10_000 - t, 2 * t, j);
      assert 2 * (t * j) == 2 * t * j;
      j
  }

  lemma CeilBounds(n: nat, d: nat, j: nat)
    requires d > 0 && j == (n + d - 1) / d
    ensures n <= d * j < n + d
  {
    var m := n + d - 1;
    assert m == d * (m / d) + m % d;
  }

  /** Past 200 percent some amount extracts to a tax two paise away from the tax on its base. */
  lemma RetaxingIsFar(rate: nat) returns (gross: nat)
    requires rate > 20_000
    ensures !RetaxesClosely(gross, rate)
  {
    var t := rate - 20_000;
    var j := WindowStep(t);
    var u := t * j;
    assert j * rate == 20_000 * j + u;
    if u < 5_000 {
      gross := 3 * j + 2;
      assert gross * rate == 60_000 * j + 3 * u + 2 * rate;
      assert (2 * j + 2) * (10_000 + rate) == 60_000 * j + 2 * u + 60_000 + 2 * t;
      HalfUpIsUnique(gross * rate, 10_000 + rate, 2 * j + 2);
      HalfUpIsUnique(j * rate, 10_000, 2 * j);
    } else {
      gross := 3 * j - 1;
      assert gross * rate == 60_000 * j + 3 * u - rate;
      assert (2 * j - 1) * (10_000 + rate) == 60_000 * j + 2 * u - 30_000 - t;
      HalfUpIsUnique(gross * rate, 10_000 + rate, 2 * j - 1);
      HalfUpIsUnique(j * rate, 10_000, 2 * j + 1);
    }
  }

  /**
   * Taxing an extracted base again is within one paisa for every amount exactly when the rate is at most 200
   * percent.
   */
  lemma RetaxingIsCloseExactly(rate: nat)
    ensures (forall gross :: RetaxesClosely(gross, rate)) <==> rate <= 20_000
  {
    if rate <= 20_000 {
      forall gross: nat ensures RetaxesClosely(gross, rate) {
        RetaxingIsClose(gross, rate);
      }
    } else {
      var gross := RetaxingIsFar(rate);
    }
  }

  /** An extracted tax never exceeds the amount it is extracted from. */
  lemma ExtractedTaxFits(gross: nat, rate: nat)
    ensures 0 <= HalfUp(gross * rate, 10_000 + rate) <= gross
  {
    var tax := HalfUp(gross * rate, 10_000 + rate);
    HalfUpIsNearest(gross * rate, 10_000 + rate);
    hide HalfUp;
    RoundedBelow(tax, gross, rate);
  }

  lemma RoundedBelow(tax: nat, gross: nat, rate: nat)
    requires 2 * (tax * (10_000 + rate)) <= 2 * (gross * rate) + 10_000 + rate
    ensures tax <= gross
  {
    assert (gross + 1) * (10_000 + rate) == gross * rate + 10_000 * gross + 10_000 + rate;
    if tax > gross {
      Scale(gross + 1, tax, 10_000 + rate);
    }
  }

  // ----- what a line bears -----

  /** What the rate is counted in: of the amount without tax, or of the amount with it. */
  function RateBase(rate: nat, inclusive: bool): nat { if inclusive then 10_000 + rate else 10_000 }

  /** A regular seller's line bears its rate of tax, to the nearest paisa with halves up; anybody else's bears none. */
  ghost predicate Bears(taxable: int, rate: nat, tax: int, registration: Registration, inclusive: bool) {
    if registration == Regular then
      var d := RateBase(rate, inclusive);
      2 * (taxable * rate) - d < 2 * (tax * d) <= 2 * (taxable * rate) + d
    else tax == 0
  }

  /**
   * Within the state the tax is halved between centre and state, the
   * odd paisa to the centre; beyond it is all integrated.
   */
  ghost predicate Splits(t: LineTax, intraState: bool) {
    if intraState then t.igst == 0 && t.cgst + t.sgst == t.tax && 0 <= t.cgst - t.sgst <= 1
    else t.cgst == 0 && t.sgst == 0 && t.igst == t.tax
  }

  /** The line bears its tax, in its parts, beside its base, and nothing is negative. */
  ghost predicate Foots(line: TaxableLine, ctx: TaxContext, t: LineTax) {
    && line.rateBps >= 0 && Bears(line.taxable, line.rateBps, t.tax, ctx.registration, ctx.inclusive)
    && Splits(t, ctx.intraState)
    && (t.base >= 0 && t.tax >= 0 && t.cgst >= 0 && t.sgst >= 0 && t.igst >= 0)
    && t.base == if ctx.inclusive then line.taxable - t.tax else line.taxable
  }

  /** The tax added to an amount rounds to more than a safe integer. */
  predicate Overflows(line: TaxableLine, ctx: TaxContext) {
    ctx.registration == Regular && !ctx.inclusive
      && 2 * (line.taxable * line.rateBps) + 10_000 >= 20_000 * (MAX_SAFE + 1)
  }

  /** The halves of a tax, when it is split, are its nearest halves. */
  lemma HalvesSplit(tax: nat)
    ensures var c := HalfUp(tax, 2); 0 <= c <= tax && 0 <= c - (tax - c) <= 1
  {
    HalfUpIsNearest(tax, 2);
  }

  lemma NothingBorne(line: TaxableLine, ctx: TaxContext)
    requires ValidLine(line) && (ctx.registration != Regular || line.rateBps == 0 || line.taxable == 0)
    ensures line.taxable * line.rateBps == 0 || ctx.registration != Regular
    ensures Bears(line.taxable, line.rateBps, 0, ctx.registration, ctx.inclusive)
  {
  }

  /** The amount of tax of a charged line, before it is checked for safety. */
  lemma ChargedLine(line: TaxableLine, ctx: TaxContext)
    requires ValidLine(line) && ctx.registration == Regular && line.rateBps > 0 && line.taxable > 0
    ensures var tax := HalfUp(line.taxable * line.rateBps, RateBase(line.rateBps, ctx.inclusive));
      && tax >= 0 && Bears(line.taxable, line.rateBps, tax, Regular, ctx.inclusive)
      && (ctx.inclusive ==> tax <= line.taxable)
      && (!ctx.inclusive ==> (tax > MAX_SAFE <==> Overflows(line, ctx)))
  {
    var n := line.taxable * line.rateBps;
    assert n >= 0;
    HalfUpIsNearest(n, RateBase(line.rateBps, ctx.inclusive));
    if ctx.inclusive {
      ExtractedTaxFits(line.taxable, line.rateBps);
    }
  }

  /**
   * For every valid line and every context: the tax is refused
   * exactly when it overflows, and otherwise the line foots.
   */
  lemma LineBearsItsTax(line: TaxableLine, ctx: TaxContext)
    requires ValidLine(line)
    ensures TaxOfLine(line, ctx).Success? <==> !Overflows(line, ctx)
    ensures TaxOfLine(line, ctx).Success? ==> Foots(line, ctx, TaxOfLine(line, ctx).value)
  {
    if ctx.registration != Regular || line.rateBps == 0 || line.taxable == 0 {
      NothingBorne(line, ctx);
    } else {
      ChargedLine(line, ctx);
      var tax := HalfUp(line.taxable * line.rateBps, RateBase(line.rateBps, ctx.inclusive));
      HalvesSplit(tax);
      hide Bears;
      hide HalfUp;
    }
  }

  /** The whole computation: refused exactly for an invalid line or an overflow, and otherwise every line foots. */
  lemma {:induction false} LineTaxesAreExact(lines: seq<TaxableLine>, ctx: TaxContext)
    ensures ComputeLineTaxes(lines, ctx).Success? <==>
      forall i :: 0 <= i < |lines| ==> ValidLine(lines[i]) && !Overflows(lines[i], ctx)
    ensures ComputeLineTaxes(lines, ctx).Success? ==>
      forall i :: 0 <= i < |lines| ==> Foots(lines[i], ctx, ComputeLineTaxes(lines, ctx).value[i])
  {
    hide Foots;
    hide Overflows;
    hide TaxOfLine;
    if lines != [] && forall i :: 0 <= i < |lines| ==> ValidLine(lines[i]) {
      LineTaxesAreExact(lines[..|lines| - 1], ctx);
      LineBearsItsTax(lines[|lines| - 1], ctx);
    }
  }

  /** Inclusive taxing of valid lines is never refused, and every line foots. */
  lemma InclusiveLinesFoot(lines: seq<TaxableLine>, ctx: TaxContext)
    requires ctx.inclusive && forall i :: 0 <= i < |lines| ==> ValidLine(lines[i])
    ensures TaxLines(lines, ctx).Success?
    ensures forall i :: 0 <= i < |lines| ==> Foots(lines[i], ctx, TaxLines(lines, ctx).value[i])
  {
    LineTaxesAreExact(lines, ctx);
  }

  // ----- the tax module's own allocator -----

  /** The first pass: floored proportional shares, their remainders, and how much they add up to. */
  method FloorShares(total: nat, weights: seq<nat>, totalWeight: nat)
    returns (shares: seq<int>, remainders: seq<int>, floored: int)
    requires totalWeight > 0
    ensures shares == Floors(total, weights, totalWeight)
    ensures remainders == Remainders(total, weights, totalWeight)
    ensures floored == Sum(shares)
  {
    shares, remainders, floored := [], [], 0;
    for i := 0 to |weights|
      invariant shares == Floors(total, weights, totalWeight)[..i]
      invariant remainders == Remainders(total, weights, totalWeight)[..i]
      invariant floored == Sum(shares)
    {
      var numer := weights[i] * total;
      assert (shares + [numer / totalWeight])[..i] == shares;
      shares := shares + [numer / totalWeight];
      remainders := remainders + [numer % totalWeight];
      floored := floored + numer / totalWeight;
    }
  }

  /** Allocates a total over weights; all-zero weights can only share out nothing. */
  method AllocateProportionally(total: int, weights: seq<int>) returns (r: Result<seq<int>, TaxError>)
    ensures r.Success? <==>
      && 0 <= total <= MAX_SAFE
      && (forall i :: 0 <= i < |weights| ==> 0 <= weights[i] <= MAX_SAFE)
      && (Sum(weights) == 0 ==> total == 0)
    ensures r.Success? ==> Sum(weights) >= 0
    ensures r.Success? && Sum(weights) == 0 ==> r.value == seq(|weights|, _ => 0)
    ensures r.Success? && Sum(weights) > 0 ==>
      FairInOrder(r.value, total, weights, seq(|weights|, _ => 0))
  {
    var ok := 0 <= total <= MAX_SAFE;
    for i := 0 to |weights|
      invariant ok <==> 0 <= total <= MAX_SAFE && forall j :: 0 <= j < i ==> 0 <= weights[j] <= MAX_SAFE
    {
      ok := ok && 0 <= weights[i] <= MAX_SAFE;
    }
    if !ok {
      return Failure(InvalidPayload);
    }
    SumNonNegative(weights);
    var totalWeight := Sum(weights);
    if totalWeight == 0 {
      return if total == 0 then Success(seq(|weights|, _ => 0)) else Failure(InvalidPayload);
    }
    var shares := LargestRemainders(total, weights);
    AllocateIsFair(total, weights, seq(|weights|, _ => 0));
    r := Success(shares);
  }

  method LargestRemainders(total: nat, weights: seq<nat>) returns (shares: seq<int>)
    requires Sum(weights) > 0
    ensures shares == Allocate(total, weights, seq(|weights|, _ => 0))
  {
    var remainders, floored;
    shares, remainders, floored := FloorShares(total, weights, Sum(weights));
    LeftoverBounds(total, weights);
    ghost var floors := shares;
    var order := Rank(|weights|, remainders, seq(|weights|, _ => 0));
    for i := 0 to total - floored
      invariant |shares| == |weights| && shares == HandOut(floors, order, i)
    {
      shares := shares[order[i] := shares[order[i]] + 1];
    }
  }
}
