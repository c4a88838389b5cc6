/**
 * The quote-pricing computation of the 3D-printing quoter: raw form values are
 * defaulted into a parameter set, and the parameter set is turned into a cost
 * breakdown (weight, material, machine and finishing costs, subtotal, tax,
 * margin, unit and total price).
 *
 * Arithmetic is exact over `real`; the browser's double-precision rounding is
 * not modelled.
 */
module Pricing {
  import opened Wrappers

  /**
   * The form values as the browser's `Number(...)` yields them: `None` stands
   * for NaN (text that does not parse). The part name and currency are text.
   */
  datatype RawInputs = RawInputs(
    currency: string,
    partName: string,
    quantity: Option<real>,
    volume: Option<real>,
    weight: Option<real>,
    density: Option<real>,
    pricePerKg: Option<real>,
    wastePct: Option<real>,
    printHours: Option<real>,
    machineCostHr: Option<real>,
    finishing: Option<real>,
    marginPct: Option<real>,
    taxPct: Option<real>)

  /** The parameter set after every fallback default has been applied. */
  datatype Params = Params(
    currency: string,
    part: string,
    quantity: real,
    volume: real,
    weightInput: real,
    density: real,
    pricePerKg: real,
    wastePct: real,
    printHours: real,
    machineCostHr: real,
    finishing: real,
    marginPct: real,
    taxPct: real)

  /** The record `calculate` returns. */
  datatype Breakdown = Breakdown(
    currency: string,
    part: string,
    quantity: real,
    weightGr: real,
    materialCost: real,
    machineCost: real,
    finishing: real,
    subtotal: real,
    taxVal: real,
    marginVal: real,
    unitPrice: real,
    totalPrice: real)

  const DefaultPartName: string := "Pieza"

  /** A value JavaScript's `||` treats as false: NaN or zero. */
  predicate Falsy(x: Option<real>) {
    x == None || x == Some(0.0)
  }

  /** `r` is what `x || d` evaluates to: the default on a falsy value, the value itself otherwise. */
  predicate DefaultedFrom(x: Option<real>, d: real, r: real) {
    (Falsy(x) ==> r == d) && (!Falsy(x) ==> x == Some(r))
  }

  /** `Number(field) || d` for a parsed field. */
  function OrDefault(x: Option<real>, d: real): (r: real)
    ensures DefaultedFrom(x, d, r)
    ensures r == 0.0 ==> d == 0.0
  {
    match x
    case None => d
    case Some(v) => if v == 0.0 then d else v
  }

  /** `partName || 'Pieza'`: only the empty string is falsy. */
  function NameOrDefault(name: string): (r: string)
    ensures name == [] ==> r == DefaultPartName
    ensures name != [] ==> r == name
    ensures r != []
  {
    if name == [] then DefaultPartName else name
  }

  /**
   * The defaulting step at the head of `calculate`: quantity and density fall
   * back to 1, every other number to 0, the empty part name to "Pieza". A
   * negative or fractional value is not falsy and is kept as it is.
   */
  function Resolve(raw: RawInputs): (p: Params)
    ensures p.currency == raw.currency
    ensures raw.partName == [] ==> p.part == DefaultPartName
    ensures raw.partName != [] ==> p.part == raw.partName
    ensures DefaultedFrom(raw.quantity, 1.0, p.quantity) && p.quantity != 0.0
    ensures DefaultedFrom(raw.volume, 0.0, p.volume)
    ensures DefaultedFrom(raw.weight, 0.0, p.weightInput)
    ensures DefaultedFrom(raw.density, 1.0, p.density) && p.density != 0.0
    ensures DefaultedFrom(raw.pricePerKg, 0.0, p.pricePerKg)
    ensures DefaultedFrom(raw.wastePct, 0.0, p.wastePct)
    ensures DefaultedFrom(raw.printHours, 0.0, p.printHours)
    ensures DefaultedFrom(raw.machineCostHr, 0.0, p.machineCostHr)
    ensures DefaultedFrom(raw.finishing, 0.0, p.finishing)
    ensures DefaultedFrom(raw.marginPct, 0.0, p.marginPct)
    ensures DefaultedFrom(raw.taxPct, 0.0, p.taxPct)
  {
    Params(
      raw.currency,
      NameOrDefault(raw.partName),
      OrDefault(raw.quantity, 1.0),
      OrDefault(raw.volume, 0.0),
      OrDefault(raw.weight, 0.0),
      OrDefault(raw.density, 1.0),
      OrDefault(raw.pricePerKg, 0.0),
      OrDefault(raw.wastePct, 0.0),
      OrDefault(raw.printHours, 0.0),
      OrDefault(raw.machineCostHr, 0.0),
      OrDefault(raw.finishing, 0.0),
      OrDefault(raw.marginPct, 0.0),
      OrDefault(raw.taxPct, 0.0))
  }

  /** The weight before waste: a positive user weight wins over volume times density. */
  function BaseWeight(p: Params): (w: real)
    ensures p.weightInput > 0.0 ==> w == p.weightInput && w > 0.0
    ensures p.weightInput <= 0.0 ==> w == p.volume * p.density
  {
    if p.weightInput > 0.0 then p.weightInput else p.volume * p.density
  }

  /** The weight with the waste/support allowance added. */
  function AdjustedWeight(p: Params): (w: real)
    ensures p.wastePct == 0.0 ==> w == BaseWeight(p)
    ensures BaseWeight(p) >= 0.0 && p.wastePct >= 0.0 ==> w >= BaseWeight(p)
    ensures BaseWeight(p) >= 0.0 && p.wastePct <= 0.0 ==> w <= BaseWeight(p)
  {
    var base := BaseWeight(p);
    assert base * (1.0 + p.wastePct / 100.0) == base + base * (p.wastePct / 100.0);
    base * (1.0 + p.wastePct / 100.0)
  }

  /** `Math.round(w * 10) / 10`: `Math.round` rounds halves toward +infinity. */
  function RoundToTenth(w: real): (r: real)
    ensures w - 0.05 < r <= w + 0.05
    ensures (r * 10.0).Floor as real == r * 10.0
    ensures w >= 0.0 ==> r >= 0.0
  {
    (w * 10.0 + 0.5).Floor as real / 10.0
  }

  /** The formula body of `calculate`, from a defaulted parameter set to the returned record. */
  function Compute(p: Params): (b: Breakdown)
    ensures b.currency == p.currency && b.part == p.part && b.quantity == p.quantity
    ensures b.weightGr == RoundToTenth(AdjustedWeight(p))
    ensures AdjustedWeight(p) - 0.05 < b.weightGr <= AdjustedWeight(p) + 0.05
    ensures b.materialCost * 1000.0 == AdjustedWeight(p) * p.pricePerKg
    ensures b.machineCost == p.printHours * p.machineCostHr
    ensures b.finishing == p.finishing
    ensures b.subtotal == b.materialCost + b.machineCost + b.finishing
    ensures b.taxVal * 100.0 == b.subtotal * p.taxPct
    ensures b.marginVal * 100.0 == b.subtotal * p.marginPct
    ensures b.unitPrice == b.subtotal + b.marginVal + b.taxVal
    ensures b.unitPrice == b.subtotal * (1.0 + p.taxPct / 100.0 + p.marginPct / 100.0)
    ensures b.totalPrice == b.unitPrice * p.quantity
  {
    var weightGr := AdjustedWeight(p);
    var materialCost := (weightGr / 1000.0) * p.pricePerKg;
    var machineCost := p.printHours * p.machineCostHr;
    var subtotal := materialCost + machineCost + p.finishing;
    var taxVal := subtotal * (p.taxPct / 100.0);
    var marginVal := subtotal * (p.marginPct / 100.0);
    var unitPrice := subtotal + marginVal + taxVal;
    Breakdown(
      p.currency, p.part, p.quantity, RoundToTenth(weightGr),
      materialCost, machineCost, p.finishing, subtotal,
      taxVal, marginVal, unitPrice, unitPrice * p.quantity)
  }

  /** `calculate`: default the raw form values, then compute the breakdown. */
  function Calculate(raw: RawInputs): (b: Breakdown)
    ensures b.part != [] && b.quantity != 0.0 && b.currency == raw.currency
    ensures b.totalPrice == b.unitPrice * b.quantity
  {
    Compute(Resolve(raw))
  }

  // ---------------------------------------------------------------------------
  // Rounding of the reported weight

  /** A value already on the one-decimal grid is reported unchanged. */
  lemma RoundToTenthExact(k: int)
    ensures RoundToTenth(k as real / 10.0) == k as real / 10.0
  {
    var y := k as real / 10.0 * 10.0 + 0.5;
    assert y == k as real + 0.5;
    assert y.Floor == k;
  }

  /** A value half-way between two tenths goes to the upper one, also below zero. */
  lemma RoundToTenthHalfUp(k: int)
    ensures RoundToTenth((k as real + 0.5) / 10.0) == (k + 1) as real / 10.0
  {
    var y := (k as real + 0.5) / 10.0 * 10.0 + 0.5;
    assert y == (k + 1) as real;
    assert y.Floor == k + 1;
  }

  /** Rounding a reported weight again changes nothing. */
  lemma RoundToTenthIdempotent(w: real)
    ensures RoundToTenth(RoundToTenth(w)) == RoundToTenth(w)
  {
    var k := (w * 10.0 + 0.5).Floor;
    RoundToTenthExact(k);
  }

  // ---------------------------------------------------------------------------
  // Properties of the whole computation

  /** With every number missing or zero, quantity is 1 and the whole breakdown is zero. */
  lemma AllFalsyInputsGiveZeroQuote(raw: RawInputs)
    requires Falsy(raw.quantity) && Falsy(raw.volume) && Falsy(raw.weight)
    requires Falsy(raw.density) && Falsy(raw.pricePerKg) && Falsy(raw.wastePct)
    requires Falsy(raw.printHours) && Falsy(raw.machineCostHr) && Falsy(raw.finishing)
    requires Falsy(raw.marginPct) && Falsy(raw.taxPct)
    ensures var b := Calculate(raw);
      && b.quantity == 1.0 && b.weightGr == 0.0
      && b.materialCost == 0.0 && b.machineCost == 0.0 && b.finishing == 0.0
      && b.subtotal == 0.0 && b.taxVal == 0.0 && b.marginVal == 0.0
      && b.unitPrice == 0.0 && b.totalPrice == 0.0
  {
    var p := Resolve(raw);
    assert AdjustedWeight(p) == 0.0;
    RoundToTenthExact(0);
  }

  /** A positive weight override makes volume and density irrelevant to the whole quote. */
  lemma WeightOverrideTakesPrecedence(p: Params, volume: real, density: real)
    requires p.weightInput > 0.0
    ensures BaseWeight(p) == p.weightInput
    ensures Compute(p).weightGr == RoundToTenth(p.weightInput * (1.0 + p.wastePct / 100.0))
    ensures Compute(p.(volume := volume, density := density)) == Compute(p)
  {
    assert AdjustedWeight(p) == p.weightInput * (1.0 + p.wastePct / 100.0);
    assert AdjustedWeight(p.(volume := volume, density := density)) == AdjustedWeight(p);
  }

  /** A zero or negative weight override is ignored: the weight comes from volume times density. */
  lemma NonPositiveOverrideUsesVolume(p: Params, weightInput: real)
    requires p.weightInput <= 0.0 && weightInput <= 0.0
    ensures BaseWeight(p) == p.volume * p.density
    ensures Compute(p.(weightInput := weightInput)) == Compute(p)
  {
    assert AdjustedWeight(p.(weightInput := weightInput)) == AdjustedWeight(p);
  }

  /** The waste allowance scales the weight without waste by (1 + wastePct/100). */
  lemma WasteScalesWeight(p: Params)
    ensures AdjustedWeight(p) == AdjustedWeight(p.(wastePct := 0.0)) * (1.0 + p.wastePct / 100.0)
    ensures p.wastePct == 0.0 ==> AdjustedWeight(p) == BaseWeight(p)
  {
    assert BaseWeight(p.(wastePct := 0.0)) == BaseWeight(p);
  }

  /**
   * Tax and margin are both taken from the same subtotal: exchanging the two
   * percentages leaves the prices unchanged, and when the subtotal and both
   * percentages are nonzero the price differs from applying one on top of the other.
   */
  lemma TaxAndMarginNotCompounded(p: Params)
    ensures var q := p.(taxPct := p.marginPct, marginPct := p.taxPct);
      Compute(q).unitPrice == Compute(p).unitPrice && Compute(q).totalPrice == Compute(p).totalPrice
    ensures var b := Compute(p);
      b.subtotal != 0.0 && p.taxPct != 0.0 && p.marginPct != 0.0 ==>
      b.unitPrice != b.subtotal * (1.0 + p.taxPct / 100.0) * (1.0 + p.marginPct / 100.0)
  {
    var b := Compute(p);
    var t, m := p.taxPct / 100.0, p.marginPct / 100.0;
    assert b.unitPrice == b.subtotal * (1.0 + t + m);
    assert b.subtotal * (1.0 + t) * (1.0 + m) == b.subtotal * (1.0 + t + m) + b.subtotal * t * m;
    if b.subtotal != 0.0 && t != 0.0 && m != 0.0 {
      assert b.subtotal * t != 0.0;
      assert b.subtotal * t * m != 0.0;
      assert b.unitPrice != b.subtotal * (1.0 + t) * (1.0 + m);
    }
  }

  /** Every field of the parameter set is non-negative and the quantity is positive. */
  predicate NonNegative(p: Params) {
    && p.quantity > 0.0 && p.volume >= 0.0 && p.weightInput >= 0.0 && p.density >= 0.0
    && p.pricePerKg >= 0.0 && p.wastePct >= 0.0 && p.printHours >= 0.0
    && p.machineCostHr >= 0.0 && p.finishing >= 0.0 && p.marginPct >= 0.0 && p.taxPct >= 0.0
  }

  /** From non-negative parameters no field of the breakdown is negative. */
  lemma NonNegativeParamsGiveNonNegativeQuote(p: Params)
    requires NonNegative(p)
    ensures var b := Compute(p);
      && b.weightGr >= 0.0
      && b.materialCost >= 0.0 && b.machineCost >= 0.0 && b.finishing >= 0.0
      && b.subtotal >= 0.0 && b.taxVal >= 0.0 && b.marginVal >= 0.0
      && b.unitPrice >= b.subtotal && b.totalPrice >= 0.0
  {
    MulNonNegative(p.volume, p.density);
    var w := BaseWeight(p);
    MulNonNegative(w, 1.0 + p.wastePct / 100.0);
    var aw := AdjustedWeight(p);
    MulNonNegative(aw / 1000.0, p.pricePerKg);
    MulNonNegative(p.printHours, p.machineCostHr);
    var b := Compute(p);
    MulNonNegative(b.subtotal, p.taxPct / 100.0);
    MulNonNegative(b.subtotal, p.marginPct / 100.0);
    MulNonNegative(b.unitPrice, p.quantity);
  }

  /** No negative form value leads to no negative field in the quote. */
  lemma NonNegativeInputsGiveNonNegativeQuote(raw: RawInputs)
    requires raw.quantity.Some? ==> raw.quantity.value >= 0.0
    requires raw.volume.Some? ==> raw.volume.value >= 0.0
    requires raw.weight.Some? ==> raw.weight.value >= 0.0
    requires raw.density.Some? ==> raw.density.value >= 0.0
    requires raw.pricePerKg.Some? ==> raw.pricePerKg.value >= 0.0
    requires raw.wastePct.Some? ==> raw.wastePct.value >= 0.0
    requires raw.printHours.Some? ==> raw.printHours.value >= 0.0
    requires raw.machineCostHr.Some? ==> raw.machineCostHr.value >= 0.0
    requires raw.finishing.Some? ==> raw.finishing.value >= 0.0
    requires raw.marginPct.Some? ==> raw.marginPct.value >= 0.0
    requires raw.taxPct.Some? ==> raw.taxPct.value >= 0.0
    ensures NonNegative(Resolve(raw))
    ensures var b := Calculate(raw);
      && b.quantity > 0.0 && b.weightGr >= 0.0
      && b.materialCost >= 0.0 && b.machineCost >= 0.0 && b.finishing >= 0.0
      && b.subtotal >= 0.0 && b.taxVal >= 0.0 && b.marginVal >= 0.0
      && b.unitPrice >= b.subtotal && b.totalPrice >= 0.0
  {
    NonNegativeParamsGiveNonNegativeQuote(Resolve(raw));
  }

  lemma MulNonNegative(x: real, y: real)
    requires x >= 0.0 && y >= 0.0
    ensures x * y >= 0.0
  {
  }

  /**
   * Only 0 and NaN fall back to a quantity of 1: a negative quantity is kept
   * and makes the total the negated multiple of the unit price.
   */
  lemma NegativeQuantityIsKept(raw: RawInputs, q: real)
    requires raw.quantity == Some(q) && q < 0.0
    ensures Calculate(raw).quantity == q
    ensures Calculate(raw).totalPrice == Calculate(raw).unitPrice * q
  {
  }

  /**
   * A worked quote: 100 cm3 at 1.25 g/cm3 with 10% waste, 80000 per kg,
   * 3 hours at 5000 per hour, 10000 finishing, 30% margin, 19% tax, 2 units.
   */
  lemma WorkedQuote()
    ensures var b := Calculate(RawInputs("COP", "Soporte", Some(2.0), Some(100.0), None,
        Some(1.25), Some(80000.0), Some(10.0), Some(3.0), Some(5000.0), Some(10000.0),
        Some(30.0), Some(19.0)));
      && b.weightGr == 137.5 && b.materialCost == 11000.0 && b.machineCost == 15000.0
      && b.subtotal == 36000.0 && b.taxVal == 6840.0 && b.marginVal == 10800.0
      && b.unitPrice == 53640.0 && b.totalPrice == 107280.0
  {
    var raw := RawInputs("COP", "Soporte", Some(2.0), Some(100.0), None,
        Some(1.25), Some(80000.0), Some(10.0), Some(3.0), Some(5000.0), Some(10000.0),
        Some(30.0), Some(19.0));
    var p := Resolve(raw);
    assert p == Params("COP", "Soporte", 2.0, 100.0, 0.0, 1.25, 80000.0, 10.0, 3.0, 5000.0,
      10000.0, 30.0, 19.0);
    assert BaseWeight(p) == 125.0;
    assert AdjustedWeight(p) == 137.5;
    RoundToTenthExact(1375);
  }
}
