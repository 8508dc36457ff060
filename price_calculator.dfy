/**
 * The pricing engine of the order and quote flows: one line item's unit price
 * and line total from the product configuration, the selected options (in the
 * order the client sent them), the dimensions and the quantity.
 *
 * Dimensions and areas are exact rationals; JavaScript's `Math.round` is
 * `floor(x + 1/2)`, so ties go toward +infinity (-2.5 rounds to -2).
 */
module PriceCalculator {
  import opened Wrappers
  import opened Errors
  import opened Catalog

  /** `toMeters`: centimetres are divided by 100, millimetres by 1000. */
  function ToMeters(value: int, unit: DimensionUnit): (m: real)
    ensures unit == CM ==> m * 100.0 == value as real
    ensures unit == MM ==> m * 1000.0 == value as real
  {
    match unit
    case CM => value as real / 100.0
    case MM => value as real / 1000.0
  }

  /** `Math.round`: the integer nearest to `x`, halves going up. */
  function JsRound(x: real): (r: int)
    ensures r as real - 0.5 <= x < r as real + 0.5
  {
    (x + 0.5).Floor
  }

  /** The contract of JsRound determines its result: it is the one nearest integer. */
  lemma JsRoundUnique(x: real, n: int)
    requires n as real - 0.5 <= x < n as real + 0.5
    ensures JsRound(x) == n
  {
  }

  function Max(a: int, b: int): int {
    if a >= b then a else b
  }

  function MaxReal(a: real, b: real): real {
    if a >= b then a else b
  }

  predicate NeedsDimensions(m: PricingModel) {
    m == AreaM2 || m == LinearM
  }

  /**
   * Whether `step` divides `v`. The source tests `v % step !== 0` with
   * JavaScript's truncating remainder; a remainder is zero under truncation
   * exactly when it is zero under Dafny's Euclidean `%`, so the test is the same.
   */
  predicate RespectsStep(v: int, step: int)
    requires step != 0
  {
    v % step == 0
  }

  /**
   * What the dimension checks accept, stated declaratively: for AREA_M2 and
   * LINEAR_M a positive width (and for AREA_M2 a positive height), a step that
   * is set divides the width and a height that is given, and each bound that is
   * set holds (a zero or absent bound or step counts as unset).
   */
  predicate DimensionsAcceptable(p: Product, width: Option<int>, height: Option<int>) {
    NeedsDimensions(p.pricingModel) ==>
      && width.Some? && width.value > 0
      && (p.pricingModel == AreaM2 ==> height.Some? && height.value > 0)
      && (IsSet(p.step) ==> RespectsStep(width.value, p.step.value))
      && (IsSet(p.step) && IsSet(height) ==> RespectsStep(height.value, p.step.value))
      && (IsSet(p.minWidth) ==> width.value >= p.minWidth.value)
      && (IsSet(p.maxWidth) ==> width.value <= p.maxWidth.value)
      && (IsSet(p.minHeight) && IsSet(height) ==> height.value >= p.minHeight.value)
      && (IsSet(p.maxHeight) && IsSet(height) ==> height.value <= p.maxHeight.value)
  }

  /** The first dimension check that throws, in the source's order, or None when all pass. */
  function DimensionViolation(p: Product, width: Option<int>, height: Option<int>): (r: Option<Reason>)
    ensures r == None <==> DimensionsAcceptable(p, width, height)
  {
    if !NeedsDimensions(p.pricingModel) then None
    else if !IsSet(width) || width.value <= 0 then Some(WidthRequired)
    else if p.pricingModel == AreaM2 && (!IsSet(height) || height.value <= 0) then Some(HeightRequired)
    else if IsSet(p.step) && !RespectsStep(width.value, p.step.value) then Some(WidthStep)
    else if IsSet(p.step) && IsSet(height) && !RespectsStep(height.value, p.step.value) then Some(HeightStep)
    else if IsSet(p.minWidth) && width.value < p.minWidth.value then Some(WidthBelowMin)
    else if IsSet(p.maxWidth) && width.value > p.maxWidth.value then Some(WidthAboveMax)
    else if IsSet(p.minHeight) && IsSet(height) && height.value < p.minHeight.value then Some(HeightBelowMin)
    else if IsSet(p.maxHeight) && IsSet(height) && height.value > p.maxHeight.value then Some(HeightAboveMax)
    else None
  }

  /** Width times height, both converted to metres: the raw area in m². */
  function RawArea(p: Product, width: int, height: int): real {
    ToMeters(width, p.dimensionUnit) * ToMeters(height, p.dimensionUnit)
  }

  /** The area that is charged: the raw area, floored at `minAreaM2` when that is set. */
  function BillableArea(p: Product, rawArea: real): (a: real)
    ensures a >= rawArea
    ensures IsSetReal(p.minAreaM2) ==> a >= p.minAreaM2.value
    ensures a == rawArea || (IsSetReal(p.minAreaM2) && a == p.minAreaM2.value)
  {
    if IsSetReal(p.minAreaM2) then MaxReal(rawArea, p.minAreaM2.value) else rawArea
  }

  /** The base-price column of the product's own pricing model is set. */
  predicate BaseColumnSet(p: Product) {
    match p.pricingModel
    case Unit => p.baseUnitPriceCents.Some?
    case AreaM2 => p.baseM2PriceCents.Some?
    case LinearM => p.baseLinearMPriceCents.Some?
    case QuoteOnly => false
  }

  /** The base price of the pricing model, once the dimensions have been accepted. */
  function BasePrice(p: Product, width: Option<int>, height: Option<int>): (r: Result<int, Error>)
    requires p.pricingModel != QuoteOnly
    requires DimensionsAcceptable(p, width, height)
    ensures r.Ok? <==> BaseColumnSet(p)
    ensures r.Err? ==> r.error.status == BadRequest
    ensures p.pricingModel == Unit && p.baseUnitPriceCents.Some? ==> r == Ok(p.baseUnitPriceCents.value)
    ensures p.pricingModel == AreaM2 && p.baseM2PriceCents.Some? ==>
      r == Ok(JsRound(p.baseM2PriceCents.value as real * BillableArea(p, RawArea(p, width.value, height.value))))
    ensures p.pricingModel == LinearM && p.baseLinearMPriceCents.Some? ==>
      r == Ok(JsRound(p.baseLinearMPriceCents.value as real * ToMeters(width.value, p.dimensionUnit)))
  {
    match p.pricingModel
    case Unit =>
      if p.baseUnitPriceCents.None? then Err(BadRequestError(BaseUnitPriceNotSet))
      else Ok(p.baseUnitPriceCents.value)
    case AreaM2 =>
      if p.baseM2PriceCents.None? then Err(BadRequestError(BaseM2PriceNotSet))
      else Ok(JsRound(p.baseM2PriceCents.value as real * BillableArea(p, RawArea(p, width.value, height.value))))
    case LinearM =>
      if p.baseLinearMPriceCents.None? then Err(BadRequestError(BaseLinearMPriceNotSet))
      else Ok(JsRound(p.baseLinearMPriceCents.value as real * ToMeters(width.value, p.dimensionUnit)))
  }

  /**
   * One step of the modifier loop on the running subtotal. `perM2Area` is the
   * billable area of an AREA_M2 product and None for every other model.
   */
  function ApplyModifier(perM2Area: Option<real>, subtotal: int, o: ProductOption): (r: Result<int, Error>)
    ensures r.Err? <==> o.active && o.modifierType == PerM2Cents && perM2Area.None?
    ensures r.Err? ==> r.error == BadRequestError(PerM2OnNonAreaProduct)
    ensures !o.active || o.modifierType == UnknownModifier ==> r == Ok(subtotal)
    ensures o.active && o.modifierType == FixedCents ==> r == Ok(subtotal + o.modifierValue)
    ensures o.active && o.modifierType == Percent ==>
      r == Ok(subtotal + JsRound((subtotal * o.modifierValue) as real / 100.0))
    ensures o.active && o.modifierType == PerM2Cents && perM2Area.Some? ==>
      r == Ok(subtotal + JsRound(o.modifierValue as real * perM2Area.value))
    ensures o.active && o.modifierType == Percent && subtotal >= 0 && o.modifierValue >= 0 ==> r.value >= subtotal
  {
    if !o.active then Ok(subtotal)
    else
      match o.modifierType
      case FixedCents => Ok(subtotal + o.modifierValue)
      case PerM2Cents =>
        if perM2Area.None? then Err(BadRequestError(PerM2OnNonAreaProduct))
        else Ok(subtotal + JsRound(o.modifierValue as real * perM2Area.value))
      case Percent => Ok(subtotal + JsRound((subtotal * o.modifierValue) as real / 100.0))
      case UnknownModifier => Ok(subtotal)
  }

  /** Some option of the list is an active PER_M2_CENTS one. */
  predicate HasActivePerM2(opts: seq<ProductOption>) {
    exists i :: 0 <= i < |opts| && opts[i].active && opts[i].modifierType == PerM2Cents
  }

  /** The modifier loop as a left fold over the options, in the order given. */
  function ApplyModifiers(perM2Area: Option<real>, subtotal: int, opts: seq<ProductOption>): (r: Result<int, Error>)
    ensures r.Err? ==> perM2Area.None? && r.error == BadRequestError(PerM2OnNonAreaProduct)
    ensures r.Err? <==> perM2Area.None? && HasActivePerM2(opts)
    decreases |opts|
  {
    if opts == [] then Ok(subtotal)
    else
      match ApplyModifier(perM2Area, subtotal, opts[0])
      case Err(e) => Err(e)
      case Ok(s) =>
        assert perM2Area.None? ==> (HasActivePerM2(opts) <==> HasActivePerM2(opts[1..])) by {
          if perM2Area.None? && HasActivePerM2(opts) {
            var i :| 0 <= i < |opts| && opts[i].active && opts[i].modifierType == PerM2Cents;
            assert i != 0;
            assert opts[1..][i - 1] == opts[i];
          }
          if HasActivePerM2(opts[1..]) {
            var i :| 0 <= i < |opts[1..]| && opts[1..][i].active && opts[1..][i].modifierType == PerM2Cents;
            assert opts[i + 1] == opts[1..][i];
          }
        }
        ApplyModifiers(perM2Area, s, opts[1..])
  }

  /** The source's `for (const opt of selectedOptions)` loop, proved to compute the fold. */
  method ApplyModifiersLoop(perM2Area: Option<real>, base: int, opts: seq<ProductOption>)
    returns (r: Result<int, Error>)
    ensures r == ApplyModifiers(perM2Area, base, opts)
  {
    var subtotal := base;
    var i := 0;
    while i < |opts|
      invariant 0 <= i <= |opts|
      invariant ApplyModifiers(perM2Area, subtotal, opts[i..]) == ApplyModifiers(perM2Area, base, opts)
    {
      var step := ApplyModifier(perM2Area, subtotal, opts[i]);
      if step.Err? {
        return Err(step.error);
      }
      subtotal := step.value;
      i := i + 1;
    }
    return Ok(subtotal);
  }

  datatype PriceResult = PriceResult(unitPriceCents: int, lineTotalCents: int, areaM2: Option<real>)

  /**
   * When an item can be priced at all: an active product with a computed
   * pricing model, accepted dimensions, its base-price column set, and no
   * active PER_M2_CENTS option unless it is priced by area.
   */
  predicate Priceable(p: Product, selected: seq<ProductOption>, width: Option<int>, height: Option<int>) {
    && p.active
    && p.pricingModel != QuoteOnly
    && DimensionsAcceptable(p, width, height)
    && BaseColumnSet(p)
    && !(p.pricingModel != AreaM2 && HasActivePerM2(selected))
  }

  /** The area the PER_M2 modifiers are charged on: the billable area for AREA_M2, none otherwise. */
  function ModifierArea(p: Product, width: Option<int>, height: Option<int>): (a: Option<real>)
    requires DimensionsAcceptable(p, width, height)
    ensures a.Some? <==> p.pricingModel == AreaM2
  {
    if p.pricingModel == AreaM2 then Some(BillableArea(p, RawArea(p, width.value, height.value))) else None
  }

  /**
   * The unit price before the minimum-price floor: inactive product, quote-only
   * model, dimensions, base price, then the modifiers in order.
   */
  function Subtotal(p: Product, selected: seq<ProductOption>, width: Option<int>, height: Option<int>)
    : (r: Result<int, Error>)
    ensures !p.active ==> r == Err(BadRequestError(ProductInactive))
    ensures p.active && p.pricingModel == QuoteOnly ==> r == Err(ConflictError(RequiresQuote))
    ensures p.active && p.pricingModel != QuoteOnly && DimensionViolation(p, width, height).Some? ==>
      r == Err(BadRequestError(DimensionViolation(p, width, height).value))
    ensures r.Err? && r.error.status != BadRequest ==> p.active && p.pricingModel == QuoteOnly
    ensures r.Ok? ==> DimensionsAcceptable(p, width, height)
    ensures r.Ok? <==> Priceable(p, selected, width, height)
    ensures r.Ok? ==> r == ApplyModifiers(ModifierArea(p, width, height), BasePrice(p, width, height).value, selected)
  {
    if !p.active then Err(BadRequestError(ProductInactive))
    else if p.pricingModel == QuoteOnly then Err(ConflictError(RequiresQuote))
    else
      match DimensionViolation(p, width, height)
      case Some(reason) => Err(BadRequestError(reason))
      case None =>
        var base :- BasePrice(p, width, height);
        ApplyModifiers(ModifierArea(p, width, height), base, selected)
  }

  /** `computed.areaM2`: the raw, unfloored area of an AREA_M2 item, null for every other model. */
  function ComputedArea(p: Product, width: Option<int>, height: Option<int>): Option<real> {
    if p.pricingModel == AreaM2 && width.Some? && height.Some? then Some(RawArea(p, width.value, height.value))
    else None
  }

  /** `calculateItemPrice`: the subtotal floored at the minimum price, times the quantity. */
  function CalculateItemPrice(
    p: Product, selected: seq<ProductOption>, width: Option<int>, height: Option<int>, quantity: int)
    : (r: Result<PriceResult, Error>)
    ensures !p.active ==> r == Err(BadRequestError(ProductInactive))
    ensures p.active && p.pricingModel == QuoteOnly ==> r == Err(ConflictError(RequiresQuote))
    ensures p.active && p.pricingModel != QuoteOnly && DimensionViolation(p, width, height).Some? ==>
      r == Err(BadRequestError(DimensionViolation(p, width, height).value))
    ensures r.Err? && r.error.status != BadRequest ==> p.active && p.pricingModel == QuoteOnly
    ensures r.Ok? ==> DimensionsAcceptable(p, width, height)
    ensures r.Ok? <==> Priceable(p, selected, width, height)
    ensures r.Ok? ==>
      var subtotal := ApplyModifiers(ModifierArea(p, width, height), BasePrice(p, width, height).value, selected).value;
      r.value.unitPriceCents == if p.minPriceCents.Some? then Max(subtotal, p.minPriceCents.value) else subtotal
    ensures r.Ok? ==> r.value.lineTotalCents == r.value.unitPriceCents * quantity
    ensures r.Ok? && p.minPriceCents.Some? ==> r.value.unitPriceCents >= p.minPriceCents.value
    ensures r.Ok? ==> (r.value.areaM2.Some? <==> p.pricingModel == AreaM2)
    ensures r.Ok? && p.pricingModel == AreaM2 ==>
      r.value.areaM2 == Some(RawArea(p, width.value, height.value))
  {
    var subtotal :- Subtotal(p, selected, width, height);
    var unit := if p.minPriceCents.Some? then Max(subtotal, p.minPriceCents.value) else subtotal;
    Ok(PriceResult(unit, unit * quantity, ComputedArea(p, width, height)))
  }
}
