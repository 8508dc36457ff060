/**
 * The product configuration the pricing engine reads: pricing model,
 * dimension unit, bounds and step, minimum billable area and price, base
 * prices, and the option groups with their price modifiers.
 */
module Catalog {
  import opened Wrappers

  datatype PricingModel = Unit | AreaM2 | LinearM | QuoteOnly

  datatype DimensionUnit = MM | CM

  /** `UnknownModifier` stands for any other stored value, which the pricing loop ignores. */
  datatype ModifierType = FixedCents | PerM2Cents | Percent | UnknownModifier

  datatype ProductOption = ProductOption(
    id: string,
    groupId: string,
    active: bool,
    modifierType: ModifierType,
    modifierValue: int)

  datatype OptionGroup = OptionGroup(
    id: string,
    name: string,
    required: bool,
    minSelect: int,
    maxSelect: int,
    options: seq<ProductOption>)

  /** A product row with its option groups (the `include` of the checkout query). */
  datatype Product = Product(
    id: string,
    name: string,
    active: bool,
    pricingModel: PricingModel,
    dimensionUnit: DimensionUnit,
    minWidth: Option<int>,
    maxWidth: Option<int>,
    minHeight: Option<int>,
    maxHeight: Option<int>,
    step: Option<int>,
    minAreaM2: Option<real>,
    minPriceCents: Option<int>,
    baseUnitPriceCents: Option<int>,
    baseM2PriceCents: Option<int>,
    baseLinearMPriceCents: Option<int>,
    optionGroups: seq<OptionGroup>)

  /** JavaScript truthiness of a nullable number: present and not zero. */
  predicate IsSet(o: Option<int>) {
    o.Some? && o.value != 0
  }

  predicate IsSetReal(o: Option<real>) {
    o.Some? && o.value != 0.0
  }

  predicate PositiveIfSet(o: Option<int>) {
    o.Some? ==> o.value > 0
  }

  /** What the product schema admits: positive bounds, step and minimum area, non-negative prices. */
  predicate ValidConfig(p: Product) {
    && PositiveIfSet(p.minWidth) && PositiveIfSet(p.maxWidth)
    && PositiveIfSet(p.minHeight) && PositiveIfSet(p.maxHeight)
    && PositiveIfSet(p.step)
    && (p.minAreaM2.Some? ==> p.minAreaM2.value > 0.0)
    && (p.minPriceCents.Some? ==> p.minPriceCents.value >= 0)
    && (p.baseUnitPriceCents.Some? ==> p.baseUnitPriceCents.value >= 0)
    && (p.baseM2PriceCents.Some? ==> p.baseM2PriceCents.value >= 0)
    && (p.baseLinearMPriceCents.Some? ==> p.baseLinearMPriceCents.value >= 0)
  }
}
