/** Properties of the pricing engine that relate several calls or several inputs. */
module PricingProperties {
  import opened Wrappers
  import opened Errors
  import opened Catalog
  import opened PriceCalculator
  import Lists

  /** Ties go toward +infinity, as JavaScript's `Math.round` does. */
  lemma JsRoundTies()
    ensures JsRound(2.5) == 3 && JsRound(-2.5) == -2 && JsRound(-0.5) == 0
  {
    JsRoundUnique(2.5, 3);
    JsRoundUnique(-2.5, -2);
    JsRoundUnique(-0.5, 0);
  }

  /** The active options of a selection, in the order selected. */
  function ActiveOnly(opts: seq<ProductOption>): (r: seq<ProductOption>)
    ensures forall o :: o in r <==> o.active && o in opts
    ensures r == Lists.Filter(opts, (o: ProductOption) => o.active)
  {
    if opts == [] then []
    else if opts[0].active then [opts[0]] + ActiveOnly(opts[1..])
    else ActiveOnly(opts[1..])
  }

  /** Inactive options never change the price: removing them gives the same fold. */
  lemma {:induction false} InactiveOptionsIgnored(area: Option<real>, subtotal: int, opts: seq<ProductOption>)
    ensures ApplyModifiers(area, subtotal, opts) == ApplyModifiers(area, subtotal, ActiveOnly(opts))
    decreases |opts|
  {
    if opts != [] {
      if opts[0].active {
        match ApplyModifier(area, subtotal, opts[0])
        case Err(_) =>
        case Ok(s) =>
          InactiveOptionsIgnored(area, s, opts[1..]);
          assert ([opts[0]] + ActiveOnly(opts[1..]))[1..] == ActiveOnly(opts[1..]);
      } else {
        InactiveOptionsIgnored(area, subtotal, opts[1..]);
      }
    }
  }

  /**
   * On a product that is not AREA_M2 the modifier loop fails exactly when some
   * selected option is an active PER_M2_CENTS one.
   */
  lemma {:induction false} PerM2FailsIff(subtotal: int, opts: seq<ProductOption>)
    ensures ApplyModifiers(None, subtotal, opts).Err? <==> HasActivePerM2(opts)
    decreases |opts|
  {
    if opts != [] {
      var o := opts[0];
      if o.active && o.modifierType == PerM2Cents {
        assert ApplyModifiers(None, subtotal, opts).Err?;
      } else {
        var s := ApplyModifier(None, subtotal, o).value;
        PerM2FailsIff(s, opts[1..]);
        if HasActivePerM2(opts) {
          var i :| 0 <= i < |opts| && opts[i].active && opts[i].modifierType == PerM2Cents;
          assert opts[1..][i - 1] == opts[i];
        }
        if HasActivePerM2(opts[1..]) {
          var i :| 0 <= i < |opts[1..]| && opts[1..][i].active && opts[1..][i].modifierType == PerM2Cents;
          assert opts[i + 1] == opts[1..][i];
        }
      }
    }
  }

  /** On an AREA_M2 product (an area is supplied) the modifier loop never fails. */
  lemma {:induction false} AreaModifiersNeverFail(area: real, subtotal: int, opts: seq<ProductOption>)
    ensures ApplyModifiers(Some(area), subtotal, opts).Ok?
    decreases |opts|
  {
    if opts != [] {
      AreaModifiersNeverFail(area, ApplyModifier(Some(area), subtotal, opts[0]).value, opts[1..]);
    }
  }

  function FixedSum(opts: seq<ProductOption>): int {
    if opts == [] then 0 else opts[0].modifierValue + FixedSum(opts[1..])
  }

  /** With only active FIXED_CENTS options the subtotal grows by the sum of their values, in any order. */
  lemma {:induction false} FixedOnlyIsSum(area: Option<real>, subtotal: int, opts: seq<ProductOption>)
    requires forall i :: 0 <= i < |opts| ==> opts[i].active && opts[i].modifierType == FixedCents
    ensures ApplyModifiers(area, subtotal, opts) == Ok(subtotal + FixedSum(opts))
    decreases |opts|
  {
    if opts != [] {
      FixedOnlyIsSum(area, subtotal + opts[0].modifierValue, opts[1..]);
    }
  }

  /** PERCENT uses the running subtotal, so the order of the options matters. */
  lemma ModifierOrderMatters()
    ensures
      var fixed := ProductOption("f", "g", true, FixedCents, 500);
      var pct := ProductOption("p", "g", true, Percent, 10);
      && ApplyModifiers(None, 1000, [fixed, pct]) == Ok(1650)
      && ApplyModifiers(None, 1000, [pct, fixed]) == Ok(1600)
  {
    var fixed := ProductOption("f", "g", true, FixedCents, 500);
    var pct := ProductOption("p", "g", true, Percent, 10);
    JsRoundUnique((1500 * 10) as real / 100.0, 150);
    JsRoundUnique((1000 * 10) as real / 100.0, 100);
    assert ApplyModifiers(None, 1650, []) == Ok(1650);
    assert ApplyModifiers(None, 1500, [pct]) == ApplyModifiers(None, 1650, []);
    assert [fixed, pct][1..] == [pct];
    assert ApplyModifiers(None, 1000, [fixed, pct]) == ApplyModifiers(None, 1500, [pct]);
    assert ApplyModifiers(None, 1600, []) == Ok(1600);
    assert ApplyModifiers(None, 1100, [fixed]) == ApplyModifiers(None, 1600, []);
    assert [pct, fixed][1..] == [fixed];
    assert ApplyModifiers(None, 1000, [pct, fixed]) == ApplyModifiers(None, 1100, [fixed]);
  }

  /**
   * A UNIT item is priced from `baseUnitPriceCents` pushed through the
   * selected options in order, floored at the minimum price; it succeeds for
   * any active product whose base is set and whose options hold no active
   * PER_M2_CENTS one.
   */
  lemma UnitPriceWithOptions(
    p: Product, selected: seq<ProductOption>, width: Option<int>, height: Option<int>, quantity: int)
    requires p.active && p.pricingModel == Unit && p.baseUnitPriceCents.Some?
    requires !HasActivePerM2(selected)
    ensures var v := ApplyModifiers(None, p.baseUnitPriceCents.value, selected);
      && v.Ok?
      && var unit := if p.minPriceCents.Some? then Max(v.value, p.minPriceCents.value) else v.value;
         CalculateItemPrice(p, selected, width, height, quantity) == Ok(PriceResult(unit, unit * quantity, None))
  {
    assert Priceable(p, selected, width, height);
  }

  /**
   * A 1000-cent UNIT product with a fixed +500 and a 10 % option, two units
   * and a 1200 minimum: 1000 + 500 = 1500, then + round(150) = 1650 per unit.
   */
  lemma UnitWithOptionsExample()
    ensures
      var fixed := ProductOption("f", "g", true, FixedCents, 500);
      var pct := ProductOption("p", "g", true, Percent, 10);
      var mug := Product("m", "Caneca", true, Unit, CM, None, None, None, None, None, None, Some(1200),
                         Some(1000), None, None, []);
      CalculateItemPrice(mug, [fixed, pct], None, None, 2) == Ok(PriceResult(1650, 3300, None))
  {
    var fixed := ProductOption("f", "g", true, FixedCents, 500);
    var pct := ProductOption("p", "g", true, Percent, 10);
    var mug := Product("m", "Caneca", true, Unit, CM, None, None, None, None, None, None, Some(1200),
                       Some(1000), None, None, []);
    ModifierOrderMatters();
    UnitPriceWithOptions(mug, [fixed, pct], None, None, 2);
  }

  /** A UNIT product's price does not depend on the width or height sent. */
  lemma UnitIgnoresDimensions(
    p: Product, selected: seq<ProductOption>, w1: Option<int>, h1: Option<int>, w2: Option<int>, h2: Option<int>, quantity: int)
    requires p.pricingModel == Unit
    ensures CalculateItemPrice(p, selected, w1, h1, quantity) == CalculateItemPrice(p, selected, w2, h2, quantity)
  {
  }

  /**
   * A LINEAR_M product never prices the height: two requests with the same
   * width that are both accepted get the same unit price.
   */
  lemma LinearIgnoresHeight(
    p: Product, selected: seq<ProductOption>, w: Option<int>, h1: Option<int>, h2: Option<int>, quantity: int)
    requires p.pricingModel == LinearM
    requires CalculateItemPrice(p, selected, w, h1, quantity).Ok?
    requires CalculateItemPrice(p, selected, w, h2, quantity).Ok?
    ensures CalculateItemPrice(p, selected, w, h1, quantity).value.unitPriceCents
         == CalculateItemPrice(p, selected, w, h2, quantity).value.unitPriceCents
  {
    assert DimensionsAcceptable(p, w, h1) && DimensionsAcceptable(p, w, h2);
    assert BasePrice(p, w, h1) == BasePrice(p, w, h2);
    assert Subtotal(p, selected, w, h1) == Subtotal(p, selected, w, h2);
  }

  /** The quantity only multiplies: it never changes whether pricing succeeds nor the unit price. */
  lemma QuantityOnlyMultiplies(
    p: Product, selected: seq<ProductOption>, w: Option<int>, h: Option<int>, q1: int, q2: int)
    ensures CalculateItemPrice(p, selected, w, h, q1).Ok? <==> CalculateItemPrice(p, selected, w, h, q2).Ok?
    ensures CalculateItemPrice(p, selected, w, h, q1).Ok? ==>
      CalculateItemPrice(p, selected, w, h, q1).value.unitPriceCents
        == CalculateItemPrice(p, selected, w, h, q2).value.unitPriceCents
  {
  }

  /** The minimum price plays no part before the floor: the subtotal does not depend on it. */
  lemma SubtotalIgnoresMinPrice(
    p: Product, selected: seq<ProductOption>, w: Option<int>, h: Option<int>, m: Option<int>)
    ensures Subtotal(p.(minPriceCents := m), selected, w, h) == Subtotal(p, selected, w, h)
  {
    var q := p.(minPriceCents := m);
    DimensionsIgnoreMinPrice(p, w, h, m);
    if p.pricingModel != QuoteOnly && DimensionsAcceptable(p, w, h) {
      BaseIgnoresMinPrice(p, w, h, m);
    }
    if p.pricingModel == AreaM2 && w.Some? && h.Some? {
      AreaIgnoresMinPrice(p, w.value, h.value, m);
    }
  }

  lemma DimensionsIgnoreMinPrice(p: Product, w: Option<int>, h: Option<int>, m: Option<int>)
    ensures DimensionViolation(p.(minPriceCents := m), w, h) == DimensionViolation(p, w, h)
  {
  }

  lemma BaseIgnoresMinPrice(p: Product, w: Option<int>, h: Option<int>, m: Option<int>)
    requires p.pricingModel != QuoteOnly && DimensionsAcceptable(p, w, h)
    ensures DimensionsAcceptable(p.(minPriceCents := m), w, h)
    ensures BasePrice(p.(minPriceCents := m), w, h) == BasePrice(p, w, h)
  {
    var q := p.(minPriceCents := m);
    AcceptableIgnoresMinPrice(p, w, h, m);
    var bq, bp := BasePrice(q, w, h), BasePrice(p, w, h);
    if p.pricingModel == AreaM2 {
      AreaIgnoresMinPrice(p, w.value, h.value, m);
    }
    if bp.Ok? {
      assert bq == Ok(bq.value) && bp == Ok(bp.value);
      assert bq.value == bp.value;
    } else {
      assert bq == Err(bq.error) && bp == Err(bp.error);
    }
  }

  lemma AcceptableIgnoresMinPrice(p: Product, w: Option<int>, h: Option<int>, m: Option<int>)
    ensures DimensionsAcceptable(p.(minPriceCents := m), w, h) == DimensionsAcceptable(p, w, h)
  {
  }

  lemma AreaIgnoresMinPrice(p: Product, w: int, h: int, m: Option<int>)
    ensures var q := p.(minPriceCents := m);
            BillableArea(q, RawArea(q, w, h)) == BillableArea(p, RawArea(p, w, h))
  {
  }

  /**
   * The minimum price is a floor applied last: with it the unit price is the
   * larger of the minimum and the price the same product would have without it.
   */
  lemma MinPriceIsFloor(
    p: Product, selected: seq<ProductOption>, w: Option<int>, h: Option<int>, quantity: int, minPrice: int)
    requires p.minPriceCents == None
    ensures
      var without := CalculateItemPrice(p, selected, w, h, quantity);
      var with := CalculateItemPrice(p.(minPriceCents := Some(minPrice)), selected, w, h, quantity);
      && (without.Ok? <==> with.Ok?)
      && (without.Ok? ==> with.value.unitPriceCents == Max(without.value.unitPriceCents, minPrice))
  {
    SubtotalIgnoresMinPrice(p, selected, w, h, Some(minPrice));
  }

  lemma AreaSubtotalNoOptions(p: Product, width: int, height: int)
    requires p.active && p.pricingModel == AreaM2 && p.baseM2PriceCents.Some?
    requires DimensionsAcceptable(p, Some(width), Some(height))
    ensures Subtotal(p, [], Some(width), Some(height)).Ok?
    ensures Subtotal(p, [], Some(width), Some(height)).value
         == JsRound(p.baseM2PriceCents.value as real * BillableArea(p, RawArea(p, width, height)))
  {
    var b := BasePrice(p, Some(width), Some(height));
    assert b == Ok(b.value);
  }

  /**
   * The AREA_M2 formula with no options: the base price per m² times the
   * billable area (the raw area, or the minimum area when that is set and
   * larger), rounded, then floored at the minimum price; the reported area is
   * the raw one.
   */
  lemma AreaPriceFormula(p: Product, width: int, height: int, quantity: int)
    requires p.active && p.pricingModel == AreaM2 && p.baseM2PriceCents.Some?
    requires DimensionsAcceptable(p, Some(width), Some(height))
    ensures
      var raw := RawArea(p, width, height);
      var base := JsRound(p.baseM2PriceCents.value as real * BillableArea(p, raw));
      var unit := if p.minPriceCents.Some? && p.minPriceCents.value > base then p.minPriceCents.value else base;
      CalculateItemPrice(p, [], Some(width), Some(height), quantity)
        == Ok(PriceResult(unit, unit * quantity, Some(raw)))
  {
    AreaSubtotalNoOptions(p, width, height);
    var c := CalculateItemPrice(p, [], Some(width), Some(height), quantity);
    assert c == Ok(c.value);
  }

  /** The LINEAR_M formula with no options: the base price per metre times the width in metres, rounded. */
  lemma LinearPriceFormula(p: Product, width: int, height: Option<int>, quantity: int)
    requires p.active && p.pricingModel == LinearM && p.baseLinearMPriceCents.Some? && p.minPriceCents.None?
    requires DimensionsAcceptable(p, Some(width), height)
    ensures
      var base := JsRound(p.baseLinearMPriceCents.value as real * ToMeters(width, p.dimensionUnit));
      CalculateItemPrice(p, [], Some(width), height, quantity) == Ok(PriceResult(base, base * quantity, None))
  {
    var base := JsRound(p.baseLinearMPriceCents.value as real * ToMeters(width, p.dimensionUnit));
    var b := BasePrice(p, Some(width), height);
    assert b == Ok(b.value);
    assert b.value == base;
    assert ApplyModifiers(None, base, []) == Ok(base);
    assert Subtotal(p, [], Some(width), height) == Ok(base);
    var c := CalculateItemPrice(p, [], Some(width), height, quantity);
    assert c == Ok(c.value);
  }
}
