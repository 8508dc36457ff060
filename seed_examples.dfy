/** The seeded banner and sticker products, priced through the model. */
module SeedExamples {
  import opened Wrappers
  import opened Errors
  import opened Catalog
  import opened PriceCalculator
  import opened OptionSelection

  function Opt(id: string, groupId: string, t: ModifierType, v: int): ProductOption {
    ProductOption(id, groupId, true, t, v)
  }

  const Lona440 := Opt("lona440", "material", PerM2Cents, 0)
  const Lona280 := Opt("lona280", "material", PerM2Cents, -800)
  const Bastao := Opt("bastao", "acabamento", FixedCents, 1500)
  const Dobrado := Opt("dobrado", "acabamento", FixedCents, 0)
  const Ilhos := Opt("ilhos", "extras", FixedCents, 1200)
  const Reforco := Opt("reforco", "extras", FixedCents, 900)
  const Arte := Opt("arte", "extras", FixedCents, 5000)

  /** Banner in vinyl: AREA_M2 in cm, 20..500 × 20..300, step 1, at least 0.25 m² and 3500 cents, 6500 cents per m². */
  const Banner := Product(
    "banner", "Banner em Lona Vinil (Personalizado)", true, AreaM2, CM,
    Some(20), Some(500), Some(20), Some(300), Some(1), Some(0.25), Some(3500),
    None, Some(6500), None,
    [ OptionGroup("material", "Material", true, 1, 1, [Lona440, Lona280]),
      OptionGroup("acabamento", "Acabamento", true, 1, 1, [Bastao, Dobrado]),
      OptionGroup("extras", "Extras", false, 0, 3, [Ilhos, Reforco, Arte]) ])

  const LaminacaoFosca := Opt("fosca", "acab-adesivo", PerM2Cents, 2500)
  const LaminacaoBrilho := Opt("brilho", "acab-adesivo", PerM2Cents, 2200)
  const SemLaminacao := Opt("sem-laminacao", "acab-adesivo", PerM2Cents, 0)
  const Aplicacao := Opt("aplicacao", "aplicacao", FixedCents, 8000)

  /** Vinyl sticker: AREA_M2 in cm, 5..150 × 5..150, step 1, at least 0.10 m² and 2500 cents, 9000 cents per m². */
  const Sticker := Product(
    "adesivo", "Adesivo Vinil (Personalizado)", true, AreaM2, CM,
    Some(5), Some(150), Some(5), Some(150), Some(1), Some(0.10), Some(2500),
    None, Some(9000), None,
    [ OptionGroup("acab-adesivo", "Acabamento", true, 1, 1, [LaminacaoFosca, LaminacaoBrilho, SemLaminacao]),
      OptionGroup("aplicacao", "Aplicação", false, 0, 1, [Aplicacao]) ])

  /** A 1 m × 1 m banner in 440 g vinyl with pole and rope: 6500 + 0 + 1500. */
  lemma BannerOneSquareMetre()
    ensures CalculateItemPrice(Banner, [Lona440, Bastao], Some(100), Some(100), 1)
         == Ok(PriceResult(8000, 8000, Some(1.0)))
  {
    assert RawArea(Banner, 100, 100) == 1.0;
    assert BillableArea(Banner, 1.0) == 1.0;
    JsRoundUnique(6500.0, 6500);
    JsRoundUnique(0.0, 0);
    var b := BasePrice(Banner, Some(100), Some(100));
    assert b == Ok(b.value) && b.value == 6500;
    assert ApplyModifiers(Some(1.0), 8000, []) == Ok(8000);
    assert ApplyModifiers(Some(1.0), 6500, [Bastao]) == ApplyModifiers(Some(1.0), 8000, []);
    assert [Lona440, Bastao][1..] == [Bastao];
    assert ApplyModifiers(Some(1.0), 6500, [Lona440, Bastao]) == ApplyModifiers(Some(1.0), 6500, [Bastao]);
    var s := Subtotal(Banner, [Lona440, Bastao], Some(100), Some(100));
    assert s == Ok(8000);
    var c := CalculateItemPrice(Banner, [Lona440, Bastao], Some(100), Some(100), 1);
    assert c == Ok(c.value);
  }

  /**
   * A 20 cm × 20 cm banner in 280 g vinyl, folded: the area is floored at
   * 0.25 m² (1625), the negative per-m² option takes 200 off, and the result
   * is raised to the 3500 minimum; the reported area is the raw 0.04 m².
   */
  lemma SmallBannerHitsMinimums()
    ensures CalculateItemPrice(Banner, [Lona280, Dobrado], Some(20), Some(20), 2)
         == Ok(PriceResult(3500, 7000, Some(0.04)))
  {
    assert RawArea(Banner, 20, 20) == 0.04;
    assert BillableArea(Banner, 0.04) == 0.25;
    JsRoundUnique(1625.0, 1625);
    JsRoundUnique(-200.0, -200);
    var b := BasePrice(Banner, Some(20), Some(20));
    assert b == Ok(b.value) && b.value == 1625;
    assert ApplyModifiers(Some(0.25), 1425, []) == Ok(1425);
    assert ApplyModifiers(Some(0.25), 1425, [Dobrado]) == ApplyModifiers(Some(0.25), 1425, []);
    assert [Lona280, Dobrado][1..] == [Dobrado];
    assert ApplyModifiers(Some(0.25), 1625, [Lona280, Dobrado]) == ApplyModifiers(Some(0.25), 1425, [Dobrado]);
    var s := Subtotal(Banner, [Lona280, Dobrado], Some(20), Some(20));
    assert s == Ok(1425);
    var c := CalculateItemPrice(Banner, [Lona280, Dobrado], Some(20), Some(20), 2);
    assert c == Ok(c.value);
  }

  /** Ten 10 cm × 10 cm stickers: 0.01 m² billed as 0.10 m² (900), raised to 2500 each. */
  lemma TenSmallStickers()
    ensures CalculateItemPrice(Sticker, [SemLaminacao], Some(10), Some(10), 10)
         == Ok(PriceResult(2500, 25000, Some(0.01)))
  {
    assert RawArea(Sticker, 10, 10) == 0.01;
    assert BillableArea(Sticker, 0.01) == 0.10;
    JsRoundUnique(900.0, 900);
    JsRoundUnique(0.0, 0);
    var b := BasePrice(Sticker, Some(10), Some(10));
    assert b == Ok(b.value) && b.value == 900;
    assert ApplyModifiers(Some(0.10), 900, []) == Ok(900);
    assert ApplyModifiers(Some(0.10), 900, [SemLaminacao]) == ApplyModifiers(Some(0.10), 900, []);
    var s := Subtotal(Sticker, [SemLaminacao], Some(10), Some(10));
    assert s == Ok(900);
    var c := CalculateItemPrice(Sticker, [SemLaminacao], Some(10), Some(10), 10);
    assert c == Ok(c.value);
  }

  /** A 10 cm wide banner is below its 20 cm minimum width. */
  lemma NarrowBannerRejected()
    ensures CalculateItemPrice(Banner, [Lona440, Bastao], Some(10), Some(100), 1)
         == Err(BadRequestError(WidthBelowMin))
  {
  }

  /**
   * A sticker ordered with the application service but no finishing: the
   * unknown id is dropped and the required finishing group is reported.
   */
  lemma StickerWithoutFinishing()
    ensures PrepareItem(map["adesivo" := Sticker], ItemInput("adesivo", 1, Some(10), Some(10), Some(["aplicacao", "nope"])))
         == Err(BadRequestError(MissingOptions("Acabamento")))
  {
    var groups := Sticker.optionGroups;
    assert groups[1..][1..] == [];
    assert AllOptions(groups[1..]) == [Aplicacao];
    var all := AllOptions(groups);
    assert all == [LaminacaoFosca, LaminacaoBrilho, SemLaminacao, Aplicacao];
    assert all[3].id == "aplicacao";
    assert LookupOption(all, "aplicacao") == Some(Aplicacao);
    assert LookupOption(all, "nope") == None;
    assert ResolveOptions(all, ["aplicacao", "nope"]) == [Aplicacao];
    assert GroupCount([Aplicacao], "acab-adesivo") == 0;
  }
}
