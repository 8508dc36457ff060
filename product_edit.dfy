/**
 * The product editor's `cleanPayloadByPricingModel`: before a product is
 * saved, optional fields are made explicit (`null`) and only the base price
 * that belongs to the chosen pricing model is kept.
 */
module ProductEdit {
  import opened Wrappers
  import opened Json

  const BasePriceKeys: seq<string> := ["baseUnitPriceCents", "baseM2PriceCents", "baseLinearMPriceCents"]

  /** The pricing model whose base price is kept in each base-price field. */
  function ModelOf(key: string): string {
    if key == "baseUnitPriceCents" then "UNIT"
    else if key == "baseM2PriceCents" then "AREA_M2"
    else "LINEAR_M"
  }

  /** `k: v.k` in an object literal; an `undefined` value is left out of the sent JSON. */
  function Copied(v: Object, keys: set<string>): (r: Object)
    ensures r.Keys == keys * v.Keys
    ensures forall k :: k in r ==> r[k] == v[k]
  {
    map k | k in keys && k in v :: v[k]
  }

  /** `k: v.k ?? null` for each key. */
  function NullDefaults(v: Object, keys: set<string>): (r: Object)
    ensures r.Keys == keys
    ensures forall k :: k in r ==> r[k] == Coalesce(Get(v, k), Null)
  {
    map k | k in keys :: Coalesce(Get(v, k), Null)
  }

  /** `v.k ?? null` when the model owns the field `k`, `null` otherwise (QUOTE owns none). */
  function BasePrice(v: Object, key: string): (r: Value)
    ensures Get(v, "pricingModel") == Some(Str(ModelOf(key))) ==> r == Coalesce(Get(v, key), Null)
    ensures Get(v, "pricingModel") != Some(Str(ModelOf(key))) ==> r == Null
  {
    var model := Get(v, "pricingModel");
    var kept := Coalesce(Get(v, key), Null);
    var afterMismatch := if model != Some(Str(ModelOf(key))) then Null else kept;
    if model == Some(Str("QUOTE")) then Null else afterMismatch
  }

  /** Fields sent as the form holds them. */
  const CopiedKeys: set<string> := {"name", "slug", "pricingModel", "dimensionUnit"}

  /** Dimension bounds and minimums: `v.k ?? null`. */
  const BoundKeys: set<string> := {"minWidth", "maxWidth", "minHeight", "maxHeight", "step", "minAreaM2", "minPriceCents"}

  /** Fields with their own default, and the base prices. */
  const DefaultedKeys: set<string> :=
    {"description", "active", "categoryId", "baseUnitPriceCents", "baseM2PriceCents", "baseLinearMPriceCents"}

  /** The value a defaulted field takes: `v.k || null`, `v.active ?? true`, or the base price. */
  function DefaultedField(v: Object, k: string): Value {
    if k == "description" || k == "categoryId" then OrElse(Get(v, k), Some(Null)).value
    else if k == "active" then Coalesce(Get(v, "active"), Bool(true))
    else BasePrice(v, k)
  }

  function Defaulted(v: Object): (r: Object)
    ensures r.Keys == DefaultedKeys
    ensures r["description"] == (if TruthyAt(v, "description") then v["description"] else Null)
    ensures r["categoryId"] == (if TruthyAt(v, "categoryId") then v["categoryId"] else Null)
    ensures r["active"] == Coalesce(Get(v, "active"), Bool(true))
    ensures forall k :: k in BasePriceKeys ==> r[k] == BasePrice(v, k)
  {
    map k | k in DefaultedKeys :: DefaultedField(v, k)
  }

  /** `cleanPayloadByPricingModel(v)`. */
  function CleanPayload(v: Object): (r: Object)
    ensures r.Keys == (CopiedKeys * v.Keys) + BoundKeys + DefaultedKeys
    ensures forall k :: k in CopiedKeys ==> Get(r, k) == Get(v, k)
    ensures forall k :: k in BoundKeys ==> r[k] == Coalesce(Get(v, k), Null)
    ensures forall k :: k in DefaultedKeys ==> r[k] == Defaulted(v)[k]
  {
    var copied := Copied(v, CopiedKeys);
    var bounds := NullDefaults(v, BoundKeys);
    var defaulted := Defaulted(v);
    KeyGroupsDisjoint();
    MergeDisjoint(copied, bounds, defaulted);
    copied + bounds + defaulted
  }

  /** Merging three objects with disjoint keys keeps every field of each. */
  lemma MergeDisjoint(a: Object, b: Object, c: Object)
    requires a.Keys !! b.Keys && a.Keys !! c.Keys && b.Keys !! c.Keys
    ensures (a + b + c).Keys == a.Keys + b.Keys + c.Keys
    ensures forall k :: k in a ==> (a + b + c)[k] == a[k]
    ensures forall k :: k in b ==> (a + b + c)[k] == b[k]
    ensures forall k :: k in c ==> (a + b + c)[k] == c[k]
  {
  }

  lemma KeyGroupsDisjoint()
    ensures CopiedKeys !! BoundKeys && CopiedKeys !! DefaultedKeys && BoundKeys !! DefaultedKeys
  {
  }

  // ---------------------------------------------------------------------
  // Properties
  // ---------------------------------------------------------------------

  /** The base-price fields are defaulted fields, each kept for a different pricing model. */
  lemma BasePriceKeysFacts()
    ensures forall k :: k in BasePriceKeys ==> k in DefaultedKeys
    ensures forall a, b :: a in BasePriceKeys && b in BasePriceKeys && ModelOf(a) == ModelOf(b) ==> a == b
  {
  }

  /** A cleaned payload's base price is the one BasePrice keeps. */
  lemma CleanBasePrice(v: Object, k: string)
    requires k in BasePriceKeys
    ensures k in CleanPayload(v) && CleanPayload(v)[k] == BasePrice(v, k)
  {
    BasePriceKeysFacts();
    assert Defaulted(v)[k] == BasePrice(v, k);
  }

  /** At most one base price survives, and it is the one the pricing model uses. */
  lemma AtMostOneBasePrice(v: Object, k: string)
    requires k in BasePriceKeys && CleanPayload(v)[k] != Null
    ensures Get(v, "pricingModel") == Some(Str(ModelOf(k)))
    ensures forall other :: other in BasePriceKeys && other != k ==> CleanPayload(v)[other] == Null
  {
    CleanBasePrice(v, k);
    BasePriceKeysFacts();
    forall other | other in BasePriceKeys && other != k
      ensures CleanPayload(v)[other] == Null
    {
      CleanBasePrice(v, other);
    }
  }

  /** A QUOTE product is saved without any base price. */
  lemma QuoteClearsBasePrices(v: Object)
    requires Get(v, "pricingModel") == Some(Str("QUOTE"))
    ensures forall k :: k in BasePriceKeys ==> CleanPayload(v)[k] == Null
  {
    forall k | k in BasePriceKeys ensures CleanPayload(v)[k] == Null {
      assert ModelOf(k) != "QUOTE";
    }
  }

  /** Cleaning a cleaned payload changes nothing. */
  lemma CleanIdempotent(v: Object)
    ensures CleanPayload(CleanPayload(v)) == CleanPayload(v)
  {
    var c := CleanPayload(v);
    var cc := CleanPayload(c);
    assert Get(c, "pricingModel") == Get(v, "pricingModel") by {
      assert "pricingModel" in CopiedKeys;
    }
    DefaultedIdempotent(v, c);
    forall k | k in c ensures k in cc && cc[k] == c[k] {
      CleanFieldStable(v, k);
    }
    SameObject(cc, c);
  }

  /** Each field of a cleaned payload survives a second cleaning. */
  lemma CleanFieldStable(v: Object, k: string)
    requires k in CleanPayload(v)
    requires Defaulted(CleanPayload(v)) == Defaulted(v)
    ensures k in CleanPayload(CleanPayload(v)) && CleanPayload(CleanPayload(v))[k] == CleanPayload(v)[k]
  {
    var c := CleanPayload(v);
    if k in CopiedKeys {
      assert Get(CleanPayload(c), k) == Get(c, k);
    }
  }

  /** The defaulted fields of a cleaned payload clean to themselves. */
  lemma DefaultedIdempotent(v: Object, c: Object)
    requires c == CleanPayload(v)
    requires Get(c, "pricingModel") == Get(v, "pricingModel")
    ensures Defaulted(c) == Defaulted(v)
  {
    var d, dc := Defaulted(v), Defaulted(c);
    forall k | k in BasePriceKeys ensures dc[k] == d[k] {
      if Get(v, "pricingModel") == Some(Str(ModelOf(k))) {
        assert k in DefaultedKeys;
        assert c[k] == Coalesce(Get(v, k), Null);
      }
    }
    assert "description" in DefaultedKeys && "categoryId" in DefaultedKeys && "active" in DefaultedKeys;
    assert c["description"] == d["description"];
    assert c["categoryId"] == d["categoryId"];
    assert c["active"] == d["active"] != Null;
    DefaultedExt(d, dc);
  }

  /** Two objects over the defaulted keys that agree on each of them are equal. */
  lemma DefaultedExt(a: Object, b: Object)
    requires a.Keys == b.Keys == DefaultedKeys
    requires a["description"] == b["description"] && a["active"] == b["active"] && a["categoryId"] == b["categoryId"]
    requires forall k :: k in BasePriceKeys ==> a[k] == b[k]
    ensures a == b
  {
    forall k | k in DefaultedKeys ensures a[k] == b[k] {
      if k !in {"description", "active", "categoryId"} {
        assert k == BasePriceKeys[0] || k == BasePriceKeys[1] || k == BasePriceKeys[2];
      }
    }
  }
}
