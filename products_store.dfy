/**
 * The shop front's product list kept in the browser's storage. Creating
 * prepends, updating replaces the record where it is, deleting filters. Ids
 * and timestamps are parameters.
 */
module ProductsStore {
  import opened Wrappers
  import opened Json
  import opened Strings
  import opened Numbers
  import opened Lists
  import opened StoredLists

  /** `x.trim()` on a value that is not a string throws a TypeError. */
  datatype StoreError = TypeError

  /** `x?.trim()` can run: the value is `undefined`, `null` or a string. */
  predicate OptionalText(v: Option<Value>) {
    v.None? || v.value == Null || v.value.Str?
  }

  /** `x.trim()` can run: the value is a string. */
  predicate RequiredText(v: Option<Value>) {
    v.Some? && v.value.Str?
  }

  /** `Number(x || 0)`; NaN is stored as `null`, as `JSON.stringify` writes it. */
  function NumberOrZero(x: Option<Value>): (r: Value)
    ensures !(x.Some? && Truthy(x.value)) ==> r == Num(0.0)
    ensures x.Some? && x.value.Num? ==> r == x.value
    ensures r.Num? || r == Null
  {
    var v := OrElse(x, Some(Num(0.0))).value;
    match ToNumber(v)
    case Some(n) => Num(n)
    case None => Null
  }

  const ProductKeys: set<string> :=
    {"id", "title", "category", "categoryLabel", "desc", "priceFrom", "imageUrl", "active", "featured", "createdAt", "updatedAt"}

  /** Field `k` of the record `createProduct` builds; `None` is an `undefined` field. */
  function NewProductField(payload: Object, id: Value, now: Value, k: string): Option<Value> {
    if k == "id" then Some(id)
    else if k == "title" then Some(Str(Trim(TextOf(Get(payload, "title")))))
    else if k == "category" then Get(payload, "category")
    else if k == "categoryLabel" then OrElse(Get(payload, "categoryLabel"), Get(payload, "category"))
    else if k == "desc" then Some(Str(Trim(TextOf(Get(payload, "desc")))))
    else if k == "priceFrom" then Some(NumberOrZero(Get(payload, "priceFrom")))
    else if k == "imageUrl" then Some(Str(Trim(TextOf(Get(payload, "imageUrl")))))
    else if k == "active" then Some(Bool(TruthyAt(payload, "active")))
    else if k == "featured" then Some(Bool(TruthyAt(payload, "featured")))
    else if k == "createdAt" || k == "updatedAt" then Some(now)
    else None
  }

  /**
   * The record `createProduct` builds: trimmed title, description and image
   * (missing ones become ""), the label defaulting to the category, a
   * numeric price and boolean flags; no other payload field is kept.
   */
  function NewProduct(payload: Object, id: Value, now: Value): (r: Object)
    ensures r.Keys <= ProductKeys
    ensures forall k :: Get(r, k) == if k in ProductKeys then NewProductField(payload, id, now, k) else None
  {
    map k | k in ProductKeys && NewProductField(payload, id, now, k).Some? :: NewProductField(payload, id, now, k).value
  }

  /** The fields `updateProduct` normalises when the patch has them (not null). */
  const NormalisedKeys: set<string> := {"title", "desc", "imageUrl", "priceFrom", "active", "featured"}

  /**
   * A normalised patch field: `Number(x || 0)` for the price, `!!x` for the
   * flags, `x.trim()` for the texts.
   */
  function Normalised(patch: Object, k: string): Value {
    if k == "priceFrom" then NumberOrZero(Get(patch, k))
    else if k == "active" || k == "featured" then Bool(TruthyAt(patch, k))
    else Str(Trim(TextOf(Get(patch, k))))
  }

  /** Field `k` of the product `updateProduct` writes; `None` is an `undefined` field. */
  function UpdatedProductField(current: Object, patch: Object, now: Value, k: string): Option<Value> {
    if k == "updatedAt" then Some(now)
    else if k in NormalisedKeys then PatchedOr(patch, current, k, Normalised(patch, k))
    else if k in patch then Get(patch, k)
    else Get(current, k)
  }

  /** The product `updateProduct` writes: the record spread with the patch, then the normalised fields. */
  function UpdatedProduct(current: Object, patch: Object, now: Value): (r: Object)
    ensures forall k :: Get(r, k) == UpdatedProductField(current, patch, now, k)
  {
    map k | k in current.Keys + patch.Keys + {"updatedAt"} && UpdatedProductField(current, patch, now, k).Some?
          :: UpdatedProductField(current, patch, now, k).value
  }

  /** The patch fields `updateProduct` trims can be trimmed. */
  predicate TrimmablePatch(patch: Object) {
    && (PresentAt(patch, "title") ==> patch["title"].Str?)
    && (PresentAt(patch, "desc") ==> patch["desc"].Str?)
    && (PresentAt(patch, "imageUrl") ==> patch["imageUrl"].Str?)
  }

  /** `p.active` is truthy. */
  predicate IsActive(p: Object) {
    TruthyAt(p, "active")
  }

  /** `list.filter((p) => p.active)`. */
  function ActiveOnly(list: seq<Object>): (r: seq<Object>)
    ensures forall p :: p in r <==> p in list && IsActive(p)
  {
    Filter(list, IsActive)
  }

  class ProductStore {
    /** The parsed contents of the storage key (a missing or unreadable value reads as []). */
    var records: seq<Object>

    constructor (stored: seq<Object>)
      ensures records == stored
    {
      records := stored;
    }

    /**
     * `seedProductsIfEmpty(initial)`: a non-empty list is left alone;
     * otherwise `initial` is stored, or the built-in sample products when
     * `initial` is empty (a parameter here, built with fresh ids and the clock).
     */
    method SeedIfEmpty(initial: seq<Object>, samples: seq<Object>) returns (r: seq<Object>)
      modifies this
      ensures old(records) != [] ==> records == old(records) && r == old(records)
      ensures old(records) == [] ==> records == r == (if initial != [] then initial else samples)
    {
      if records != [] {
        return records;
      }
      r := if initial != [] then initial else samples;
      records := r;
    }

    /** `createProduct(payload)`: the new product goes first and nothing else changes. */
    method CreateProduct(payload: Object, id: Value, now: Value) returns (r: Result<Object, StoreError>)
      modifies this
      ensures r.Err? <==> !(RequiredText(Get(payload, "title")) && OptionalText(Get(payload, "desc"))
                            && OptionalText(Get(payload, "imageUrl")))
      ensures r.Err? ==> records == old(records)
      ensures r.Ok? ==> r.value == NewProduct(payload, id, now) && records == [r.value] + old(records)
    {
      if !(RequiredText(Get(payload, "title")) && OptionalText(Get(payload, "desc")) && OptionalText(Get(payload, "imageUrl"))) {
        return Err(TypeError);
      }
      var item := NewProduct(payload, id, now);
      records := [item] + records;
      return Ok(item);
    }

    /**
     * `updateProduct(id, patch)`: `Ok(None)` for an unknown id; otherwise the
     * product is replaced where it is, and nothing else changes.
     */
    method UpdateProduct(id: Option<Value>, patch: Object, now: Value) returns (r: Result<Option<Object>, StoreError>)
      modifies this
      ensures IndexOfId(old(records), id) < 0 ==> r == Ok(None)
      ensures r.Ok? && r.value.None? <==> IndexOfId(old(records), id) < 0
      ensures r.Err? <==> 0 <= IndexOfId(old(records), id) && !TrimmablePatch(patch)
      ensures !(r.Ok? && r.value.Some?) ==> records == old(records)
      ensures r.Ok? && r.value.Some? ==>
                var i := IndexOfId(old(records), id);
                && 0 <= i
                && r.value.value == UpdatedProduct(old(records)[i], patch, now)
                && records == old(records)[i := r.value.value]
    {
      var i := IndexOfId(records, id);
      if i < 0 {
        return Ok(None);
      }
      if !TrimmablePatch(patch) {
        return Err(TypeError);
      }
      var updated := UpdatedProduct(records[i], patch, now);
      records := records[i := updated];
      return Ok(Some(updated));
    }

    /** `deleteProduct(id)`: every product with that id goes, the others stay in order. */
    method DeleteProduct(id: Option<Value>)
      modifies this
      ensures records == WithoutId(old(records), id)
      ensures IdsUnique(old(records)) ==> IdsUnique(records)
    {
      if IdsUnique(records) {
        WithoutIdKeepsDistinct(records, id, IdOf);
      }
      records := WithoutId(records, id);
    }

    /** `getActiveProducts()`. */
    function GetActiveProducts(): (r: seq<Object>)
      reads this
      ensures forall p :: p in r <==> p in records && IsActive(p)
    {
      ActiveOnly(records)
    }
  }

  // ---------------------------------------------------------------------
  // Properties
  // ---------------------------------------------------------------------

  /** A created product keeps its id, gets a trimmed title and carries the same timestamp twice. */
  lemma NewProductStamps(payload: Object, id: Value, now: Value, title: string)
    requires Get(payload, "title") == Some(Str(title))
    ensures var r := NewProduct(payload, id, now);
      && Get(r, "id") == Some(id)
      && Get(r, "title") == Some(Str(Trim(title)))
      && Get(r, "createdAt") == Get(r, "updatedAt") == Some(now)
  {
    assert "id" in ProductKeys && "title" in ProductKeys;
    assert "createdAt" in ProductKeys && "updatedAt" in ProductKeys;
    assert TextOf(Get(payload, "title")) == title;
    assert NewProductField(payload, id, now, "title") == Some(Str(Trim(title)));
    assert NewProductField(payload, id, now, "createdAt") == Some(now);
    assert NewProductField(payload, id, now, "updatedAt") == Some(now);
  }

  /**
   * A created product's label falls back to the category, a missing
   * description becomes "", a missing or falsy price becomes 0, and the
   * flags are booleans.
   */
  lemma NewProductDefaults(payload: Object, id: Value, now: Value)
    ensures var r := NewProduct(payload, id, now);
      && Get(r, "categoryLabel") == OrElse(Get(payload, "categoryLabel"), Get(payload, "category"))
      && (!PresentAt(payload, "desc") ==> Get(r, "desc") == Some(Str("")))
      && (!TruthyAt(payload, "priceFrom") ==> Get(r, "priceFrom") == Some(Num(0.0)))
      && Get(r, "active") == Some(Bool(TruthyAt(payload, "active")))
      && Get(r, "featured") == Some(Bool(TruthyAt(payload, "featured")))
  {
    NewProductLabel(payload, id, now);
    NewProductDesc(payload, id, now);
    NewProductPrice(payload, id, now);
    NewProductActive(payload, id, now);
    NewProductFeatured(payload, id, now);
  }

  /** The record's field names of equal length differ in their first letter. */
  lemma FieldNamesDiffer()
    ensures "category" != "imageUrl" && "category" != "featured" && "imageUrl" != "featured"
    ensures "priceFrom" != "createdAt" && "priceFrom" != "updatedAt" && "createdAt" != "updatedAt"
  {
    assert "category"[0] != "imageUrl"[0] && "category"[0] != "featured"[0] && "imageUrl"[0] != "featured"[0];
    assert "priceFrom"[0] != "createdAt"[0] && "priceFrom"[0] != "updatedAt"[0] && "createdAt"[0] != "updatedAt"[0];
  }

  lemma NewProductLabel(payload: Object, id: Value, now: Value)
    ensures Get(NewProduct(payload, id, now), "categoryLabel") == OrElse(Get(payload, "categoryLabel"), Get(payload, "category"))
  {
    assert NewProductField(payload, id, now, "categoryLabel") == OrElse(Get(payload, "categoryLabel"), Get(payload, "category"));
    assert "categoryLabel" in ProductKeys;
  }

  lemma NewProductDesc(payload: Object, id: Value, now: Value)
    ensures !PresentAt(payload, "desc") ==> Get(NewProduct(payload, id, now), "desc") == Some(Str(""))
  {
    var text := Trim(TextOf(Get(payload, "desc")));
    assert Get(NewProduct(payload, id, now), "desc") == Some(Str(text)) by {
      assert "desc" in ProductKeys;
      assert NewProductField(payload, id, now, "desc") == Some(Str(text));
    }
    if !PresentAt(payload, "desc") {
      assert TextOf(Get(payload, "desc")) == "";
      assert Trim("") == "";
    }
  }

  lemma NewProductPrice(payload: Object, id: Value, now: Value)
    ensures !TruthyAt(payload, "priceFrom") ==> Get(NewProduct(payload, id, now), "priceFrom") == Some(Num(0.0))
  {
    var price := NumberOrZero(Get(payload, "priceFrom"));
    assert Get(NewProduct(payload, id, now), "priceFrom") == Some(price) by {
      assert "priceFrom" in ProductKeys;
      assert NewProductField(payload, id, now, "priceFrom") == Some(price);
    }
  }

  lemma NewProductActive(payload: Object, id: Value, now: Value)
    ensures Get(NewProduct(payload, id, now), "active") == Some(Bool(TruthyAt(payload, "active")))
  {
    assert NewProductField(payload, id, now, "active") == Some(Bool(TruthyAt(payload, "active"))) by {
      FieldNamesDiffer();
    }
    assert "active" in ProductKeys;
  }

  lemma NewProductFeatured(payload: Object, id: Value, now: Value)
    ensures Get(NewProduct(payload, id, now), "featured") == Some(Bool(TruthyAt(payload, "featured")))
  {
    assert NewProductField(payload, id, now, "featured") == Some(Bool(TruthyAt(payload, "featured"))) by {
      FieldNamesDiffer();
    }
    assert "featured" in ProductKeys;
  }

  /** A field the patch does not carry keeps its old value (only `updatedAt` is always rewritten). */
  lemma UpdateKeepsAbsentFields(current: Object, patch: Object, now: Value, k: string)
    requires k !in patch && k != "updatedAt"
    ensures Get(UpdatedProduct(current, patch, now), k) == Get(current, k)
  {
  }

  /** A patch field that is not normalised is taken as it is. */
  lemma UpdateTakesPlainFields(current: Object, patch: Object, now: Value, k: string)
    requires k in patch
    requires k !in NormalisedKeys && k != "updatedAt"
    ensures Get(UpdatedProduct(current, patch, now), k) == Some(patch[k])
  {
  }

  /** The active products of a list with a new product in front. */
  lemma ActiveAfterCreate(item: Object, list: seq<Object>)
    ensures ActiveOnly([item] + list) == (if IsActive(item) then [item] else []) + ActiveOnly(list)
  {
    assert ([item] + list)[1..] == list;
  }

  /** Listing the active products keeps their order: it works piece by piece. */
  lemma ActiveOnlyAppend(a: seq<Object>, b: seq<Object>)
    ensures ActiveOnly(a + b) == ActiveOnly(a) + ActiveOnly(b)
  {
    FilterAppend(a, b, IsActive);
  }
}
