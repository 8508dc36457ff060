/**
 * Catalog administration: the option-group rule check and the product
 * create / update / add-option-group operations over the product, stock and
 * option-group tables.
 */
module CatalogAdmin {
  import opened Wrappers
  import opened Errors
  import opened Json
  import opened Catalog
  import opened OptionSelection

  /** The rules an option group must meet once absent fields take their defaults (min 0, max 1, not required). */
  predicate GroupRulesHold(required: Option<bool>, minSelect: Option<int>, maxSelect: Option<int>) {
    var min := minSelect.GetOr(0);
    var max := maxSelect.GetOr(1);
    var req := required.GetOr(false);
    0 <= min <= max && (req ==> min >= 1)
  }

  /**
   * `validateGroupRules`: negative bounds, then max below min, then a
   * required group with min 0, each a Conflict.
   */
  function ValidateGroupRules(required: Option<bool>, minSelect: Option<int>, maxSelect: Option<int>): (r: Option<Error>)
    ensures r.None? <==> GroupRulesHold(required, minSelect, maxSelect)
    ensures r.Some? ==> r.value.status == Conflict
    ensures minSelect.GetOr(0) < 0 || maxSelect.GetOr(1) < 0 ==> r == Some(ConflictError(NegativeSelectBounds))
  {
    var min := minSelect.GetOr(0);
    var max := maxSelect.GetOr(1);
    var req := required.GetOr(false);
    if min < 0 || max < 0 then Some(ConflictError(NegativeSelectBounds))
    else if max < min then Some(ConflictError(MaxBelowMin))
    else if req && min == 0 then Some(ConflictError(RequiredNeedsMinSelect))
    else None
  }

  /**
   * An accepted group can always be satisfied at checkout: selecting nothing
   * passes exactly when it is optional with min 0, and selecting its lower
   * bound's worth of the group's options passes in every case.
   */
  lemma AcceptedGroupIsSatisfiable(g: OptionGroup, filler: ProductOption, k: nat)
    requires ValidateGroupRules(Some(g.required), Some(g.minSelect), Some(g.maxSelect)).None?
    requires filler.groupId == g.id
    requires k == MinRequired(g)
    ensures CheckGroups([g], []) == None <==> !g.required && g.minSelect == 0
    ensures CheckGroups([g], seq(k, _ => filler)) == None
  {
    var s := seq(k, _ => filler);
    assert GroupCount(s, g.id) == k by {
      CountOfCopies(filler, k, g.id);
    }
  }

  lemma {:induction false} CountOfCopies(o: ProductOption, k: nat, groupId: string)
    requires o.groupId == groupId
    ensures GroupCount(seq(k, _ => o), groupId) == k
  {
    if k > 0 {
      assert seq(k, _ => o)[1..] == seq(k - 1, _ => o);
      CountOfCopies(o, k - 1, groupId);
    }
  }

  datatype ProductRow = ProductRow(id: string, name: string, slug: string, attributes: map<string, Value>)

  /** The create body: name, optional slug, and every other column as given. */
  datatype ProductPayload = ProductPayload(name: string, slug: Option<string>, attributes: map<string, Value>)

  /** The update body: every field optional. */
  datatype ProductPatch = ProductPatch(name: Option<string>, slug: Option<string>, attributes: map<string, Value>)

  datatype GroupPayload = GroupPayload(name: string, required: Option<bool>, minSelect: Option<int>, maxSelect: Option<int>)

  datatype GroupRow = GroupRow(productId: string, payload: GroupPayload)

  /** `payload.slug ? makeSlug(payload.slug) : makeSlug(payload.name)` */
  function CreateSlug(payload: ProductPayload, makeSlug: string -> string): string {
    if payload.slug.Some? && payload.slug.value != "" then makeSlug(payload.slug.value) else makeSlug(payload.name)
  }

  /**
   * The slug an update leaves: a non-empty one is normalised; an empty one is
   * still copied by the spread of the body; an absent one keeps the old slug.
   */
  function UpdatedSlug(current: string, patch: ProductPatch, makeSlug: string -> string): string {
    match patch.slug
    case None => current
    case Some(s) => if s != "" then makeSlug(s) else s
  }

  /** Some product other than `except` already uses `slug`. */
  predicate SlugUsedByOther(rows: map<string, ProductRow>, slug: string, except: Option<string>) {
    exists id :: id in rows && rows[id].slug == slug && Some(id) != except
  }

  class ProductCatalog {
    var rows: map<string, ProductRow>
    var stock: map<string, int>
    var groups: seq<GroupRow>

    /** Rows are keyed by id and slugs are unique (the column is unique). */
    predicate Valid()
      reads this
    {
      && (forall id :: id in rows ==> rows[id].id == id)
      && (forall a, b :: a in rows && b in rows && rows[a].slug == rows[b].slug ==> a == b)
    }

    constructor ()
      ensures Valid() && rows == map[] && stock == map[] && groups == []
    {
      rows := map[];
      stock := map[];
      groups := [];
    }

    /**
     * `create`: a taken slug is a Conflict and nothing is written; otherwise
     * the product is inserted under `newId` with a stock row of quantity 0.
     */
    method Create(payload: ProductPayload, newId: string, makeSlug: string -> string) returns (r: Result<ProductRow, Error>)
      requires Valid() && newId !in rows
      modifies this
      ensures Valid()
      ensures groups == old(groups)
      ensures var slug := CreateSlug(payload, makeSlug);
        (exists id :: id in old(rows) && old(rows)[id].slug == slug) ==>
          r == Err(ConflictError(SlugTaken)) && rows == old(rows) && stock == old(stock)
      ensures var slug := CreateSlug(payload, makeSlug);
        (forall id :: id in old(rows) ==> old(rows)[id].slug != slug) ==>
          && r == Ok(ProductRow(newId, payload.name, slug, payload.attributes))
          && rows == old(rows)[newId := r.value]
          && stock == old(stock)[newId := 0]
    {
      var slug := CreateSlug(payload, makeSlug);
      if SlugUsedByOther(rows, slug, None) {
        return Err(ConflictError(SlugTaken));
      }
      var row := ProductRow(newId, payload.name, slug, payload.attributes);
      rows := rows[newId := row];
      stock := stock[newId := 0];
      r := Ok(row);
    }

    /**
     * `update`: an unknown id is NotFound; a non-empty new slug is rejected
     * only when a different product owns it; otherwise the patch is applied.
     */
    method Update(id: string, patch: ProductPatch, makeSlug: string -> string) returns (r: Result<ProductRow, Error>)
      requires Valid()
      modifies this
      ensures stock == old(stock) && groups == old(groups)
      ensures patch.slug != Some("") ==> Valid()
      ensures id !in old(rows) ==> r == Err(NotFoundError(ProductNotFound)) && rows == old(rows)
      ensures id in old(rows) && patch.slug.Some? && patch.slug.value != "" ==>
        var slug := makeSlug(patch.slug.value);
        ((exists other :: other in old(rows) && other != id && old(rows)[other].slug == slug) <==> r.Err?)
      ensures r.Ok? <==> id in old(rows) && !(patch.slug.Some? && patch.slug.value != ""
                                               && SlugUsedByOther(old(rows), makeSlug(patch.slug.value), Some(id)))
      ensures r.Err? && id in old(rows) ==> r == Err(ConflictError(SlugTaken))
      ensures r.Err? ==> rows == old(rows)
      ensures r.Ok? ==> id in old(rows) && rows == old(rows)[id := r.value]
      ensures r.Ok? ==>
        var current := old(rows)[id];
        r.value == ProductRow(id, patch.name.GetOr(current.name), UpdatedSlug(current.slug, patch, makeSlug),
                              Spread(current.attributes, patch.attributes))
    {
      if id !in rows {
        return Err(NotFoundError(ProductNotFound));
      }
      var current := rows[id];
      if patch.slug.Some? && patch.slug.value != "" {
        if SlugUsedByOther(rows, makeSlug(patch.slug.value), Some(id)) {
          return Err(ConflictError(SlugTaken));
        }
      }
      var row := ProductRow(id, patch.name.GetOr(current.name), UpdatedSlug(current.slug, patch, makeSlug),
                            Spread(current.attributes, patch.attributes));
      rows := rows[id := row];
      r := Ok(row);
    }

    /** `addOptionGroup`: an unknown product is NotFound before the rules are checked. */
    method AddOptionGroup(productId: string, payload: GroupPayload) returns (r: Result<GroupRow, Error>)
      modifies this
      ensures rows == old(rows) && stock == old(stock)
      ensures productId !in old(rows) ==> r == Err(NotFoundError(ProductNotFound)) && groups == old(groups)
      ensures productId in old(rows) && !GroupRulesHold(payload.required, payload.minSelect, payload.maxSelect) ==>
        r.Err? && r.error.status == Conflict && groups == old(groups)
      ensures r.Ok? <==> productId in old(rows) && GroupRulesHold(payload.required, payload.minSelect, payload.maxSelect)
      ensures r.Ok? ==> r.value == GroupRow(productId, payload) && groups == old(groups) + [r.value]
    {
      if productId !in rows {
        return Err(NotFoundError(ProductNotFound));
      }
      var problem := ValidateGroupRules(payload.required, payload.minSelect, payload.maxSelect);
      if problem.Some? {
        return Err(problem.value);
      }
      var row := GroupRow(productId, payload);
      groups := groups + [row];
      r := Ok(row);
    }
  }
}
