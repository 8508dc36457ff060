/**
 * The per-item preparation shared by the sale and quote workflows: look the
 * product up, reject an inactive one, resolve the selected option ids against
 * the product's options and check every option group's selection count.
 */
module OptionSelection {
  import opened Wrappers
  import opened Errors
  import opened Catalog

  /** One requested line: product, quantity, optional dimensions and option ids (absent ids mean none). */
  datatype ItemInput = ItemInput(
    productId: string,
    quantity: int,
    width: Option<int>,
    height: Option<int>,
    optionIds: Option<seq<string>>)

  /** `optionIds ?? []` */
  function RequestedIds(item: ItemInput): seq<string> {
    item.optionIds.GetOr([])
  }

  /** `product.optionGroups.flatMap(g => g.options)`: every option, group by group. */
  function AllOptions(groups: seq<OptionGroup>): (r: seq<ProductOption>)
    ensures forall g, o :: g in groups && o in g.options ==> o in r
    ensures forall o :: o in r ==> exists g :: g in groups && o in g.options
  {
    if groups == [] then [] else groups[0].options + AllOptions(groups[1..])
  }

  predicate HasId(all: seq<ProductOption>, id: string) {
    exists i :: 0 <= i < |all| && all[i].id == id
  }

  /**
   * `optionById.get(id)` for the map built from `all`: when several options
   * share an id the last one wins, as `new Map(entries)` keeps the last entry.
   */
  function LookupOption(all: seq<ProductOption>, id: string): (r: Option<ProductOption>)
    ensures r.None? <==> !HasId(all, id)
    ensures r.Some? ==> exists i :: 0 <= i < |all| && all[i] == r.value && r.value.id == id
                          && forall j :: i < j < |all| ==> all[j].id != id
    decreases |all|
  {
    if all == [] then None
    else if all[|all| - 1].id == id then Some(all[|all| - 1])
    else
      var r := LookupOption(all[..|all| - 1], id);
      assert forall i :: 0 <= i < |all| - 1 ==> all[..|all| - 1][i] == all[i];
      r
  }

  /** `ids.map(id => optionById.get(id)).filter(Boolean)`: unknown ids dropped, repeats kept, order kept. */
  function ResolveOptions(all: seq<ProductOption>, ids: seq<string>): (r: seq<ProductOption>)
    ensures |r| <= |ids|
    ensures forall o :: o in r ==> o in all
    ensures forall o :: o in r ==> o.id in ids
  {
    if ids == [] then []
    else
      match LookupOption(all, ids[0])
      case None => ResolveOptions(all, ids[1..])
      case Some(o) => [o] + ResolveOptions(all, ids[1..])
  }

  /** `selectedOptions.filter(o => o.groupId === group.id).length` */
  function GroupCount(selected: seq<ProductOption>, groupId: string): (n: nat)
    ensures n <= |selected|
  {
    if selected == [] then 0
    else (if selected[0].groupId == groupId then 1 else 0) + GroupCount(selected[1..], groupId)
  }

  /** The lower bound a group imposes: at least one when required, otherwise `minSelect`. */
  function MinRequired(g: OptionGroup): (m: int)
    ensures g.required ==> m >= 1 && m >= g.minSelect
    ensures !g.required ==> m == g.minSelect
  {
    if g.required then (if g.minSelect >= 1 then g.minSelect else 1) else g.minSelect
  }

  predicate GroupSatisfied(g: OptionGroup, selected: seq<ProductOption>) {
    MinRequired(g) <= GroupCount(selected, g.id) <= g.maxSelect
  }

  /**
   * The group loop: the first group, in order, whose count is below its lower
   * bound or above `maxSelect` (the lower bound checked first), or None.
   */
  function CheckGroups(groups: seq<OptionGroup>, selected: seq<ProductOption>): (r: Option<Error>)
    ensures r.None? <==> forall i :: 0 <= i < |groups| ==> GroupSatisfied(groups[i], selected)
    ensures r.Some? ==> r.value.status == BadRequest
    ensures r.Some? ==> exists i :: 0 <= i < |groups| && !GroupSatisfied(groups[i], selected)
                          && (r.value.reason == MissingOptions(groups[i].name)
                              || r.value.reason == MaxSelectExceeded(groups[i].name))
  {
    if groups == [] then None
    else
      var g := groups[0];
      var n := GroupCount(selected, g.id);
      if n < MinRequired(g) then Some(BadRequestError(MissingOptions(g.name)))
      else if n > g.maxSelect then Some(BadRequestError(MaxSelectExceeded(g.name)))
      else
        var rest := CheckGroups(groups[1..], selected);
        assert forall i :: 1 <= i < |groups| ==> groups[i] == groups[1..][i - 1];
        rest
  }

  /**
   * Steps shared by `createSale` and `createQuote` for one item: the product
   * (NotFound when absent, BadRequest when inactive, both before any option
   * check), the resolved options, and the group-count check.
   */
  function PrepareItem(products: map<string, Product>, item: ItemInput)
    : (r: Result<(Product, seq<ProductOption>), Error>)
    ensures item.productId !in products ==> r == Err(NotFoundError(ProductNotFound))
    ensures item.productId in products && !products[item.productId].active ==>
      r == Err(BadRequestError(ProductInactive))
    ensures r.Err? ==> r.error.status == NotFound || r.error.status == BadRequest
    ensures r.Ok? ==>
      && item.productId in products
      && r.value.0 == products[item.productId]
      && r.value.0.active
      && r.value.1 == ResolveOptions(AllOptions(r.value.0.optionGroups), RequestedIds(item))
      && forall i :: 0 <= i < |r.value.0.optionGroups| ==> GroupSatisfied(r.value.0.optionGroups[i], r.value.1)
  {
    if item.productId !in products then Err(NotFoundError(ProductNotFound))
    else
      var p := products[item.productId];
      if !p.active then Err(BadRequestError(ProductInactive))
      else
        var selected := ResolveOptions(AllOptions(p.optionGroups), RequestedIds(item));
        match CheckGroups(p.optionGroups, selected)
        case Some(e) => Err(e)
        case None => Ok((p, selected))
  }

  /** Resolution works id by id: resolving a concatenation concatenates the results. */
  lemma {:induction false} ResolveAppend(all: seq<ProductOption>, a: seq<string>, b: seq<string>)
    ensures ResolveOptions(all, a + b) == ResolveOptions(all, a) + ResolveOptions(all, b)
    decreases |a|
  {
    if a != [] {
      assert (a + b)[0] == a[0] && (a + b)[1..] == a[1..] + b;
      ResolveAppend(all, a[1..], b);
      var head := if LookupOption(all, a[0]).Some? then [LookupOption(all, a[0]).value] else [];
      assert ResolveOptions(all, a) == head + ResolveOptions(all, a[1..]);
      assert ResolveOptions(all, a + b) == head + ResolveOptions(all, a[1..] + b);
    } else {
      assert a + b == b;
    }
  }

  /** Ids the product does not know are dropped silently. */
  lemma {:induction false} UnknownIdsDropped(all: seq<ProductOption>, ids: seq<string>)
    requires forall i :: 0 <= i < |ids| ==> !HasId(all, ids[i])
    ensures ResolveOptions(all, ids) == []
    decreases |ids|
  {
    if ids != [] {
      UnknownIdsDropped(all, ids[1..]);
    }
  }

  /** When every id is known, each one yields exactly one option with that id, in order. */
  lemma {:induction false} KnownIdsResolvePointwise(all: seq<ProductOption>, ids: seq<string>)
    requires forall i :: 0 <= i < |ids| ==> HasId(all, ids[i])
    ensures |ResolveOptions(all, ids)| == |ids|
    ensures forall i :: 0 <= i < |ids| ==> ResolveOptions(all, ids)[i] == LookupOption(all, ids[i]).value
    decreases |ids|
  {
    if ids != [] {
      KnownIdsResolvePointwise(all, ids[1..]);
    }
  }

  lemma {:induction false} GroupCountAppend(s: seq<ProductOption>, t: seq<ProductOption>, groupId: string)
    ensures GroupCount(s + t, groupId) == GroupCount(s, groupId) + GroupCount(t, groupId)
    decreases |s|
  {
    if s != [] {
      assert (s + t)[1..] == s[1..] + t;
      GroupCountAppend(s[1..], t, groupId);
    } else {
      assert s + t == t;
    }
  }

  /** A repeated id is kept twice, so it counts twice towards its group's limits. */
  lemma RepeatedIdCountsTwice(all: seq<ProductOption>, id: string)
    requires HasId(all, id)
    ensures var o := LookupOption(all, id).value;
            && ResolveOptions(all, [id, id]) == [o, o]
            && GroupCount(ResolveOptions(all, [id, id]), o.groupId) == 2
  {
    var o := LookupOption(all, id).value;
    assert [id, id][1..] == [id];
    assert ResolveOptions(all, [id]) == [o];
    assert [o, o][1..] == [o];
  }

  /** Inactive options still count: a required group is satisfied by selecting its inactive option. */
  lemma InactiveOptionSatisfiesGroup()
    ensures var off := ProductOption("o1", "g1", false, FixedCents, 100);
            var g := OptionGroup("g1", "Acabamento", true, 1, 1, [off]);
            CheckGroups([g], ResolveOptions(AllOptions([g]), ["o1"])) == None
  {
    var off := ProductOption("o1", "g1", false, FixedCents, 100);
    var g := OptionGroup("g1", "Acabamento", true, 1, 1, [off]);
    assert AllOptions([g]) == [off];
    assert LookupOption([off], "o1") == Some(off);
    assert ResolveOptions([off], ["o1"]) == [off];
  }
}
