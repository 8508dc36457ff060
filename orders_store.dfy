/**
 * The back office's order list kept in the browser's storage: single and
 * bulk patches rewrite orders where they are, a hard delete filters. The
 * timestamp is a parameter.
 */
module OrdersStore {
  import opened Wrappers
  import opened Json
  import opened Lists
  import opened StoredLists

  /** `{ ...o, ...patch, updatedAt: now }`. */
  function PatchedOrder(o: Object, patch: Object, now: Value): (r: Object)
    ensures Get(r, "updatedAt") == Some(now)
    ensures forall k :: k != "updatedAt" ==> Get(r, k) == if k in patch then Get(patch, k) else Get(o, k)
  {
    Spread(o, patch)["updatedAt" := now]
  }

  /**
   * `list.map((o) => set.has(o.id) ? patched : o)` with `set = new Set(ids)`:
   * exactly the orders whose id is listed are patched, each where it is.
   */
  function BulkPatched(list: seq<Object>, ids: seq<Option<Value>>, patch: Object, now: Value): (r: seq<Object>)
    ensures |r| == |list|
    ensures forall i :: 0 <= i < |list| && IdOf(list[i]) in ids ==> r[i] == PatchedOrder(list[i], patch, now)
    ensures forall i :: 0 <= i < |list| && IdOf(list[i]) !in ids ==> r[i] == list[i]
  {
    seq(|list|, i requires 0 <= i < |list| => if IdOf(list[i]) in ids then PatchedOrder(list[i], patch, now) else list[i])
  }

  class OrderStore {
    /** The parsed contents of the storage key (a missing or unreadable value reads as []). */
    var records: seq<Object>

    constructor (stored: seq<Object>)
      ensures records == stored
    {
      records := stored;
    }

    /** `seedOrdersIfEmpty()`: a non-empty list is left alone; the sample orders are a parameter. */
    method SeedIfEmpty(samples: seq<Object>) returns (r: seq<Object>)
      modifies this
      ensures old(records) != [] ==> records == old(records) && r == old(records)
      ensures old(records) == [] ==> records == samples && r == samples
    {
      if records != [] {
        return records;
      }
      records := samples;
      return samples;
    }

    /** `updateOrder(id, patch)`: `None` for an unknown id; otherwise that order is patched where it is. */
    method UpdateOrder(id: Option<Value>, patch: Object, now: Value) returns (r: Option<Object>)
      modifies this
      ensures IndexOfId(old(records), id) < 0 ==> r == None && records == old(records)
      ensures 0 <= IndexOfId(old(records), id) ==>
                var i := IndexOfId(old(records), id);
                && r == Some(PatchedOrder(old(records)[i], patch, now))
                && records == old(records)[i := r.value]
    {
      var i := IndexOfId(records, id);
      if i < 0 {
        return None;
      }
      var updated := PatchedOrder(records[i], patch, now);
      records := records[i := updated];
      return Some(updated);
    }

    /** `bulkUpdate(ids, patch)`. */
    method BulkUpdate(ids: seq<Option<Value>>, patch: Object, now: Value)
      modifies this
      ensures records == BulkPatched(old(records), ids, patch, now)
      ensures "id" !in patch && IdsUnique(old(records)) ==> IdsUnique(records)
    {
      if "id" !in patch {
        BulkKeepsIds(records, ids, patch, now);
      }
      records := BulkPatched(records, ids, patch, now);
    }

    /** `deleteOrderHard(id)`: every order with that id goes, the others stay in order. */
    method DeleteOrderHard(id: Option<Value>)
      modifies this
      ensures records == WithoutId(old(records), id)
      ensures IdsUnique(old(records)) ==> IdsUnique(records)
    {
      if IdsUnique(records) {
        WithoutIdKeepsDistinct(records, id, IdOf);
      }
      records := WithoutId(records, id);
    }
  }

  // ---------------------------------------------------------------------
  // Properties
  // ---------------------------------------------------------------------

  /** A patch without an `id` field leaves every order's id, and so their uniqueness, alone. */
  lemma BulkKeepsIds(list: seq<Object>, ids: seq<Option<Value>>, patch: Object, now: Value)
    requires "id" !in patch
    ensures forall i :: 0 <= i < |list| ==> IdOf(BulkPatched(list, ids, patch, now)[i]) == IdOf(list[i])
    ensures IdsUnique(list) ==> IdsUnique(BulkPatched(list, ids, patch, now))
  {
    var r := BulkPatched(list, ids, patch, now);
    forall i | 0 <= i < |list| ensures IdOf(r[i]) == IdOf(list[i]) {
      if IdOf(list[i]) in ids {
        assert Get(PatchedOrder(list[i], patch, now), "id") == Get(list[i], "id");
      }
    }
  }

  /** Bulk-patching no ids changes nothing. */
  lemma BulkWithoutIds(list: seq<Object>, patch: Object, now: Value)
    ensures BulkPatched(list, [], patch, now) == list
  {
  }

  /** With unique ids, bulk-patching one id is the single update of that order. */
  lemma BulkOfOneIsUpdate(list: seq<Object>, id: Option<Value>, patch: Object, now: Value)
    requires IdsUnique(list)
    requires 0 <= IndexOfId(list, id)
    ensures var i := IndexOfId(list, id);
            BulkPatched(list, [id], patch, now) == list[i := PatchedOrder(list[i], patch, now)]
  {
    var i := IndexOfId(list, id);
    var r := BulkPatched(list, [id], patch, now);
    forall j | 0 <= j < |list| && j != i ensures r[j] == list[j] {
      assert IdOf(list[j]) != IdOf(list[i]);
    }
  }
}
