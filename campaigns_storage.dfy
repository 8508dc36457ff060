/**
 * The back office's campaign list kept in the browser's storage: an upsert
 * by id and a delete by id, each written back whole.
 */
module CampaignsStorage {
  import opened Wrappers
  import opened Json
  import opened Lists
  import opened StoredLists

  /**
   * `loadCampaigns()`: `stored` is the parsed value, `None` when the key is
   * missing or empty or its text does not parse; those, and a stored falsy
   * value such as `null`, give [].
   */
  function LoadCampaigns(stored: Option<Value>): (r: Value)
    ensures stored.None? ==> r == Arr([])
    ensures stored.Some? && Truthy(stored.value) ==> r == stored.value
    ensures stored.Some? && !Truthy(stored.value) ==> r == Arr([])
    ensures Truthy(r)
  {
    OrElse(stored, Some(Arr([]))).value
  }

  /** The list `upsertCampaign` writes: the first campaign with the same id replaced, else the new one appended. */
  function Upserted(list: seq<Object>, campaign: Object): (r: seq<Object>)
    ensures IndexOfId(list, IdOf(campaign)) < 0 ==> |r| == |list| + 1 && r[..|list|] == list && r[|list|] == campaign
    ensures 0 <= IndexOfId(list, IdOf(campaign)) ==>
              |r| == |list| && r[IndexOfId(list, IdOf(campaign))] == campaign
              && forall j :: 0 <= j < |list| && j != IndexOfId(list, IdOf(campaign)) ==> r[j] == list[j]
  {
    var i := IndexOfId(list, IdOf(campaign));
    if i >= 0 then list[i := campaign] else list + [campaign]
  }

  class CampaignStorage {
    /** The campaigns `loadCampaigns` read. */
    var list: seq<Object>

    constructor (stored: seq<Object>)
      ensures list == stored
    {
      list := stored;
    }

    /** `upsertCampaign(campaign)`: returns the campaign it stored. */
    method UpsertCampaign(campaign: Object) returns (r: Object)
      modifies this
      ensures r == campaign
      ensures list == Upserted(old(list), campaign)
      ensures IdsUnique(old(list)) ==> IdsUnique(list)
    {
      var i := IndexOfId(list, IdOf(campaign));
      if IdsUnique(list) {
        UpsertKeepsIdsUnique(list, campaign);
      }
      if i >= 0 {
        list := list[i := campaign];
      } else {
        list := list + [campaign];
      }
      return campaign;
    }

    /** `deleteCampaign(id)`: every campaign with that id goes, the others stay in order. */
    method DeleteCampaign(id: Option<Value>)
      modifies this
      ensures list == WithoutId(old(list), id)
      ensures IdsUnique(old(list)) ==> IdsUnique(list)
    {
      if IdsUnique(list) {
        WithoutIdKeepsDistinct(list, id, IdOf);
      }
      list := WithoutId(list, id);
    }
  }

  // ---------------------------------------------------------------------
  // Properties
  // ---------------------------------------------------------------------

  /** An upsert keeps ids unique: it replaces the only campaign with that id or adds a fresh one. */
  lemma UpsertKeepsIdsUnique(list: seq<Object>, campaign: Object)
    requires IdsUnique(list)
    ensures IdsUnique(Upserted(list, campaign))
  {
    var i := IndexOfId(list, IdOf(campaign));
    if i >= 0 {
      forall j | 0 <= j < |list| && j != i ensures IdOf(list[j]) != IdOf(campaign) {
        assert IdOf(list[j]) != IdOf(list[i]);
      }
      DistinctReplace(list, i, campaign, IdOf);
    } else {
      DistinctAppend(list, campaign, IdOf);
    }
  }

  /** After an upsert the campaign is what a lookup by its id finds. */
  lemma UpsertThenFound(list: seq<Object>, campaign: Object)
    ensures var r := Upserted(list, campaign);
            var i := IndexOfId(r, IdOf(campaign));
            0 <= i && r[i] == campaign
  {
    var r := Upserted(list, campaign);
    var i := IndexOfId(list, IdOf(campaign));
    if i < 0 {
      assert IdOf(r[|list|]) == IdOf(campaign);
    } else {
      assert IdOf(r[i]) == IdOf(campaign);
      assert forall j :: 0 <= j < i ==> r[j] == list[j];
    }
  }

  /** Upserting the same campaign twice is upserting it once. */
  lemma UpsertIdempotent(list: seq<Object>, campaign: Object)
    ensures Upserted(Upserted(list, campaign), campaign) == Upserted(list, campaign)
  {
    var r := Upserted(list, campaign);
    UpsertThenFound(list, campaign);
    var k := IndexOfId(r, IdOf(campaign));
    assert r[k := campaign] == r;
  }
}
