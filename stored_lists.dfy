/**
 * What the browser stores share: records are plain objects identified by
 * their `id` field, looked up with `findIndex((x) => x.id === id)` and
 * removed with `filter((x) => x.id !== id)`.
 */
module StoredLists {
  import opened Wrappers
  import opened Json
  import opened Lists

  /** `x.id`; `None` is `undefined`. */
  function IdOf(o: Object): Option<Value> {
    Get(o, "id")
  }

  /** `list.findIndex((x) => x.id === id)`. */
  function IndexOfId(list: seq<Object>, id: Option<Value>): (i: int)
    ensures -1 <= i < |list|
    ensures 0 <= i ==> IdOf(list[i]) == id && forall j :: 0 <= j < i ==> IdOf(list[j]) != id
    ensures i < 0 <==> forall j :: 0 <= j < |list| ==> IdOf(list[j]) != id
  {
    FindIndex(list, (o: Object) => IdOf(o) == id)
  }

  /** `list.filter((x) => x.id !== id)`. */
  function WithoutId(list: seq<Object>, id: Option<Value>): (r: seq<Object>)
    ensures |r| <= |list|
    ensures forall x :: x in r <==> x in list && IdOf(x) != id
  {
    Filter(list, (o: Object) => IdOf(o) != id)
  }

  /** `String(v || "")` for the string values the forms send. */
  function TextOf(v: Option<Value>): string {
    match v
    case Some(Str(s)) => s
    case _ => ""
  }

  /** `patch.k != null ? x : current.k`. */
  function PatchedOr(patch: Object, current: Object, k: string, x: Value): (r: Option<Value>)
    ensures PresentAt(patch, k) ==> r == Some(x)
    ensures !PresentAt(patch, k) ==> r == Get(current, k)
  {
    if PresentAt(patch, k) then Some(x) else Get(current, k)
  }

  /** No two records share an id. */
  predicate IdsUnique(list: seq<Object>) {
    Distinct(list, IdOf)
  }

  // ---------------------------------------------------------------------
  // Properties
  // ---------------------------------------------------------------------

  /** Removal keeps the order of the records it keeps: it works piece by piece. */
  lemma WithoutIdAppend(a: seq<Object>, b: seq<Object>, id: Option<Value>)
    ensures WithoutId(a + b, id) == WithoutId(a, id) + WithoutId(b, id)
  {
    FilterAppend(a, b, (o: Object) => IdOf(o) != id);
  }

  /** Removing an id no record has changes nothing. */
  lemma WithoutAbsentId(list: seq<Object>, id: Option<Value>)
    requires IndexOfId(list, id) < 0
    ensures WithoutId(list, id) == list
  {
    FilterKeepsAll(list, (o: Object) => IdOf(o) != id);
  }

  /** Removing twice is removing once. */
  lemma WithoutIdIdempotent(list: seq<Object>, id: Option<Value>)
    ensures WithoutId(WithoutId(list, id), id) == WithoutId(list, id)
  {
    FilterIdempotent(list, (o: Object) => IdOf(o) != id);
  }

  /** Removal keeps any key (the id, a normalised e-mail) unique among the records left. */
  lemma WithoutIdKeepsDistinct<K>(list: seq<Object>, id: Option<Value>, key: Object -> K)
    requires Distinct(list, key)
    ensures Distinct(WithoutId(list, id), key)
  {
    FilterKeepsDistinct(list, (o: Object) => IdOf(o) != id, key);
  }
}
