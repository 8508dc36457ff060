/**
 * The shop front's customer list kept in the browser's storage: records are
 * read, changed (prepended, replaced in place or filtered) and written back.
 * The store keeps normalised e-mails unique. Ids and timestamps are
 * parameters (the source draws them from the clock and a random generator).
 */
module CustomersStore {
  import opened Wrappers
  import opened Json
  import opened Strings
  import opened Lists
  import opened StoredLists

  /** The two errors the store throws. */
  datatype StoreError =
    | EmailRequired   // "E-mail é obrigatório."
    | EmailInUse      // "Já existe cliente com esse e-mail."

  /** `normalizeEmail(email)`: `String(email || "").trim().toLowerCase()`. */
  function NormalizeEmail(email: Option<Value>): (r: string)
    ensures r == [] || (!IsSpace(r[0]) && !IsSpace(r[|r| - 1]))
  {
    var t := Trim(TextOf(email));
    LowerKeepsEnds(t);
    ToLower(t)
  }

  /** Lower-casing neither creates nor removes white space at the ends. */
  lemma LowerKeepsEnds(t: string)
    requires t == [] || (!IsSpace(t[0]) && !IsSpace(t[|t| - 1]))
    ensures var r := ToLower(t); r == [] || (!IsSpace(r[0]) && !IsSpace(r[|r| - 1]))
  {
  }

  /** The normalised e-mail of a stored record. */
  function EmailOf(c: Object): string {
    NormalizeEmail(Get(c, "email"))
  }

  /** No two records share a normalised e-mail. */
  predicate EmailsUnique(list: seq<Object>) {
    Distinct(list, EmailOf)
  }

  /** `Array.isArray(x) ? x : []`. */
  function ArrayOr(x: Option<Value>): (r: Value)
    ensures r.Arr?
    ensures x.Some? && x.value.Arr? ==> r == x.value
  {
    match x
    case Some(Arr(items)) => Arr(items)
    case _ => Arr([])
  }

  const CustomerKeys: set<string> := {"id", "name", "email", "phone", "active", "addresses", "createdAt", "updatedAt"}

  /** Field `k` of the record `createCustomer` builds. */
  function NewCustomerField(payload: Object, id: Value, now: Value, k: string): Value {
    if k == "id" then id
    else if k == "name" then Str(Trim(TextOf(Get(payload, "name"))))
    else if k == "email" then Str(NormalizeEmail(Get(payload, "email")))
    else if k == "phone" then Str(Trim(TextOf(Get(payload, "phone"))))
    else if k == "active" then Bool(Get(payload, "active") != Some(Bool(false)))
    else if k == "addresses" then ArrayOr(Get(payload, "addresses"))
    else now
  }

  /**
   * The record `createCustomer` builds: only these eight fields, whatever
   * else the payload holds; `active` is true unless the payload says `false`.
   */
  function NewCustomer(payload: Object, id: Value, now: Value): (r: Object)
    ensures r.Keys == CustomerKeys
    ensures r["email"] == Str(NormalizeEmail(Get(payload, "email")))
    ensures r["active"] == Bool(Get(payload, "active") != Some(Bool(false)))
    ensures r["name"] == Str(Trim(TextOf(Get(payload, "name"))))
    ensures r["phone"] == Str(Trim(TextOf(Get(payload, "phone"))))
    ensures r["addresses"] == ArrayOr(Get(payload, "addresses"))
    ensures r["id"] == id && r["createdAt"] == now && r["updatedAt"] == now
  {
    map k | k in CustomerKeys :: NewCustomerField(payload, id, now, k)
  }

  /** The e-mail an update gives a record: the patch's when it has one, else the record's own. */
  function NextEmail(current: Object, patch: Object): (e: string)
    ensures NormalizeEmail(Some(Str(e))) == e
    ensures !PresentAt(patch, "email") ==> e == EmailOf(current)
  {
    if PresentAt(patch, "email") then
      (NormalizeEmailIdempotent(Get(patch, "email")); NormalizeEmail(Get(patch, "email")))
    else
      (NormalizeEmailIdempotent(Get(current, "email")); EmailOf(current))
  }

  /**
   * Field `k` of the updated record, `None` when it is `undefined` (and so
   * left out of the stored JSON).
   */
  function UpdatedField(current: Object, patch: Object, email: string, now: Value, k: string): Option<Value> {
    if k == "name" then PatchedOr(patch, current, "name", Str(Trim(TextOf(Get(patch, "name")))))
    else if k == "email" then Some(Str(email))
    else if k == "phone" then PatchedOr(patch, current, "phone", Str(Trim(TextOf(Get(patch, "phone")))))
    else if k == "active" then PatchedOr(patch, current, "active", Bool(TruthyAt(patch, "active")))
    else if k == "addresses" then PatchedOr(patch, current, "addresses", Coalesce(Get(patch, "addresses"), Null))
    else if k == "updatedAt" then Some(now)
    else if k in patch then Get(patch, k)
    else Get(current, k)
  }

  /** The updated record: the record spread with the patch, then the normalised fields. */
  function UpdatedCustomer(current: Object, patch: Object, email: string, now: Value): (r: Object)
    ensures forall k :: Get(r, k) == UpdatedField(current, patch, email, now, k)
  {
    map k | k in current.Keys + patch.Keys + {"email", "updatedAt"} && UpdatedField(current, patch, email, now, k).Some?
          :: UpdatedField(current, patch, email, now, k).value
  }

  /**
   * What an update keeps and changes: the e-mail and timestamp are set, the
   * trimmed name and phone, the boolean `active` and the addresses come
   * from the patch when it has them (not null) and from the record
   * otherwise, and every other field is the patch's, else the record's.
   */
  lemma UpdatedCustomerFields(current: Object, patch: Object, email: string, now: Value)
    ensures var r := UpdatedCustomer(current, patch, email, now);
      && Get(r, "email") == Some(Str(email))
      && Get(r, "updatedAt") == Some(now)
      && Get(r, "active") == (if PresentAt(patch, "active") then Some(Bool(Truthy(patch["active"]))) else Get(current, "active"))
      && Get(r, "name") == (if PresentAt(patch, "name") then Some(Str(Trim(TextOf(Get(patch, "name"))))) else Get(current, "name"))
      && Get(r, "phone") == (if PresentAt(patch, "phone") then Some(Str(Trim(TextOf(Get(patch, "phone"))))) else Get(current, "phone"))
      && Get(r, "addresses") == (if PresentAt(patch, "addresses") then Get(patch, "addresses") else Get(current, "addresses"))
  {
    UpdateKeysDiffer();
    var r := UpdatedCustomer(current, patch, email, now);
    assert Get(r, "email") == UpdatedField(current, patch, email, now, "email");
    assert Get(r, "updatedAt") == UpdatedField(current, patch, email, now, "updatedAt");
    assert Get(r, "active") == UpdatedField(current, patch, email, now, "active");
    assert Get(r, "addresses") == UpdatedField(current, patch, email, now, "addresses");
  }

  /** The keys an update normalises are six different strings. */
  lemma UpdateKeysDiffer()
    ensures "email" != "name" && "phone" != "name" && "phone" != "email"
    ensures "active" != "name" && "active" != "email" && "active" != "phone"
    ensures "addresses" != "name" && "addresses" != "email" && "addresses" != "phone" && "addresses" != "active"
    ensures "updatedAt" != "name" && "updatedAt" != "email" && "updatedAt" != "phone"
    ensures "updatedAt" != "active" && "updatedAt" != "addresses"
  {
    assert "email"[0] != "name"[0] && "phone"[0] != "name"[0] && "phone"[0] != "email"[0];
    assert "active"[0] != "name"[0] && "active"[0] != "email"[0] && "active"[0] != "phone"[0];
    assert "addresses"[0] != "name"[0] && "addresses"[0] != "email"[0] && "addresses"[0] != "phone"[0];
    assert "addresses"[1] != "active"[1];
    assert "updatedAt"[0] != "name"[0] && "updatedAt"[0] != "email"[0] && "updatedAt"[0] != "phone"[0];
    assert "updatedAt"[0] != "active"[0] && "updatedAt"[0] != "addresses"[0];
  }

  /** Fields an update does not normalise are the patch's when it has them, else the record's. */
  lemma UpdatedCustomerKeepsOthers(current: Object, patch: Object, email: string, now: Value, k: string)
    requires k != "name" && k != "email" && k != "phone" && k != "active" && k != "addresses" && k != "updatedAt"
    ensures Get(UpdatedCustomer(current, patch, email, now), k) == if k in patch then Get(patch, k) else Get(current, k)
  {
  }

  /** Whether an update with this patch would move the record onto an e-mail already in use. */
  predicate Conflicts(list: seq<Object>, current: Object, patch: Object): (b: bool)
    ensures b ==> PresentAt(patch, "email")
    ensures b <==> NextEmail(current, patch) != EmailOf(current)
                   && exists j :: 0 <= j < |list| && EmailOf(list[j]) == NextEmail(current, patch)
  {
    var e := NextEmail(current, patch);
    e != EmailOf(current) && !KeyAbsent(list, EmailOf, e)
  }

  /** `list.find((c) => normalizeEmail(c.email) === e)`. */
  function IndexOfEmail(list: seq<Object>, e: string): (i: int)
    ensures -1 <= i < |list|
    ensures 0 <= i ==> EmailOf(list[i]) == e && forall j :: 0 <= j < i ==> EmailOf(list[j]) != e
    ensures i < 0 <==> KeyAbsent(list, EmailOf, e)
  {
    FindIndex(list, (c: Object) => EmailOf(c) == e)
  }

  class CustomerStore {
    /** The parsed contents of the storage key (a missing or unreadable value reads as []). */
    var records: seq<Object>

    constructor (stored: seq<Object>)
      ensures records == stored
    {
      records := stored;
    }

    /** `getCustomerByEmail(email)`: the first record with that normalised e-mail, or null. */
    function GetCustomerByEmail(email: Option<Value>): (r: Option<Object>)
      reads this
      ensures r.Some? ==> r.value in records && EmailOf(r.value) == NormalizeEmail(email)
      ensures r.None? <==> KeyAbsent(records, EmailOf, NormalizeEmail(email))
    {
      var i := IndexOfEmail(records, NormalizeEmail(email));
      if i < 0 then None else Some(records[i])
    }

    /** `seedCustomersIfEmpty()`: a non-empty list is left alone; the seed records are a parameter. */
    method SeedIfEmpty(seed: seq<Object>) returns (r: seq<Object>)
      modifies this
      ensures old(records) != [] ==> records == old(records) && r == old(records)
      ensures old(records) == [] ==> records == seed && r == seed
    {
      if records != [] {
        return records;
      }
      records := seed;
      return seed;
    }

    /**
     * `createCustomer(payload)`: an empty or already used normalised e-mail
     * is refused and nothing is written; otherwise the new record goes first.
     */
    method CreateCustomer(payload: Object, id: Value, now: Value) returns (r: Result<Object, StoreError>)
      modifies this
      ensures NormalizeEmail(Get(payload, "email")) == [] ==> r == Err(EmailRequired)
      ensures (NormalizeEmail(Get(payload, "email")) != [] &&
               !KeyAbsent(old(records), EmailOf, NormalizeEmail(Get(payload, "email")))) ==> r == Err(EmailInUse)
      ensures r.Ok? <==> NormalizeEmail(Get(payload, "email")) != [] &&
                         KeyAbsent(old(records), EmailOf, NormalizeEmail(Get(payload, "email")))
      ensures r.Err? ==> records == old(records)
      ensures r.Ok? ==> r.value == NewCustomer(payload, id, now) && records == [r.value] + old(records)
      ensures EmailsUnique(old(records)) ==> EmailsUnique(records)
    {
      var email := NormalizeEmail(Get(payload, "email"));
      if email == [] {
        return Err(EmailRequired);
      }
      if !KeyAbsent(records, EmailOf, email) {
        return Err(EmailInUse);
      }
      var item := NewCustomer(payload, id, now);
      NormalizeEmailIdempotent(Get(payload, "email"));
      assert EmailOf(item) == email;
      if EmailsUnique(records) {
        DistinctPrepend(item, records, EmailOf);
      }
      records := [item] + records;
      return Ok(item);
    }

    /**
     * `updateCustomer(id, patch)`: `Ok(None)` for an unknown id; a move onto
     * an e-mail in use is refused; otherwise the record is replaced where it is.
     */
    method UpdateCustomer(id: Option<Value>, patch: Object, now: Value) returns (r: Result<Option<Object>, StoreError>)
      modifies this
      ensures IndexOfId(old(records), id) < 0 ==> r == Ok(None)
      ensures r.Ok? && r.value.None? <==> IndexOfId(old(records), id) < 0
      ensures r.Err? <==> 0 <= IndexOfId(old(records), id) && Conflicts(old(records), old(records)[IndexOfId(old(records), id)], patch)
      ensures r.Err? ==> r.error == EmailInUse
      ensures !(r.Ok? && r.value.Some?) ==> records == old(records)
      ensures r.Ok? && r.value.Some? ==>
                var i := IndexOfId(old(records), id);
                && 0 <= i
                && r.value.value == UpdatedCustomer(old(records)[i], patch, NextEmail(old(records)[i], patch), now)
                && records == old(records)[i := r.value.value]
      ensures EmailsUnique(old(records)) ==> EmailsUnique(records)
    {
      var i := IndexOfId(records, id);
      if i < 0 {
        return Ok(None);
      }
      var current := records[i];
      if Conflicts(records, current, patch) {
        return Err(EmailInUse);
      }
      var email := NextEmail(current, patch);
      var updated := UpdatedCustomer(current, patch, email, now);
      UpdateKeepsEmailsUnique(records, i, patch, now);
      records := records[i := updated];
      return Ok(Some(updated));
    }

    /** `deleteCustomer(id)`: every record with that id goes, the others stay in order. */
    method DeleteCustomer(id: Option<Value>)
      modifies this
      ensures records == WithoutId(old(records), id)
      ensures EmailsUnique(old(records)) ==> EmailsUnique(records)
    {
      if EmailsUnique(records) {
        WithoutIdKeepsDistinct(records, id, EmailOf);
      }
      records := WithoutId(records, id);
    }
  }

  // ---------------------------------------------------------------------
  // Properties
  // ---------------------------------------------------------------------

  lemma {:induction false} LowerTwice(s: string)
    ensures ToLower(ToLower(s)) == ToLower(s)
  {
  }

  lemma TrimOfTrimmed(s: string)
    requires s == [] || (!IsSpace(s[0]) && !IsSpace(s[|s| - 1]))
    ensures Trim(s) == s
  {
  }

  /** A normalised e-mail normalises to itself. */
  lemma NormalizeEmailIdempotent(email: Option<Value>)
    ensures NormalizeEmail(Some(Str(NormalizeEmail(email)))) == NormalizeEmail(email)
  {
    var t := Trim(TextOf(email));
    var e := NormalizeEmail(email);
    assert e == ToLower(t);
    NormalizeTrimmed(e);
    LowerTwice(t);
  }

  /** A string without white space at its ends normalises to its lower case. */
  lemma NormalizeTrimmed(e: string)
    requires e == [] || (!IsSpace(e[0]) && !IsSpace(e[|e| - 1]))
    ensures NormalizeEmail(Some(Str(e))) == ToLower(e)
  {
    assert TextOf(Some(Str(e))) == e;
    TrimOfTrimmed(e);
  }

  /** An update that is not refused keeps normalised e-mails unique. */
  lemma UpdateKeepsEmailsUnique(list: seq<Object>, i: int, patch: Object, now: Value)
    requires 0 <= i < |list|
    requires !Conflicts(list, list[i], patch)
    ensures EmailsUnique(list) ==>
              EmailsUnique(list[i := UpdatedCustomer(list[i], patch, NextEmail(list[i], patch), now)])
  {
    var email := NextEmail(list[i], patch);
    var updated := UpdatedCustomer(list[i], patch, email, now);
    if EmailsUnique(list) {
      var source := if PresentAt(patch, "email") then Get(patch, "email") else Get(list[i], "email");
      assert email == NormalizeEmail(source);
      NormalizeEmailIdempotent(source);
      UpdatedCustomerFields(list[i], patch, email, now);
      assert Get(updated, "email") == Some(Str(email));
      assert EmailOf(updated) == email;
      forall j | 0 <= j < |list| && j != i ensures EmailOf(list[j]) != EmailOf(updated) {
        if email == EmailOf(list[i]) {
          assert EmailOf(list[j]) != EmailOf(list[i]);
        }
      }
      DistinctReplace(list, i, updated, EmailOf);
    }
  }

  /** A record just created is the one found by its e-mail. */
  lemma CreatedIsFound(list: seq<Object>, payload: Object, id: Value, now: Value)
    requires NormalizeEmail(Get(payload, "email")) != []
    ensures var item := NewCustomer(payload, id, now);
            IndexOfEmail([item] + list, NormalizeEmail(Get(payload, "email"))) == 0
  {
    NormalizeEmailIdempotent(Get(payload, "email"));
  }

  /** With unique e-mails, the record found by e-mail is the only one with it. */
  lemma FoundIsOnly(list: seq<Object>, e: string, j: int)
    requires EmailsUnique(list)
    requires 0 <= j < |list| && EmailOf(list[j]) == e
    ensures IndexOfEmail(list, e) == j
  {
  }
}
