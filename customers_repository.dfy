/**
 * The customer tables (users, customer profiles, addresses) and the
 * repository operations that change them: creating a customer with its
 * profile and addresses in one transaction, updating, deleting and choosing
 * the default address, and updating a profile.
 *
 * The table invariant of interest is "at most one default address per
 * (user, address type)", which `SetDefaultAddress` keeps and re-establishes
 * for the pair it touches.
 */
module CustomersRepository {
  import opened Wrappers
  import opened Json
  import opened Errors
  import opened CustomerSchemas

  /** A stored address: owner, type, default flag and the descriptive fields. */
  datatype AddressRow = AddressRow(userId: string, addrType: AddressType, isDefault: bool, place: Place)

  /**
   * A stored user: its plain columns (name, email, phone, document, role,
   * isActive) and whether it exists only in the ERP (no login).
   */
  datatype UserRow = UserRow(fields: Object, isErpOnly: bool)

  /** Address rows by id. */
  type AddressTable = map<string, AddressRow>

  /** The row an address input becomes once it is tied to a user. */
  function RowOf(userId: string, a: AddressInput): (r: AddressRow)
    ensures r.userId == userId && r.addrType == a.addrType && r.isDefault == a.isDefault && r.place == a.place
  {
    AddressRow(userId, a.addrType, a.isDefault, a.place)
  }

  predicate Distinct(ids: seq<string>) {
    forall i, j :: 0 <= i < j < |ids| ==> ids[i] != ids[j]
  }

  /** `createMany` of `addresses.map(a => ({ ...a, userId }))` under the given fresh ids. */
  function NewRows(userId: string, addrs: seq<AddressInput>, ids: seq<string>): (r: AddressTable)
    requires |ids| == |addrs| && Distinct(ids)
    ensures r.Keys == set i | 0 <= i < |ids| :: ids[i]
    ensures forall i :: 0 <= i < |ids| ==> r[ids[i]] == RowOf(userId, addrs[i])
    ensures forall id :: id in r ==> r[id].userId == userId
  {
    map i | 0 <= i < |ids| :: ids[i] := RowOf(userId, addrs[i])
  }

  // ---------------------------------------------------------------- default bookkeeping

  /** The default flag is unique within each (user, type) pair. */
  predicate AtMostOneDefault(t: AddressTable) {
    forall a, b ::
      (a in t && b in t && t[a].isDefault && t[b].isDefault
       && t[a].userId == t[b].userId && t[a].addrType == t[b].addrType) ==> a == b
  }

  predicate Owns(row: AddressRow, userId: string, ty: AddressType) {
    row.userId == userId && row.addrType == ty
  }

  /** `updateMany({ where: { userId, type }, data: { isDefault: false } })`. */
  function ClearDefaults(t: AddressTable, userId: string, ty: AddressType): (r: AddressTable)
    ensures r.Keys == t.Keys
    ensures forall id :: id in r && Owns(r[id], userId, ty) ==> !r[id].isDefault
    ensures forall id :: id in t ==> r[id] == t[id].(isDefault := t[id].isDefault && !Owns(t[id], userId, ty))
  {
    map id | id in t :: if Owns(t[id], userId, ty) then t[id].(isDefault := false) else t[id]
  }

  /** Clearing defaults can only remove default flags, so it keeps the invariant. */
  lemma ClearDefaultsKeepsInvariant(t: AddressTable, userId: string, ty: AddressType)
    requires AtMostOneDefault(t)
    ensures AtMostOneDefault(ClearDefaults(t, userId, ty))
  {
  }

  /** The table after `setDefaultAddress` succeeded for address `id`. */
  function WithDefault(t: AddressTable, userId: string, id: string, ty: AddressType): (r: AddressTable)
    requires id in t && t[id].userId == userId
    ensures r.Keys == t.Keys
    ensures r[id] == t[id].(isDefault := true, addrType := ty)
    ensures forall other :: other in r && other != id && Owns(r[other], userId, ty) ==> !r[other].isDefault
    ensures forall other :: other in t && other != id && t[other].userId != userId ==> r[other] == t[other]
    ensures forall other :: other in t && other != id && t[other].addrType != ty ==> r[other] == t[other]
  {
    ClearDefaults(t, userId, ty)[id := t[id].(isDefault := true, addrType := ty)]
  }

  /** Choosing a default keeps "at most one default per (user, type)" for every pair. */
  lemma WithDefaultKeepsInvariant(t: AddressTable, userId: string, id: string, ty: AddressType)
    requires id in t && t[id].userId == userId
    requires AtMostOneDefault(t)
    ensures AtMostOneDefault(WithDefault(t, userId, id, ty))
  {
    var r := WithDefault(t, userId, id, ty);
    forall a, b | a in r && b in r && r[a].isDefault && r[b].isDefault
      && r[a].userId == r[b].userId && r[a].addrType == r[b].addrType
      ensures a == b
    {
      if a == id || b == id {
        assert Owns(r[a], userId, ty) && Owns(r[b], userId, ty);
      } else {
        assert r[a] == ClearDefaults(t, userId, ty)[a] && r[b] == ClearDefaults(t, userId, ty)[b];
      }
    }
  }

  /** After choosing a default the chosen address is the one and only default of its (user, type) pair. */
  lemma WithDefaultIsTheOnlyDefault(t: AddressTable, userId: string, id: string, ty: AddressType, other: string)
    requires id in t && t[id].userId == userId
    requires other in t
    ensures var r := WithDefault(t, userId, id, ty);
      Owns(r[other], userId, ty) && r[other].isDefault <==> other == id
  {
  }

  // ---------------------------------------------------------------- address patches

  /** `AddressInput.partial()`: a field that is absent keeps its stored value. */
  datatype AddressPatch = AddressPatch(
    addrType: Option<AddressType>,
    isDefault: Option<bool>,
    labelText: Option<string>,
    recipient: Option<string>,
    zipCode: Option<string>,
    street: Option<string>,
    number: Option<string>,
    complement: Option<string>,
    district: Option<string>,
    city: Option<string>,
    state: Option<string>,
    reference: Option<string>)

  /** A set optional field replaces the stored value; an absent one keeps it. */
  function Or<T>(patch: Option<T>, stored: T): T {
    if patch.Some? then patch.value else stored
  }

  function OrOptional<T>(patch: Option<T>, stored: Option<T>): Option<T> {
    if patch.Some? then patch else stored
  }

  /** `prisma.address.update({ data })` on one row: the owner never changes. */
  function Patched(row: AddressRow, p: AddressPatch): (r: AddressRow)
    ensures r.userId == row.userId
    ensures r.addrType == Or(p.addrType, row.addrType) && r.isDefault == Or(p.isDefault, row.isDefault)
    ensures p.zipCode.Some? ==> r.place.zipCode == p.zipCode.value
    ensures p.zipCode.None? ==> r.place.zipCode == row.place.zipCode
  {
    var q := row.place;
    row.(
      addrType := Or(p.addrType, row.addrType),
      isDefault := Or(p.isDefault, row.isDefault),
      place := Place(
        OrOptional(p.labelText, q.labelText),
        OrOptional(p.recipient, q.recipient),
        Or(p.zipCode, q.zipCode),
        Or(p.street, q.street),
        Or(p.number, q.number),
        OrOptional(p.complement, q.complement),
        Or(p.district, q.district),
        Or(p.city, q.city),
        Or(p.state, q.state),
        OrOptional(p.reference, q.reference)))
  }

  const NoChange := AddressPatch(None, None, None, None, None, None, None, None, None, None, None, None)

  /** A patch that sets nothing leaves the row as it was. */
  lemma EmptyPatchKeepsRow(row: AddressRow)
    ensures Patched(row, NoChange) == row
  {
  }

  /**
   * `updateAddress` as written: the update is written first, and the
   * ownership check only decides the answer. A missing id makes Prisma throw
   * an error without a status, answered 500.
   */
  function UpdateAddressAsWritten(t: AddressTable, userId: string, id: string, p: AddressPatch)
    : (r: (Result<AddressRow, Error>, AddressTable))
    ensures id !in t ==> r == (Err(Error(Internal, AddressNotFound)), t)
    ensures id in t ==> r.1 == t[id := Patched(t[id], p)]
    ensures id in t && t[id].userId != userId ==> r.0 == Err(ForbiddenError(AddressOfAnotherUser))
  {
    if id !in t then (Err(Error(Internal, AddressNotFound)), t)
    else
      var updated := Patched(t[id], p);
      var t' := t[id := updated];
      if updated.userId != userId then (Err(ForbiddenError(AddressOfAnotherUser)), t')
      else (Ok(updated), t')
  }

  /**
   * As written, a customer can change somebody else's address: the answer is
   * 403 but the row has already been rewritten.
   */
  lemma ForeignAddressRewrittenAsWritten()
    ensures var row := AddressRow("owner", Shipping, true, Place(None, None, "01001000", "Rua A", "1", None, "Centro", "Recife", "PE", None));
      var t := map["addr-1" := row];
      var r := UpdateAddressAsWritten(t, "intruder", "addr-1", NoChange.(street := Some("Rua B")));
      r.0 == Err(ForbiddenError(AddressOfAnotherUser)) && r.1 != t
  {
    var row := AddressRow("owner", Shipping, true, Place(None, None, "01001000", "Rua A", "1", None, "Centro", "Recife", "PE", None));
    var t := map["addr-1" := row];
    var r := UpdateAddressAsWritten(t, "intruder", "addr-1", NoChange.(street := Some("Rua B")));
    assert r.1["addr-1"].place.street == "Rua B";
  }

  // ---------------------------------------------------------------- the tables

  /** Every profile and every address belongs to an existing user. */
  predicate TablesValid(users: map<string, UserRow>, profiles: map<string, Object>, addresses: AddressTable) {
    && (forall u :: u in profiles ==> u in users)
    && (forall a :: a in addresses ==> addresses[a].userId in users)
  }

  class CustomerTables {
    var users: map<string, UserRow>
    var profiles: map<string, Object>    // by user id
    var addresses: AddressTable

    predicate Valid()
      reads this
    {
      TablesValid(users, profiles, addresses)
    }

    /** Writes the three tables at once, as one transaction. */
    method Write(users: map<string, UserRow>, profiles: map<string, Object>, addresses: AddressTable)
      modifies this
      ensures this.users == users && this.profiles == profiles && this.addresses == addresses
    {
      this.users, this.profiles, this.addresses := users, profiles, addresses;
    }

    constructor()
      ensures users == map[] && profiles == map[] && addresses == map[]
      ensures Valid()
    {
      users := map[];
      profiles := map[];
      addresses := map[];
    }

    /** `getUserByEmail(email)` finds a user. */
    predicate EmailInUse(email: string)
      reads this
    {
      exists u :: u in users && Get(users[u].fields, "email") == Some(Str(email))
    }

    /** `getProfileByCpf` / `getProfileByCnpj` find a profile holding `doc` under `key`. */
    predicate DocumentInUse(key: string, doc: Value)
      reads this
    {
      exists u :: u in profiles && Get(profiles[u], key) == Some(doc)
    }

    /**
     * `createFullCustomer`: the user, its profile and every address, all tied
     * to the new user id, in one transaction. Ids are supplied by the caller
     * (the database generates them).
     */
    method CreateFullCustomer(userId: string, user: UserRow, profile: Object,
                              addrs: seq<AddressInput>, addressIds: seq<string>)
      requires userId !in users
      requires |addressIds| == |addrs| && Distinct(addressIds)
      requires forall i :: 0 <= i < |addressIds| ==> addressIds[i] !in addresses
      requires Valid()
      modifies this
      ensures users == old(users)[userId := user]
      ensures profiles == old(profiles)[userId := profile]
      ensures addresses == old(addresses) + NewRows(userId, addrs, addressIds)
      ensures Valid()
    {
      users := users[userId := user];
      profiles := profiles[userId := profile];
      addresses := addresses + NewRows(userId, addrs, addressIds);
    }

    /** `updateProfile`: the payload's keys overwrite the stored profile; a user without profile makes Prisma throw (500). */
    method UpdateProfile(userId: string, data: Object) returns (r: Result<Object, Error>)
      modifies this`profiles
      ensures userId !in old(profiles) ==> r.Err? && r.error.status == Internal && profiles == old(profiles)
      ensures userId in old(profiles) ==> profiles == old(profiles)[userId := Spread(old(profiles)[userId], data)]
      ensures userId in old(profiles) ==> r == Ok(profiles[userId])
    {
      if userId !in profiles {
        return Err(Error(Internal, CustomerNotFound));
      }
      profiles := profiles[userId := Spread(profiles[userId], data)];
      r := Ok(profiles[userId]);
    }

    /**
     * `updateAddress`, with the ownership check moved before the write: a
     * Forbidden answer leaves the table as it was.
     */
    method UpdateAddress(userId: string, id: string, p: AddressPatch) returns (r: Result<AddressRow, Error>)
      modifies this`addresses
      ensures id !in old(addresses) ==> r == Err(Error(Internal, AddressNotFound)) && addresses == old(addresses)
      ensures id in old(addresses) && old(addresses)[id].userId != userId ==>
        r == Err(ForbiddenError(AddressOfAnotherUser)) && addresses == old(addresses)
      ensures id in old(addresses) && old(addresses)[id].userId == userId ==>
        addresses == old(addresses)[id := Patched(old(addresses)[id], p)] && r == Ok(addresses[id])
      ensures r.Ok? ==> r.value.userId == userId
    {
      if id !in addresses {
        return Err(Error(Internal, AddressNotFound));
      }
      if addresses[id].userId != userId {
        return Err(ForbiddenError(AddressOfAnotherUser));
      }
      var updated := Patched(addresses[id], p);
      addresses := addresses[id := updated];
      r := Ok(updated);
    }

    /** `deleteAddress`: `null` for an unknown id, Forbidden for another user's address, else exactly that row goes. */
    method DeleteAddress(userId: string, id: string) returns (r: Result<Option<AddressRow>, Error>)
      modifies this`addresses
      ensures id !in old(addresses) ==> r == Ok(None) && addresses == old(addresses)
      ensures id in old(addresses) && old(addresses)[id].userId != userId ==>
        r == Err(ForbiddenError(AddressOfAnotherUser)) && addresses == old(addresses)
      ensures id in old(addresses) && old(addresses)[id].userId == userId ==>
        r == Ok(Some(old(addresses)[id])) && addresses == old(addresses) - {id}
      ensures AtMostOneDefault(old(addresses)) ==> AtMostOneDefault(addresses)
    {
      if id !in addresses {
        return Ok(None);
      }
      var row := addresses[id];
      if row.userId != userId {
        return Err(ForbiddenError(AddressOfAnotherUser));
      }
      addresses := addresses - {id};
      r := Ok(Some(row));
    }

    /**
     * `setDefaultAddress`: `null` for an unknown id, Forbidden (nothing
     * written) for another user's address; otherwise every address of that
     * user and type loses its default flag and the chosen one becomes the
     * default, moved to that type.
     */
    method SetDefaultAddress(userId: string, id: string, ty: AddressType) returns (r: Result<Option<AddressRow>, Error>)
      modifies this`addresses
      ensures id !in old(addresses) ==> r == Ok(None) && addresses == old(addresses)
      ensures id in old(addresses) && old(addresses)[id].userId != userId ==>
        r == Err(ForbiddenError(AddressOfAnotherUser)) && addresses == old(addresses)
      ensures id in old(addresses) && old(addresses)[id].userId == userId ==>
        addresses == WithDefault(old(addresses), userId, id, ty) && r == Ok(Some(addresses[id]))
      ensures AtMostOneDefault(old(addresses)) ==> AtMostOneDefault(addresses)
    {
      if id !in addresses {
        return Ok(None);
      }
      if addresses[id].userId != userId {
        return Err(ForbiddenError(AddressOfAnotherUser));
      }
      if AtMostOneDefault(addresses) {
        WithDefaultKeepsInvariant(addresses, userId, id, ty);
      }
      addresses := WithDefault(addresses, userId, id, ty);
      r := Ok(Some(addresses[id]));
    }
  }
}
