/**
 * Customer self-registration and profile maintenance: the uniqueness checks
 * (email, then CPF, then CNPJ), the user name taken from the profile, the
 * two default addresses every new customer gets, and the date conversions of
 * `updateMe`. Password hashing and the session token are not modelled.
 */
module CustomersService {
  import opened Wrappers
  import opened Json
  import opened Errors
  import opened CustomerSchemas
  import opened CustomersRepository

  /** The user name: `fullName` for a PERSON, `tradeName || companyName` otherwise. */
  function DerivedName(profile: Object): (r: Option<Value>)
    ensures IsPerson(profile) ==> r == Get(profile, "fullName")
    ensures !IsPerson(profile) ==> r == OrElse(Get(profile, "tradeName"), Get(profile, "companyName"))
  {
    if IsPerson(profile) then Get(profile, "fullName")
    else OrElse(Get(profile, "tradeName"), Get(profile, "companyName"))
  }

  /** A profile the schema accepted always yields a non-empty name, so the user row gets one. */
  lemma AcceptedProfileHasName(raw: Object)
    requires ParseProfile(raw).Ok?
    ensures var name := DerivedName(ParseProfile(raw).value); name.Some? && Truthy(name.value)
  {
    var o := ParseProfile(raw).value;
    assert IsPerson(raw) <==> IsPerson(o);
    assert IsBusiness(raw) <==> IsBusiness(o);
  }

  /** The text of the derived name, as an address recipient. */
  function NameText(name: Option<Value>): Option<string> {
    if name.Some? && name.value.Str? then Some(name.value.s) else None
  }

  /** `recipient || name`. */
  function Recipient(given: Option<string>, name: Option<Value>): (r: Option<string>)
    ensures given.Some? && given.value != "" ==> r == given
    ensures (given.None? || given.value == "") ==> r == NameText(name)
  {
    if given.Some? && given.value != "" then given else NameText(name)
  }

  /** `{ ...shippingAddress, type: 'SHIPPING', isDefault: true, recipient: recipient || name }`. */
  function ShippingAddress(a: AddressInput, name: Option<Value>): (r: AddressInput)
    ensures r.addrType == Shipping && r.isDefault
    ensures r.place == a.place.(recipient := Recipient(a.place.recipient, name))
  {
    AddressInput(Shipping, true, a.place.(recipient := Recipient(a.place.recipient, name)))
  }

  /**
   * The address list of a registration: the shipping address, then a billing
   * address that copies it (billing absent or "same as shipping") or is the
   * given one, always typed BILLING and default.
   */
  function RegistrationAddresses(shipping: AddressInput, billing: Option<BillingInput>, name: Option<Value>)
    : (r: seq<AddressInput>)
    ensures |r| == 2
    ensures r[0] == ShippingAddress(shipping, name)
    ensures r[0].addrType == Shipping && r[0].isDefault
    ensures r[1].addrType == Billing && r[1].isDefault
    ensures (billing.None? || billing.value.SameAsShipping?) ==> r[1].place == r[0].place
    ensures billing.Some? && billing.value.SeparateBilling? ==>
      var given := billing.value.address.place;
      r[1].place == given.(recipient := Recipient(given.recipient, name))
  {
    var first := ShippingAddress(shipping, name);
    var second :=
      if billing.None? || billing.value.SameAsShipping? then first.(addrType := Billing)
      else
        var given := billing.value.address.place;
        AddressInput(Billing, true, given.(recipient := Recipient(given.recipient, name)));
    [first, second]
  }

  /** The schema's default makes "billing absent" and "same as shipping" the same registration. */
  lemma AbsentBillingIsSameAsShipping(shipping: AddressInput, name: Option<Value>)
    ensures RegistrationAddresses(shipping, None, name)
         == RegistrationAddresses(shipping, Some(BillingOrDefault(None)), name)
  {
  }

  /**
   * The two addresses of a new customer never clash on the default flag, so
   * registering keeps "at most one default per (user, type)" for the table.
   */
  lemma RegistrationKeepsOneDefault(t: AddressTable, userId: string, addrs: seq<AddressInput>, ids: seq<string>)
    requires |addrs| == 2 && addrs[0].addrType == Shipping && addrs[1].addrType == Billing
    requires |ids| == 2 && Distinct(ids)
    requires forall a :: a in t ==> t[a].userId != userId
    requires forall i :: 0 <= i < 2 ==> ids[i] !in t
    requires AtMostOneDefault(t)
    ensures AtMostOneDefault(t + NewRows(userId, addrs, ids))
  {
    NewRowsOneDefault(userId, addrs, ids);
    UnionWithNewOwner(t, NewRows(userId, addrs, ids), userId);
  }

  /** A shipping row and a billing row never share a default slot. */
  lemma NewRowsOneDefault(userId: string, addrs: seq<AddressInput>, ids: seq<string>)
    requires |addrs| == 2 && addrs[0].addrType == Shipping && addrs[1].addrType == Billing
    requires |ids| == 2 && Distinct(ids)
    ensures AtMostOneDefault(NewRows(userId, addrs, ids))
  {
    var n := NewRows(userId, addrs, ids);
    forall a, b | a in n && b in n && n[a].isDefault && n[b].isDefault && n[a].addrType == n[b].addrType
      ensures a == b
    {
      var i :| 0 <= i < 2 && ids[i] == a;
      var j :| 0 <= j < 2 && ids[j] == b;
      assert n[a].addrType == addrs[i].addrType && n[b].addrType == addrs[j].addrType;
    }
  }

  /** Rows of a user the table has no rows for cannot clash with the table's defaults. */
  lemma UnionWithNewOwner(t: AddressTable, n: AddressTable, userId: string)
    requires forall a :: a in t ==> t[a].userId != userId
    requires forall a :: a in n ==> n[a].userId == userId
    requires AtMostOneDefault(t) && AtMostOneDefault(n)
    ensures AtMostOneDefault(t + n)
  {
    var r := t + n;
    forall a, b | a in r && b in r && r[a].isDefault && r[b].isDefault
      && r[a].userId == r[b].userId && r[a].addrType == r[b].addrType
      ensures a == b
    {
      if a in n && b in n {
        assert r[a] == n[a] && r[b] == n[b];
      } else if a in n || b in n {
        assert false;
      } else {
        assert r[a] == t[a] && r[b] == t[b];
      }
    }
  }

  /** `birthDate: x ? new Date(x) : undefined`: a falsy date is dropped. */
  function ConvertOrDrop(o: Object, k: string): (r: Object)
    ensures TruthyAt(o, k) ==> r == o[k := Date(o[k])]
    ensures !TruthyAt(o, k) ==> k !in r && r == o - {k}
  {
    if TruthyAt(o, k) then o[k := Date(o[k])] else o - {k}
  }

  /** `if (data.birthDate) data.birthDate = new Date(data.birthDate)`: a falsy date is kept as sent. */
  function ConvertIfSet(o: Object, k: string): (r: Object)
    ensures TruthyAt(o, k) ==> r == o[k := Date(o[k])]
    ensures !TruthyAt(o, k) ==> r == o
  {
    if TruthyAt(o, k) then o[k := Date(o[k])] else o
  }

  /** The profile row of a registration: the profile with its two dates converted. */
  function RegistrationProfile(profile: Object): (r: Object)
    ensures forall k :: k in profile && k != "birthDate" && k != "termsAcceptedAt" ==> k in r && r[k] == profile[k]
    ensures r.Keys <= profile.Keys
    ensures "birthDate" in r <==> TruthyAt(profile, "birthDate")
    ensures "termsAcceptedAt" in r <==> TruthyAt(profile, "termsAcceptedAt")
  {
    ConvertOrDrop(ConvertOrDrop(profile, "birthDate"), "termsAcceptedAt")
  }

  /** `updateMe`'s payload: the two dates converted when truthy, every other field as sent. */
  function UpdateMeData(payload: Object): (r: Object)
    ensures r.Keys == payload.Keys
    ensures forall k :: k in payload && k != "birthDate" && k != "termsAcceptedAt" ==> r[k] == payload[k]
    ensures forall k :: (k == "birthDate" || k == "termsAcceptedAt") && k in payload ==>
      r[k] == if Truthy(payload[k]) then Date(payload[k]) else payload[k]
  {
    ConvertIfSet(ConvertIfSet(payload, "birthDate"), "termsAcceptedAt")
  }

  /**
   * The user row of a registration: an active CUSTOMER with the derived name,
   * no phone and no document (`isActive` is the column's default).
   */
  function RegistrationUser(name: Option<Value>, email: string): (r: UserRow)
    ensures Get(r.fields, "email") == Some(Str(email))
    ensures Get(r.fields, "name") == name
    ensures Get(r.fields, "role") == Some(Str("CUSTOMER"))
    ensures Get(r.fields, "isActive") == Some(Bool(true))
    ensures !r.isErpOnly
  {
    var base := map["email" := Str(email), "role" := Str("CUSTOMER"), "phone" := Null, "document" := Null,
                    "isActive" := Bool(true)];
    UserRow(if name.Some? then base["name" := name.value] else base, false)
  }

  /** A registration request once the schema accepted it. */
  datatype RegisterPayload = RegisterPayload(
    email: string,
    profile: Object,
    shippingAddress: AddressInput,
    billingAddress: Option<BillingInput>)

  class Customers {
    const repo: CustomerTables

    constructor(repo: CustomerTables)
      ensures this.repo == repo
    {
      this.repo := repo;
    }

    /**
     * `register`: Conflict when the email is taken, then when a given CPF is
     * taken, then when a given CNPJ is taken (nothing written); otherwise the
     * user, its profile and its two default addresses are created together.
     * The new user's id and address ids are supplied by the caller.
     */
    method Register(p: RegisterPayload, userId: string, addressIds: seq<string>) returns (r: Result<string, Error>)
      requires repo.Valid()
      requires userId !in repo.users
      requires |addressIds| == 2 && Distinct(addressIds)
      requires forall i :: 0 <= i < 2 ==> addressIds[i] !in repo.addresses
      modifies repo
      ensures old(repo.EmailInUse(p.email)) ==>
        r == Err(ConflictError(EmailTaken)) && unchanged(repo)
      ensures !old(repo.EmailInUse(p.email)) && TruthyAt(p.profile, "cpf")
              && old(repo.DocumentInUse("cpf", p.profile["cpf"])) ==>
        r == Err(ConflictError(CpfTaken)) && unchanged(repo)
      ensures !old(repo.EmailInUse(p.email))
              && !(TruthyAt(p.profile, "cpf") && old(repo.DocumentInUse("cpf", p.profile["cpf"])))
              && TruthyAt(p.profile, "cnpj") && old(repo.DocumentInUse("cnpj", p.profile["cnpj"])) ==>
        r == Err(ConflictError(CnpjTaken)) && unchanged(repo)
      ensures r.Err? ==> r.error.status == Conflict && unchanged(repo)
      ensures r.Ok? <==>
        && !old(repo.EmailInUse(p.email))
        && !(TruthyAt(p.profile, "cpf") && old(repo.DocumentInUse("cpf", p.profile["cpf"])))
        && !(TruthyAt(p.profile, "cnpj") && old(repo.DocumentInUse("cnpj", p.profile["cnpj"])))
      ensures r.Ok? ==>
        && r.value == userId
        && repo.users == old(repo.users)[userId := RegistrationUser(DerivedName(p.profile), p.email)]
        && repo.profiles == old(repo.profiles)[userId := RegistrationProfile(p.profile)]
        && repo.addresses == old(repo.addresses)
             + NewRows(userId, RegistrationAddresses(p.shippingAddress, p.billingAddress, DerivedName(p.profile)), addressIds)
      ensures r.Ok? ==> repo.Valid()
      ensures r.Ok? && AtMostOneDefault(old(repo.addresses)) ==> AtMostOneDefault(repo.addresses)
    {
      if repo.EmailInUse(p.email) {
        return Err(ConflictError(EmailTaken));
      }
      if TruthyAt(p.profile, "cpf") && repo.DocumentInUse("cpf", p.profile["cpf"]) {
        return Err(ConflictError(CpfTaken));
      }
      if TruthyAt(p.profile, "cnpj") && repo.DocumentInUse("cnpj", p.profile["cnpj"]) {
        return Err(ConflictError(CnpjTaken));
      }
      var name := DerivedName(p.profile);
      var addresses := RegistrationAddresses(p.shippingAddress, p.billingAddress, name);
      if AtMostOneDefault(repo.addresses) {
        RegistrationKeepsOneDefault(repo.addresses, userId, addresses, addressIds);
      }
      repo.CreateFullCustomer(userId, RegistrationUser(name, p.email), RegistrationProfile(p.profile),
                              addresses, addressIds);
      r := Ok(userId);
    }

    /** `updateMe`: the converted payload is written over the caller's profile. */
    method UpdateMe(userId: string, payload: Object) returns (r: Result<Object, Error>)
      modifies repo`profiles
      ensures userId !in old(repo.profiles) ==> r.Err? && repo.profiles == old(repo.profiles)
      ensures userId in old(repo.profiles) ==>
        repo.profiles == old(repo.profiles)[userId := Spread(old(repo.profiles)[userId], UpdateMeData(payload))]
        && r == Ok(repo.profiles[userId])
    {
      r := repo.UpdateProfile(userId, UpdateMeData(payload));
    }

    /** `deleteAddress`: the repository's `null` becomes NotFound. */
    method DeleteAddress(userId: string, id: string) returns (r: Result<AddressRow, Error>)
      modifies repo`addresses
      ensures id !in old(repo.addresses) ==> r == Err(NotFoundError(AddressNotFound)) && repo.addresses == old(repo.addresses)
      ensures id in old(repo.addresses) && old(repo.addresses)[id].userId != userId ==>
        r == Err(ForbiddenError(AddressOfAnotherUser)) && repo.addresses == old(repo.addresses)
      ensures id in old(repo.addresses) && old(repo.addresses)[id].userId == userId ==>
        r == Ok(old(repo.addresses)[id]) && repo.addresses == old(repo.addresses) - {id}
    {
      var deleted := repo.DeleteAddress(userId, id);
      if deleted.Err? {
        return Err(deleted.error);
      }
      if deleted.value.None? {
        return Err(NotFoundError(AddressNotFound));
      }
      r := Ok(deleted.value.value);
    }

    /** `setDefaultAddress`: the repository's `null` becomes NotFound. */
    method SetDefaultAddress(userId: string, id: string, ty: AddressType) returns (r: Result<AddressRow, Error>)
      modifies repo`addresses
      ensures id !in old(repo.addresses) ==> r == Err(NotFoundError(AddressNotFound)) && repo.addresses == old(repo.addresses)
      ensures id in old(repo.addresses) && old(repo.addresses)[id].userId != userId ==>
        r == Err(ForbiddenError(AddressOfAnotherUser)) && repo.addresses == old(repo.addresses)
      ensures id in old(repo.addresses) && old(repo.addresses)[id].userId == userId ==>
        repo.addresses == WithDefault(old(repo.addresses), userId, id, ty) && r == Ok(repo.addresses[id])
      ensures AtMostOneDefault(old(repo.addresses)) ==> AtMostOneDefault(repo.addresses)
    {
      var updated := repo.SetDefaultAddress(userId, id, ty);
      if updated.Err? {
        return Err(updated.error);
      }
      if updated.value.None? {
        return Err(NotFoundError(AddressNotFound));
      }
      r := Ok(updated.value.value);
    }
  }
}
