/**
 * The ERP's own customers (users without a login): creation with a profile
 * and an optional first address, partial updates built field by field,
 * activation and blocking, and the per-customer order summary.
 *
 * Any new default address first clears the defaults of the same (user, type),
 * so "at most one default per (user, type)" survives creation and update.
 */
module CustomersErp {
  import opened Wrappers
  import opened Json
  import opened Errors
  import opened CustomerSchemas
  import opened CustomersRepository
  import Orders

  /** `parseBool` of a query-string flag: booleans and their spellings, anything else `undefined`. */
  function ParseBool(v: Option<Value>): (r: Option<bool>)
    ensures r == Some(true) <==> v == Some(Bool(true)) || v == Some(Str("true"))
    ensures r == Some(false) <==> v == Some(Bool(false)) || v == Some(Str("false"))
  {
    match v
    case Some(Bool(b)) => Some(b)
    case Some(Str(s)) => if s == "true" then Some(true) else if s == "false" then Some(false) else None
    case _ => None
  }

  /** The spelling a query string carries is read back as the flag it spells. */
  lemma ParseBoolReadsSpelling(b: bool)
    ensures ParseBool(Some(Str(if b then "true" else "false"))) == Some(b)
    ensures ParseBool(Some(Bool(b))) == Some(b)
  {
  }

  // ---------------------------------------------------------------- creation

  /** The user columns written on creation. */
  function NewErpUser(data: Object): (r: UserRow)
    ensures r.isErpOnly
    ensures Get(r.fields, "isActive") == Some(Coalesce(Get(data, "isActive"), Bool(true)))
    ensures Get(r.fields, "name") == Get(data, "name")
    ensures forall k :: k in {"phone", "email", "document"} ==> Get(r.fields, k) == Some(Coalesce(Get(data, k), Null))
    ensures Get(r.fields, "password") == Some(Null) && Get(r.fields, "role") == Some(Str("CUSTOMER"))
  {
    var base := map[
      "phone" := Coalesce(Get(data, "phone"), Null),
      "email" := Coalesce(Get(data, "email"), Null),
      "document" := Coalesce(Get(data, "document"), Null),
      "isActive" := Coalesce(Get(data, "isActive"), Bool(true)),
      "password" := Null,
      "role" := Str("CUSTOMER")];
    UserRow(if "name" in data then base["name" := data["name"]] else base, true)
  }

  /** The profile columns the ERP writes. */
  const ProfileColumns: set<string> :=
    {"type", "fullName", "birthDate", "gender", "cpf", "rg", "cnpj", "companyName", "tradeName",
     "stateTaxId", "municipalTaxId", "phone2", "whatsapp", "marketingOptIn", "notes", "isBlocked"}

  /** The defaults of `create` for the columns that are not simply `?? null`. */
  const CreateDefaults: map<string, Value> := map[
    "type" := Str("PERSON"),
    "gender" := Str("NOT_INFORMED"),
    "whatsapp" := Bool(true),
    "marketingOptIn" := Bool(false),
    "isBlocked" := Bool(false)]

  /** `birthDate ? new Date(birthDate) : null`. */
  function DateOrNull(x: Option<Value>): (r: Value)
    ensures x.Some? && Truthy(x.value) ==> r == Date(x.value)
    ensures !(x.Some? && Truthy(x.value)) ==> r == Null
  {
    if x.Some? && Truthy(x.value) then Date(x.value) else Null
  }

  /** One column of the profile written on creation: from the payload, else its default, else `null`. */
  function ProfileColumn(data: Object, k: string): (v: Value)
    ensures k == "birthDate" ==> v == DateOrNull(Get(data, k))
    ensures k != "birthDate" && k in CreateDefaults ==> v == Coalesce(Get(data, k), CreateDefaults[k])
    ensures k != "birthDate" && k !in CreateDefaults ==> v == Coalesce(Get(data, k), Null)
  {
    if k == "birthDate" then DateOrNull(Get(data, k))
    else Coalesce(Get(data, k), if k in CreateDefaults then CreateDefaults[k] else Null)
  }

  /** The profile written on creation: every profile column, each as `ProfileColumn` gives it. */
  function NewErpProfile(data: Object): (r: Object)
    ensures r.Keys == ProfileColumns
    ensures forall k :: k in r ==> r[k] == ProfileColumn(data, k)
  {
    map k | k in ProfileColumns :: ProfileColumn(data, k)
  }

  /** The address an ERP request may carry: type and default flag may be omitted. */
  datatype ErpAddress = ErpAddress(addrType: Option<AddressType>, isDefault: Option<bool>, place: Place)

  /** A create or update request: its scalar fields and the optional address (`data.address`). */
  datatype ErpInput = ErpInput(fields: Object, address: Option<ErpAddress>)

  /**
   * A new address for `userId`: SHIPPING and default unless said otherwise;
   * when default, the (user, type) defaults are cleared first.
   */
  function AddAddress(t: AddressTable, userId: string, id: string, a: ErpAddress): (r: AddressTable)
    requires id !in t
    ensures r.Keys == t.Keys + {id}
    ensures r[id] == AddressRow(userId, a.addrType.GetOr(Shipping), a.isDefault.GetOr(true), a.place)
    ensures a.isDefault.GetOr(true) ==> r == ClearDefaults(t, userId, a.addrType.GetOr(Shipping))[id := r[id]]
    ensures !a.isDefault.GetOr(true) ==> r == t[id := r[id]]
  {
    var ty := a.addrType.GetOr(Shipping);
    var isDefault := a.isDefault.GetOr(true);
    var before := if isDefault then ClearDefaults(t, userId, ty) else t;
    before[id := AddressRow(userId, ty, isDefault, a.place)]
  }

  /** Adding an address, default or not, keeps "at most one default per (user, type)". */
  lemma AddAddressKeepsInvariant(t: AddressTable, userId: string, id: string, a: ErpAddress)
    requires id !in t
    requires AtMostOneDefault(t)
    ensures AtMostOneDefault(AddAddress(t, userId, id, a))
  {
    var r := AddAddress(t, userId, id, a);
    var ty := a.addrType.GetOr(Shipping);
    var before := if a.isDefault.GetOr(true) then ClearDefaults(t, userId, ty) else t;
    assert AtMostOneDefault(before);
    forall x, y | x in r && y in r && r[x].isDefault && r[y].isDefault
      && r[x].userId == r[y].userId && r[x].addrType == r[y].addrType
      ensures x == y
    {
      if x == id || y == id {
        assert Owns(r[x], userId, ty) && Owns(r[y], userId, ty);
        assert a.isDefault.GetOr(true);
      } else {
        assert r[x] == before[x] && r[y] == before[y];
      }
    }
  }

  /** Where a request's address goes, if it has one. */
  function WithAddress(t: AddressTable, userId: string, id: string, a: Option<ErpAddress>): (r: AddressTable)
    requires id !in t
    ensures a.None? ==> r == t
    ensures a.Some? ==> r == AddAddress(t, userId, id, a.value)
  {
    if a.Some? then AddAddress(t, userId, id, a.value) else t
  }

  /** Adding an address for a known user keeps every address owned by a known user. */
  lemma WithAddressKeepsOwners(t: AddressTable, owners: set<string>, userId: string, id: string, a: Option<ErpAddress>)
    requires id !in t
    requires forall x :: x in t ==> t[x].userId in owners
    requires userId in owners
    ensures forall x :: x in WithAddress(t, userId, id, a) ==> WithAddress(t, userId, id, a)[x].userId in owners
  {
    if a.Some? {
      var r := AddAddress(t, userId, id, a.value);
      forall x | x in r
        ensures r[x].userId in owners
      {
        if x != id {
          var ty := a.value.addrType.GetOr(Shipping);
          if a.value.isDefault.GetOr(true) {
            assert r[x] == ClearDefaults(t, userId, ty)[x];
          } else {
            assert r[x] == t[x];
          }
        }
      }
    }
  }

  /**
   * Writing a user row, a profile row and an optional address for `userId`
   * keeps the tables' references intact and at most one default address
   * per user and type.
   */
  lemma WrittenTablesKeepInvariants(users: map<string, UserRow>, profiles: map<string, Object>, t: AddressTable,
                                    userId: string, addressId: string, u: UserRow, p: Object, a: Option<ErpAddress>)
    requires TablesValid(users, profiles, t)
    requires addressId !in t
    ensures TablesValid(users[userId := u], profiles[userId := p], WithAddress(t, userId, addressId, a))
    ensures AtMostOneDefault(t) ==> AtMostOneDefault(WithAddress(t, userId, addressId, a))
  {
    WithAddressKeepsOwners(t, users[userId := u].Keys, userId, addressId, a);
    if a.Some? && AtMostOneDefault(t) {
      AddAddressKeepsInvariant(t, userId, addressId, a.value);
    }
  }

  // ---------------------------------------------------------------- partial updates

  const UserPatchKeys: set<string> := {"name", "phone", "email", "document", "isActive"}

  /**
   * `userPatch`: exactly the user keys the request defines. `x ?? null` of a
   * defined value is the value itself, so an explicit `null` stays `null`.
   */
  function UserPatch(data: Object): (r: Object)
    ensures r.Keys == data.Keys * UserPatchKeys
    ensures forall k :: k in r ==> r[k] == data[k]
  {
    map k | k in data && k in UserPatchKeys :: data[k]
  }

  /** One column of `profilePatch`: dates converted (falsy to `null`), a `null` gender back to NOT_INFORMED. */
  function ProfilePatchValue(k: string, v: Value): Value {
    if k == "birthDate" then DateOrNull(Some(v))
    else if k == "gender" then Coalesce(Some(v), Str("NOT_INFORMED"))
    else v
  }

  /** `profilePatch`: exactly the profile keys the request defines. */
  function ProfilePatch(data: Object): (r: Object)
    ensures r.Keys == data.Keys * ProfileColumns
    ensures forall k :: k in r && k != "birthDate" && k != "gender" ==> r[k] == data[k]
    ensures "gender" in r ==> r["gender"] == Coalesce(Some(data["gender"]), Str("NOT_INFORMED"))
    ensures "birthDate" in r ==> r["birthDate"] == DateOrNull(Some(data["birthDate"]))
  {
    map k | k in data && k in ProfileColumns :: ProfilePatchValue(k, data[k])
  }

  /** `customerProfile.upsert`: the patch over the stored profile, or over a new PERSON profile. */
  function Upsert(profiles: map<string, Object>, userId: string, patch: Object): (r: map<string, Object>)
    ensures r.Keys == profiles.Keys + {userId}
    ensures forall u :: u in profiles && u != userId ==> r[u] == profiles[u]
    ensures userId in profiles ==> r[userId] == Spread(profiles[userId], patch)
    ensures userId !in profiles ==> r[userId] == Spread(map["type" := Str("PERSON")], patch)
  {
    var current := if userId in profiles then profiles[userId] else map["type" := Str("PERSON")];
    profiles[userId := Spread(current, patch)]
  }

  /** A profile created by an upsert is a PERSON unless the patch itself names a type. */
  lemma UpsertCreatesPerson(profiles: map<string, Object>, userId: string, patch: Object)
    requires userId !in profiles && "type" !in patch
    ensures IsPerson(Upsert(profiles, userId, patch)[userId])
  {
  }

  /** The users table after `update`'s user patch; an empty patch writes nothing. */
  function PatchedUsers(users: map<string, UserRow>, id: string, patch: Object): (r: map<string, UserRow>)
    requires id in users
    ensures r.Keys == users.Keys
    ensures forall u :: u in users && u != id ==> r[u] == users[u]
    ensures r[id].isErpOnly == users[id].isErpOnly
    ensures r[id].fields == Spread(users[id].fields, patch)
    ensures patch == map[] ==> r == users
  {
    if patch == map[] then users
    else users[id := users[id].(fields := Spread(users[id].fields, patch))]
  }

  /** The profiles table after `update`'s profile upsert; an empty patch creates no profile. */
  function PatchedProfiles(profiles: map<string, Object>, id: string, patch: Object): (r: map<string, Object>)
    ensures patch == map[] ==> r == profiles
    ensures patch != map[] ==> r == Upsert(profiles, id, patch)
  {
    if patch == map[] then profiles else Upsert(profiles, id, patch)
  }

  // ---------------------------------------------------------------- order summary

  /** `where: { userId }`: the customer's orders, in table order. */
  function UserOrders(os: seq<Orders.Order>, userId: string): (r: seq<Orders.Order>)
    ensures |r| <= |os|
    ensures forall i :: 0 <= i < |r| ==> r[i].userId == userId && r[i] in os
    ensures forall o :: o in r <==> o in os && o.userId == userId
  {
    if os == [] then []
    else (if os[0].userId == userId then [os[0]] else []) + UserOrders(os[1..], userId)
  }

  /** `where: { orderType }`. */
  function OfType(os: seq<Orders.Order>, t: Orders.OrderType): (r: seq<Orders.Order>)
    ensures |r| <= |os|
    ensures forall i :: 0 <= i < |r| ==> r[i].orderType == t && r[i] in os
    ensures forall o :: o in r <==> o in os && o.orderType == t
  {
    if os == [] then []
    else (if os[0].orderType == t then [os[0]] else []) + OfType(os[1..], t)
  }

  /** `where: { paymentStatus: 'PAID' }`. */
  function PaidOnes(os: seq<Orders.Order>): (r: seq<Orders.Order>)
    ensures |r| <= |os|
    ensures forall i :: 0 <= i < |r| ==> r[i].paymentStatus == Orders.PaymentPaid && r[i] in os
    ensures forall o :: o in r <==> o in os && o.paymentStatus == Orders.PaymentPaid
  {
    if os == [] then []
    else (if os[0].paymentStatus == Orders.PaymentPaid then [os[0]] else []) + PaidOnes(os[1..])
  }

  /** The sum of the orders' totals, in cents. */
  function SumTotals(os: seq<Orders.Order>): (r: int)
    ensures os == [] ==> r == 0
    ensures (forall i :: 0 <= i < |os| ==> os[i].totalCents >= 0) ==> r >= 0
  {
    if os == [] then 0 else os[0].totalCents + SumTotals(os[1..])
  }

  /** `aggregate({ _sum: { totalCents } })`: `null` over no rows. */
  function AggregateSum(os: seq<Orders.Order>): (r: Option<int>)
    ensures r.None? <==> os == []
    ensures r.Some? ==> r.value == SumTotals(os)
  {
    if os == [] then None else Some(SumTotals(os))
  }

  datatype Stats = Stats(
    ordersCount: nat,
    quotesCount: nat,
    salesCount: nat,
    sumSalesPaidCents: int,
    sumSalesTotalCents: int)

  /** Every order is a quote or a sale, so the two counts add up to the total. */
  lemma {:induction false} TypesPartition(os: seq<Orders.Order>)
    ensures |os| == |OfType(os, Orders.QuoteOrder)| + |OfType(os, Orders.SaleOrder)|
  {
    if os != [] {
      TypesPartition(os[1..]);
    }
  }

  /**
   * The `stats` of `getCustomerSummary`: NotFound unless an ERP customer
   * with that id exists; the two sums are 0 when no order matches.
   */
  function CustomerStats(users: map<string, UserRow>, os: seq<Orders.Order>, userId: string)
    : (r: Result<Stats, Error>)
    ensures !(userId in users && users[userId].isErpOnly) ==> r == Err(NotFoundError(CustomerNotFound))
    ensures userId in users && users[userId].isErpOnly ==> r.Ok?
    ensures r.Ok? ==> r.value.ordersCount == |UserOrders(os, userId)|
    ensures r.Ok? ==> r.value.quotesCount == |OfType(UserOrders(os, userId), Orders.QuoteOrder)|
    ensures r.Ok? ==> r.value.salesCount == |OfType(UserOrders(os, userId), Orders.SaleOrder)|
    ensures r.Ok? ==> r.value.ordersCount == r.value.quotesCount + r.value.salesCount
    ensures r.Ok? && OfType(UserOrders(os, userId), Orders.SaleOrder) == [] ==>
      r.value.salesCount == 0 && r.value.sumSalesTotalCents == 0 && r.value.sumSalesPaidCents == 0
    ensures r.Ok? ==> r.value.sumSalesTotalCents == SumTotals(OfType(UserOrders(os, userId), Orders.SaleOrder))
    ensures r.Ok? ==> r.value.sumSalesPaidCents == SumTotals(PaidOnes(OfType(UserOrders(os, userId), Orders.SaleOrder)))
  {
    if !(userId in users && users[userId].isErpOnly) then Err(NotFoundError(CustomerNotFound))
    else
      var mine := UserOrders(os, userId);
      var sales := OfType(mine, Orders.SaleOrder);
      TypesPartition(mine);
      Ok(Stats(
        |mine|,
        |OfType(mine, Orders.QuoteOrder)|,
        |sales|,
        AggregateSum(PaidOnes(sales)).GetOr(0),
        AggregateSum(sales).GetOr(0)))
  }

  /** One `breakdown` entry: the group's size and its sum, `?? 0`. */
  datatype GroupEntry = GroupEntry(count: nat, sumTotalCents: int)

  /** The `byPaymentStatus` entry of one payment status; a status with no orders has no entry. */
  function PaymentBreakdown(os: seq<Orders.Order>, userId: string, s: Orders.PaymentStatus): (r: Option<GroupEntry>)
    ensures r.Some? ==> r.value.count >= 1
    ensures r.Some? <==> exists i :: 0 <= i < |os| && os[i].userId == userId && os[i].paymentStatus == s
    ensures r.Some? ==>
      var group := WithPayment(UserOrders(os, userId), s);
      r.value.count == |group| && r.value.sumTotalCents == SumTotals(group)
  {
    var group := WithPayment(UserOrders(os, userId), s);
    if group == [] then
      assert forall i :: 0 <= i < |os| && os[i].userId == userId ==> os[i] in UserOrders(os, userId);
      None
    else
      assert group[0] in group;
      Some(GroupEntry(|group|, AggregateSum(group).GetOr(0)))
  }

  /** `groupBy: ['paymentStatus']`, one group. */
  function WithPayment(os: seq<Orders.Order>, s: Orders.PaymentStatus): (r: seq<Orders.Order>)
    ensures |r| <= |os|
    ensures forall i :: 0 <= i < |r| ==> r[i].paymentStatus == s
    ensures forall o :: o in r <==> o in os && o.paymentStatus == s
  {
    if os == [] then []
    else (if os[0].paymentStatus == s then [os[0]] else []) + WithPayment(os[1..], s)
  }

  /** The `byStatus` entry of one order status; a status with no orders has no entry. */
  function StatusBreakdown(os: seq<Orders.Order>, userId: string, s: Orders.OrderStatus): (r: Option<GroupEntry>)
    ensures r.Some? ==> r.value.count >= 1
    ensures r.Some? <==> exists i :: 0 <= i < |os| && os[i].userId == userId && os[i].status == s
    ensures r.Some? ==>
      var group := WithStatus(UserOrders(os, userId), s);
      r.value.count == |group| && r.value.sumTotalCents == SumTotals(group)
  {
    var group := WithStatus(UserOrders(os, userId), s);
    if group == [] then
      assert forall i :: 0 <= i < |os| && os[i].userId == userId ==> os[i] in UserOrders(os, userId);
      None
    else
      assert group[0] in group;
      Some(GroupEntry(|group|, AggregateSum(group).GetOr(0)))
  }

  /** `groupBy: ['status']`, one group. */
  function WithStatus(os: seq<Orders.Order>, s: Orders.OrderStatus): (r: seq<Orders.Order>)
    ensures |r| <= |os|
    ensures forall i :: 0 <= i < |r| ==> r[i].status == s
    ensures forall o :: o in r <==> o in os && o.status == s
  {
    if os == [] then []
    else (if os[0].status == s then [os[0]] else []) + WithStatus(os[1..], s)
  }

  /** A customer without orders has zero counts and zero sums: no `null` reaches the summary. */
  lemma NoOrdersZeroStats(users: map<string, UserRow>, os: seq<Orders.Order>, userId: string)
    requires userId in users && users[userId].isErpOnly
    requires forall i :: 0 <= i < |os| ==> os[i].userId != userId
    ensures CustomerStats(users, os, userId) == Ok(Stats(0, 0, 0, 0, 0))
  {
    NoOrdersOfOthers(os, userId);
  }

  lemma {:induction false} NoOrdersOfOthers(os: seq<Orders.Order>, userId: string)
    requires forall i :: 0 <= i < |os| ==> os[i].userId != userId
    ensures UserOrders(os, userId) == []
  {
    if os != [] {
      NoOrdersOfOthers(os[1..], userId);
    }
  }

  // ---------------------------------------------------------------- the service

  class ErpCustomers {
    const repo: CustomerTables

    constructor(repo: CustomerTables)
      ensures this.repo == repo
    {
      this.repo := repo;
    }

    /** `findFirst({ where: { id, isErpOnly: true } })` finds the user. */
    predicate IsErpCustomer(id: string)
      reads repo
    {
      id in repo.users && repo.users[id].isErpOnly
    }

    /** `getById`: NotFound unless an ERP customer with that id exists. */
    method GetById(id: string) returns (r: Result<UserRow, Error>)
      ensures !IsErpCustomer(id) ==> r == Err(NotFoundError(CustomerNotFound))
      ensures IsErpCustomer(id) ==> r == Ok(repo.users[id])
    {
      if !IsErpCustomer(id) {
        return Err(NotFoundError(CustomerNotFound));
      }
      r := Ok(repo.users[id]);
    }

    /** `create`: user, profile and the optional first address in one transaction. */
    method Create(data: ErpInput, userId: string, addressId: string)
      requires repo.Valid()
      requires userId !in repo.users && addressId !in repo.addresses
      modifies repo
      ensures repo.users == old(repo.users)[userId := NewErpUser(data.fields)]
      ensures repo.profiles == old(repo.profiles)[userId := NewErpProfile(data.fields)]
      ensures repo.addresses == WithAddress(old(repo.addresses), userId, addressId, data.address)
      ensures IsErpCustomer(userId)
      ensures repo.Valid()
      ensures AtMostOneDefault(old(repo.addresses)) ==> AtMostOneDefault(repo.addresses)
    {
      var users := repo.users[userId := NewErpUser(data.fields)];
      var profiles := repo.profiles[userId := NewErpProfile(data.fields)];
      var addresses := WithAddress(repo.addresses, userId, addressId, data.address);
      assert TablesValid(users, profiles, addresses) && (AtMostOneDefault(repo.addresses) ==> AtMostOneDefault(addresses)) by {
        WrittenTablesKeepInvariants(repo.users, repo.profiles, repo.addresses, userId, addressId,
                                    NewErpUser(data.fields), NewErpProfile(data.fields), data.address);
      }
      repo.Write(users, profiles, addresses);
    }

    /**
     * `update`: NotFound (nothing written) unless an ERP customer with that
     * id exists; otherwise the user patch, the profile upsert and the
     * optional new address, each skipped when it has nothing to write.
     */
    method Update(id: string, data: ErpInput, addressId: string) returns (r: Result<UserRow, Error>)
      requires repo.Valid()
      requires addressId !in repo.addresses
      modifies repo
      ensures !old(IsErpCustomer(id)) ==> r == Err(NotFoundError(CustomerNotFound)) && unchanged(repo)
      ensures old(IsErpCustomer(id)) ==>
        && repo.users == PatchedUsers(old(repo.users), id, UserPatch(data.fields))
        && repo.profiles == PatchedProfiles(old(repo.profiles), id, ProfilePatch(data.fields))
        && repo.addresses == WithAddress(old(repo.addresses), id, addressId, data.address)
        && r == Ok(repo.users[id])
      ensures repo.Valid()
      ensures AtMostOneDefault(old(repo.addresses)) ==> AtMostOneDefault(repo.addresses)
    {
      if !IsErpCustomer(id) {
        return Err(NotFoundError(CustomerNotFound));
      }
      var users := PatchedUsers(repo.users, id, UserPatch(data.fields));
      var profiles := PatchedProfiles(repo.profiles, id, ProfilePatch(data.fields));
      var addresses := WithAddress(repo.addresses, id, addressId, data.address);
      assert TablesValid(users, profiles, addresses) && (AtMostOneDefault(repo.addresses) ==> AtMostOneDefault(addresses)) by {
        WithAddressKeepsOwners(repo.addresses, users.Keys, id, addressId, data.address);
        if data.address.Some? && AtMostOneDefault(repo.addresses) {
          AddAddressKeepsInvariant(repo.addresses, id, addressId, data.address.value);
        }
      }
      repo.Write(users, profiles, addresses);
      r := Ok(users[id]);
    }

    /** `setActive`: NotFound unless an ERP customer; otherwise only its `isActive` column changes. */
    method SetActive(id: string, isActive: bool) returns (r: Result<UserRow, Error>)
      modifies repo`users
      ensures !old(IsErpCustomer(id)) ==> r == Err(NotFoundError(CustomerNotFound)) && repo.users == old(repo.users)
      ensures old(IsErpCustomer(id)) ==>
        repo.users == old(repo.users)[id := old(repo.users)[id].(fields := old(repo.users)[id].fields["isActive" := Bool(isActive)])]
        && r == Ok(repo.users[id])
    {
      if !IsErpCustomer(id) {
        return Err(NotFoundError(CustomerNotFound));
      }
      var u := repo.users[id];
      repo.users := repo.users[id := u.(fields := u.fields["isActive" := Bool(isActive)])];
      r := Ok(repo.users[id]);
    }

    /** `setBlocked`: NotFound unless an ERP customer; otherwise the profile's `isBlocked`, upserted. */
    method SetBlocked(id: string, isBlocked: bool) returns (r: Result<UserRow, Error>)
      modifies repo`profiles
      ensures !old(IsErpCustomer(id)) ==> r == Err(NotFoundError(CustomerNotFound)) && repo.profiles == old(repo.profiles)
      ensures old(IsErpCustomer(id)) ==>
        repo.profiles == Upsert(old(repo.profiles), id, map["isBlocked" := Bool(isBlocked)])
        && r == Ok(repo.users[id])
    {
      if !IsErpCustomer(id) {
        return Err(NotFoundError(CustomerNotFound));
      }
      repo.profiles := Upsert(repo.profiles, id, map["isBlocked" := Bool(isBlocked)]);
      r := GetById(id);
    }

    /** `remove`: a soft delete, `setActive(id, false)`. */
    method Remove(id: string) returns (r: Result<UserRow, Error>)
      modifies repo`users
      ensures !old(IsErpCustomer(id)) ==> r == Err(NotFoundError(CustomerNotFound)) && repo.users == old(repo.users)
      ensures old(IsErpCustomer(id)) ==>
        repo.users == old(repo.users)[id := old(repo.users)[id].(fields := old(repo.users)[id].fields["isActive" := Bool(false)])]
        && r == Ok(repo.users[id])
    {
      r := SetActive(id, false);
    }

    /** `restore`: `setActive(id, true)`. */
    method Restore(id: string) returns (r: Result<UserRow, Error>)
      modifies repo`users
      ensures !old(IsErpCustomer(id)) ==> r == Err(NotFoundError(CustomerNotFound)) && repo.users == old(repo.users)
      ensures old(IsErpCustomer(id)) ==>
        repo.users == old(repo.users)[id := old(repo.users)[id].(fields := old(repo.users)[id].fields["isActive" := Bool(true)])]
        && r == Ok(repo.users[id])
    {
      r := SetActive(id, true);
    }
  }
}
