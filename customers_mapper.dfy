/**
 * `normalizeCustomerResponse`: the back office accepts a customer either
 * nested (`{ user, profile, addresses }`) or flattened (the user object with
 * `profile` and `addresses` inside it) and always works with the nested
 * shape.
 */
module CustomersMapper {
  import opened Wrappers
  import opened Json

  /** The nested shape; `user` is `None` when the response itself was `undefined`. */
  datatype CustomerView = CustomerView(user: Option<Value>, profile: Value, addresses: Value)

  /** `x?.k`: a field of an object; `undefined` for anything else. */
  function Field(x: Option<Value>, k: string): (r: Option<Value>)
    ensures x.Some? && x.value.Obj? ==> r == Get(x.value.fields, k)
    ensures !(x.Some? && x.value.Obj?) ==> r == None
  {
    match x
    case Some(Obj(m)) => Get(m, k)
    case _ => None
  }

  /**
   * `user` is `data.user || data`; `profile` the first truthy of
   * `data.profile`, `data.customerProfile` and `user.profile`, else `null`;
   * `addresses` the first truthy of `data.addresses` and `user.addresses`,
   * else `[]`.
   */
  function NormalizeCustomerResponse(data: Option<Value>): (r: CustomerView)
    ensures r.user == OrElse(Field(data, "user"), data)
    ensures r.profile == Null || Truthy(r.profile)
    ensures Truthy(r.addresses)
    ensures Field(data, "profile").Some? && Truthy(Field(data, "profile").value) ==>
              r.profile == Field(data, "profile").value
    ensures Field(data, "addresses").Some? && Truthy(Field(data, "addresses").value) ==>
              r.addresses == Field(data, "addresses").value
  {
    var user := OrElse(Field(data, "user"), data);
    var profile := OrElse(OrElse(OrElse(Field(data, "profile"), Field(data, "customerProfile")),
                                 Field(user, "profile")), Some(Null));
    var addresses := OrElse(OrElse(Field(data, "addresses"), Field(user, "addresses")), Some(Arr([])));
    CustomerView(user, profile.value, addresses.value)
  }

  /** The nested object a view stands for. */
  function AsResponse(v: CustomerView): (r: Value)
    ensures r.Obj? && r.fields.Keys == (if v.user.Some? then {"user"} else {}) + {"profile", "addresses"}
  {
    var base := map["profile" := v.profile, "addresses" := v.addresses];
    Obj(if v.user.Some? then base["user" := v.user.value] else base)
  }

  // ---------------------------------------------------------------------
  // Properties
  // ---------------------------------------------------------------------

  /** Normalising an already nested response with a truthy user gives it back. */
  lemma NormalizeNested(v: CustomerView)
    requires v.user.Some? && Truthy(v.user.value)
    requires v.profile == Null || Truthy(v.profile)
    requires Truthy(v.addresses)
    requires v.profile == Null ==> !(Field(v.user, "profile").Some? && Truthy(Field(v.user, "profile").value))
    ensures NormalizeCustomerResponse(Some(AsResponse(v))) == v
  {
  }

  /** Normalising is idempotent on the nested shape it produces (when the response had a user). */
  lemma NormalizeIdempotent(data: Option<Value>)
    requires Truthy(OrElse(Field(data, "user"), data).GetOr(Null))
    ensures NormalizeCustomerResponse(Some(AsResponse(NormalizeCustomerResponse(data))))
            == NormalizeCustomerResponse(data)
  {
    var v := NormalizeCustomerResponse(data);
    NormalizeNested(v);
  }

  /** The flattened and the nested form of the same customer give the same profile and addresses. */
  lemma FlattenedMatchesNested(user: map<string, Value>, profile: Value, addresses: Value)
    requires Truthy(profile) && Truthy(addresses)
    requires "user" !in user && "customerProfile" !in user
    ensures var nested := NormalizeCustomerResponse(Some(Obj(map["user" := Obj(user), "profile" := profile, "addresses" := addresses])));
            var flat := NormalizeCustomerResponse(Some(Obj(user["profile" := profile]["addresses" := addresses])));
            && nested.profile == flat.profile == profile
            && nested.addresses == flat.addresses == addresses
            && nested.user == Some(Obj(user))
  {
  }
}
