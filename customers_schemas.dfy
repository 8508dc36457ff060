/**
 * The custom parts of the customer registration schemas: the digit-stripping
 * transform applied to documents and zip codes, the address refinements (an
 * 8-digit zip code, a 2-letter state) and the PF/PJ document rules that a
 * profile must satisfy. Every violated rule is reported, not only the first.
 *
 * A profile is a JavaScript object (`Json.Object`); addresses are typed.
 */
module CustomerSchemas {
  import opened Wrappers
  import opened Json
  import opened Strings

  /** `onlyDigits`: a string loses every non-digit, any other value passes unchanged. */
  function OnlyDigitsValue(v: Value): (r: Value)
    ensures !v.Str? ==> r == v
    ensures v.Str? ==> r.Str? && AllDigits(r.s) && |r.s| <= |v.s|
  {
    match v
    case Str(s) => Str(OnlyDigits(s))
    case _ => v
  }

  /** The transform is a projection: applying it to its own output changes nothing. */
  lemma OnlyDigitsValueIdempotent(v: Value)
    ensures OnlyDigitsValue(OnlyDigitsValue(v)) == OnlyDigitsValue(v)
  {
    if v.Str? {
      OnlyDigitsIdempotent(v.s);
    }
  }

  // ---------------------------------------------------------------- addresses

  datatype AddressType = Shipping | Billing

  /** The descriptive part of an address, shared by inputs and stored rows. */
  datatype Place = Place(
    labelText: Option<string>,  // `label`
    recipient: Option<string>,
    zipCode: string,
    street: string,
    number: string,
    complement: Option<string>,
    district: string,
    city: string,
    state: string,
    reference: Option<string>)

  /** An address as the client sends it: type and default flag may be omitted. */
  datatype RawAddress = RawAddress(addrType: Option<AddressType>, isDefault: Option<bool>, place: Place)

  /** An address after `AddressInput` accepted it. */
  datatype AddressInput = AddressInput(addrType: AddressType, isDefault: bool, place: Place)

  /** One issue per failed refinement of `AddressInput`, in field order. */
  datatype AddressIssue =
    | ZipInvalid
    | StreetTooShort
    | NumberMissing
    | DistrictTooShort
    | CityTooShort
    | StateNotTwoLetters

  /** The zip-code refinement, on the stripped value. */
  predicate ZipValid(zip: string) {
    |OnlyDigits(zip)| == 8
  }

  /** Every refinement of `AddressInput` holds for the raw place. */
  predicate AddressAcceptable(p: Place) {
    && ZipValid(p.zipCode)
    && |p.street| >= 2
    && |p.number| >= 1
    && |p.district| >= 2
    && |p.city| >= 2
    && |p.state| == 2
  }

  function AddressIssues(p: Place): (r: seq<AddressIssue>)
    ensures r == [] <==> AddressAcceptable(p)
    ensures ZipInvalid in r <==> !ZipValid(p.zipCode)
    ensures StateNotTwoLetters in r <==> |p.state| != 2
  {
    (if !ZipValid(p.zipCode) then [ZipInvalid] else [])
    + (if |p.street| < 2 then [StreetTooShort] else [])
    + (if |p.number| < 1 then [NumberMissing] else [])
    + (if |p.district| < 2 then [DistrictTooShort] else [])
    + (if |p.city| < 2 then [CityTooShort] else [])
    + (if |p.state| != 2 then [StateNotTwoLetters] else [])
  }

  /**
   * `AddressInput.parse`: strips the zip code to its digits, checks every
   * refinement, and fills the defaults SHIPPING and not-default.
   */
  function ParseAddress(raw: RawAddress): (r: Result<AddressInput, seq<AddressIssue>>)
    ensures r.Ok? <==> AddressAcceptable(raw.place)
    ensures r.Err? ==> r.error != [] && (ZipInvalid in r.error <==> !ZipValid(raw.place.zipCode))
    ensures r.Ok? ==> |r.value.place.zipCode| == 8 && AllDigits(r.value.place.zipCode)
    ensures r.Ok? ==> |r.value.place.state| == 2
    ensures r.Ok? ==> r.value.place == raw.place.(zipCode := OnlyDigits(raw.place.zipCode))
    ensures r.Ok? ==> r.value.addrType == (if raw.addrType.Some? then raw.addrType.value else Shipping)
    ensures r.Ok? ==> r.value.isDefault == (raw.isDefault.Some? && raw.isDefault.value)
  {
    var issues := AddressIssues(raw.place);
    if issues != [] then Err(issues)
    else
      var place := raw.place.(zipCode := OnlyDigits(raw.place.zipCode));
      Ok(AddressInput(raw.addrType.GetOr(Shipping), raw.isDefault.GetOr(false), place))
  }

  /** The zip code the schema stores does not depend on how the client punctuated it. */
  lemma ZipPunctuationIgnored(raw: RawAddress, zip: string)
    requires OnlyDigits(zip) == OnlyDigits(raw.place.zipCode)
    ensures ParseAddress(raw.(place := raw.place.(zipCode := zip))) == ParseAddress(raw)
  {
  }

  // ---------------------------------------------------------------- billing

  /** `BillingAddressInput`: either "same as shipping" or a full address of its own. */
  datatype BillingInput = SameAsShipping | SeparateBilling(address: AddressInput)

  /** `.optional().default({ sameAsShipping: true })`. */
  function BillingOrDefault(b: Option<BillingInput>): (r: BillingInput)
    ensures b.None? ==> r == SameAsShipping
    ensures b.Some? ==> r == b.value
  {
    b.GetOr(SameAsShipping)
  }

  // ---------------------------------------------------------------- profiles

  /** One issue per PF/PJ rule, each with the field it is reported on. */
  datatype ProfileIssue =
    | TypeMismatch
    | FullNameRequired
    | CpfRequired
    | CpfInvalid
    | CnpjNotAllowed
    | CompanyNameRequired
    | CnpjRequired
    | CnpjInvalid
    | CpfNotAllowed

  /** The keys `CustomerProfileBase` declares as strings. */
  const ProfileStringKeys: set<string> :=
    {"fullName", "birthDate", "companyName", "tradeName", "stateTaxId", "municipalTaxId",
     "cpf", "cnpj", "rg", "phone2", "termsAcceptedAt", "notes"}

  /** The keys `.default(...)` fills in when they are absent. */
  const ProfileDefaults: Object :=
    map["gender" := Str("NOT_INFORMED"), "whatsapp" := Bool(true), "marketingOptIn" := Bool(false)]

  /** Every key `CustomerProfileBase` declares; `parse` drops all others. */
  const ProfileKeys: set<string> := ProfileStringKeys + {"type"} + ProfileDefaults.Keys

  /** The `Gender` enum. */
  const Genders: set<string> := {"NOT_INFORMED", "MALE", "FEMALE", "OTHER"}

  predicate IsPerson(o: Object) {
    Get(o, "type") == Some(Str("PERSON"))
  }

  predicate IsBusiness(o: Object) {
    Get(o, "type") == Some(Str("BUSINESS"))
  }

  /**
   * The type checks that run before the refinement: a known customer type,
   * strings where strings are declared, a known gender and booleans for the
   * two flags, each only when present.
   */
  predicate ProfileTyped(o: Object) {
    && (IsPerson(o) || IsBusiness(o))
    && (forall k :: k in ProfileStringKeys && k in o ==> o[k].Str?)
    && ("gender" in o ==> o["gender"].Str? && o["gender"].s in Genders)
    && ("whatsapp" in o ==> o["whatsapp"].Bool?)
    && ("marketingOptIn" in o ==> o["marketingOptIn"].Bool?)
  }

  /** The length of a string field (`data.cpf.length`); only read for fields the type check made strings. */
  function Len(o: Object, k: string): nat {
    if k in o && o[k].Str? then |o[k].s| else 0
  }

  /**
   * What `parse` makes of a type-checked profile: undeclared keys dropped,
   * the three defaults filled in, and the digit-stripping transforms of
   * `cpf`, `cnpj` and `phone2` applied.
   */
  function NormalizeProfile(o: Object): (r: Object)
    ensures r.Keys == (o.Keys * ProfileKeys) + ProfileDefaults.Keys
    ensures forall k :: k in o && k in ProfileKeys && k != "cpf" && k != "cnpj" && k != "phone2" ==> r[k] == o[k]
    ensures forall k :: k in o && (k == "cpf" || k == "cnpj" || k == "phone2") ==> r[k] == OnlyDigitsValue(o[k])
    ensures forall k :: k in ProfileDefaults && k !in o ==> r[k] == ProfileDefaults[k]
  {
    map k | k in (o.Keys * ProfileKeys) + ProfileDefaults.Keys ::
      if k !in o then ProfileDefaults[k]
      else if k == "cpf" || k == "cnpj" || k == "phone2" then OnlyDigitsValue(o[k])
      else o[k]
  }

  /** The PF/PJ document rules, stated on their own. */
  predicate DocumentRulesHold(o: Object) {
    && (IsPerson(o) ==>
          TruthyAt(o, "fullName") && TruthyAt(o, "cpf") && Len(o, "cpf") == 11 && !TruthyAt(o, "cnpj"))
    && (IsBusiness(o) ==>
          TruthyAt(o, "companyName") && TruthyAt(o, "cnpj") && Len(o, "cnpj") == 14 && !TruthyAt(o, "cpf"))
  }

  /** The PERSON half of the `superRefine` callback. */
  function PersonIssues(o: Object): (r: seq<ProfileIssue>)
    ensures r == [] <==> TruthyAt(o, "fullName") && TruthyAt(o, "cpf") && Len(o, "cpf") == 11 && !TruthyAt(o, "cnpj")
    ensures FullNameRequired in r <==> !TruthyAt(o, "fullName")
    ensures CpfRequired in r <==> !TruthyAt(o, "cpf")
    ensures CpfInvalid in r <==> TruthyAt(o, "cpf") && Len(o, "cpf") != 11
    ensures CnpjNotAllowed in r <==> TruthyAt(o, "cnpj")
    ensures forall i :: 0 <= i < |r| ==> r[i] in {FullNameRequired, CpfRequired, CpfInvalid, CnpjNotAllowed}
  {
    (if !TruthyAt(o, "fullName") then [FullNameRequired] else [])
    + (if !TruthyAt(o, "cpf") then [CpfRequired] else [])
    + (if TruthyAt(o, "cpf") && Len(o, "cpf") != 11 then [CpfInvalid] else [])
    + (if TruthyAt(o, "cnpj") then [CnpjNotAllowed] else [])
  }

  /** The BUSINESS half of the `superRefine` callback. */
  function BusinessIssues(o: Object): (r: seq<ProfileIssue>)
    ensures r == [] <==> TruthyAt(o, "companyName") && TruthyAt(o, "cnpj") && Len(o, "cnpj") == 14 && !TruthyAt(o, "cpf")
    ensures CompanyNameRequired in r <==> !TruthyAt(o, "companyName")
    ensures CnpjRequired in r <==> !TruthyAt(o, "cnpj")
    ensures CnpjInvalid in r <==> TruthyAt(o, "cnpj") && Len(o, "cnpj") != 14
    ensures CpfNotAllowed in r <==> TruthyAt(o, "cpf")
    ensures forall i :: 0 <= i < |r| ==> r[i] in {CompanyNameRequired, CnpjRequired, CnpjInvalid, CpfNotAllowed}
  {
    (if !TruthyAt(o, "companyName") then [CompanyNameRequired] else [])
    + (if !TruthyAt(o, "cnpj") then [CnpjRequired] else [])
    + (if TruthyAt(o, "cnpj") && Len(o, "cnpj") != 14 then [CnpjInvalid] else [])
    + (if TruthyAt(o, "cpf") then [CpfNotAllowed] else [])
  }

  /**
   * The `superRefine` callback: it adds an issue for every rule that fails,
   * so a profile breaking several rules hears about all of them.
   */
  function ProfileIssues(o: Object): (r: seq<ProfileIssue>)
    ensures r == [] <==> DocumentRulesHold(o)
    ensures IsPerson(o) ==> r == PersonIssues(o)
    ensures IsBusiness(o) ==> r == BusinessIssues(o)
    ensures !IsPerson(o) && !IsBusiness(o) ==> r == []
    ensures TypeMismatch !in r
  {
    (if IsPerson(o) then PersonIssues(o) else [])
    + (if IsBusiness(o) then BusinessIssues(o) else [])
  }

  /** `CustomerProfileInput.parse`: type check, transforms, then the PF/PJ refinement. */
  function ParseProfile(raw: Object): (r: Result<Object, seq<ProfileIssue>>)
    ensures !ProfileTyped(raw) ==> r == Err([TypeMismatch])
    ensures r.Ok? ==> r.value == NormalizeProfile(raw) && DocumentRulesHold(r.value)
    ensures r.Err? ==> r.error != []
  {
    if !ProfileTyped(raw) then Err([TypeMismatch])
    else
      var o := NormalizeProfile(raw);
      var issues := ProfileIssues(o);
      if issues == [] then Ok(o) else Err(issues)
  }

  /**
   * An accepted profile holds declared keys only, still passes the type
   * checks, and always has a gender and both flags: the sent ones, else the
   * defaults.
   */
  lemma AcceptedProfileShape(raw: Object)
    requires ParseProfile(raw).Ok?
    ensures var o := ParseProfile(raw).value;
      && o.Keys <= ProfileKeys
      && ProfileTyped(o)
      && Get(o, "gender") == Some(Get(raw, "gender").GetOr(Str("NOT_INFORMED")))
      && Get(o, "whatsapp") == Some(Get(raw, "whatsapp").GetOr(Bool(true)))
      && Get(o, "marketingOptIn") == Some(Get(raw, "marketingOptIn").GetOr(Bool(false)))
  {
    var o := ParseProfile(raw).value;
    assert ProfileTyped(raw);
    DefaultKeysDiffer();
    assert "type" in raw && o["type"] == raw["type"];
    forall k | k in ProfileStringKeys && k in o
      ensures o[k].Str?
    {
      assert k in raw;
    }
    NormalizedDefault(raw, "gender");
    NormalizedDefault(raw, "whatsapp");
    NormalizedDefault(raw, "marketingOptIn");
  }

  /** A defaulted key of a normalised profile holds the sent value, else the default. */
  lemma NormalizedDefault(raw: Object, k: string)
    requires k in ProfileDefaults
    ensures Get(NormalizeProfile(raw), k) == Some(Get(raw, k).GetOr(ProfileDefaults[k]))
  {
    DefaultKeysDiffer();
  }

  /** The defaulted keys and `type` are none of the digit-stripped keys, and the defaulted keys are not string keys. */
  lemma DefaultKeysDiffer()
    ensures forall k :: k in ProfileDefaults ==> k != "cpf" && k != "cnpj" && k != "phone2" && k !in ProfileStringKeys
    ensures "type" != "cpf" && "type" != "cnpj" && "type" != "phone2" && "type" in ProfileKeys
  {
    assert "type"[0] != "cpf"[0] && "type"[0] != "cnpj"[0] && "type"[0] != "phone2"[0];
    assert "gender"[0] != "cpf"[0] && "whatsapp"[0] != "cpf"[0] && "marketingOptIn"[0] != "cpf"[0];
    assert "gender"[0] != "phone2"[0] && "whatsapp"[0] != "phone2"[0] && "marketingOptIn"[0] != "phone2"[0];
    assert "marketingOptIn"[1] != "municipalTaxId"[1];
  }

  /** An accepted PERSON profile carries an 11-digit CPF and no CNPJ; a BUSINESS one the reverse with 14 digits. */
  lemma AcceptedProfileDocuments(raw: Object)
    requires ParseProfile(raw).Ok?
    ensures var o := ParseProfile(raw).value;
      IsPerson(o) ==> o["cpf"].Str? && |o["cpf"].s| == 11 && AllDigits(o["cpf"].s) && !TruthyAt(o, "cnpj")
    ensures var o := ParseProfile(raw).value;
      IsBusiness(o) ==> o["cnpj"].Str? && |o["cnpj"].s| == 14 && AllDigits(o["cnpj"].s) && !TruthyAt(o, "cpf")
  {
    var o := ParseProfile(raw).value;
    assert ProfileTyped(raw) && o == NormalizeProfile(raw) && DocumentRulesHold(o);
    if "cpf" in o {
      NormalizedDocument(raw, "cpf");
    }
    if "cnpj" in o {
      NormalizedDocument(raw, "cnpj");
    }
  }

  /** A document key of a type-checked profile normalises to a string of digits. */
  lemma NormalizedDocument(raw: Object, k: string)
    requires ProfileTyped(raw)
    requires k == "cpf" || k == "cnpj"
    requires k in NormalizeProfile(raw)
    ensures NormalizeProfile(raw)[k].Str? && AllDigits(NormalizeProfile(raw)[k].s)
  {
    DefaultKeysDiffer();
    assert k in raw && k in ProfileStringKeys;
  }

  /** Example: a PERSON profile with neither name nor CPF but with a CNPJ gets three issues at once. */
  lemma EveryPersonIssueReported()
    ensures ProfileIssues(map["type" := Str("PERSON"), "cnpj" := Str("12345678000190")])
         == [FullNameRequired, CpfRequired, CnpjNotAllowed]
  {
    var o := map["type" := Str("PERSON"), "cnpj" := Str("12345678000190")];
    assert IsPerson(o) && !IsBusiness(o);
    assert !TruthyAt(o, "fullName") && !TruthyAt(o, "cpf") && TruthyAt(o, "cnpj");
    assert PersonIssues(o) == [FullNameRequired, CpfRequired, CnpjNotAllowed];
  }
}
