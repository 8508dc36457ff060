/**
 * The back office's customer form: the input masks for CEP (zip code), CPF
 * and CNPJ, the digit-count validators of those fields, and the digit
 * stripping done when the form is submitted.
 */
module CustomerForm {
  import opened Wrappers
  import opened Json
  import opened Strings
  import CustomerSchemas

  function Min(a: nat, b: nat): nat {
    if a <= b then a else b
  }

  /** `s.slice(a, b)` for `0 <= a <= b`: indexes past the end are clamped. */
  function Slice(s: string, a: nat, b: nat): (r: string)
    requires a <= b
    ensures r == s[Min(a, |s|)..Min(b, |s|)]
  {
    s[Min(a, |s|)..Min(b, |s|)]
  }

  /** The first `n` characters of `s`, or all of it when it is shorter. */
  function Take(s: string, n: nat): (r: string)
    ensures |r| == Min(n, |s|) && r == s[..|r|]
  {
    Slice(s, 0, n)
  }

  /** `maskCep`: at most 8 digits, with a '-' after the fifth once a sixth is typed. */
  function MaskCep(v: string): (r: string)
    ensures var d := Take(OnlyDigits(v), 8);
            |r| == |d| + (if |d| > 5 then 1 else 0)
    ensures |OnlyDigits(v)| >= 8 ==> |r| == 9 && r[5] == '-'
  {
    var d := Take(OnlyDigits(v), 8);
    if |d| <= 5 then d else Slice(d, 0, 5) + "-" + d[5..]
  }

  /** `maskCpf`: at most 11 digits as ddd.ddd.ddd-dd, each separator written once the next group starts. */
  function MaskCpf(v: string): (r: string)
    ensures var d := Take(OnlyDigits(v), 11);
            |r| == |d| + (if |d| > 3 then 1 else 0) + (if |d| > 6 then 1 else 0) + (if |d| > 9 then 1 else 0)
    ensures |OnlyDigits(v)| >= 11 ==> |r| == 14 && r[3] == '.' && r[7] == '.' && r[11] == '-'
  {
    var d := Take(OnlyDigits(v), 11);
    var p1, p2, p3, p4 := Slice(d, 0, 3), Slice(d, 3, 6), Slice(d, 6, 9), Slice(d, 9, 11);
    if |d| <= 3 then p1
    else if |d| <= 6 then p1 + "." + p2
    else if |d| <= 9 then p1 + "." + p2 + "." + p3
    else p1 + "." + p2 + "." + p3 + "-" + p4
  }

  /** `maskCnpj`: at most 14 digits as dd.ddd.ddd/dddd-dd, each separator written once the next group starts. */
  function MaskCnpj(v: string): (r: string)
    ensures var d := Take(OnlyDigits(v), 14);
            |r| == |d| + (if |d| > 2 then 1 else 0) + (if |d| > 5 then 1 else 0)
                       + (if |d| > 8 then 1 else 0) + (if |d| > 12 then 1 else 0)
    ensures |OnlyDigits(v)| >= 14 ==>
              |r| == 18 && r[2] == '.' && r[6] == '.' && r[10] == '/' && r[15] == '-'
  {
    var d := Take(OnlyDigits(v), 14);
    var p1, p2, p3, p4, p5 := Slice(d, 0, 2), Slice(d, 2, 5), Slice(d, 5, 8), Slice(d, 8, 12), Slice(d, 12, 14);
    if |d| <= 2 then p1
    else if |d| <= 5 then p1 + "." + p2
    else if |d| <= 8 then p1 + "." + p2 + "." + p3
    else if |d| <= 12 then p1 + "." + p2 + "." + p3 + "/" + p4
    else p1 + "." + p2 + "." + p3 + "/" + p4 + "-" + p5
  }

  /**
   * The field validators: `onlyDigits(val || '')` must be empty or have
   * exactly `n` digits. `None` is an empty field.
   */
  predicate DigitCountAccepted(val: Option<string>, n: nat) {
    var d := OnlyDigits(val.GetOr(""));
    d == [] || |d| == n
  }

  predicate CepAccepted(val: Option<string>) { DigitCountAccepted(val, 8) }
  predicate CpfAccepted(val: Option<string>) { DigitCountAccepted(val, 11) }
  predicate CnpjAccepted(val: Option<string>) { DigitCountAccepted(val, 14) }

  // ---------------------------------------------------------------------
  // Digits of the masked text
  // ---------------------------------------------------------------------

  lemma SliceOfDigits(d: string, a: nat, b: nat)
    requires AllDigits(d) && a <= b
    ensures AllDigits(Slice(d, a, b))
    ensures OnlyDigits(Slice(d, a, b)) == Slice(d, a, b)
  {
    OnlyDigitsOfDigits(Slice(d, a, b));
  }

  /** A separator between two runs of digits contributes nothing to the digits. */
  lemma DigitsAcrossSeparator(a: string, sep: char, b: string, da: string)
    requires !IsDigit(sep) && OnlyDigits(a) == da && AllDigits(b)
    ensures OnlyDigits(a + [sep] + b) == da + b
  {
    OnlyDigitsAppend(a + [sep], b);
    OnlyDigitsAppend(a, [sep]);
    OnlyDigitsOfDigits(b);
  }

  /** Adjacent slices join up. */
  lemma SliceJoin(d: string, a: nat, b: nat, c: nat)
    requires a <= b <= c
    ensures Slice(d, a, b) + Slice(d, b, c) == Slice(d, a, c)
  {
  }

  lemma TakeOfDigits(v: string, n: nat)
    ensures AllDigits(Take(OnlyDigits(v), n))
  {
  }

  /** The digits of the masked CEP are the first 8 digits typed. */
  lemma MaskCepDigits(v: string)
    ensures OnlyDigits(MaskCep(v)) == Take(OnlyDigits(v), 8)
  {
    var d := Take(OnlyDigits(v), 8);
    TakeOfDigits(v, 8);
    OnlyDigitsOfDigits(d);
    if |d| > 5 {
      SliceOfDigits(d, 0, 5);
      SliceOfDigits(d, 5, |d|);
      assert d[5..] == Slice(d, 5, |d|);
      DigitsAcrossSeparator(Slice(d, 0, 5), '-', d[5..], Slice(d, 0, 5));
      assert Slice(d, 0, 5) + d[5..] == d;
    }
  }

  /** The digits of the grouped text `p1.p2.p3-p4` (as far as the groups go) are the groups joined. */
  lemma CpfGroupsDigits(d: string)
    requires AllDigits(d) && |d| <= 11
    ensures var p1, p2, p3, p4 := Slice(d, 0, 3), Slice(d, 3, 6), Slice(d, 6, 9), Slice(d, 9, 11);
            && (|d| > 3 ==> OnlyDigits(p1 + "." + p2) == Slice(d, 0, 6))
            && (|d| > 6 ==> OnlyDigits(p1 + "." + p2 + "." + p3) == Slice(d, 0, 9))
            && (|d| > 9 ==> OnlyDigits(p1 + "." + p2 + "." + p3 + "-" + p4) == Slice(d, 0, 11))
  {
    var p1, p2, p3, p4 := Slice(d, 0, 3), Slice(d, 3, 6), Slice(d, 6, 9), Slice(d, 9, 11);
    SliceOfDigits(d, 0, 3);
    SliceOfDigits(d, 3, 6);
    SliceOfDigits(d, 6, 9);
    SliceOfDigits(d, 9, 11);
    DigitsAcrossSeparator(p1, '.', p2, p1);
    SliceJoin(d, 0, 3, 6);
    DigitsAcrossSeparator(p1 + "." + p2, '.', p3, Slice(d, 0, 6));
    SliceJoin(d, 0, 6, 9);
    DigitsAcrossSeparator(p1 + "." + p2 + "." + p3, '-', p4, Slice(d, 0, 9));
    SliceJoin(d, 0, 9, 11);
  }

  /** The digits of the masked CPF are the first 11 digits typed. */
  lemma MaskCpfDigits(v: string)
    ensures OnlyDigits(MaskCpf(v)) == Take(OnlyDigits(v), 11)
  {
    var d := Take(OnlyDigits(v), 11);
    TakeOfDigits(v, 11);
    CpfGroupsDigits(d);
    var p1, p2, p3, p4 := Slice(d, 0, 3), Slice(d, 3, 6), Slice(d, 6, 9), Slice(d, 9, 11);
    if |d| <= 3 {
      SliceOfDigits(d, 0, 3);
      assert MaskCpf(v) == p1 == d;
    } else if |d| <= 6 {
      assert MaskCpf(v) == p1 + "." + p2 && Slice(d, 0, 6) == d;
    } else if |d| <= 9 {
      assert MaskCpf(v) == p1 + "." + p2 + "." + p3 && Slice(d, 0, 9) == d;
    } else {
      assert MaskCpf(v) == p1 + "." + p2 + "." + p3 + "-" + p4 && Slice(d, 0, 11) == d;
    }
  }

  lemma CnpjGroupsDigits(d: string)
    requires AllDigits(d) && |d| <= 14
    ensures var p1, p2, p3, p4, p5 := Slice(d, 0, 2), Slice(d, 2, 5), Slice(d, 5, 8), Slice(d, 8, 12), Slice(d, 12, 14);
            && (|d| > 2 ==> OnlyDigits(p1 + "." + p2) == Slice(d, 0, 5))
            && (|d| > 5 ==> OnlyDigits(p1 + "." + p2 + "." + p3) == Slice(d, 0, 8))
            && (|d| > 8 ==> OnlyDigits(p1 + "." + p2 + "." + p3 + "/" + p4) == Slice(d, 0, 12))
            && (|d| > 12 ==> OnlyDigits(p1 + "." + p2 + "." + p3 + "/" + p4 + "-" + p5) == Slice(d, 0, 14))
  {
    var p1, p2, p3, p4, p5 := Slice(d, 0, 2), Slice(d, 2, 5), Slice(d, 5, 8), Slice(d, 8, 12), Slice(d, 12, 14);
    SliceOfDigits(d, 0, 2);
    SliceOfDigits(d, 2, 5);
    SliceOfDigits(d, 5, 8);
    SliceOfDigits(d, 8, 12);
    SliceOfDigits(d, 12, 14);
    DigitsAcrossSeparator(p1, '.', p2, p1);
    SliceJoin(d, 0, 2, 5);
    DigitsAcrossSeparator(p1 + "." + p2, '.', p3, Slice(d, 0, 5));
    SliceJoin(d, 0, 5, 8);
    DigitsAcrossSeparator(p1 + "." + p2 + "." + p3, '/', p4, Slice(d, 0, 8));
    SliceJoin(d, 0, 8, 12);
    DigitsAcrossSeparator(p1 + "." + p2 + "." + p3 + "/" + p4, '-', p5, Slice(d, 0, 12));
    SliceJoin(d, 0, 12, 14);
  }

  /** The digits of the masked CNPJ are the first 14 digits typed. */
  lemma MaskCnpjDigits(v: string)
    ensures OnlyDigits(MaskCnpj(v)) == Take(OnlyDigits(v), 14)
  {
    var d := Take(OnlyDigits(v), 14);
    TakeOfDigits(v, 14);
    CnpjGroupsDigits(d);
    var p1, p2, p3, p4, p5 := Slice(d, 0, 2), Slice(d, 2, 5), Slice(d, 5, 8), Slice(d, 8, 12), Slice(d, 12, 14);
    if |d| <= 2 {
      SliceOfDigits(d, 0, 2);
      assert MaskCnpj(v) == p1 == d;
    } else if |d| <= 5 {
      assert MaskCnpj(v) == p1 + "." + p2 && Slice(d, 0, 5) == d;
    } else if |d| <= 8 {
      assert MaskCnpj(v) == p1 + "." + p2 + "." + p3 && Slice(d, 0, 8) == d;
    } else if |d| <= 12 {
      assert MaskCnpj(v) == p1 + "." + p2 + "." + p3 + "/" + p4 && Slice(d, 0, 12) == d;
    } else {
      assert MaskCnpj(v) == p1 + "." + p2 + "." + p3 + "/" + p4 + "-" + p5 && Slice(d, 0, 14) == d;
    }
  }

  // ---------------------------------------------------------------------
  // Idempotence and the validators on masked text
  // ---------------------------------------------------------------------

  lemma TakeTwice(s: string, n: nat)
    requires |s| <= n
    ensures Take(s, n) == s
  {
  }

  /** Masking masked text changes nothing. */
  lemma MaskCepIdempotent(v: string)
    ensures MaskCep(MaskCep(v)) == MaskCep(v)
  {
    MaskCepDigits(v);
    TakeTwice(Take(OnlyDigits(v), 8), 8);
  }

  lemma MaskCpfIdempotent(v: string)
    ensures MaskCpf(MaskCpf(v)) == MaskCpf(v)
  {
    MaskCpfDigits(v);
    TakeTwice(Take(OnlyDigits(v), 11), 11);
  }

  lemma MaskCnpjIdempotent(v: string)
    ensures MaskCnpj(MaskCnpj(v)) == MaskCnpj(v)
  {
    MaskCnpjDigits(v);
    TakeTwice(Take(OnlyDigits(v), 14), 14);
  }

  /**
   * A masked field passes its validator exactly when nothing was typed or at
   * least the full number of digits was (the mask drops the excess).
   */
  lemma MaskedCepAccepted(v: string)
    ensures CepAccepted(Some(MaskCep(v))) <==> |OnlyDigits(v)| == 0 || |OnlyDigits(v)| >= 8
  {
    MaskCepDigits(v);
  }

  lemma MaskedCpfAccepted(v: string)
    ensures CpfAccepted(Some(MaskCpf(v))) <==> |OnlyDigits(v)| == 0 || |OnlyDigits(v)| >= 11
  {
    MaskCpfDigits(v);
  }

  lemma MaskedCnpjAccepted(v: string)
    ensures CnpjAccepted(Some(MaskCnpj(v))) <==> |OnlyDigits(v)| == 0 || |OnlyDigits(v)| >= 14
  {
    MaskCnpjDigits(v);
  }

  // ---------------------------------------------------------------------
  // Submission
  // ---------------------------------------------------------------------

  /** `onlyDigits(x)` of a form value; form inputs hold strings. */
  function DigitsOf(x: Value): (r: string)
    ensures AllDigits(r)
    ensures x.Str? ==> r == OnlyDigits(x.s)
  {
    match x
    case Str(s) => OnlyDigits(s)
    case _ => []
  }

  /** `v.k || d`. */
  function OrDefault(v: Object, k: string, d: Value): (r: Value)
    ensures TruthyAt(v, k) ==> r == v[k]
    ensures !TruthyAt(v, k) ==> r == d
  {
    if TruthyAt(v, k) then v[k] else d
  }

  /** `v.k ? onlyDigits(v.k) : null`. */
  function DigitsOrNull(v: Object, k: string): (r: Value)
    ensures TruthyAt(v, k) ==> r.Str? && AllDigits(r.s)
    ensures !TruthyAt(v, k) ==> r == Null
  {
    if TruthyAt(v, k) then Str(DigitsOf(v[k])) else Null
  }

  /** `{ to: v.from }` when `from` is set, `{}` otherwise. */
  function Rename(v: Object, from: string, to: string): (r: Object)
    ensures from in v ==> r == map[to := v[from]]
    ensures from !in v ==> r == map[]
  {
    if from in v then map[to := v[from]] else map[]
  }

  /** The address sent when a zip code was typed. */
  function AddressPayload(v: Object): (r: Object)
    ensures "zipCode" in r && r["zipCode"].Str? && AllDigits(r["zipCode"].s)
    ensures "isDefault" in r && r["isDefault"] == Bool(true)
    ensures "type" in r && r["type"] == OrDefault(v, "addressType", Str("SHIPPING"))
  {
    var copied := Rename(v, "addressStreet", "street") + Rename(v, "addressNumber", "number")
                  + Rename(v, "addressDistrict", "district") + Rename(v, "addressCity", "city")
                  + Rename(v, "addressState", "state");
    var optional := map[
      "label" := OrDefault(v, "addressLabel", Null),
      "recipient" := OrDefault(v, "addressRecipient", Null),
      "complement" := OrDefault(v, "addressComplement", Null),
      "reference" := OrDefault(v, "addressReference", Null)
    ];
    (copied + optional)
      ["type" := OrDefault(v, "addressType", Str("SHIPPING"))]
      ["isDefault" := Bool(true)]
      ["zipCode" := Str(DigitsOf(Get(v, "addressZipCode").GetOr(Null)))]
  }

  /** The person, company and contact keys of the payload. */
  const ProfileFieldKeys: set<string> :=
    {"phone", "email", "document", "fullName", "birthDate", "gender", "rg", "companyName", "tradeName",
     "stateTaxId", "municipalTaxId", "phone2", "whatsapp", "marketingOptIn", "notes", "isBlocked"}

  /** The three checkboxes of the form. */
  const FlagKeys: set<string> := {"whatsapp", "marketingOptIn", "isBlocked"}

  /** One of them: the picked date, `v.gender || 'NOT_INFORMED'`, `!!v.k` for a flag, else `v.k || null`. */
  function ProfileField(v: Object, k: string): Value {
    if k == "birthDate" then (if TruthyAt(v, k) then Date(v[k]) else Null)
    else if k == "gender" then OrDefault(v, k, Str("NOT_INFORMED"))
    else if k in FlagKeys then Bool(TruthyAt(v, k))
    else OrDefault(v, k, Null)
  }

  /**
   * The person, company and contact fields of the payload: a blank form
   * field is sent as null, never as "", and the three flags are always
   * booleans.
   */
  function ProfileFields(v: Object): (r: Object)
    ensures r.Keys == ProfileFieldKeys
    ensures forall k :: k in r ==> Truthy(r[k]) || r[k] == Null || r[k].Bool?
    ensures forall k :: k in FlagKeys ==> k in r && r[k] == Bool(TruthyAt(v, k))
  {
    map k | k in ProfileFieldKeys :: ProfileField(v, k)
  }

  /**
   * The payload `handleSubmit` sends. `birthDate` stands for the ISO
   * rendering of the picked date, which is not modelled.
   */
  function SubmitPayload(v: Object): (r: Object)
    ensures "cpf" in r && r["cpf"] == DigitsOrNull(v, "cpf")
    ensures "cnpj" in r && r["cnpj"] == DigitsOrNull(v, "cnpj")
    ensures "isActive" in r && r["isActive"] == Coalesce(Get(v, "isActive"), Bool(true))
    ensures "address" in r <==> TruthyAt(v, "addressZipCode")
    ensures "address" in r ==> r["address"].Obj? && "zipCode" in r["address"].fields
    ensures "address" in r ==> r["address"].fields["zipCode"].Str? && AllDigits(r["address"].fields["zipCode"].s)
  {
    SubmitKeysDiffer();
    var last := map[
      "isActive" := Coalesce(Get(v, "isActive"), Bool(true)),
      "cpf" := DigitsOrNull(v, "cpf"),
      "cnpj" := DigitsOrNull(v, "cnpj")];
    var fields := Rename(v, "name", "name") + Rename(v, "type", "type") + ProfileFields(v) + last;
    assert "isActive" in last && "cpf" in last && "cnpj" in last;
    if TruthyAt(v, "addressZipCode") then fields["address" := Obj(AddressPayload(v))]
    else fields - {"address"}
  }

  /** The keys the payload sets last are four different strings. */
  lemma SubmitKeysDiffer()
    ensures "cpf" != "cnpj" && "cpf" != "address" && "cnpj" != "address"
    ensures "isActive" != "cpf" && "isActive" != "cnpj" && "isActive" != "address"
  {
    assert "cpf"[1] != "cnpj"[1] && "cpf"[0] != "address"[0] && "cnpj"[0] != "address"[0];
    assert "isActive"[0] != "cpf"[0] && "isActive"[0] != "cnpj"[0] && "isActive"[0] != "address"[0];
  }

  /**
   * What the form sends survives the API's own digit stripping unchanged, and
   * a zip code the form's validator accepted passes the API's 8-digit rule.
   */
  lemma SubmittedDocumentsAlreadyNormal(v: Object)
    ensures CustomerSchemas.OnlyDigitsValue(SubmitPayload(v)["cpf"]) == SubmitPayload(v)["cpf"]
    ensures CustomerSchemas.OnlyDigitsValue(SubmitPayload(v)["cnpj"]) == SubmitPayload(v)["cnpj"]
  {
    var r := SubmitPayload(v);
    if r["cpf"].Str? { OnlyDigitsOfDigits(r["cpf"].s); }
    if r["cnpj"].Str? { OnlyDigitsOfDigits(r["cnpj"].s); }
  }

  /** A zip code the form accepted and that has digits is one the API accepts. */
  lemma AcceptedZipPassesApi(v: Object, zip: string)
    requires Get(v, "addressZipCode") == Some(Str(zip))
    requires CepAccepted(Some(zip)) && OnlyDigits(zip) != []
    ensures "address" in SubmitPayload(v)
    ensures CustomerSchemas.ZipValid(SubmitPayload(v)["address"].fields["zipCode"].s)
  {
    OnlyDigitsIdempotent(zip);
  }
}
