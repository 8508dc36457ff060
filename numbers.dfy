/**
 * JavaScript's `Number(x)` on the values the front ends convert: decimal
 * literals in strings (with an optional sign, an optional fraction and
 * surrounding white space), `null`, booleans and numbers. `None` stands for
 * `NaN`.
 */
module Numbers {
  import opened Wrappers
  import opened Strings
  import opened Json

  function Pow10(k: nat): (r: nat)
    ensures r >= 1
  {
    if k == 0 then 1 else 10 * Pow10(k - 1)
  }

  /** Index of the first `c` in `s`, or `|s|` when there is none. */
  function IndexOf(s: string, c: char): (r: nat)
    ensures r <= |s|
    ensures r < |s| ==> s[r] == c
    ensures forall i :: 0 <= i < r ==> s[i] != c
  {
    if s == [] then 0 else if s[0] == c then 0 else 1 + IndexOf(s[1..], c)
  }

  /** The value of `ip` `.` `fp` read as a decimal numeral. */
  function DecimalValue(ip: string, fp: string): (v: real)
    requires AllDigits(ip) && AllDigits(fp)
    ensures v >= 0.0
  {
    DigitsValue(ip) as real + DigitsValue(fp) as real / Pow10(|fp|) as real
  }

  /**
   * An unsigned decimal numeral: digits, optionally a point and more digits,
   * with at least one digit on either side (`12`, `1.5`, `.5`, `7.`).
   */
  function Unsigned(u: string): (r: Option<real>)
    ensures r.Some? ==> r.value >= 0.0
    ensures AllDigits(u) && u != [] ==> r == Some(DigitsValue(u) as real)
  {
    var k := IndexOf(u, '.');
    var ip := u[..k];
    var fp := if k < |u| then u[k + 1..] else [];
    if AllDigits(ip) && AllDigits(fp) && |ip| + |fp| > 0 then
      assert AllDigits(u) && u != [] ==> k == |u| && ip == u && fp == [];
      Some(DecimalValue(ip, fp))
    else
      None
  }

  /** `Number(s)` for a string: blank is 0, a signed decimal numeral its value, anything else NaN. */
  function ParseNumber(s: string): (r: Option<real>)
    ensures Trim(s) == [] ==> r == Some(0.0)
  {
    var t := Trim(s);
    if t == [] then Some(0.0)
    else if t[0] == '-' then
      match Unsigned(t[1..])
      case Some(x) => Some(-x)
      case None => None
    else if t[0] == '+' then Unsigned(t[1..])
    else Unsigned(t)
  }

  /** A string without white space is its own trimmed form. */
  lemma TrimWithoutSpaces(s: string)
    requires forall i :: 0 <= i < |s| ==> !IsSpace(s[i])
    ensures Trim(s) == s
  {
  }

  /** The first `c` of `a + [c] + b` is the one after `a` when `a` has none. */
  lemma {:induction false} IndexOfAfter(a: string, c: char, b: string)
    requires forall i :: 0 <= i < |a| ==> a[i] != c
    ensures IndexOf(a + [c] + b, c) == |a|
    decreases |a|
  {
    if a != [] {
      assert (a + [c] + b)[1..] == a[1..] + [c] + b;
      IndexOfAfter(a[1..], c, b);
    }
  }

  /** Digits and a point are not white space. */
  lemma NumeralHasNoSpaces(ip: string, fp: string)
    requires AllDigits(ip) && AllDigits(fp)
    ensures forall i :: 0 <= i < |ip + "." + fp| ==> !IsSpace((ip + "." + fp)[i])
  {
    var s := ip + "." + fp;
    forall i | 0 <= i < |s| ensures !IsSpace(s[i]) {
      if i < |ip| {
        assert s[i] == ip[i];
      } else if i > |ip| {
        assert s[i] == fp[i - |ip| - 1];
      } else {
        assert s[i] == '.';
      }
    }
  }

  /** A numeral `ip.fp` is read as its decimal value. */
  lemma ParseDecimal(ip: string, fp: string)
    requires AllDigits(ip) && AllDigits(fp) && ip != []
    ensures ParseNumber(ip + "." + fp) == Some(DecimalValue(ip, fp))
  {
    var s := ip + "." + fp;
    NumeralHasNoSpaces(ip, fp);
    TrimWithoutSpaces(s);
    assert s[0] == ip[0];
    IndexOfAfter(ip, '.', fp);
    assert s[..|ip|] == ip;
    assert s[|ip| + 1..] == fp;
  }

  /** A string of digits is read as the number it denotes. */
  lemma ParseDigits(s: string)
    requires AllDigits(s) && s != []
    ensures ParseNumber(s) == Some(DigitsValue(s) as real)
  {
    TrimWithoutSpaces(s);
    assert IsDigit(s[0]) && s[0] != '-' && s[0] != '+';
    assert ParseNumber(s) == Unsigned(s);
  }

  /** `Number(v)` for the values a form or a stored record holds. */
  function ToNumber(v: Value): (r: Option<real>)
    ensures v == Null ==> r == Some(0.0)
    ensures v.Num? ==> r == Some(v.n)
    ensures v.Bool? ==> r == Some(if v.b then 1.0 else 0.0)
  {
    match v
    case Null => Some(0.0)
    case Bool(b) => Some(if b then 1.0 else 0.0)
    case Num(n) => Some(n)
    case Str(s) => ParseNumber(s)
    case _ => None
  }
}
