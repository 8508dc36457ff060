/**
 * Brazilian-real amounts typed into the back-office forms: `parseBRLToCents`
 * reads "R$ 1.234,56" as 123456 cents, and the quote editor renders cents
 * back as "1234,56".
 */
module Money {
  import opened Wrappers
  import opened Strings
  import opened Numbers
  import PriceCalculator

  /** `pat` occurs somewhere in `s`. */
  predicate Occurs(s: string, pat: string)
    decreases |s|
  {
    |s| >= |pat| && (s[..|pat|] == pat || (s != [] && Occurs(s[1..], pat)))
  }

  /** `s.replace(pat, rep)` with a string pattern: only the first occurrence is replaced. */
  function ReplaceFirst(s: string, pat: string, rep: string): (r: string)
    requires |pat| > 0
    ensures !Occurs(s, pat) ==> r == s
    decreases |s|
  {
    if |s| < |pat| then s
    else if s[..|pat|] == pat then rep + s[|pat|..]
    else [s[0]] + ReplaceFirst(s[1..], pat, rep)
  }

  /** `s.replace(/c/g, '')`. */
  function RemoveAll(s: string, c: char): (r: string)
    ensures c !in r
    ensures c !in s ==> r == s
  {
    if s == [] then []
    else if s[0] == c then RemoveAll(s[1..], c)
    else [s[0]] + RemoveAll(s[1..], c)
  }

  /**
   * The numeral `parseBRLToCents` hands to `Number`: white space removed, the
   * first "R$" removed, every '.' (thousands separator) removed and the first
   * ',' turned into the decimal point.
   */
  function Normalize(s: string): (r: string)
    ensures forall i :: 0 <= i < |r| ==> !IsSpace(r[i])
  {
    var noSpaces := RemoveSpaces(s);
    var noCurrency := ReplaceFirst(noSpaces, "R$", "");
    var noThousands := RemoveAll(noCurrency, '.');
    NormalizeHasNoSpaces(noSpaces, noCurrency, noThousands);
    ReplaceFirst(noThousands, ",", ".")
  }

  /**
   * `parseBRLToCents(input)`: `None` is `null`/`undefined` and gives 0; a
   * string that is not a numeral once normalised also gives 0; otherwise the
   * amount times 100, rounded as `Math.round` rounds.
   */
  function ParseBRLToCents(input: Option<string>): (r: int)
    ensures input.None? ==> r == 0
    ensures input.Some? && ParseNumber(Normalize(input.value)).None? ==> r == 0
    ensures input.Some? && ParseNumber(Normalize(input.value)).Some? ==>
              var n := ParseNumber(Normalize(input.value)).value;
              r as real - 0.5 <= n * 100.0 < r as real + 0.5
  {
    match input
    case None => 0
    case Some(s) =>
      match ParseNumber(Normalize(s))
      case None => 0
      case Some(n) => PriceCalculator.JsRound(n * 100.0)
  }

  /**
   * `(c / 100).toFixed(2).replace('.', ',')`, the quote editor's rendering of
   * a non-negative amount of cents: whole reais, a comma, two digits of cents.
   */
  function Format2(c: nat): (r: string)
    ensures |r| >= 4 && r[|r| - 3] == ','
    ensures forall i :: 0 <= i < |r| && i != |r| - 3 ==> IsDigit(r[i])
  {
    NatToString(c / 100) + "," + [DigitChar(c % 100 / 10), DigitChar(c % 10)]
  }

  // ---------------------------------------------------------------------
  // Helper facts about the normalisation steps
  // ---------------------------------------------------------------------

  lemma NormalizeHasNoSpaces(noSpaces: string, noCurrency: string, noThousands: string)
    requires forall i :: 0 <= i < |noSpaces| ==> !IsSpace(noSpaces[i])
    requires noCurrency == ReplaceFirst(noSpaces, "R$", "")
    requires noThousands == RemoveAll(noCurrency, '.')
    ensures forall i :: 0 <= i < |ReplaceFirst(noThousands, ",", ".")| ==>
              !IsSpace(ReplaceFirst(noThousands, ",", ".")[i])
  {
    ReplaceFirstKeepsNoSpaces(noSpaces, "R$", "");
    RemoveAllKeepsNoSpaces(noCurrency, '.');
    ReplaceFirstKeepsNoSpaces(noThousands, ",", ".");
  }

  lemma {:induction false} ReplaceFirstKeepsNoSpaces(s: string, pat: string, rep: string)
    requires |pat| > 0
    requires forall i :: 0 <= i < |s| ==> !IsSpace(s[i])
    requires forall i :: 0 <= i < |rep| ==> !IsSpace(rep[i])
    ensures forall i :: 0 <= i < |ReplaceFirst(s, pat, rep)| ==> !IsSpace(ReplaceFirst(s, pat, rep)[i])
    decreases |s|
  {
    if |s| >= |pat| && s[..|pat|] != pat {
      ReplaceFirstKeepsNoSpaces(s[1..], pat, rep);
    }
  }

  lemma {:induction false} RemoveAllKeepsNoSpaces(s: string, c: char)
    requires forall i :: 0 <= i < |s| ==> !IsSpace(s[i])
    ensures forall i :: 0 <= i < |RemoveAll(s, c)| ==> !IsSpace(RemoveAll(s, c)[i])
    decreases |s|
  {
    if s != [] {
      RemoveAllKeepsNoSpaces(s[1..], c);
    }
  }

  /** A string without white space is left alone by `replace(/\s/g, '')`. */
  lemma {:induction false} RemoveSpacesWithoutSpaces(s: string)
    requires forall i :: 0 <= i < |s| ==> !IsSpace(s[i])
    ensures RemoveSpaces(s) == s
    decreases |s|
  {
    if s != [] {
      RemoveSpacesWithoutSpaces(s[1..]);
    }
  }

  /** White space is removed character by character, so removal distributes over concatenation. */
  lemma {:induction false} RemoveSpacesAppend(a: string, b: string)
    ensures RemoveSpaces(a + b) == RemoveSpaces(a) + RemoveSpaces(b)
    decreases |a|
  {
    if a == [] {
      assert a + b == b;
    } else {
      assert (a + b)[0] == a[0] && (a + b)[1..] == a[1..] + b;
      RemoveSpacesAppend(a[1..], b);
    }
  }

  /** Without an 'R' there is no "R$" to remove. */
  lemma {:induction false} NoCurrencyWithoutR(s: string)
    requires 'R' !in s
    ensures !Occurs(s, "R$")
    decreases |s|
  {
    if |s| >= 2 {
      assert s[0] != 'R';
      NoCurrencyWithoutR(s[1..]);
    }
  }

  /** The first ',' of `a + "," + b` is the one after `a` when `a` has none. */
  lemma {:induction false} ReplaceFirstComma(a: string, b: string)
    requires ',' !in a
    ensures ReplaceFirst(a + "," + b, ",", ".") == a + "." + b
    decreases |a|
  {
    var s := a + "," + b;
    if a == [] {
      assert s[..1] == ",";
      assert s[1..] == b;
    } else {
      assert s[0] == a[0] && s[..1] == [a[0]];
      assert s[1..] == a[1..] + "," + b;
      ReplaceFirstComma(a[1..], b);
    }
  }

  // ---------------------------------------------------------------------
  // Properties
  // ---------------------------------------------------------------------

  /** Digits, commas and points are neither white space nor the currency sign. */
  lemma PlainNumeral(s: string)
    requires forall i :: 0 <= i < |s| ==> IsDigit(s[i]) || s[i] == ',' || s[i] == '.'
    ensures forall i :: 0 <= i < |s| ==> !IsSpace(s[i])
    ensures 'R' !in s
  {
    forall i | 0 <= i < |s| ensures !IsSpace(s[i]) && s[i] != 'R' {
      assert IsDigit(s[i]) || s[i] == ',' || s[i] == '.';
    }
  }

  /** The rendering of `c` normalises to the numeral `whole.cents`. */
  lemma NormalizeFormat2(c: nat)
    ensures Normalize(Format2(c)) ==
              NatToString(c / 100) + "." + [DigitChar(c % 100 / 10), DigitChar(c % 10)]
  {
    var whole := NatToString(c / 100);
    var cents: string := [DigitChar(c % 100 / 10), DigitChar(c % 10)];
    var s := Format2(c);
    assert s == whole + "," + cents;
    PlainNumeral(s);
    RemoveSpacesWithoutSpaces(s);
    NoCurrencyWithoutR(s);
    assert '.' !in s by {
      forall i | 0 <= i < |s| ensures s[i] != '.' {
        if i != |s| - 3 { assert IsDigit(s[i]); }
      }
    }
    assert ',' !in whole by {
      forall i | 0 <= i < |whole| ensures whole[i] != ',' {
        assert IsDigit(whole[i]);
      }
    }
    ReplaceFirstComma(whole, cents);
  }

  /** Whole reais plus the cents below 100, scaled back to cents. */
  lemma CentsSplit(c: nat)
    ensures ((c / 100) as real + (c % 100) as real / 100.0) * 100.0 == c as real
  {
    assert c == (c / 100) * 100 + c % 100;
  }

  /** The two cent digits of the rendering denote `c % 100`. */
  lemma CentDigitsValue(c: nat)
    ensures DigitsValue([DigitChar(c % 100 / 10), DigitChar(c % 10)]) == c % 100
  {
    var d1, d2 := c % 100 / 10, c % 10;
    var cents: string := [DigitChar(d1), DigitChar(d2)];
    assert DigitValue(DigitChar(d1)) == d1 && DigitValue(DigitChar(d2)) == d2;
    assert cents[..1] == [DigitChar(d1)];
    assert [DigitChar(d1)][..0] == [];
    assert DigitsValue([DigitChar(d1)]) == d1;
    LastDigitOfCents(c);
  }

  lemma LastDigitOfCents(c: nat)
    ensures c % 100 == 10 * (c % 100 / 10) + c % 10
  {
    var q, r := c / 100, c % 100;
    var t, r1 := r / 10, r % 10;
    assert r == 10 * t + r1 && 0 <= r1 < 10;
    var k := 10 * q + t;
    assert c == 10 * k + r1;
    ModOfMultiplePlus(k, r1);
  }

  /** A digit added to a multiple of ten is that number's last digit. */
  lemma ModOfMultiplePlus(k: int, d: int)
    requires 0 <= d < 10
    ensures (10 * k + d) % 10 == d
  {
  }

  /** Once the input normalises to a numeral, the result is that numeral times 100, rounded. */
  lemma ParseOfNumeral(s: string, ip: string, fp: string)
    requires AllDigits(ip) && AllDigits(fp) && ip != []
    requires Normalize(s) == ip + "." + fp
    ensures ParseBRLToCents(Some(s)) == PriceCalculator.JsRound(DecimalValue(ip, fp) * 100.0)
  {
    ParseDecimal(ip, fp);
  }

  /** The numeral the rendering normalises to denotes `c / 100` exactly. */
  lemma Format2Value(c: nat)
    ensures DecimalValue(NatToString(c / 100), [DigitChar(c % 100 / 10), DigitChar(c % 10)])
            == (c / 100) as real + (c % 100) as real / 100.0
  {
    var cents: string := [DigitChar(c % 100 / 10), DigitChar(c % 10)];
    NatToStringValue(c / 100);
    CentDigitsValue(c);
    assert Pow10(|cents|) == 100 by {
      assert Pow10(2) == 10 * Pow10(1) && Pow10(1) == 10 * Pow10(0);
    }
  }

  /** Reading back the quote editor's rendering gives the same amount of cents. */
  lemma ParseFormatRoundTrip(c: nat)
    ensures ParseBRLToCents(Some(Format2(c))) == c
  {
    var whole := NatToString(c / 100);
    var cents: string := [DigitChar(c % 100 / 10), DigitChar(c % 10)];
    NormalizeFormat2(c);
    ParseOfNumeral(Format2(c), whole, cents);
    Format2Value(c);
    CentsSplit(c);
    PriceCalculator.JsRoundUnique(c as real, c);
  }

  /** White space anywhere in the input is ignored. */
  lemma SpacesIgnored(a: string, b: string)
    ensures ParseBRLToCents(Some(a + " " + b)) == ParseBRLToCents(Some(a + b))
  {
    SpaceRemoved(a, b);
    assert Normalize(a + " " + b) == Normalize(a + b);
  }

  /** Removing white space from `a + " " + b` gives what it gives for `a + b`. */
  lemma SpaceRemoved(a: string, b: string)
    ensures RemoveSpaces(a + " " + b) == RemoveSpaces(a + b)
  {
    assert a + " " + b == a + (" " + b);
    RemoveSpacesAppend(a, " " + b);
    assert RemoveSpaces(" " + b) == RemoveSpaces(b) by {
      assert (" " + b)[0] == ' ' && (" " + b)[1..] == b;
    }
    RemoveSpacesAppend(a, b);
  }

  /** Without white space or an 'R', normalising only drops the dots and converts the first comma. */
  lemma NormalizePlain(s: string)
    requires forall i :: 0 <= i < |s| ==> !IsSpace(s[i])
    requires 'R' !in s
    ensures Normalize(s) == ReplaceFirst(RemoveAll(s, '.'), ",", ".")
  {
    RemoveSpacesWithoutSpaces(s);
    NoCurrencyWithoutR(s);
  }

  /** Dropping the separators `c` of `a + [c] + b` when neither part has one. */
  lemma {:induction false} RemoveSeparator(a: string, b: string, c: char)
    requires c !in a && c !in b
    ensures RemoveAll(a + [c] + b, c) == a + b
    decreases |a|
  {
    var s := a + [c] + b;
    if a == [] {
      assert s[1..] == b;
    } else {
      assert s[1..] == a[1..] + [c] + b;
      RemoveSeparator(a[1..], b, c);
      assert a + b == [a[0]] + (a[1..] + b);
    }
  }

  /**
   * A thousands dot between two digit groups is dropped and the comma becomes
   * the decimal point: "a.b,f" is read as the numeral `ab.f`.
   */
  lemma ThousandsAndDecimalComma(s: string, a: string, b: string, f: string)
    requires AllDigits(a) && AllDigits(b) && AllDigits(f) && a != []
    requires s == a + "." + b + "," + f
    ensures AllDigits(a + b)
    ensures ParseBRLToCents(Some(s)) == PriceCalculator.JsRound(DecimalValue(a + b, f) * 100.0)
  {
    var rest, ab := b + "," + f, a + b;
    ThousandsChars(s, a, b, f);
    PlainNumeral(s);
    NormalizePlain(s);
    DigitsHaveNoSeparator(a);
    NoDotAfterThousands(b, f);
    ThousandsSplit(a, b, f);
    RemoveSeparator(a, rest, '.');
    DigitsConcat(a, b);
    DigitsHaveNoSeparator(ab);
    ReplaceFirstComma(ab, f);
    assert Normalize(s) == ab + "." + f;
    ParseOfNumeral(s, ab, f);
  }

  lemma ThousandsSplit(a: string, b: string, f: string)
    ensures a + "." + b + "," + f == a + ['.'] + (b + "," + f)
    ensures a + (b + "," + f) == (a + b) + "," + f
  {
  }

  lemma ThousandsChars(s: string, a: string, b: string, f: string)
    requires AllDigits(a) && AllDigits(b) && AllDigits(f)
    requires s == a + "." + b + "," + f
    ensures forall i :: 0 <= i < |s| ==> IsDigit(s[i]) || s[i] == ',' || s[i] == '.'
  {
    forall i | 0 <= i < |s| ensures IsDigit(s[i]) || s[i] == ',' || s[i] == '.' {
      if i < |a| { assert s[i] == a[i]; }
      else if |a| < i < |a| + 1 + |b| { assert s[i] == b[i - |a| - 1]; }
      else if i > |a| + 1 + |b| { assert s[i] == f[i - |a| - |b| - 2]; }
    }
  }

  lemma DigitsHaveNoSeparator(a: string)
    requires AllDigits(a)
    ensures '.' !in a && ',' !in a
  {
    forall i | 0 <= i < |a| ensures a[i] != '.' && a[i] != ',' { assert IsDigit(a[i]); }
  }

  lemma NoDotAfterThousands(b: string, f: string)
    requires AllDigits(b) && AllDigits(f)
    ensures '.' !in b + "," + f
  {
    var rest := b + "," + f;
    forall i | 0 <= i < |rest| ensures rest[i] != '.' {
      if i < |b| { assert rest[i] == b[i]; }
      else if i > |b| { assert rest[i] == f[i - |b| - 1]; }
    }
  }

  lemma DigitsConcat(a: string, b: string)
    requires AllDigits(a) && AllDigits(b)
    ensures AllDigits(a + b)
  {
    var ab := a + b;
    forall i | 0 <= i < |ab| ensures IsDigit(ab[i]) {
      if i < |a| { assert ab[i] == a[i]; } else { assert ab[i] == b[i - |a|]; }
    }
  }

  lemma DecimalExample()
    ensures PriceCalculator.JsRound(DecimalValue("1" + "234", "56") * 100.0) == 123456
  {
    assert "1" + "234" == "1234";
    assert DigitsValue("1234") == 1234 by {
      assert "1234"[..3] == "123" && "123"[..2] == "12" && "12"[..1] == "1";
    }
    assert DigitsValue("56") == 56 by {
      assert "56"[..1] == "5";
    }
    assert Pow10(2) == 100 by {
      assert Pow10(2) == 10 * Pow10(1) && Pow10(1) == 10 * Pow10(0);
    }
    PriceCalculator.JsRoundUnique(123456.0, 123456);
  }

  lemma ThousandsExampleNumeral(s: string)
    requires s == "1.234,56"
    ensures ParseBRLToCents(Some(s)) == PriceCalculator.JsRound(DecimalValue("1" + "234", "56") * 100.0)
  {
    var a, b, f := "1", "234", "56";
    assert s == a + "." + b + "," + f;
    ThousandsAndDecimalComma(s, a, b, f);
  }

  /** "1.234,56" is 123456 cents. */
  lemma ParseThousandsExample(s: string)
    requires s == "1.234,56"
    ensures ParseBRLToCents(Some(s)) == 123456
  {
    ThousandsExampleNumeral(s);
    DecimalExample();
  }

  lemma NormalizeWordExample()
    ensures Normalize("abc") == "abc"
  {
    var s := "abc";
    assert RemoveSpaces(s) == s;
    assert 'R' !in s;
    NoCurrencyWithoutR(s);
  }

  /** Missing and blank input give 0. */
  lemma ParseMissingExamples()
    ensures ParseBRLToCents(None) == 0
    ensures ParseBRLToCents(Some("")) == 0
  {
  }

  /** Non-numeric input gives 0. */
  lemma ParseWordExample()
    ensures ParseBRLToCents(Some("abc")) == 0
  {
    NormalizeWordExample();
    WordIsNotANumber("abc");
  }

  lemma WordIsNotANumber(w: string)
    requires w == "abc"
    ensures ParseNumber(w) == None
  {
    assert w[0] == 'a' && w[1] == 'b' && w[2] == 'c';
    TrimWithoutSpaces(w);
    var k := IndexOf(w, '.');
    assert k > 0;
    assert w[..k][0] == 'a';
    assert Unsigned(w) == None;
  }
}
