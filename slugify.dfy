/**
 * The back office's `slugify(text)`: lower-case the text, strip accents,
 * turn every run of characters outside `a-z0-9` into one '-', and drop a
 * '-' at either end. Accents are stripped with the canonical decompositions
 * of the Latin-1 letters.
 */
module Slugify {
  import opened Wrappers
  import opened Strings

  /** `[a-z0-9]`. */
  predicate IsSlugChar(c: char) {
    ('a' <= c <= 'z') || IsDigit(c)
  }

  /** The combining diacritical marks, U+0300..U+036F. */
  predicate IsCombiningMark(c: char) {
    '\U{0300}' <= c <= '\U{036F}'
  }

  /**
   * The base letter NFD leaves in front of the combining mark of a lower-case
   * Latin-1 letter (à..å, ç, è..ï, ñ, ò..ö, ù..ü, ý, ÿ); every other character
   * decomposes to itself.
   */
  function BaseLetter(c: char): (b: char)
    ensures 'a' <= c <= 'z' ==> b == c
    ensures IsDigit(c) ==> b == c
    ensures !IsCombiningMark(c) ==> !IsCombiningMark(b)
  {
    if '\U{00E0}' <= c <= '\U{00E5}' then 'a'
    else if c == '\U{00E7}' then 'c'
    else if '\U{00E8}' <= c <= '\U{00EB}' then 'e'
    else if '\U{00EC}' <= c <= '\U{00EF}' then 'i'
    else if c == '\U{00F1}' then 'n'
    else if '\U{00F2}' <= c <= '\U{00F6}' then 'o'
    else if '\U{00F9}' <= c <= '\U{00FC}' then 'u'
    else if c == '\U{00FD}' || c == '\U{00FF}' then 'y'
    else c
  }

  /**
   * `toLowerCase().normalize('NFD').replace(/[\u0300-\u036f]/g, '')`: every
   * character lower-cased and reduced to its base letter, combining marks
   * dropped.
   */
  function Fold(s: string): (r: string)
    ensures |r| <= |s|
    ensures forall i :: 0 <= i < |r| ==> !IsCombiningMark(r[i])
  {
    if s == [] then []
    else if IsCombiningMark(s[0]) then Fold(s[1..])
    else [BaseLetter(LowerChar(s[0]))] + Fold(s[1..])
  }

  /** `s` without its leading run of characters outside `[a-z0-9]`. */
  function SkipRun(s: string): (r: string)
    ensures |r| <= |s|
    ensures r == [] || IsSlugChar(r[0])
    ensures s != [] && !IsSlugChar(s[0]) ==> |r| < |s|
    ensures s != [] && IsSlugChar(s[0]) ==> r == s
  {
    if s == [] || IsSlugChar(s[0]) then s else SkipRun(s[1..])
  }

  predicate OnlySlugCharsOrHyphens(s: string) {
    forall i :: 0 <= i < |s| ==> IsSlugChar(s[i]) || s[i] == '-'
  }

  /** No "--" anywhere. */
  predicate NoDoubleHyphen(s: string) {
    forall i :: 0 <= i < |s| - 1 ==> !(s[i] == '-' && s[i + 1] == '-')
  }

  /** `replace(/[^a-z0-9]+/g, '-')`: each maximal run outside `[a-z0-9]` becomes one '-'. */
  function Hyphenate(s: string): (r: string)
    ensures OnlySlugCharsOrHyphens(r)
    ensures NoDoubleHyphen(r)
    ensures s == [] <==> r == []
    ensures s != [] && IsSlugChar(s[0]) ==> r[0] == s[0]
    ensures s != [] && !IsSlugChar(s[0]) ==> r[0] == '-'
    decreases |s|
  {
    if s == [] then []
    else if IsSlugChar(s[0]) then
      var rest := Hyphenate(s[1..]);
      HyphenFreeHead(s[0], rest);
      [s[0]] + rest
    else
      var rest := Hyphenate(SkipRun(s));
      HyphenFreeHead('-', rest);
      ['-'] + rest
  }

  /** Putting a character in front of a string that does not start with '-' creates no "--". */
  lemma HyphenFreeHead(c: char, rest: string)
    requires NoDoubleHyphen(rest)
    requires OnlySlugCharsOrHyphens(rest)
    requires IsSlugChar(c) || c == '-'
    requires c == '-' ==> rest == [] || rest[0] != '-'
    ensures NoDoubleHyphen([c] + rest)
    ensures OnlySlugCharsOrHyphens([c] + rest)
  {
    var s := [c] + rest;
    forall i | 0 <= i < |s| - 1 ensures !(s[i] == '-' && s[i + 1] == '-') {
      if i > 0 {
        assert s[i] == rest[i - 1] && s[i + 1] == rest[i];
      }
    }
  }

  /** `replace(/(^-|-$)/g, '')`: one '-' removed at the start and one at the end. */
  function TrimHyphens(s: string): (r: string)
    ensures |r| <= |s|
    ensures OnlySlugCharsOrHyphens(s) && NoDoubleHyphen(s) ==> IsSlug(r)
    ensures s != [] && s[0] != '-' && s[|s| - 1] != '-' ==> r == s
  {
    var t := if s != [] && s[0] == '-' then s[1..] else s;
    var u := if t != [] && t[|t| - 1] == '-' then t[..|t| - 1] else t;
    assert OnlySlugCharsOrHyphens(s) && NoDoubleHyphen(s) ==> IsSlug(u) by {
      if OnlySlugCharsOrHyphens(s) && NoDoubleHyphen(s) {
        assert t == [] || t[0] != '-' by {
          if s != [] && s[0] == '-' && t != [] {
            assert t[0] == s[1];
          }
        }
        assert u == t[..|u|];
        if u != [] {
          assert u[0] == t[0];
          if t[|t| - 1] == '-' {
            assert u[|u| - 1] == t[|t| - 2];
          }
        }
      }
    }
    u
  }

  /** What a slug looks like: `[a-z0-9-]` only, no '-' at either end, no "--". */
  predicate IsSlug(s: string) {
    && OnlySlugCharsOrHyphens(s)
    && NoDoubleHyphen(s)
    && (s != [] ==> s[0] != '-' && s[|s| - 1] != '-')
  }

  /**
   * `slugify(text = '')`; `None` is the missing argument. The result is
   * always a slug.
   */
  function Slug(text: Option<string>): (r: string)
    ensures IsSlug(r)
  {
    TrimHyphens(Hyphenate(Fold(text.GetOr(""))))
  }

  // ---------------------------------------------------------------------
  // Properties
  // ---------------------------------------------------------------------

  /** The default argument gives the empty slug. */
  lemma DefaultIsEmpty()
    ensures Slug(None) == ""
  {
  }

  /** Characters of a slug are neither changed by lower-casing and folding nor dropped. */
  lemma {:induction false} FoldKeepsSlugChars(s: string)
    requires OnlySlugCharsOrHyphens(s)
    ensures Fold(s) == s
    decreases |s|
  {
    if s != [] {
      assert IsSlugChar(s[0]) || s[0] == '-';
      assert LowerChar(s[0]) == s[0];
      FoldKeepsSlugChars(s[1..]);
    }
  }

  /** Hyphenation leaves a string that is already hyphenated alone. */
  lemma {:induction false} HyphenateKeepsHyphenated(s: string)
    requires OnlySlugCharsOrHyphens(s) && NoDoubleHyphen(s)
    ensures Hyphenate(s) == s
    decreases |s|
  {
    if s != [] {
      if IsSlugChar(s[0]) {
        HyphenateKeepsHyphenated(s[1..]);
      } else {
        assert s[1..] == [] || s[1] != '-';
        assert s[1..] == [] || IsSlugChar(s[1]);
        assert SkipRun(s) == SkipRun(s[1..]) == s[1..];
        HyphenateKeepsHyphenated(s[1..]);
      }
    }
  }

  /** A slug is its own slug. */
  lemma SlugOfSlug(s: string)
    requires IsSlug(s)
    ensures Slug(Some(s)) == s
  {
    FoldKeepsSlugChars(s);
    HyphenateKeepsHyphenated(s);
  }

  /** Slugifying twice is slugifying once. */
  lemma SlugIdempotent(text: Option<string>)
    ensures Slug(Some(Slug(text))) == Slug(text)
  {
    SlugOfSlug(Slug(text));
  }

  /** Upper-case and accented letters fold to their base letter. */
  lemma FoldAccentExample(s: string)
    requires s == "Ação"
    ensures Fold(s) == "acao"
  {
    assert s[0] == 'A' && s[1] == '\U{00E7}' && s[2] == '\U{00E3}' && s[3] == 'o';
    assert LowerChar('A') == 'a';
    assert Fold(s[3..]) == "o" by {
      assert s[3..][1..] == [];
    }
    assert Fold(s[2..]) == "ao" by {
      assert s[2..][1..] == s[3..];
    }
    assert Fold(s[1..]) == "cao" by {
      assert s[1..][1..] == s[2..];
    }
  }

  /** "Ação" becomes "acao". */
  lemma AccentExample(s: string)
    requires s == "Ação"
    ensures Slug(Some(s)) == "acao"
  {
    FoldAccentExample(s);
    SlugOfSlug("acao");
  }

  /** Characters below 'A' and lower-case ASCII letters are left alone by folding. */
  lemma {:induction false} FoldKeepsPlain(s: string)
    requires forall i :: 0 <= i < |s| ==> s[i] < 'A' || 'a' <= s[i] <= 'z'
    ensures Fold(s) == s
    decreases |s|
  {
    if s != [] {
      assert LowerChar(s[0]) == s[0];
      FoldKeepsPlain(s[1..]);
    }
  }

  /** Runs of separators collapse into single hyphens, and none is left at the ends. */
  lemma SeparatorExample(s: string)
    requires s == " pvc! x"
    ensures Slug(Some(s)) == "pvc-x"
  {
    FoldKeepsPlain(s);
    HyphenateWordExample(s[1..]);
    assert SkipRun(s) == s[1..];
    assert Hyphenate(s) == "-pvc-x";
    TrimHyphensExample("-pvc-x");
  }

  lemma HyphenateWordExample(t: string)
    requires t == "pvc! x"
    ensures Hyphenate(t) == "pvc-x"
  {
    HyphenateRunExample(t[3..]);
    assert Hyphenate(t[2..]) == "c-x" by {
      assert t[2..][1..] == t[3..];
    }
    assert Hyphenate(t[1..]) == "vc-x" by {
      assert t[1..][1..] == t[2..];
    }
  }

  lemma HyphenateRunExample(t: string)
    requires t == "! x"
    ensures Hyphenate(t) == "-x"
  {
    assert SkipRun(t[1..]) == t[2..];
    assert Hyphenate(t[2..]) == "x" by {
      assert t[2..][1..] == [];
    }
  }

  lemma TrimHyphensExample(t: string)
    requires t == "-pvc-x"
    ensures TrimHyphens(t) == "pvc-x"
  {
    assert t[1..][|t| - 2] == 'x';
  }
}
