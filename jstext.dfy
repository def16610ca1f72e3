/**
 * The few JavaScript string built-ins the core relies on, stated over Dafny strings
 * (sequences of Unicode scalar values). JavaScript measures strings in UTF-16 code
 * units, so lengths are counted that way where the source compares them.
 */
module JsText {

  // ---------------------------------------------------------------- lengths

  /** Number of UTF-16 code units a character occupies. */
  function CodeUnits(c: char): nat {
    if c as int > 0xFFFF then 2 else 1
  }

  /** String.prototype.length: UTF-16 code units. */
  function JsLength(s: string): (n: nat)
    ensures n >= |s|
    ensures n == 0 <==> s == []
  {
    if |s| == 0 then 0 else CodeUnits(s[0]) + JsLength(s[1..])
  }

  /**
   * s.substring(0, n): the longest prefix that fits in n code units. (JavaScript
   * can cut a surrogate pair in half and keep a lone high surrogate; no Dafny
   * string can hold one, so that character is dropped here.)
   */
  function JsPrefix(s: string, n: nat): (r: string)
    ensures |r| <= |s| && r == s[..|r|]
    ensures JsLength(r) <= n
    ensures r == s || JsLength(r) + CodeUnits(s[|r|]) > n
  {
    if |s| == 0 || CodeUnits(s[0]) > n then []
    else
      var rest := JsPrefix(s[1..], n - CodeUnits(s[0]));
      assert [s[0]] + rest == s[..|rest| + 1];
      [s[0]] + rest
  }

  // ---------------------------------------------------------------- split / join

  /** String.prototype.split with a one-character separator: n separators give n + 1 pieces. */
  function Split(s: string, sep: char): (r: seq<string>)
    ensures |r| >= 1
    ensures forall i :: 0 <= i < |r| ==> sep !in r[i]
  {
    if |s| == 0 then [""]
    else
      var rest := Split(s[1..], sep);
      if s[0] == sep then [""] + rest
      else [[s[0]] + rest[0]] + rest[1..]
  }

  /** Splitting at a separator between a and b splits a and b separately. */
  lemma {:induction false} SplitAppend(a: string, b: string, sep: char)
    ensures Split(a + [sep] + b, sep) == Split(a, sep) + Split(b, sep)
  {
    if |a| == 0 {
      assert a + [sep] + b == [sep] + b;
      assert ([sep] + b)[1..] == b;
    } else {
      assert (a + [sep] + b)[0] == a[0];
      assert (a + [sep] + b)[1..] == a[1..] + [sep] + b;
      SplitAppend(a[1..], b, sep);
    }
  }

  /** Array.prototype.join: the parts in order, the separator between neighbours. */
  function Join(parts: seq<string>, sep: string): (r: string)
    ensures |parts| == 0 ==> r == ""
    ensures |parts| > 0 ==> |r| >= |parts[0]| && r[..|parts[0]|] == parts[0]
  {
    if |parts| == 0 then ""
    else if |parts| == 1 then parts[0]
    else parts[0] + sep + Join(parts[1..], sep)
  }

  /** Joining one more part puts the separator between the joined parts and it. */
  lemma {:induction false} JoinAppend(parts: seq<string>, p: string, sep: string)
    requires |parts| > 0
    ensures Join(parts + [p], sep) == Join(parts, sep) + sep + p
  {
    assert (parts + [p])[0] == parts[0];
    assert (parts + [p])[1..] == parts[1..] + [p];
    if |parts| > 1 {
      JoinAppend(parts[1..], p, sep);
    }
  }

  /** Joining the pieces of a split with the separator gives back the original string. */
  lemma {:induction false} JoinSplit(s: string, sep: char)
    ensures Join(Split(s, sep), [sep]) == s
  {
    if |s| > 0 {
      var rest := Split(s[1..], sep);
      JoinSplit(s[1..], sep);
      assert Join(rest, [sep]) == s[1..];
      if s[0] == sep {
        assert Split(s, sep) == [""] + rest;
        assert ([""] + rest)[1..] == rest;
        assert s == [s[0]] + s[1..];
      } else {
        var parts := Split(s, sep);
        assert parts == [[s[0]] + rest[0]] + rest[1..];
        if |rest| == 1 {
          assert Join(parts, [sep]) == [s[0]] + rest[0];
          assert s == [s[0]] + s[1..];
        } else {
          assert parts[1..] == rest[1..];
          assert Join(parts, [sep]) == ([s[0]] + rest[0]) + [sep] + Join(rest[1..], [sep]);
          assert Join(rest, [sep]) == rest[0] + [sep] + Join(rest[1..], [sep]);
          assert s == [s[0]] + s[1..];
        }
      }
    }
  }

  // ---------------------------------------------------------------- infixes

  /** s contains p (String.prototype.includes). */
  predicate IsInfix(p: string, s: string) {
    exists i, j :: 0 <= i <= j <= |s| && s[i..j] == p
  }

  lemma InfixOfPrepended(p: string, a: string, s: string)
    requires IsInfix(p, s)
    ensures IsInfix(p, a + s)
  {
    var i, j :| 0 <= i <= j <= |s| && s[i..j] == p;
    assert (a + s)[|a| + i..|a| + j] == p;
  }

  lemma InfixOfAppended(p: string, s: string, b: string)
    requires IsInfix(p, s)
    ensures IsInfix(p, s + b)
  {
    var i, j :| 0 <= i <= j <= |s| && s[i..j] == p;
    assert (s + b)[i..j] == p;
  }

  /** Every element of a joined list occurs in the joined string. */
  lemma {:induction false} PartInJoin(parts: seq<string>, sep: string, k: nat)
    requires k < |parts|
    ensures IsInfix(parts[k], Join(parts, sep))
  {
    if |parts| == 1 {
      assert Join(parts, sep)[0..|parts[0]|] == parts[0];
    } else {
      var rest := Join(parts[1..], sep);
      assert Join(parts, sep) == parts[0] + (sep + rest);
      if k == 0 {
        assert (parts[0] + (sep + rest))[0..|parts[0]|] == parts[0];
      } else {
        PartInJoin(parts[1..], sep, k - 1);
        InfixOfPrepended(parts[k], sep, rest);
        InfixOfPrepended(parts[k], parts[0], sep + rest);
      }
    }
  }

  // ---------------------------------------------------------------- trim

  /** The characters String.prototype.trim removes: WhiteSpace and LineTerminator of ECMA-262. */
  predicate IsJsWhitespace(c: char) {
    c == '\t' || c == '\n' || c == '\U{000B}' || c == '\U{000C}' || c == '\r' || c == ' '
    || c == '\U{00A0}' || c == '\U{1680}' || ('\U{2000}' <= c <= '\U{200A}')
    || c == '\U{2028}' || c == '\U{2029}' || c == '\U{202F}' || c == '\U{205F}'
    || c == '\U{3000}' || c == '\U{FEFF}'
  }

  /** The index of the first character of s at or after i that is not whitespace (|s| if none). */
  function SkipLeading(s: string, i: nat): (n: nat)
    requires i <= |s|
    ensures i <= n <= |s|
    ensures forall k :: i <= k < n ==> IsJsWhitespace(s[k])
    ensures n == |s| || !IsJsWhitespace(s[n])
    decreases |s| - i
  {
    if i < |s| && IsJsWhitespace(s[i]) then SkipLeading(s, i + 1) else i
  }

  /** The index just past the last character of s[lo..j] that is not whitespace (lo if none). */
  function SkipTrailing(s: string, lo: nat, j: nat): (m: nat)
    requires lo <= j <= |s|
    ensures lo <= m <= j
    ensures forall k :: m <= k < j ==> IsJsWhitespace(s[k])
    ensures m == lo || !IsJsWhitespace(s[m - 1])
    decreases j
  {
    if j > lo && IsJsWhitespace(s[j - 1]) then SkipTrailing(s, lo, j - 1) else j
  }

  /**
   * String.prototype.trim: the result is the infix of s left after removing the
   * leading and trailing whitespace, and neither of its ends is whitespace.
   */
  function Trim(s: string): (r: string)
    ensures exists i :: StrippedAt(s, r, i)
    ensures r != [] ==> !IsJsWhitespace(r[0]) && !IsJsWhitespace(r[|r| - 1])
  {
    var n := SkipLeading(s, 0);
    var m := SkipTrailing(s, n, |s|);
    assert StrippedAt(s, s[n..m], n);
    s[n..m]
  }

  /** r is the infix of s that starts at i, and everything around it is whitespace. */
  predicate StrippedAt(s: string, r: string, i: int) {
    && 0 <= i <= i + |r| <= |s|
    && r == s[i..i + |r|]
    && (forall k :: 0 <= k < i ==> IsJsWhitespace(s[k]))
    && (forall k :: i + |r| <= k < |s| ==> IsJsWhitespace(s[k]))
  }

  // ---------------------------------------------------------------- case

  /**
   * The character that s.toLowerCase() produces for c, as far as a comparison with a
   * lower-case ASCII word can tell: A-Z fold to a-z and KELVIN SIGN (U+212A) folds to
   * 'k'; every other character lower-cases to something outside a-z.
   */
  function LowerChar(c: char): char {
    if 'A' <= c <= 'Z' then (c as int + 32) as char
    else if c == '\U{212A}' then 'k'
    else c
  }

  /** text.toLowerCase() === word, for a word written in lower-case ASCII letters. */
  predicate LowerEquals(text: string, word: string) {
    |text| == |word| && forall i :: 0 <= i < |text| ==> LowerChar(text[i]) == word[i]
  }

  /**
   * The answers that lower-case to "skip": four characters, each letter in either
   * case, and the Kelvin sign for the "k"; nothing around them is removed.
   */
  lemma SkipSpellings(text: string)
    ensures LowerEquals(text, "skip") <==>
      && |text| == 4
      && (text[0] == 's' || text[0] == 'S')
      && (text[1] == 'k' || text[1] == 'K' || text[1] == '\U{212A}')
      && (text[2] == 'i' || text[2] == 'I')
      && (text[3] == 'p' || text[3] == 'P')
  {
    forall c: char
      ensures (LowerChar(c) == 's' <==> c == 's' || c == 'S')
      ensures (LowerChar(c) == 'k' <==> c == 'k' || c == 'K' || c == '\U{212A}')
      ensures (LowerChar(c) == 'i' <==> c == 'i' || c == 'I')
      ensures (LowerChar(c) == 'p' <==> c == 'p' || c == 'P')
    {
    }
  }
}
